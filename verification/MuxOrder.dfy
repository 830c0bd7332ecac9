/** In what order a multiplexed connection hands out its channels and answers its pings, in
    every run (relay/ctrlconn.go:63-69, 157-161, 196-206). */
module MuxOrder {
  import opened Basics
  import opened ChannelEnd
  import opened Direction
  import opened Link
  import opened Mux

  /** The channels whose open request is among the frames. */
  function News(items: seq<Item>): seq<nat> {
    if items == [] then []
    else (if items[0].OnChannel? && items[0].m.New? then [items[0].id] else []) + News(items[1..])
  }

  function Pings(items: seq<Item>): seq<seq<byte>> {
    if items == [] then [] else (if items[0].Ping? then [items[0].payload] else []) + Pings(items[1..])
  }

  function Pongs(items: seq<Item>): seq<seq<byte>> {
    if items == [] then [] else (if items[0].Pong? then [items[0].payload] else []) + Pongs(items[1..])
  }

  lemma {:induction false} NewsConcat(a: seq<Item>, b: seq<Item>)
    ensures News(a + b) == News(a) + News(b)
  {
    if a == [] {
      assert a + b == b;
    } else {
      assert (a + b)[1..] == a[1..] + b;
      NewsConcat(a[1..], b);
    }
  }

  lemma {:induction false} PingsConcat(a: seq<Item>, b: seq<Item>)
    ensures Pings(a + b) == Pings(a) + Pings(b)
  {
    if a == [] {
      assert a + b == b;
    } else {
      assert (a + b)[1..] == a[1..] + b;
      PingsConcat(a[1..], b);
    }
  }

  lemma {:induction false} PongsConcat(a: seq<Item>, b: seq<Item>)
    ensures Pongs(a + b) == Pongs(a) + Pongs(b)
  {
    if a == [] {
      assert a + b == b;
    } else {
      assert (a + b)[1..] == a[1..] + b;
      PongsConcat(a[1..], b);
    }
  }

  /** The requests that a step sends: OpenChannel's frame, on a connection that is up. */
  function Requests(m: Mux, step: MuxStep): seq<nat> {
    if step.Run? && step.side == Server && step.step == OnCtl(SendNew) && m.up then [step.id] else []
  }

  /** What AcceptChannel hands out: the channel that the user gets in this step. */
  function Accepts(m: Mux, step: MuxStep): seq<nat>
    requires CanMux(m, step)
  {
    if step.AcceptChannel? then [m.queue[0]] else []
  }

  function RequestedIn(m: Mux, steps: seq<MuxStep>): seq<nat>
    decreases |steps|
  {
    if steps == [] || !CanMux(m, steps[0]) then []
    else Requests(m, steps[0]) + RequestedIn(MuxNext(m, steps[0]), steps[1..])
  }

  function AcceptedIn(m: Mux, steps: seq<MuxStep>): seq<nat>
    decreases |steps|
  {
    if steps == [] || !CanMux(m, steps[0]) then []
    else Accepts(m, steps[0]) + AcceptedIn(MuxNext(m, steps[0]), steps[1..])
  }

  /** The channels asked for and not accepted, oldest first: queued, about to be, and on the wire. */
  function Expected(m: Mux): seq<nat> {
    m.queue + (if m.blocked.Some? then [m.blocked.value] else []) + News(m.wires.server)
  }

  lemma RunExpects(m: Mux, step: MuxStep)
    requires MuxInv(m) && CanMux(m, step) && step.Run?
    ensures Expected(m) + Requests(m, step) == Expected(MuxNext(m, step))
  {
    var e := m.ends.Of(step.side)[step.id];
    var out := Local(e, step.step, m.up).out;
    RunSends(m, step);
    NewsConcat(m.wires.Of(step.side), Items(step.id, out));
    Pieces(m.queue + (if m.blocked.Some? then [m.blocked.value] else []), News(m.wires.server), Requests(m, step));
    hide News, Local, Enabled, MuxInv;
  }

  /** Only SendNew at the server puts a request on the wire. */
  lemma RunSends(m: Mux, step: MuxStep)
    requires MuxInv(m) && CanMux(m, step) && step.Run?
    ensures var out := Local(m.ends.Of(step.side)[step.id], step.step, m.up).out;
            News(Items(step.id, out)) == Requests(m, step) && Pings(Items(step.id, out)) == [] && Pongs(Items(step.id, out)) == []
  {
    hide Local, Enabled, LinkInv, EndInv;
    var l, e := Project(m, step.id), m.ends.Of(step.side)[step.id];
    assert LinkInv(l) && l.ends.Of(step.side) == e;
    if step.step == OnCtl(SendNew) {
      OpenerSends(l, step.side);
    } else {
      OthersSendNoNew(e, step.step, m.up);
    }
    hide MuxInv, Project;
    OneItem(step.id, Local(e, step.step, m.up).out);
  }

  lemma OneItem(id: nat, out: seq<Message>)
    requires |out| <= 1
    ensures News(Items(id, out)) == (if out != [] && out[0].New? then [id] else [])
    ensures Pings(Items(id, out)) == [] && Pongs(Items(id, out)) == []
  {
    assert |out| == 1 ==> Items(id, out) == [OnChannel(id, out[0])] && Items(id, out)[1..] == [];
  }

  lemma OpenerSends(l: Link, side: Side)
    requires LinkInv(l) && Enabled(l.ends.Of(side), OnCtl(SendNew))
    ensures side == Server
    ensures var e := l.ends.server; Local(e, OnCtl(SendNew), l.up).out == if l.up then [New(e.life.opening.value)] else []
  {
    hide EndInv, DirInv;
  }

  lemma OthersSendNoNew(e: End, st: Step, up: bool)
    requires Enabled(e, st) && st != OnCtl(SendNew)
    ensures var out := Local(e, st, up).out; |out| <= 1 && (out != [] ==> !out[0].New?)
  {
  }

  /** What the reading of one frame does to the queue and to the wires. */
  lemma ReadLeaves(m: Mux, s: Side)
    requires CanMux(m, ReadItem(s))
    ensures var w, next, r := m.wires.Of(s), ReadItemNext(m, s), s.Other();
            && next.queue == m.queue
            && next.blocked == (if w[0].OnChannel? && w[0].m.New? then Some(w[0].id) else m.blocked)
            && next.wires.Of(s) == w[1..]
            && next.wires.Of(r) == m.wires.Of(r) + if w[0].Ping? && m.up then [Pong(w[0].payload)] else []
  {
    hide EndAt, NewEnd;
    assert m.wires.Of(s.Other()) + [] == m.wires.Of(s.Other());
  }

  lemma ReadExpects(m: Mux, s: Side)
    requires MuxInv(m) && CanMux(m, ReadItem(s))
    ensures Expected(ReadItemNext(m, s)) == Expected(m)
  {
    var w, back := m.wires.Of(s), m.wires.Of(s.Other());
    var pong := if w[0].Ping? && m.up then [Pong(w[0].payload)] else [];
    ReadLeaves(m, s);
    NewsConcat(back, pong);
    NewsHead(w);
    hide MuxInv, ReadItemNext;
    assert News(pong) == [];
    hide News;
    assert News(back) + [] == News(back);
    if w[0].OnChannel? && w[0].m.New? {
      RequestIsFromServer(m, s);
      assert m.queue + [] + ([w[0].id] + News(w[1..])) == m.queue + [w[0].id] + News(w[1..]);
    }
  }

  lemma NewsHead(w: seq<Item>)
    requires w != []
    ensures News(w) == if w[0].OnChannel? && w[0].m.New? then [w[0].id] + News(w[1..]) else News(w[1..])
  {
  }

  lemma RequestIsFromServer(m: Mux, s: Side)
    requires MuxInv(m) && CanMux(m, ReadItem(s)) && m.wires.Of(s)[0].OnChannel? && m.wires.Of(s)[0].m.New?
    ensures s == Server
  {
    hide LinkInv, Filter;
    var id := m.wires.Of(s)[0].id;
    FilterHead(m.wires.Of(s), id);
    NewIsFirst(Project(m, id), s);
  }

  lemma PingExpects(m: Mux, side: Side, p: seq<byte>)
    requires CanMux(m, SendPing(side, p))
    ensures Expected(MuxNext(m, SendPing(side, p))) == Expected(m)
  {
    NewsConcat(m.wires.Of(side), [Ping(p)]);
    assert News([Ping(p)]) == [];
    hide News;
    assert News(m.wires.server) + [] == News(m.wires.server);
  }

  lemma AcceptExpects(m: Mux)
    requires CanMux(m, AcceptChannel)
    ensures Expected(m) == [m.queue[0]] + Expected(MuxNext(m, AcceptChannel))
  {
    hide News, EndAt;
    assert m.queue == [m.queue[0]] + m.queue[1..];
  }

  lemma OtherExpects(m: Mux, step: MuxStep)
    requires CanMux(m, step)
    requires !step.Run? && !step.ReadItem? && !step.SendPing? && !step.AcceptChannel?
    ensures Expected(MuxNext(m, step)) == Expected(m)
  {
    hide Local, Receive, Enabled, CanReceive, News, EndAt;
  }

  lemma StepExpects(m: Mux, step: MuxStep)
    requires MuxInv(m) && CanMux(m, step)
    ensures Expected(m) + Requests(m, step) == Accepts(m, step) + Expected(MuxNext(m, step))
  {
    hide MuxInv, Expected, ReadItemNext;
    match step
    case Run(_, _, _) =>
      hide MuxNext;
      RunExpects(m, step);
    case ReadItem(s) => ReadExpects(m, s);
    case SendPing(side, p) =>
      hide MuxNext;
      PingExpects(m, side, p);
    case AcceptChannel =>
      hide MuxNext;
      AcceptExpects(m);
    case _ =>
      hide MuxNext;
      OtherExpects(m, step);
  }

  /** Every channel whose request was sent is accepted, waits to be, or has its request on the
      wire; and they are accepted in the order in which the requests were sent. */
  lemma {:induction false} AcceptedInOrder(m: Mux, steps: seq<MuxStep>, m': Mux)
    requires MuxInv(m) && IsMuxRun(m, steps, m')
    ensures Expected(m) + RequestedIn(m, steps) == AcceptedIn(m, steps) + Expected(m')
    decreases |steps|
  {
    hide MuxInv, CanMux, MuxNext, Expected, Requests, Accepts;
    if steps != [] {
      var next := MuxNext(m, steps[0]);
      StepExpects(m, steps[0]);
      StepKeepsMux(m, steps[0]);
      AcceptedInOrder(next, steps[1..], m');
      Pieces(Expected(m), Requests(m, steps[0]), RequestedIn(next, steps[1..]));
      Pieces(Accepts(m, steps[0]), Expected(next), RequestedIn(next, steps[1..]));
      Pieces(Accepts(m, steps[0]), AcceptedIn(next, steps[1..]), Expected(m'));
    }
  }

  /** The pings of a side that its peer has not read, and the answers it has not read itself,
      oldest first. */
  function Unanswered(m: Mux, side: Side): seq<seq<byte>> {
    Pongs(m.wires.Of(side.Other())) + Pings(m.wires.Of(side))
  }

  function PingedIn(m: Mux, steps: seq<MuxStep>, side: Side): seq<seq<byte>>
    decreases |steps|
  {
    if steps == [] || !CanMux(m, steps[0]) then []
    else (if steps[0].SendPing? && steps[0].side == side then [steps[0].payload] else [])
         + PingedIn(MuxNext(m, steps[0]), steps[1..], side)
  }

  /** The answers that the read loop of a side reads. */
  function Answers(m: Mux, step: MuxStep, side: Side): seq<seq<byte>>
    requires CanMux(m, step)
  {
    if step == ReadItem(side.Other()) && m.wires.Of(side.Other())[0].Pong?
    then [m.wires.Of(side.Other())[0].payload] else []
  }

  function AnsweredIn(m: Mux, steps: seq<MuxStep>, side: Side): seq<seq<byte>>
    decreases |steps|
  {
    if steps == [] || !CanMux(m, steps[0]) then []
    else Answers(m, steps[0], side) + AnsweredIn(MuxNext(m, steps[0]), steps[1..], side)
  }

  lemma SameWires(m: Mux, m': Mux, side: Side)
    requires m'.wires == m.wires
    ensures Unanswered(m', side) == Unanswered(m, side)
  {
  }

  lemma RunAnswers(m: Mux, step: MuxStep, side: Side)
    requires MuxInv(m) && CanMux(m, step) && step.Run?
    ensures Unanswered(MuxNext(m, step), side) == Unanswered(m, side)
  {
    var items := Items(step.id, Local(m.ends.Of(step.side)[step.id], step.step, m.up).out);
    RunSends(m, step);
    PingsConcat(m.wires.Of(step.side), items);
    PongsConcat(m.wires.Of(step.side), items);
    hide MuxInv, Local, Enabled, Pings, Pongs;
    assert Pings(m.wires.Of(side)) + [] == Pings(m.wires.Of(side));
    assert Pongs(m.wires.Of(side.Other())) + [] == Pongs(m.wires.Of(side.Other()));
  }

  lemma PingAnswers(m: Mux, s: Side, p: seq<byte>, side: Side)
    requires CanMux(m, SendPing(s, p))
    ensures Unanswered(m, side) + (if s == side then [p] else []) == Unanswered(MuxNext(m, SendPing(s, p)), side)
  {
    PingsConcat(m.wires.Of(s), [Ping(p)]);
    PongsConcat(m.wires.Of(s), [Ping(p)]);
    assert Pings([Ping(p)]) == [p] && Pongs([Ping(p)]) == [];
    hide Pings, Pongs;
    assert Pongs(m.wires.Of(side.Other())) + [] == Pongs(m.wires.Of(side.Other()));
  }

  /** KeepAlive's pings carry a timestamp of 8 bytes. */
  lemma PingLength(m: Mux, s: Side, p: seq<byte>)
    ensures CanMux(m, SendPing(s, p)) <==> m.up && |p| == 8
  {
  }

  /** What comes off the front of a wire. */
  lemma HeadOff(w: seq<Item>)
    requires w != []
    ensures Pings(w) == (if w[0].Ping? then [w[0].payload] else []) + Pings(w[1..])
    ensures Pongs(w) == (if w[0].Pong? then [w[0].payload] else []) + Pongs(w[1..])
  {
  }

  lemma ReadAnswers(m: Mux, s: Side, side: Side)
    requires CanMux(m, ReadItem(s)) && m.up
    ensures Unanswered(m, side) == Answers(m, ReadItem(s), side) + Unanswered(ReadItemNext(m, s), side)
  {
    var head, back := m.wires.Of(s)[0], m.wires.Of(s.Other());
    var pong := if head.Ping? then [Pong(head.payload)] else [];
    HeadOff(m.wires.Of(s));
    PingsConcat(back, pong);
    PongsConcat(back, pong);
    assert Pings(pong) == [] && Pongs(pong) == if head.Ping? then [head.payload] else [];
    ReadLeaves(m, s);
    hide Pings, Pongs, ReadItemNext, CanMux;
    assert Pings(back) + [] == Pings(back) && Pongs(back) + [] == Pongs(back);
    if s == side {
      Pieces(Pongs(back), Pongs(pong), Pings(m.wires.Of(s)[1..]));
    } else {
      Pieces(Answers(m, ReadItem(s), side), Pongs(m.wires.Of(s)[1..]), Pings(back));
    }
  }

  lemma StepAnswers(m: Mux, step: MuxStep, side: Side)
    requires MuxInv(m) && CanMux(m, step) && m.up
    ensures Unanswered(m, side) + (if step.SendPing? && step.side == side then [step.payload] else []) ==
              Answers(m, step, side) + Unanswered(MuxNext(m, step), side)
  {
    hide MuxInv, Unanswered;
    match step
    case Run(_, _, _) => RunAnswers(m, step, side);
    case ReadItem(s) =>
      ReadAnswers(m, s, side);
      hide ReadItemNext;
    case SendPing(s, p) => PingAnswers(m, s, p, side);
    case _ =>
      SameWires(m, MuxNext(m, step), side);
      hide Local, Receive, Enabled, CanReceive;
  }

  /** While the connection is up, every ping is answered by a pong with its payload, in order:
      what a side has sent is what it has got back and what is still under way. */
  lemma {:induction false} PingsAreAnswered(m: Mux, steps: seq<MuxStep>, m': Mux, side: Side)
    requires MuxInv(m) && IsMuxRun(m, steps, m') && m.up && LinkDown !in steps
    ensures Unanswered(m, side) + PingedIn(m, steps, side) == AnsweredIn(m, steps, side) + Unanswered(m', side)
    decreases |steps|
  {
    hide MuxInv, Unanswered, Answers, CanMux;
    if steps != [] {
      var next := MuxNext(m, steps[0]);
      StepAnswers(m, steps[0], side);
      StepKeepsMux(m, steps[0]);
      StaysUp(m, steps[0]);
      hide MuxNext;
      PingsAreAnswered(next, steps[1..], m', side);
      var ping := if steps[0].SendPing? && steps[0].side == side then [steps[0].payload] else [];
      Pieces(Unanswered(m, side), ping, PingedIn(next, steps[1..], side));
      Pieces(Answers(m, steps[0], side), Unanswered(next, side), PingedIn(next, steps[1..], side));
      Pieces(Answers(m, steps[0], side), AnsweredIn(next, steps[1..], side), Unanswered(m', side));
    }
  }

  lemma StaysUp(m: Mux, step: MuxStep)
    requires CanMux(m, step) && m.up && step != LinkDown
    ensures MuxNext(m, step).up
  {
    hide Local, Receive, Enabled, CanReceive;
  }

  /** A read loop that waits for room in the queue reads nothing: what is on its wire stays there,
      in front of what is added, until the waiting channel is queued. */
  lemma BlockedLoopReadsNothing(m: Mux, step: MuxStep)
    requires MuxInv(m) && CanMux(m, step) && m.blocked.Some? && step != Enqueue
    ensures MuxNext(m, step).blocked == m.blocked && m.wires.server <= MuxNext(m, step).wires.server
    ensures m.hands.server.None? ==> MuxNext(m, step).hands.server.None?
  {
    if step.ReadItem? && m.wires.Of(step.sender)[0].OnChannel? && m.wires.Of(step.sender)[0].m.New? {
      RequestIsFromServer(m, step.sender);
    }
    hide Local, Receive, Enabled, CanReceive, EndAt, Items, MuxInv;
  }
}
