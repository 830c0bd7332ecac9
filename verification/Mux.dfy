/** Two control connections and the two ordered wires between them, with any number of channels
    (relay/ctrlconn.go). Projected on one channel id, every run is a run of a channel on its
    own, so each channel has all the properties of module ChannelTheorems. */
module Mux {
  import opened Basics
  import opened ChannelEnd
  import opened Direction
  import opened Link

  const ACCEPT_QUEUE := 64
  const PING_LENGTH := 8   // KeepAlive sends a timestamp

  datatype Item = OnChannel(id: nat, m: Message) | Ping(payload: seq<byte>) | Pong(payload: seq<byte>)

  datatype Held = Held(id: nat, m: Message)

  /** `ends` has every channel object ever made; an object is in the channel map when its
      `life.live` is set. `queue` is the client's `newCh`, and `blocked` a channel its read loop
      waits to put there. `opens` counts the calls of OpenChannel. */
  datatype Mux = Mux(ends: Pair<map<nat, End>>, hands: Pair<Option<Held>>, wires: Pair<seq<Item>>,
                     closing: Pair<bool>, up: bool,
                     queue: seq<nat>, blocked: Option<nat>, nextID: nat, opens: nat)

  const START := Mux(Pair(map[], map[]), Pair(None, None), Pair([], []), Pair(false, false), true, [], None, 1, 0)

  datatype MuxStep =
    | OpenChannel(target: seq<byte>)
    | Run(side: Side, id: nat, step: Step)
    | ReadItem(sender: Side)
    | Handle(sender: Side)
    | Enqueue
    | AcceptChannel
    | SendPing(side: Side, payload: seq<byte>)
    | StartClose(side: Side)
    | LinkDown

  function EndAt(m: Mux, side: Side, id: nat): End {
    if id in m.ends.Of(side) then m.ends.Of(side)[id] else UNMADE
  }

  function PutEnd(m: Mux, side: Side, id: nat, e: End): Mux {
    m.(ends := m.ends.With(side, m.ends.Of(side)[id := e]))
  }

  function Items(id: nat, ms: seq<Message>): seq<Item> {
    seq(|ms|, i requires 0 <= i < |ms| => OnChannel(id, ms[i]))
  }

  predicate CanMux(m: Mux, step: MuxStep) {
    match step
    case OpenChannel(target) => m.opens < UINT32 && |target| <= MAX_TARGET
    case Run(side, id, st) =>
      id in m.ends.Of(side) && Enabled(m.ends.Of(side)[id], st) && (st == OnCtl(Teardown) ==> m.closing.Of(side))
    case ReadItem(s) => m.hands.Of(s).None? && m.wires.Of(s) != [] && (s == Server ==> m.blocked.None?)
    case Handle(s) =>
      m.hands.Of(s).Some? && CanReceive(EndAt(m, s.Other(), m.hands.Of(s).value.id), m.hands.Of(s).value.m)
    case Enqueue => m.blocked.Some? && |m.queue| < ACCEPT_QUEUE
    case AcceptChannel => m.queue != [] && !EndAt(m, Client, m.queue[0]).life.usable
    case SendPing(_, p) => m.up && |p| == PING_LENGTH
    case StartClose(_) => true
    case LinkDown => true
  }

  /** readLoop and handleFrame up to the lookup in the channel map. */
  function ReadItemNext(m: Mux, s: Side): Mux
    requires CanMux(m, ReadItem(s))
  {
    var r, rest := s.Other(), m.(wires := m.wires.With(s, m.wires.Of(s)[1..]));
    match m.wires.Of(s)[0]
    case Ping(p) => if m.up then rest.(wires := rest.wires.With(r, rest.wires.Of(r) + [Pong(p)])) else rest
    case Pong(_) => rest
    case OnChannel(id, New(_)) => PutEnd(rest, r, id, NewEnd(None)).(blocked := Some(id))
    case OnChannel(id, msg) =>
      if EndAt(m, r, id).life.live then rest.(hands := rest.hands.With(s, Some(Held(id, msg)))) else rest
  }

  function MuxNext(m: Mux, step: MuxStep): Mux
    requires CanMux(m, step)
  {
    match step
    case OpenChannel(target) =>
      PutEnd(m, Server, m.nextID, NewEnd(Some(target))).(nextID := (m.nextID + 1) % UINT32, opens := m.opens + 1)
    case Run(side, id, st) =>
      var o := Local(m.ends.Of(side)[id], st, m.up);
      PutEnd(m, side, id, o.end).(wires := m.wires.With(side, m.wires.Of(side) + Items(id, o.out)))
    case ReadItem(s) => ReadItemNext(m, s)
    case Handle(s) =>
      var h, r := m.hands.Of(s).value, s.Other();
      PutEnd(m, r, h.id, Receive(EndAt(m, r, h.id), h.m)).(hands := m.hands.With(s, None))
    case Enqueue => m.(blocked := None, queue := m.queue + [m.blocked.value])
    case AcceptChannel =>
      var e := EndAt(m, Client, m.queue[0]);
      PutEnd(m, Client, m.queue[0], e.(life := e.life.(usable := true))).(queue := m.queue[1..])
    case SendPing(side, p) => m.(wires := m.wires.With(side, m.wires.Of(side) + [Ping(p)]))
    case StartClose(side) => m.(closing := m.closing.With(side, true))
    case LinkDown => m.(up := false)
  }

  /** The frames of one channel, in wire order. */
  function Filter(items: seq<Item>, id: nat): seq<Message> {
    if items == [] then []
    else (if items[0].OnChannel? && items[0].id == id then [items[0].m] else []) + Filter(items[1..], id)
  }

  function HandOf(h: Option<Held>, id: nat): Option<Message> {
    if h.Some? && h.value.id == id then Some(h.value.m) else None
  }

  /** What a mux state is for one channel. */
  function Project(m: Mux, id: nat): Link {
    Link(Pair(EndAt(m, Server, id), EndAt(m, Client, id)),
         Pair(HandOf(m.hands.server, id), HandOf(m.hands.client, id)),
         Pair(Filter(m.wires.server, id), Filter(m.wires.client, id)),
         m.closing, m.up)
  }

  lemma {:induction false} FilterConcat(a: seq<Item>, b: seq<Item>, id: nat)
    ensures Filter(a + b, id) == Filter(a, id) + Filter(b, id)
  {
    if a == [] {
      assert a + b == b;
    } else {
      assert (a + b)[1..] == a[1..] + b;
      FilterConcat(a[1..], b, id);
    }
  }

  lemma {:induction false} FilterItems(ms: seq<Message>, channel: nat, id: nat)
    ensures Filter(Items(channel, ms), id) == if id == channel then ms else []
  {
    if ms != [] {
      assert Items(channel, ms)[1..] == Items(channel, ms[1..]);
      FilterItems(ms[1..], channel, id);
    }
  }

  /** The place of an id in the order in which nextID hands ids out. */
  function Serial(id: nat): nat {
    (id + UINT32 - 1) % UINT32
  }

  ghost predicate AllMade(ends: map<nat, End>) {
    forall id :: id in ends ==> ends[id].life.made
  }

  /** The ids in use are the ones handed out, and the accept queue has the client's channels
      that wait for AcceptChannel. */
  ghost predicate IdInv(m: Mux) {
    && m.nextID == (1 + m.opens) % UINT32 && m.opens <= UINT32
    && (forall id :: id in m.ends.server ==> id < UINT32 && Serial(id) < m.opens)
    && AllMade(m.ends.server) && AllMade(m.ends.client)
  }

  ghost predicate PingInv(items: seq<Item>) {
    forall item :: item in items ==> (item.Ping? || item.Pong? ==> |item.payload| == PING_LENGTH)
  }

  ghost predicate Waits(m: Mux, id: nat) {
    m.blocked == Some(id) || id in m.queue
  }

  ghost predicate QueueInv(m: Mux) {
    && (forall i, j :: 0 <= i < j < |m.queue| ==> m.queue[i] != m.queue[j])
    && (m.blocked.Some? ==> m.blocked.value !in m.queue)
    && |m.queue| <= ACCEPT_QUEUE
    && (forall id :: id in m.ends.client && !m.ends.client[id].life.usable <==> Waits(m, id))
  }

  ghost predicate MuxInv(m: Mux) {
    && IdInv(m) && QueueInv(m) && PingInv(m.wires.server) && PingInv(m.wires.client)
    && forall id :: LinkInv(Project(m, id))
  }

  /** The step of channel `id` in a step of the mux; None when the channel does not move. */
  function Seen(m: Mux, step: MuxStep, id: nat): Option<LinkStep>
    requires CanMux(m, step)
  {
    match step
    case OpenChannel(target) => if id == m.nextID then Some(Make(target)) else None
    case Run(side, channel, st) => if id == channel then Some(At(side, st)) else None
    case ReadItem(s) =>
      if m.wires.Of(s)[0].OnChannel? && m.wires.Of(s)[0].id == id then Some(Lookup(s)) else None
    case Handle(s) => if m.hands.Of(s).value.id == id then Some(Deliver(s)) else None
    case AcceptChannel => if id == m.queue[0] then Some(Accept) else None
    case StartClose(side) => Some(BeginClose(side))
    case LinkDown => Some(Cut)
    case Enqueue => None
    case SendPing(_, _) => None
  }

  /** The id that OpenChannel takes is not in use on either side. */
  lemma NextIdIsFresh(m: Mux)
    requires MuxInv(m) && m.opens < UINT32
    ensures m.nextID !in m.ends.server && m.nextID !in m.ends.client
  {
    hide DirInv, EndInv;
    assert Serial(m.nextID) == m.opens;
    assert LinkInv(Project(m, m.nextID));
  }

  lemma RunIsSeen(m: Mux, step: MuxStep, id: nat)
    requires CanMux(m, step) && step.Run?
    ensures Refines(m, step, id)
  {
    hide Local, Enabled, Filter, Items;
    var o := Local(m.ends.Of(step.side)[step.id], step.step, m.up);
    FilterConcat(m.wires.Of(step.side), Items(step.id, o.out), id);
    FilterItems(o.out, step.id, id);
    assert Filter(m.wires.Of(step.side), id) + [] == Filter(m.wires.Of(step.side), id);
  }

  /** Seen by channel `id`, the step is one of its own steps or does not happen. */
  ghost predicate Refines(m: Mux, step: MuxStep, id: nat)
    requires CanMux(m, step)
  {
    var l, l', seen := Project(m, id), Project(MuxNext(m, step), id), Seen(m, step, id);
    if seen.None? then l' == l else CanStep(l, seen.value) && l' == Next(l, seen.value)
  }

  lemma ReadPingIsSeen(m: Mux, step: MuxStep, id: nat)
    requires CanMux(m, step) && step.ReadItem? && !m.wires.Of(step.sender)[0].OnChannel?
    ensures Refines(m, step, id)
  {
    var s, r := step.sender, step.sender.Other();
    assert Filter(m.wires.Of(s), id) == Filter(m.wires.Of(s)[1..], id);
    if m.wires.Of(s)[0].Ping? {
      var pong := [Pong(m.wires.Of(s)[0].payload)];
      FilterConcat(m.wires.Of(r), pong, id);
      assert Filter(pong, id) == [];
      assert Filter(m.wires.Of(r), id) + [] == Filter(m.wires.Of(r), id);
    }
  }

  lemma FilterHead(items: seq<Item>, id: nat)
    requires items != [] && items[0].OnChannel?
    ensures items[0].id == id ==> Filter(items, id) != [] && Filter(items, id)[0] == items[0].m
                                  && Filter(items, id)[1..] == Filter(items[1..], id)
    ensures items[0].id != id ==> Filter(items, id) == Filter(items[1..], id)
  {
  }

  lemma ReadNewIsSeen(m: Mux, step: MuxStep, id: nat)
    requires CanMux(m, step) && step.ReadItem? && m.wires.Of(step.sender)[0].OnChannel? && m.wires.Of(step.sender)[0].m.New?
    ensures Refines(m, step, id)
  {
    hide Filter, Local, Enabled, Receive, CanReceive, NewEnd;
    FilterHead(m.wires.Of(step.sender), id);
  }

  lemma ReadOtherIsSeen(m: Mux, step: MuxStep, id: nat)
    requires CanMux(m, step) && step.ReadItem? && m.wires.Of(step.sender)[0].OnChannel? && !m.wires.Of(step.sender)[0].m.New?
    ensures Refines(m, step, id)
  {
    hide Filter, Local, Enabled, Receive, CanReceive, NewEnd;
    FilterHead(m.wires.Of(step.sender), id);
  }

  lemma PingIsSeen(m: Mux, side: Side, payload: seq<byte>, id: nat)
    requires CanMux(m, SendPing(side, payload))
    ensures Refines(m, SendPing(side, payload), id)
  {
    FilterConcat(m.wires.Of(side), [Ping(payload)], id);
    assert Filter(m.wires.Of(side), id) + [] == Filter(m.wires.Of(side), id);
  }

  lemma HandleIsSeen(m: Mux, s: Side, id: nat)
    requires CanMux(m, Handle(s))
    ensures Refines(m, Handle(s), id)
  {
    hide Filter, Receive, CanReceive, Enabled;
  }

  lemma OtherIsSeen(m: Mux, step: MuxStep, id: nat)
    requires CanMux(m, step) && !step.ReadItem? && !step.Run? && !step.SendPing? && !step.Handle?
    requires step.OpenChannel? ==> m.nextID !in m.ends.server
    requires step.AcceptChannel? ==> EndAt(m, Client, m.queue[0]).life.made
    ensures Refines(m, step, id)
  {
    hide Filter, Enabled, Local, Receive, CanReceive;
  }

  /** The simulation: whatever the mux does, each channel sees its own step or nothing. */
  lemma StepIsSeen(m: Mux, step: MuxStep, id: nat)
    requires MuxInv(m) && CanMux(m, step)
    ensures Refines(m, step, id)
  {
    hide Refines, Project, MuxNext;
    match step
    case Run(_, _, _) => RunIsSeen(m, step, id);
    case ReadItem(s) =>
      if m.wires.Of(s)[0].OnChannel? {
        if m.wires.Of(s)[0].m.New? {
          ReadNewIsSeen(m, step, id);
        } else {
          ReadOtherIsSeen(m, step, id);
        }
      } else {
        ReadPingIsSeen(m, step, id);
      }
    case SendPing(side, payload) => PingIsSeen(m, side, payload, id);
    case Handle(s) => HandleIsSeen(m, s, id);
    case _ =>
      if step.OpenChannel? {
        NextIdIsFresh(m);
      }
      OtherIsSeen(m, step, id);
  }

  lemma StepKeepsLinks(m: Mux, step: MuxStep, id: nat)
    requires MuxInv(m) && CanMux(m, step)
    ensures LinkInv(Project(MuxNext(m, step), id))
  {
    hide Project, MuxNext, LinkInv, CanStep, Next;
    StepIsSeen(m, step, id);
    assert LinkInv(Project(m, id));
    var seen := Seen(m, step, id);
    if seen.Some? {
      StepKeepsInv(Project(m, id), seen.value);
    }
  }

  /** What the invariant of one channel says for the ids and the accept queue. */
  lemma LifeFacts(m: Mux, id: nat)
    requires MuxInv(m)
    ensures id in m.ends.client ==> id in m.ends.server && m.ends.client[id].life.opening.None?
    ensures m.hands.server.Some? && m.hands.server.value.id == id ==> !m.hands.server.value.m.New? && id in m.ends.client
    ensures m.hands.client.Some? && m.hands.client.value.id == id ==> id in m.ends.server
    ensures m.wires.client != [] && m.wires.client[0].OnChannel? && m.wires.client[0].id == id ==> !m.wires.client[0].m.New?
    ensures m.wires.server != [] && m.wires.server[0].OnChannel? && m.wires.server[0].id == id && m.wires.server[0].m.New? ==>
              id in m.ends.server && id !in m.ends.client
  {
    hide DirInv;
    var l := Project(m, id);
    assert LinkInv(l);
    EndInvLive(l.ends.server);
    EndInvLive(l.ends.client);
    if m.wires.client != [] && m.wires.client[0].OnChannel? && m.wires.client[0].id == id && m.wires.client[0].m.New? {
      NewIsFirst(l, Client);
    }
    if m.wires.server != [] && m.wires.server[0].OnChannel? && m.wires.server[0].id == id && m.wires.server[0].m.New? {
      NewIsFirst(l, Server);
    }
  }

  lemma ReadItemKeepsIds(m: Mux, s: Side)
    requires MuxInv(m) && CanMux(m, ReadItem(s))
    ensures IdInv(MuxNext(m, ReadItem(s))) && QueueInv(MuxNext(m, ReadItem(s)))
  {
    hide LinkInv, Local, Receive;
    var item, m' := m.wires.Of(s)[0], MuxNext(m, ReadItem(s));
    if item.OnChannel? && item.m.New? {
      LifeFacts(m, item.id);
      assert s == Server && !Waits(m, item.id);
      assert m'.ends.server == m.ends.server && m'.ends.client == m.ends.client[item.id := NewEnd(None)];
    } else {
      assert m'.ends == m.ends && m'.queue == m.queue && m'.blocked == m.blocked;
    }
  }

  lemma RunKeepsIds(m: Mux, side: Side, id: nat, st: Step)
    requires MuxInv(m) && CanMux(m, Run(side, id, st))
    ensures IdInv(MuxNext(m, Run(side, id, st)))
  {
    RunLife(m, side, id, st);
    hide LinkInv, QueueInv, PingInv, Local, Enabled;
  }

  lemma HandleKeepsIds(m: Mux, s: Side)
    requires MuxInv(m) && CanMux(m, Handle(s))
    ensures IdInv(MuxNext(m, Handle(s)))
  {
    LifeFacts(m, m.hands.Of(s).value.id);
    ReceiveLife(EndAt(m, s.Other(), m.hands.Of(s).value.id), m.hands.Of(s).value.m);
    hide LinkInv, QueueInv, PingInv, Receive, CanReceive;
  }

  lemma AcceptKeepsIds(m: Mux)
    requires MuxInv(m) && CanMux(m, AcceptChannel)
    ensures IdInv(MuxNext(m, AcceptChannel))
  {
    hide LinkInv, PingInv;
    assert Waits(m, m.queue[0]);
  }

  lemma StepKeepsIds(m: Mux, step: MuxStep)
    requires MuxInv(m) && CanMux(m, step)
    ensures IdInv(MuxNext(m, step))
  {
    match step
    case Run(side, id, st) =>
      hide MuxInv, MuxNext, CanMux;
      RunKeepsIds(m, side, id, st);
    case ReadItem(s) =>
      hide MuxInv, MuxNext, CanMux;
      ReadItemKeepsIds(m, s);
    case Handle(s) =>
      hide MuxInv, MuxNext, CanMux;
      HandleKeepsIds(m, s);
    case AcceptChannel =>
      hide MuxInv, MuxNext, CanMux;
      AcceptKeepsIds(m);
    case _ =>
      hide LinkInv, QueueInv, PingInv;
      assert step.OpenChannel? ==> Serial(m.nextID) == m.opens;
  }

  lemma ReceiveLife(e: End, m: Message)
    requires CanReceive(e, m)
    ensures Receive(e, m).life == e.life
  {
  }

  lemma RunLife(m: Mux, side: Side, id: nat, st: Step)
    requires MuxInv(m) && CanMux(m, Run(side, id, st))
    ensures var e, e' := m.ends.Of(side)[id], Local(m.ends.Of(side)[id], st, m.up).end;
            && e'.life.made == e.life.made && (e.life.opening.None? ==> e'.life.usable == e.life.usable)
  {
    assert LinkInv(Project(m, id));
    LocalOpens(EndAt(m, side, id), st, m.up);
  }

  lemma StepKeepsQueue(m: Mux, step: MuxStep)
    requires MuxInv(m) && CanMux(m, step)
    ensures QueueInv(MuxNext(m, step))
  {
    hide LinkInv, Local, PingInv, Receive, CanReceive, Enabled, ReadItemNext;
    match step
    case Run(side, id, st) => RunKeepsQueue(m, side, id, st);
    case ReadItem(s) => ReadItemKeepsIds(m, s);
    case Handle(s) => HandleKeepsQueue(m, s);
    case AcceptChannel => assert Waits(m, m.queue[0]);
    case _ =>
  }

  lemma RunKeepsQueue(m: Mux, side: Side, id: nat, st: Step)
    requires MuxInv(m) && CanMux(m, Run(side, id, st))
    ensures QueueInv(MuxNext(m, Run(side, id, st)))
  {
    RunLife(m, side, id, st);
    LifeFacts(m, id);
    hide LinkInv, IdInv, Local, PingInv, Enabled;
  }

  lemma HandleKeepsQueue(m: Mux, s: Side)
    requires MuxInv(m) && CanMux(m, Handle(s))
    ensures QueueInv(MuxNext(m, Handle(s)))
  {
    LifeFacts(m, m.hands.Of(s).value.id);
    hide LinkInv, IdInv, PingInv, ReadItemNext;
  }

  lemma StepKeepsPings(m: Mux, step: MuxStep)
    requires MuxInv(m) && CanMux(m, step)
    ensures PingInv(MuxNext(m, step).wires.server) && PingInv(MuxNext(m, step).wires.client)
  {
    hide LinkInv, QueueInv, IdInv, Local, Receive, Enabled, CanReceive;
  }

  lemma StepKeepsMux(m: Mux, step: MuxStep)
    requires MuxInv(m) && CanMux(m, step)
    ensures MuxInv(MuxNext(m, step))
  {
    hide LinkInv, CanMux, MuxNext, Project;
    StepKeepsIds(m, step);
    StepKeepsQueue(m, step);
    StepKeepsPings(m, step);
    forall id ensures LinkInv(Project(MuxNext(m, step), id)) {
      StepKeepsLinks(m, step, id);
    }
  }

  ghost predicate IsMuxRun(m: Mux, steps: seq<MuxStep>, m': Mux)
    decreases |steps|
  {
    if steps == [] then m == m'
    else CanMux(m, steps[0]) && IsMuxRun(MuxNext(m, steps[0]), steps[1..], m')
  }

  lemma {:induction false} MuxRunKeepsInv(m: Mux, steps: seq<MuxStep>, m': Mux)
    requires MuxInv(m) && IsMuxRun(m, steps, m')
    ensures MuxInv(m')
    decreases |steps|
  {
    hide MuxInv, CanMux, MuxNext;
    if steps != [] {
      StepKeepsMux(m, steps[0]);
      MuxRunKeepsInv(MuxNext(m, steps[0]), steps[1..], m');
    }
  }

  lemma StartInv()
    ensures MuxInv(START)
  {
    hide LinkInv;
    InitInv();
    forall id ensures LinkInv(Project(START, id)) {
      assert Project(START, id) == INIT;
    }
  }

  /** A whole run of the mux, seen by one channel, is a run of that channel on its own. */
  lemma {:induction false} RunIsChannelRun(m: Mux, steps: seq<MuxStep>, m': Mux, id: nat) returns (seen: seq<LinkStep>)
    requires MuxInv(m) && IsMuxRun(m, steps, m')
    ensures IsRun(Project(m, id), seen, Project(m', id))
    decreases |steps|
  {
    hide MuxInv, CanMux, MuxNext, Project, CanStep, Next;
    if steps == [] {
      seen := [];
    } else {
      StepIsSeen(m, steps[0], id);
      StepKeepsMux(m, steps[0]);
      var rest := RunIsChannelRun(MuxNext(m, steps[0]), steps[1..], m', id);
      var first := Seen(m, steps[0], id);
      seen := if first.Some? then [first.value] + rest else rest;
      assert first.Some? ==> seen[1..] == rest;
    }
  }

  ghost predicate MuxReachable(m: Mux) {
    exists steps :: IsMuxRun(START, steps, m)
  }

  lemma ReachableMuxInv(m: Mux)
    requires MuxReachable(m)
    ensures MuxInv(m)
  {
    hide MuxInv;
    var steps :| IsMuxRun(START, steps, m);
    StartInv();
    MuxRunKeepsInv(START, steps, m);
  }

  /** Every channel of every reachable mux is a reachable channel on its own: it has the
      properties of module ChannelTheorems, whatever the other channels do. */
  lemma ChannelsAreIndependent(m: Mux, id: nat)
    requires MuxReachable(m)
    ensures exists seen :: IsRun(INIT, seen, Project(m, id))
  {
    var steps :| IsMuxRun(START, steps, m);
    StartInv();
    var seen := RunIsChannelRun(START, steps, m, id);
    assert Project(START, id) == INIT;
  }

  /** In fewer than 2^32 opens, OpenChannel never takes an id that is in use at either end. */
  lemma IdsAreFresh(m: Mux)
    requires MuxReachable(m) && m.opens < UINT32
    ensures m.nextID == (1 + m.opens) % 0x1_0000_0000
    ensures m.nextID < UINT32 && m.nextID !in m.ends.server && m.nextID !in m.ends.client
  {
    ReachableMuxInv(m);
    NextIdIsFresh(m);
  }
}
