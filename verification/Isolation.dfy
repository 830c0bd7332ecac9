/** Isolation between channels: whatever one channel could do on its own, it can do inside the
    mux, and the other channels need not move for it. They only give up a lock they are about
    to give up anyway, and the read loops take the frames that are in front. */
module Isolation {
  import opened Basics
  import opened ChannelEnd
  import opened Direction
  import opened Link
  import opened Mux

  /** A step that only clears the way for channel `id`. No Read, Write or Close of another
      channel starts, and none takes anything from a buffer or a window. */
  ghost predicate IsDrain(m: Mux, step: MuxStep, id: nat) {
    && CanMux(m, step)
    && match step
       case ReadItem(s) => !(m.wires.Of(s)[0].OnChannel? && m.wires.Of(s)[0].id == id)
       case Handle(s) => m.hands.Of(s).value.id != id
       case Enqueue => true
       case AcceptChannel => m.queue[0] != id
       case Run(_, channel, st) => channel != id && st in {OnRx(ReadPark), OnRx(ReadCredit), OnTx(WritePark)}
       case _ => false
  }

  lemma DrainIsUnseen(m: Mux, step: MuxStep, id: nat)
    requires MuxInv(m) && IsDrain(m, step, id)
    ensures Project(MuxNext(m, step), id) == Project(m, id) && MuxInv(MuxNext(m, step))
  {
    hide MuxInv, MuxNext, Project;
    StepIsSeen(m, step, id);
    StepKeepsMux(m, step);
  }

  function ReadLocked(ends: map<nat, End>): set<nat> {
    set id | id in ends && !ReadLockFree(ends[id].rx)
  }

  function WriteLocked(ends: map<nat, End>): set<nat> {
    set id | id in ends && !WriteLockFree(ends[id].tx)
  }

  /** How many goroutines hold a channel lock across a critical section. */
  function Locks(m: Mux): nat {
    |ReadLocked(m.ends.server)| + |WriteLocked(m.ends.server)| + |ReadLocked(m.ends.client)| + |WriteLocked(m.ends.client)|
  }

  function Weight(items: seq<Item>): nat {
    if items == [] then 0
    else (match items[0] case Ping(_) => 3 case Pong(_) => 2 case OnChannel(_, msg) => if msg.New? then 3 else 2)
         + Weight(items[1..])
  }

  /** The work left for the two read loops and the acceptor. */
  function Backlog(m: Mux): nat {
    Weight(m.wires.server) + Weight(m.wires.client)
    + (if m.hands.server.Some? then 1 else 0) + (if m.hands.client.Some? then 1 else 0)
    + (if m.blocked.Some? then 2 else 0) + |m.queue|
  }

  lemma {:induction false} WeightAppend(items: seq<Item>, item: Item)
    ensures Weight(items + [item]) == Weight(items) + Weight([item])
  {
    if items == [] {
      assert items + [item] == [item];
    } else {
      assert (items + [item])[1..] == items[1..] + [item];
      WeightAppend(items[1..], item);
    }
  }

  predicate Falls(m: Mux, m': Mux) {
    Locks(m') < Locks(m) || (Locks(m') == Locks(m) && Backlog(m') < Backlog(m))
  }

  /** Replacing one end without taking a lock. */
  lemma LocksKept(ends: map<nat, End>, id: nat, e: End)
    requires id in ends ==> (ReadLockFree(ends[id].rx) <==> ReadLockFree(e.rx)) && (WriteLockFree(ends[id].tx) <==> WriteLockFree(e.tx))
    requires id !in ends ==> ReadLockFree(e.rx) && WriteLockFree(e.tx)
    ensures ReadLocked(ends[id := e]) == ReadLocked(ends) && WriteLocked(ends[id := e]) == WriteLocked(ends)
  {
  }

  /** Replacing one end that gives up a lock. */
  lemma LockReleased(ends: map<nat, End>, id: nat, e: End)
    requires id in ends
    requires ReadLockFree(e.rx) || (ReadLockFree(ends[id].rx) <==> ReadLockFree(e.rx))
    requires WriteLockFree(e.tx) || (WriteLockFree(ends[id].tx) <==> WriteLockFree(e.tx))
    requires (!ReadLockFree(ends[id].rx) && ReadLockFree(e.rx)) || (!WriteLockFree(ends[id].tx) && WriteLockFree(e.tx))
    ensures |ReadLocked(ends[id := e])| + |WriteLocked(ends[id := e])| < |ReadLocked(ends)| + |WriteLocked(ends)|
  {
    var r, w := ReadLocked(ends), WriteLocked(ends);
    assert ReadLocked(ends[id := e]) == if ReadLockFree(e.rx) then r - {id} else r;
    assert WriteLocked(ends[id := e]) == if WriteLockFree(e.tx) then w - {id} else w;
  }

  lemma ReleaseFalls(m: Mux, step: MuxStep, id: nat)
    requires IsDrain(m, step, id) && step.Run?
    ensures Locks(MuxNext(m, step)) < Locks(m)
  {
    var o := Local(m.ends.Of(step.side)[step.id], step.step, m.up);
    LockReleased(m.ends.Of(step.side), step.id, o.end);
  }

  lemma ReadPingFalls(m: Mux, s: Side)
    requires CanMux(m, ReadItem(s)) && !m.wires.Of(s)[0].OnChannel?
    ensures Falls(m, MuxNext(m, ReadItem(s)))
  {
    hide Receive, CanReceive, EndAt;
    if m.wires.Of(s)[0].Ping? {
      WeightAppend(m.wires.Of(s.Other()), Pong(m.wires.Of(s)[0].payload));
    }
  }

  lemma ReadNewFalls(m: Mux, s: Side)
    requires CanMux(m, ReadItem(s)) && m.wires.Of(s)[0].OnChannel? && m.wires.Of(s)[0].m.New?
    requires s == Server && m.wires.Of(s)[0].id !in m.ends.client
    ensures Falls(m, MuxNext(m, ReadItem(s)))
  {
    FreshIsFree();
    LocksKept(m.ends.client, m.wires.Of(s)[0].id, NewEnd(None));
    hide Receive, CanReceive, EndAt, ReadLocked, WriteLocked, NewEnd;
  }

  lemma ReadFrameFalls(m: Mux, s: Side)
    requires CanMux(m, ReadItem(s)) && m.wires.Of(s)[0].OnChannel? && !m.wires.Of(s)[0].m.New?
    ensures Falls(m, MuxNext(m, ReadItem(s)))
  {
    hide Receive, CanReceive, EndAt, ReadLocked, WriteLocked;
  }

  lemma ReadItemFalls(m: Mux, s: Side)
    requires MuxInv(m) && CanMux(m, ReadItem(s))
    ensures Falls(m, MuxNext(m, ReadItem(s)))
  {
    hide MuxInv, Falls, MuxNext, ReadItemNext;
    match m.wires.Of(s)[0]
    case OnChannel(id, msg) =>
      LifeFacts(m, id);
      if msg.New? {
        ReadNewFalls(m, s);
      } else {
        ReadFrameFalls(m, s);
      }
    case _ => ReadPingFalls(m, s);
  }

  lemma FreshIsFree()
    ensures ReadLockFree(NewEnd(None).rx) && WriteLockFree(NewEnd(None).tx)
  {
  }

  lemma HandleFalls(m: Mux, s: Side)
    requires MuxInv(m) && CanMux(m, Handle(s))
    ensures Falls(m, MuxNext(m, Handle(s)))
  {
    hide MuxInv;
    var h := m.hands.Of(s).value;
    LifeFacts(m, h.id);
    LocksKept(m.ends.Of(s.Other()), h.id, Receive(EndAt(m, s.Other(), h.id), h.m));
  }

  lemma AcceptFalls(m: Mux, step: MuxStep)
    requires MuxInv(m) && CanMux(m, step) && (step.Enqueue? || step.AcceptChannel?)
    ensures Falls(m, MuxNext(m, step))
  {
    hide LinkInv;
    if step.AcceptChannel? {
      assert Waits(m, m.queue[0]);
      var e := m.ends.client[m.queue[0]];
      LocksKept(m.ends.client, m.queue[0], e.(life := e.life.(usable := true)));
    }
  }

  lemma DrainFalls(m: Mux, step: MuxStep, id: nat)
    requires MuxInv(m) && IsDrain(m, step, id)
    ensures Falls(m, MuxNext(m, step))
  {
    hide MuxInv, Falls, MuxNext;
    match step
    case Run(_, _, _) =>
      ReleaseFalls(m, step, id);
      assert Falls(m, MuxNext(m, step)) by { FallsByLocks(m, MuxNext(m, step)); }
    case ReadItem(s) => ReadItemFalls(m, s);
    case Handle(s) => HandleFalls(m, s);
    case _ => AcceptFalls(m, step);
  }

  lemma FallsByLocks(m: Mux, m': Mux)
    requires Locks(m') < Locks(m)
    ensures Falls(m, m')
  {
  }

  /** Gives up the lock that keeps the read loop of `s.Other()` from handling its frame. */
  lemma ReleaseLock(m: Mux, s: Side, id: nat) returns (step: MuxStep)
    requires MuxInv(m) && m.hands.Of(s).Some? && m.hands.Of(s).value.id != id && !CanMux(m, Handle(s))
    ensures IsDrain(m, step, id)
  {
    hide LinkInv;
    var h, r := m.hands.Of(s).value, s.Other();
    LifeFacts(m, h.id);
    var e := m.ends.Of(r)[h.id];
    NoNewInHand(m, s);
    if h.m.Credit? {
      step := Run(r, h.id, OnTx(WritePark));
    } else if e.rx.reader.RParking? {
      step := Run(r, h.id, OnRx(ReadPark));
    } else {
      step := Run(r, h.id, OnRx(ReadCredit));
    }
  }

  lemma NoNewInHand(m: Mux, s: Side)
    requires MuxInv(m) && m.hands.Of(s).Some?
    ensures !m.hands.Of(s).value.m.New?
  {
    hide DirInv, EndInv;
    var l := Project(m, m.hands.Of(s).value.id);
    assert LinkInv(l);
    assert l.hands.Of(s).Some? && l.hands.Of(s).value == m.hands.Of(s).value.m;
    assert s == Client ==> l.hands.client.value in Flight(l, Client);
  }

  /** When the next frame of `id` is not the one the read loop would take now, something in
      front of it can be cleared. */
  lemma ClearWire(m: Mux, s: Side, id: nat) returns (step: MuxStep)
    requires MuxInv(m) && !Waits(m, id)
    requires Filter(m.wires.Of(s), id) != [] && HandOf(m.hands.Of(s), id).None?
    requires CanMux(m, ReadItem(s)) ==> Seen(m, ReadItem(s), id).None?
    ensures IsDrain(m, step, id)
  {
    hide LinkInv;
    if m.hands.Of(s).Some? {
      if CanMux(m, Handle(s)) {
        step := Handle(s);
      } else {
        step := ReleaseLock(m, s, id);
      }
    } else if s == Server && m.blocked.Some? {
      step := ClearQueue(m, id);
    } else {
      step := ReadItem(s);
    }
  }

  lemma ClearQueue(m: Mux, id: nat) returns (step: MuxStep)
    requires MuxInv(m) && (m.blocked.Some? || m.queue != [])
    requires m.queue == [] || m.queue[0] != id
    ensures IsDrain(m, step, id)
  {
    hide LinkInv;
    if m.queue == [] {
      step := Enqueue;
    } else {
      assert Waits(m, m.queue[0]);
      step := AcceptChannel;
    }
  }

  /** In a quiet run, every step is one of channel `id` or only clears the way for it. */
  ghost predicate IsQuietRun(m: Mux, steps: seq<MuxStep>, m': Mux, id: nat)
    decreases |steps|
  {
    if steps == [] then m == m'
    else
      && CanMux(m, steps[0])
      && (IsDrain(m, steps[0], id) || Seen(m, steps[0], id).Some?)
      && IsQuietRun(MuxNext(m, steps[0]), steps[1..], m', id)
  }

  lemma {:induction false} QuietConcat(m: Mux, a: seq<MuxStep>, m1: Mux, b: seq<MuxStep>, m2: Mux, id: nat)
    requires IsQuietRun(m, a, m1, id) && IsQuietRun(m1, b, m2, id)
    ensures IsQuietRun(m, a + b, m2, id)
    decreases |a|
  {
    hide CanMux, IsDrain, MuxNext;
    if a == [] {
      assert a + b == b;
    } else {
      assert (a + b)[1..] == a[1..] + b;
      QuietConcat(MuxNext(m, a[0]), a[1..], m1, b, m2, id);
    }
  }

  /** The mux step that is `step` for channel `id`, when nothing is in front of it. */
  function Lifted(m: Mux, step: LinkStep, id: nat): MuxStep
    requires !step.Make?
  {
    match step
    case At(side, st) => Run(side, id, st)
    case Lookup(s) => ReadItem(s)
    case Deliver(s) => Handle(s)
    case Accept => AcceptChannel
    case BeginClose(side) => StartClose(side)
    case Cut => LinkDown
  }

  predicate Ready(m: Mux, step: LinkStep, id: nat)
    requires !step.Make?
  {
    CanMux(m, Lifted(m, step, id)) && Seen(m, Lifted(m, step, id), id) == Some(step)
  }

  lemma UnmadeIsStill(st: Step)
    ensures !Enabled(UNMADE, st)
  {
  }

  /** Either the step can be taken, or something in front of it can be cleared. */
  lemma ReadyOrClear(m: Mux, step: LinkStep, id: nat) returns (drain: MuxStep)
    requires MuxInv(m) && CanStep(Project(m, id), step) && !step.Make?
    requires step.Lookup? ==> !Waits(m, id)
    ensures Ready(m, step, id) || IsDrain(m, drain, id)
  {
    hide LinkInv;
    drain := Enqueue;
    match step
    case At(side, st) => UnmadeIsStill(st);
    case Lookup(s) =>
      if !Ready(m, step, id) {
        drain := ClearWire(m, s, id);
      }
    case Accept =>
      assert Waits(m, id);
      if !Ready(m, step, id) {
        drain := ClearQueue(m, id);
      }
    case _ =>
  }

  /** One step of a channel on its own, taken inside the mux. */
  lemma LiftStep(m: Mux, step: LinkStep, id: nat) returns (steps: seq<MuxStep>, m': Mux)
    requires MuxInv(m) && CanStep(Project(m, id), step) && !step.Make?
    requires step.Lookup? ==> !Waits(m, id)
    ensures IsQuietRun(m, steps, m', id) && MuxInv(m') && Project(m', id) == Next(Project(m, id), step)
    decreases Locks(m), Backlog(m)
  {
    hide MuxInv, Project, CanStep, Next, CanMux, MuxNext, IsDrain, Waits, Falls;
    var drain := ReadyOrClear(m, step, id);
    if Ready(m, step, id) {
      var s := Lifted(m, step, id);
      ReadyStep(m, step, id);
      m' := MuxNext(m, s);
      steps := [s];
      assert IsQuietRun(m', steps[1..], m', id);
    } else {
      DrainCan(m, drain, id);
      DrainIsUnseen(m, drain, id);
      DrainFalls(m, drain, id);
      FallsMeans(m, MuxNext(m, drain));
      if step.Lookup? {
        WaitsIsSeen(m, id);
        WaitsIsSeen(MuxNext(m, drain), id);
      }
      var rest;
      rest, m' := LiftStep(MuxNext(m, drain), step, id);
      steps := [drain] + rest;
      assert steps[1..] == rest;
    }
  }

  lemma ReadyStep(m: Mux, step: LinkStep, id: nat)
    requires MuxInv(m) && !step.Make? && Ready(m, step, id)
    ensures CanMux(m, Lifted(m, step, id)) && MuxInv(MuxNext(m, Lifted(m, step, id)))
    ensures CanStep(Project(m, id), step) && Project(MuxNext(m, Lifted(m, step, id)), id) == Next(Project(m, id), step)
  {
    hide MuxInv, Project, MuxNext, CanStep, Next;
    StepIsSeen(m, Lifted(m, step, id), id);
    StepKeepsMux(m, Lifted(m, step, id));
  }

  lemma DrainCan(m: Mux, step: MuxStep, id: nat)
    requires IsDrain(m, step, id)
    ensures CanMux(m, step)
  {
  }

  lemma FallsMeans(m: Mux, m': Mux)
    requires Falls(m, m')
    ensures Locks(m') < Locks(m) || (Locks(m') == Locks(m) && Backlog(m') < Backlog(m))
  {
  }

  /** Waiting for AcceptChannel shows in the channel itself. */
  predicate Waiting(l: Link) {
    l.ends.client.life.made && !l.ends.client.life.usable
  }

  lemma WaitsIsSeen(m: Mux, id: nat)
    requires MuxInv(m)
    ensures Waits(m, id) <==> Waiting(Project(m, id))
  {
    hide LinkInv;
  }

  /** A run in which the read loops take no frame of the channel while it waits to be accepted. */
  ghost predicate IsPromptRun(l: Link, steps: seq<LinkStep>, l': Link)
    decreases |steps|
  {
    if steps == [] then l == l'
    else
      && CanStep(l, steps[0]) && !steps[0].Make? && (steps[0].Lookup? ==> !Waiting(l))
      && IsPromptRun(Next(l, steps[0]), steps[1..], l')
  }

  /** Isolation: every run of a channel on its own can be made inside the mux, from any state
      and whatever the other channels are doing, by a run in which no other channel starts a
      call, reads a byte or sends one. A peer that never reads channel A cannot keep channel B
      from completing. */
  lemma {:induction false} LiftRun(m: Mux, steps: seq<LinkStep>, l': Link, id: nat) returns (lifted: seq<MuxStep>, m': Mux)
    requires MuxInv(m) && IsPromptRun(Project(m, id), steps, l')
    ensures IsQuietRun(m, lifted, m', id) && MuxInv(m') && Project(m', id) == l'
    decreases |steps|
  {
    hide MuxInv, Project, CanStep, Next, CanMux, MuxNext, IsDrain, Waits, Waiting;
    if steps == [] {
      lifted, m' := [], m;
    } else {
      WaitsIsSeen(m, id);
      var a, m1 := LiftStep(m, steps[0], id);
      var b;
      b, m' := LiftRun(m1, steps[1..], l', id);
      QuietConcat(m, a, m1, b, m', id);
      lifted := a + b;
    }
  }

  /** What the users of a channel end have done so far: bytes read and sent, and its closing. */
  predicate SameDeeds(e: End, e': End) {
    e'.rx.got == e.rx.got && e'.tx.sent == e.tx.sent && e'.status == e.status && e'.closer == e.closer
  }

  lemma RunRests(m: Mux, step: MuxStep, id: nat, other: nat, side: Side)
    requires CanMux(m, step) && step.Run? && other != id
    requires IsDrain(m, step, id) || Seen(m, step, id).Some?
    ensures SameDeeds(EndAt(m, side, other), EndAt(MuxNext(m, step), side, other))
  {
  }

  lemma OtherRests(m: Mux, step: MuxStep, other: nat, side: Side)
    requires MuxInv(m) && CanMux(m, step) && !step.Run? && !step.ReadItem?
    requires step.OpenChannel? ==> other != m.nextID
    ensures SameDeeds(EndAt(m, side, other), EndAt(MuxNext(m, step), side, other))
  {
    hide MuxInv, Local, Enabled;
  }

  lemma QuietStepRests(m: Mux, step: MuxStep, id: nat, other: nat, side: Side)
    requires MuxInv(m) && CanMux(m, step) && other != id
    requires IsDrain(m, step, id) || Seen(m, step, id).Some?
    ensures SameDeeds(EndAt(m, side, other), EndAt(MuxNext(m, step), side, other))
  {
    hide MuxInv, SameDeeds, EndAt, ReadItemNext;
    if step.ReadItem? {
      ReadItemRests(m, step.sender, other, side);
    } else if step.Run? {
      hide CanMux, MuxNext;
      RunRests(m, step, id, other, side);
    } else {
      hide MuxNext;
      OtherRests(m, step, other, side);
    }
  }

  lemma ReadItemRests(m: Mux, s: Side, other: nat, side: Side)
    requires MuxInv(m) && CanMux(m, ReadItem(s))
    ensures SameDeeds(EndAt(m, side, other), EndAt(ReadItemNext(m, s), side, other))
  {
    hide MuxInv, Local, Enabled, Receive, CanReceive;
    if m.wires.Of(s)[0].OnChannel? {
      LifeFacts(m, m.wires.Of(s)[0].id);
    }
  }

  /** In a quiet run of one channel no other channel reads a byte, sends one or gets closed. */
  lemma {:induction false} OthersRest(m: Mux, steps: seq<MuxStep>, m': Mux, id: nat, other: nat, side: Side)
    requires MuxInv(m) && IsQuietRun(m, steps, m', id) && other != id
    ensures SameDeeds(EndAt(m, side, other), EndAt(m', side, other))
    decreases |steps|
  {
    hide MuxInv, CanMux, MuxNext, IsDrain, Seen, EndAt;
    if steps != [] {
      QuietStepRests(m, steps[0], id, other, side);
      StepKeepsMux(m, steps[0]);
      OthersRest(MuxNext(m, steps[0]), steps[1..], m', id, other, side);
    }
  }
}
