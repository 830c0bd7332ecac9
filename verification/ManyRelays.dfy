/** Any number of relayed connections on one control connection, opened at any time and taking
    their steps in any order: every run of the whole is bounded, and when nothing can move any
    more, all of them have finished. */
module ManyRelays {
  import opened Basics
  import opened ChannelEnd
  import opened Direction
  import opened Link
  import opened Mux
  import opened Isolation
  import opened RelaySystem
  import EndToEnd

  /** What is outside of one channel: `data` is all that its two outside connections send; the
      rest is as in RelaySystem. */
  datatype Outside = Outside(data: Pair<seq<byte>>, src: Pair<seq<byte>>, out: Pair<seq<byte>>, eof: Pair<bool>)

  /** `ids` are the channels opened so far, in order. */
  datatype Hub = Hub(m: Mux, outside: map<nat, Outside>, ids: seq<nat>)

  const EMPTY_HUB := Hub(START, map[], [])

  datatype HubStep =
    | Dial(target: seq<byte>, data: Pair<seq<byte>>)   // a public connection comes in: OpenChannel
    | Relay(id: nat, step: SysStep)                    // a goroutine of one relayed connection
    | Network(move: MuxStep)                           // the read loops and the acceptor
    | KeepAlive(side: Side, payload: seq<byte>)        // a ping

  /** One connection of the hub, as a system of its own. */
  function SysOf(h: Hub, id: nat): Sys
    requires id in h.outside
  {
    var o := h.outside[id];
    Sys(Project(h.m, id), o.src, o.out, o.eof)
  }

  /** A step of Relay or of a goroutine inside one of its calls. */
  predicate OfEnd(step: SysStep) {
    !step.Inner? || step.step.At?
  }

  function RunOf(sys: Sys, id: nat, step: SysStep): MuxStep
    requires OfEnd(step) && CanSys(sys, step)
  {
    match Under(sys, step) case At(side, st) => Run(side, id, st)
  }

  predicate OfNetwork(step: MuxStep) {
    step.ReadItem? || step.Handle? || step.Enqueue? || step.AcceptChannel?
  }

  predicate CanHub(h: Hub, step: HubStep) {
    match step
    case Dial(target, _) => CanMux(h.m, OpenChannel(target))
    case Relay(id, s) =>
      id in h.outside && OfEnd(s) && CanSys(SysOf(h, id), s) && CanMux(h.m, RunOf(SysOf(h, id), id, s))
    case Network(s) => OfNetwork(s) && CanMux(h.m, s)
    case KeepAlive(side, p) => CanMux(h.m, SendPing(side, p))
  }

  function HubNext(h: Hub, step: HubStep): Hub
    requires CanHub(h, step)
  {
    match step
    case Dial(target, data) =>
      Hub(MuxNext(h.m, OpenChannel(target)),
          h.outside[h.m.nextID := Outside(data, data, Pair([], []), Pair(false, false))], h.ids + [h.m.nextID])
    case Relay(id, s) =>
      var next := SysNext(SysOf(h, id), s);
      h.(m := MuxNext(h.m, RunOf(SysOf(h, id), id, s)),
         outside := h.outside[id := Outside(h.outside[id].data, next.src, next.out, next.eof)])
    case Network(s) => h.(m := MuxNext(h.m, s))
    case KeepAlive(side, p) => h.(m := MuxNext(h.m, SendPing(side, p)))
  }

  ghost predicate Distinct(ids: seq<nat>) {
    forall i, j :: 0 <= i < j < |ids| ==> ids[i] != ids[j]
  }

  /** Every channel of the mux is one of the relayed connections. */
  ghost predicate BookInv(h: Hub) {
    && MuxInv(h.m) && h.m.up && h.m.closing == Pair(false, false)
    && h.outside.Keys == h.m.ends.server.Keys
    && Distinct(h.ids) && forall id :: id in h.ids <==> id in h.outside
  }

  ghost predicate HubInv(h: Hub) {
    BookInv(h) && forall id :: id in h.outside ==> RelayInv(SysOf(h, id), h.outside[id].data)
  }

  lemma EmptyHubInv()
    ensures HubInv(EMPTY_HUB)
  {
    hide MuxInv;
    StartInv();
  }

  /** From `h` to `h'` the connection does not move, or makes one step of its own. */
  predicate Still(h: Hub, h': Hub, id: nat) {
    id in h.outside && id in h'.outside && SysOf(h', id) == SysOf(h, id) && h'.outside[id].data == h.outside[id].data
  }

  ghost predicate Moves(h: Hub, h': Hub, id: nat) {
    && id in h.outside && id in h'.outside && h'.outside[id].data == h.outside[id].data
    && exists s :: CanSys(SysOf(h, id), s) && SysOf(h', id) == SysNext(SysOf(h, id), s)
  }

  lemma RelayIsSeen(h: Hub, id: nat, s: SysStep, other: nat)
    requires BookInv(h) && CanHub(h, Relay(id, s)) && other in h.outside
    ensures var h' := HubNext(h, Relay(id, s)); if other == id then Moves(h, h', id) else Still(h, h', other)
  {
    hide MuxInv, CanSys, Project, CanStep, Next, MuxNext, CanMux;
    var sys, run := SysOf(h, id), RunOf(SysOf(h, id), id, s);
    StepIsSeen(h.m, run, other);
    if other == id {
      SeenByRun(h.m, run, id);
      UnderIsNext(sys, s);
    }
  }

  lemma SeenByRun(m: Mux, run: MuxStep, id: nat)
    requires CanMux(m, run) && run.Run? && run.id == id && Refines(m, run, id)
    ensures Project(MuxNext(m, run), id) == Next(Project(m, id), At(run.side, run.step))
  {
    hide Project, MuxNext, CanStep, Next;
  }

  lemma UnderIsNext(sys: Sys, s: SysStep)
    requires CanSys(sys, s) && OfEnd(s)
    ensures CanStep(sys.l, Under(sys, s)) && SysNext(sys, s).l == Next(sys.l, Under(sys, s))
  {
    hide CanStep, Next;
  }

  /** The one channel that a step of the network moves. */
  function Mover(m: Mux, step: MuxStep): Option<nat>
    requires OfNetwork(step) && CanMux(m, step)
  {
    match step
    case ReadItem(s) => if m.wires.Of(s)[0].OnChannel? then Some(m.wires.Of(s)[0].id) else None
    case Handle(s) => Some(m.hands.Of(s).value.id)
    case AcceptChannel => Some(m.queue[0])
    case _ => None
  }

  lemma NetworkIsSeen(h: Hub, s: MuxStep, id: nat)
    requires BookInv(h) && CanHub(h, Network(s)) && id in h.outside
    ensures var h' := HubNext(h, Network(s)); if Mover(h.m, s) == Some(id) then Moves(h, h', id) else Still(h, h', id)
  {
    hide MuxInv, Project, CanStep, Next, MuxNext, CanMux;
    StepIsSeen(h.m, s, id);
    MoverIsSeen(h.m, s, id);
    if Mover(h.m, s) == Some(id) {
      var seen := Seen(h.m, s, id).value;
      assert CanSys(SysOf(h, id), Inner(seen));
    }
  }

  lemma MoverIsSeen(m: Mux, s: MuxStep, id: nat)
    requires OfNetwork(s) && CanMux(m, s)
    ensures var seen := Seen(m, s, id);
            && (seen.Some? <==> Mover(m, s) == Some(id))
            && (seen.Some? ==> seen.value.Lookup? || seen.value.Deliver? || seen.value.Accept?)
  {
  }

  lemma PingIsSeen(h: Hub, side: Side, p: seq<byte>, id: nat)
    requires BookInv(h) && CanHub(h, KeepAlive(side, p)) && id in h.outside
    ensures Still(h, HubNext(h, KeepAlive(side, p)), id)
  {
    hide MuxInv, Project, MuxNext;
    StepIsSeen(h.m, SendPing(side, p), id);
  }

  lemma OpenIsSeen(h: Hub, target: seq<byte>, data: Pair<seq<byte>>, id: nat)
    requires BookInv(h) && CanHub(h, Dial(target, data)) && id in h.outside
    ensures id != h.m.nextID && Still(h, HubNext(h, Dial(target, data)), id)
  {
    NextIdIsFresh(h.m);
    hide MuxInv, Project, MuxNext;
    StepIsSeen(h.m, OpenChannel(target), id);
  }

  lemma OpenBegins(h: Hub, target: seq<byte>, data: Pair<seq<byte>>)
    requires BookInv(h) && CanHub(h, Dial(target, data))
    ensures h.m.nextID !in h.outside && SysOf(HubNext(h, Dial(target, data)), h.m.nextID) == Begin(target, data)
  {
    NextIdIsFresh(h.m);
    hide MuxInv, Project, MuxNext;
    EndToEnd.NewChannelIsClean(h.m, target, data);
  }

  /** No step but an open adds a channel, and none takes the connection down. */
  lemma BookKept(m: Mux, step: MuxStep)
    requires MuxInv(m) && CanMux(m, step) && (step.Run? || step.SendPing? || OfNetwork(step))
    ensures var m' := MuxNext(m, step);
            m'.ends.server.Keys == m.ends.server.Keys && m'.up == m.up && m'.closing == m.closing
  {
    hide LinkInv, Local, Receive, Enabled, CanReceive;
    match step
    case ReadItem(s) =>
      if m.wires.Of(s)[0].OnChannel? {
        LifeFacts(m, m.wires.Of(s)[0].id);
      }
    case Handle(s) => LifeFacts(m, m.hands.Of(s).value.id);
    case _ =>
  }

  lemma NextKeepsBook(h: Hub, step: HubStep)
    requires BookInv(h) && CanHub(h, step)
    ensures BookInv(HubNext(h, step))
  {
    hide MuxInv, CanMux, CanSys, SysNext;
    match step
    case Dial(target, data) => OpenKeepsBook(h, target, data);
    case Relay(id, s) =>
      var run := RunOf(SysOf(h, id), id, s);
      StepKeepsMux(h.m, run);
      BookKept(h.m, run);
      hide MuxNext;
    case Network(s) =>
      StepKeepsMux(h.m, s);
      BookKept(h.m, s);
      hide MuxNext;
    case KeepAlive(side, p) =>
      StepKeepsMux(h.m, SendPing(side, p));
      BookKept(h.m, SendPing(side, p));
      hide MuxNext;
  }

  lemma OpenKeepsBook(h: Hub, target: seq<byte>, data: Pair<seq<byte>>)
    requires BookInv(h) && CanHub(h, Dial(target, data))
    ensures BookInv(HubNext(h, Dial(target, data)))
  {
    NextIdIsFresh(h.m);
    hide MuxInv;
    StepKeepsMux(h.m, OpenChannel(target));
  }

  lemma MovesKeepsRelay(h: Hub, h': Hub, id: nat)
    requires Moves(h, h', id) && RelayInv(SysOf(h, id), h.outside[id].data)
    ensures RelayInv(SysOf(h', id), h'.outside[id].data)
    ensures Cost(SysOf(h', id)) < Cost(SysOf(h, id))
  {
    hide RelayInv, SysOf, CanSys, SysNext, Cost;
    var s :| CanSys(SysOf(h, id), s) && SysOf(h', id) == SysNext(SysOf(h, id), s);
    StepKeepsRelay(SysOf(h, id), h.outside[id].data, s);
    StepLowers(SysOf(h, id), h.outside[id].data, s);
  }

  /** The one connection that a step moves, if any; the others are still. */
  function MoverOf(h: Hub, step: HubStep): Option<nat>
    requires CanHub(h, step)
  {
    match step
    case Relay(id, _) => Some(id)
    case Network(s) => Mover(h.m, s)
    case _ => None
  }

  lemma OneMoves(h: Hub, step: HubStep, id: nat)
    requires BookInv(h) && CanHub(h, step) && id in h.outside
    ensures if MoverOf(h, step) == Some(id) then Moves(h, HubNext(h, step), id) else Still(h, HubNext(h, step), id)
  {
    hide BookInv, HubNext, SysOf, Moves, Still, Mover;
    match step
    case Dial(target, data) => OpenIsSeen(h, target, data, id);
    case Relay(channel, s) => RelayIsSeen(h, channel, s, id);
    case Network(s) => NetworkIsSeen(h, s, id);
    case KeepAlive(side, p) => PingIsSeen(h, side, p, id);
  }

  lemma NextKeepsHub(h: Hub, step: HubStep)
    requires HubInv(h) && CanHub(h, step)
    ensures HubInv(HubNext(h, step))
  {
    var h' := HubNext(h, step);
    NextKeepsBook(h, step);
    NewKeys(h, step);
    hide BookInv, RelayInv, HubNext, CanHub, MoverOf, SysOf;
    forall id | id in h'.outside ensures RelayInv(SysOf(h', id), h'.outside[id].data) {
      if id in h.outside {
        OneMoves(h, step, id);
        if MoverOf(h, step) == Some(id) {
          MovesKeepsRelay(h, h', id);
        }
      } else {
        OpenBegins(h, step.target, step.data);
        BeginInv(step.target, step.data);
      }
    }
  }

  lemma NewKeys(h: Hub, step: HubStep)
    requires CanHub(h, step)
    ensures forall id :: id in HubNext(h, step).outside ==>
              id in h.outside
              || (step.Dial? && |step.target| <= MAX_TARGET && id == h.m.nextID && HubNext(h, step).outside[id].data == step.data)
  {
    hide MuxNext, SysNext;
  }

  /** What all connections together still cost. */
  function CostSum(h: Hub, ids: seq<nat>): nat {
    if ids == [] then 0 else CostOf(h, ids[0]) + CostSum(h, ids[1..])
  }

  function CostOf(h: Hub, id: nat): nat {
    if id in h.outside then Cost(SysOf(h, id)) else 0
  }

  function PingCost(items: seq<Item>): nat {
    if items == [] then 0
    else (match items[0] case Ping(_) => 2 case Pong(_) => 1 case OnChannel(_, _) => 0) + PingCost(items[1..])
  }

  /** Pings on the way, and a channel that waits for room in the accept queue. */
  function Extra(m: Mux): nat {
    PingCost(m.wires.server) + PingCost(m.wires.client) + if m.blocked.Some? then 1 else 0
  }

  function Total(h: Hub): nat {
    2 * CostSum(h, h.ids) + Extra(h.m)
  }

  lemma {:induction false} SumIsStill(h: Hub, h': Hub, ids: seq<nat>)
    requires forall id :: id in ids ==> Still(h, h', id)
    ensures CostSum(h', ids) == CostSum(h, ids)
  {
    if ids != [] {
      assert Still(h, h', ids[0]);
      hide Still, Cost, SysOf;
      SumIsStill(h, h', ids[1..]);
    }
  }

  lemma {:induction false} SumFalls(h: Hub, h': Hub, ids: seq<nat>, id: nat)
    requires Distinct(ids) && id in ids && CostOf(h', id) < CostOf(h, id)
    requires forall x :: x in ids && x != id ==> Still(h, h', x)
    ensures CostSum(h', ids) < CostSum(h, ids)
  {
    if ids[0] == id {
      hide Still, CostOf;
      SumIsStill(h, h', ids[1..]);
    } else {
      assert Still(h, h', ids[0]);
      hide Still, Cost, SysOf;
      SumFalls(h, h', ids[1..], id);
    }
  }

  lemma {:induction false} SumAppend(h: Hub, ids: seq<nat>, id: nat)
    ensures CostSum(h, ids + [id]) == CostSum(h, ids) + CostOf(h, id)
  {
    hide CostOf;
    if ids == [] {
      assert [] + [id] == [id];
    } else {
      assert (ids + [id])[1..] == ids[1..] + [id];
      SumAppend(h, ids[1..], id);
    }
  }

  lemma {:induction false} PingCostAppend(a: seq<Item>, b: seq<Item>)
    ensures PingCost(a + b) == PingCost(a) + PingCost(b)
  {
    if a == [] {
      assert a + b == b;
    } else {
      assert (a + b)[1..] == a[1..] + b;
      PingCostAppend(a[1..], b);
    }
  }

  lemma {:induction false} ItemsCostNothing(id: nat, ms: seq<Message>)
    ensures PingCost(Items(id, ms)) == 0
  {
    if ms != [] {
      assert Items(id, ms)[1..] == Items(id, ms[1..]);
      ItemsCostNothing(id, ms[1..]);
    }
  }

  lemma RunCostsNothing(m: Mux, step: MuxStep)
    requires CanMux(m, step) && step.Run?
    ensures Extra(MuxNext(m, step)) == Extra(m)
  {
    hide Enabled;
    var o := Local(m.ends.Of(step.side)[step.id], step.step, m.up);
    hide Local;
    PingCostAppend(m.wires.Of(step.side), Items(step.id, o.out));
    ItemsCostNothing(step.id, o.out);
  }

  /** A step of the network with a mover adds at most 1, for a channel that has to queue; one
      without takes at least 1 away. */
  lemma NetworkCosts(m: Mux, step: MuxStep)
    requires CanMux(m, step) && OfNetwork(step)
    ensures Extra(MuxNext(m, step)) <= Extra(m) + if Mover(m, step).Some? then 1 else -1
  {
    hide Enabled, Local, CanReceive, Receive, EndAt;
    if step.ReadItem? {
      var s := step.sender;
      if m.wires.Of(s)[0].Ping? {
        PingCostAppend(m.wires.Of(s.Other()), [Pong(m.wires.Of(s)[0].payload)]);
      }
    }
  }

  lemma PingCosts(m: Mux, side: Side, p: seq<byte>)
    requires CanMux(m, SendPing(side, p))
    ensures Extra(MuxNext(m, SendPing(side, p))) == Extra(m) + 2
  {
    PingCostAppend(m.wires.Of(side), [Ping(p)]);
  }

  lemma MoverIsKnown(h: Hub, step: HubStep)
    requires BookInv(h) && CanHub(h, step)
    ensures MoverOf(h, step).Some? ==> MoverOf(h, step).value in h.outside
  {
    if step.Network? && MoverOf(h, step).Some? {
      var id := MoverOf(h, step).value;
      hide CanSys, Receive, Local;
      NetworkIdIsMade(h.m, step.move, id);
    }
  }

  lemma NetworkIdIsMade(m: Mux, step: MuxStep, id: nat)
    requires MuxInv(m) && OfNetwork(step) && CanMux(m, step) && Mover(m, step) == Some(id)
    ensures id in m.ends.server
  {
    match step
    case ReadItem(s) =>
      FilterHead(m.wires.Of(s), id);
      hide MuxInv, Filter;
      WireIdIsMade(m, s, id);
    case Handle(_) =>
      LifeFacts(m, id);
      hide MuxInv;
    case AcceptChannel =>
      LifeFacts(m, id);
      hide LinkInv;
      assert Waits(m, m.queue[0]);
  }

  lemma WireIdIsMade(m: Mux, s: Side, id: nat)
    requires MuxInv(m) && Filter(m.wires.Of(s), id) != []
    ensures id in m.ends.server
  {
    hide LinkInv, Filter;
    FlightNeedsMade(Project(m, id), s);
  }

  /** What a step may cost: something for what comes in from outside, nothing otherwise. */
  function Budget(step: HubStep): nat
    requires step.Dial? ==> |step.target| <= MAX_TARGET
  {
    match step
    case Dial(target, data) => 2 * Cost(Begin(target, data)) + 1
    case KeepAlive(_, _) => 3
    case _ => 0
  }

  lemma IdsKnown(h: Hub)
    requires BookInv(h)
    ensures Distinct(h.ids) && forall id :: id in h.ids <==> id in h.outside
  {
  }

  lemma IdsAfter(h: Hub, step: HubStep)
    requires CanHub(h, step)
    ensures var h' := HubNext(h, step);
            if step.Dial? then h'.ids == h.ids + [h.m.nextID] && Extra(h'.m) == Extra(h.m) else h'.ids == h.ids
  {
    hide CanSys, SysNext, SysOf, CanMux, OfEnd, Extra;
    if step.Dial? {
      OpenCostsNothing(h.m, step.target);
    }
    hide MuxNext;
  }

  lemma OpenCostsNothing(m: Mux, target: seq<byte>)
    requires CanMux(m, OpenChannel(target))
    ensures Extra(MuxNext(m, OpenChannel(target))) == Extra(m)
  {
    hide PingCost;
  }

  lemma OpenLowers(h: Hub, target: seq<byte>, data: Pair<seq<byte>>)
    requires BookInv(h) && CanHub(h, Dial(target, data))
    ensures BookInv(HubNext(h, Dial(target, data)))
    ensures Total(HubNext(h, Dial(target, data))) == Total(h) + 2 * Cost(Begin(target, data))
  {
    hide BookInv, SysOf, Cost, HubNext, CanHub;
    var step, h' := Dial(target, data), HubNext(h, Dial(target, data));
    NextKeepsBook(h, step);
    IdsKnown(h);
    IdsKnown(h');
    OpenBegins(h, target, data);
    IdsAfter(h, step);
    forall id | id in h.ids ensures Still(h, h', id) {
      OpenIsSeen(h, target, data, id);
    }
    SumIsStill(h, h', h.ids);
    SumAppend(h', h.ids, h.m.nextID);
  }

  lemma OthersLower(h: Hub, step: HubStep)
    requires HubInv(h) && CanHub(h, step) && !step.Dial?
    ensures BookInv(HubNext(h, step)) && HubNext(h, step).ids == h.ids
    ensures if MoverOf(h, step).Some? then CostSum(HubNext(h, step), h.ids) < CostSum(h, h.ids)
            else CostSum(HubNext(h, step), h.ids) == CostSum(h, h.ids)
  {
    hide BookInv, RelayInv, SysOf, Cost, HubNext, CanHub, MoverOf;
    var h' := HubNext(h, step);
    IdsAfter(h, step);
    NextKeepsBook(h, step);
    IdsKnown(h);
    IdsKnown(h');
    MoverIsKnown(h, step);
    forall id | id in h.ids && MoverOf(h, step) != Some(id) ensures Still(h, h', id) {
      OneMoves(h, step, id);
    }
    if MoverOf(h, step).Some? {
      var id := MoverOf(h, step).value;
      OneMoves(h, step, id);
      MovesKeepsRelay(h, h', id);
      SumFalls(h, h', h.ids, id);
    } else {
      SumIsStill(h, h', h.ids);
    }
  }

  lemma ExtraOf(h: Hub, step: HubStep)
    requires CanHub(h, step) && !step.Dial?
    ensures Extra(HubNext(h, step).m) <= Extra(h.m) + match step
            case Relay(_, _) => 0
            case Network(_) => if MoverOf(h, step).Some? then 1 else -1
            case _ => 2
  {
    hide MuxNext, Extra, CanSys, SysNext, CanMux, Mover;
    match step
    case Relay(id, s) => RunCostsNothing(h.m, RunOf(SysOf(h, id), id, s));
    case Network(s) => NetworkCosts(h.m, s);
    case KeepAlive(side, p) => PingCosts(h.m, side, p);
  }

  /** Every step takes at least 1 from the total, apart from what comes in from outside. */
  lemma HubStepLowers(h: Hub, step: HubStep)
    requires HubInv(h) && CanHub(h, step)
    ensures HubInv(HubNext(h, step)) && (step.Dial? ==> |step.target| <= MAX_TARGET)
    ensures Total(HubNext(h, step)) + 1 <= Total(h) + Budget(step)
  {
    NextKeepsHub(h, step);
    assert step.Relay? ==> MoverOf(h, step).Some?;
    assert step.KeepAlive? ==> MoverOf(h, step).None?;
    if step.Dial? {
      hide HubInv, HubNext, Total, Cost;
      OpenLowers(h, step.target, step.data);
    } else {
      hide BookInv, RelayInv, HubNext, CanHub, MoverOf, CostSum, Extra, Cost;
      OthersLower(h, step);
      ExtraOf(h, step);
    }
  }

  ghost predicate IsHubRun(h: Hub, steps: seq<HubStep>, h': Hub)
    decreases |steps|
  {
    if steps == [] then h == h'
    else CanHub(h, steps[0]) && IsHubRun(HubNext(h, steps[0]), steps[1..], h')
  }

  function Work(steps: seq<HubStep>): nat {
    if steps == [] then 0
    else (if steps[0].Dial? && |steps[0].target| > MAX_TARGET then 0 else Budget(steps[0])) + Work(steps[1..])
  }

  /** However the steps of all connections, of the read loops and of the acceptor are ordered, a
      run is no longer than the work that its opens and pings bring in, and what there was before. */
  lemma {:induction false} HubRunsAreBounded(h: Hub, steps: seq<HubStep>, h': Hub)
    requires HubInv(h) && IsHubRun(h, steps, h')
    ensures HubInv(h') && |steps| + Total(h') <= Total(h) + Work(steps)
    decreases |steps|
  {
    if steps != [] {
      hide HubInv, CanHub, HubNext, Total, Budget;
      HubStepLowers(h, steps[0]);
      HubRunsAreBounded(HubNext(h, steps[0]), steps[1..], h');
    }
  }

  /** A step of one connection, or a step that clears its way, is a step of the hub. */
  lemma RelayCan(h: Hub, id: nat, s: SysStep)
    requires id in h.outside && OfEnd(s) && CanSys(SysOf(h, id), s) && !h.m.closing.server && !h.m.closing.client
    ensures CanHub(h, Relay(id, s))
  {
    match Under(SysOf(h, id), s)
    case At(side, st) =>
      UnmadeIsStill(st);
      hide Enabled, Internal;
  }

  lemma DrainOfEnd(sys: Sys, side: Side, st: Step)
    requires Enabled(sys.l.ends.Of(side), st) && st in {OnRx(ReadPark), OnRx(ReadCredit), OnTx(WritePark)}
    ensures CanSys(sys, Inner(At(side, st)))
  {
    hide Enabled;
  }

  lemma DrainIsKnown(h: Hub, drain: MuxStep, id: nat)
    requires BookInv(h) && IsDrain(h.m, drain, id)
    ensures drain.Run? ==>
              && drain.id in h.outside && drain.step in {OnRx(ReadPark), OnRx(ReadCredit), OnTx(WritePark)}
              && Enabled(EndAt(h.m, drain.side, drain.id), drain.step)
    ensures !drain.Run? ==> OfNetwork(drain) && CanMux(h.m, drain)
  {
    if drain.Run? {
      LifeFacts(h.m, drain.id);
    }
    hide MuxInv, Enabled;
  }

  lemma DrainIsHubStep(h: Hub, drain: MuxStep, id: nat) returns (step: HubStep)
    requires BookInv(h) && IsDrain(h.m, drain, id)
    ensures CanHub(h, step) && (step.Relay? || step.Network?)
  {
    DrainIsKnown(h, drain, id);
    hide MuxInv, Enabled, CanSys, IsDrain, CanMux;
    if drain.Run? {
      var s := Inner(At(drain.side, drain.step));
      DrainOfEnd(SysOf(h, drain.id), drain.side, drain.step);
      RelayCan(h, drain.id, s);
      step := Relay(drain.id, s);
    } else {
      step := Network(drain);
    }
  }

  /** While one connection is not finished, the hub can move. */
  lemma HubProgress(h: Hub, id: nat) returns (step: HubStep)
    requires HubInv(h) && id in h.outside && !Finished(SysOf(h, id), h.outside[id].data)
    ensures CanHub(h, step) && (step.Relay? || step.Network?)
  {
    var sys := SysOf(h, id);
    hide RelayInv, Finished, MuxInv, CanSys, CanMux, CanStep, IsDrain, Waits, CanHub;
    var s := Progress(sys, h.outside[id].data);
    if OfEnd(s) {
      RelayCan(h, id, s);
      step := Relay(id, s);
    } else {
      InnerCan(sys, s);
      WaitsIsSeen(h.m, id);
      var drain := ReadyOrClear(h.m, s.step, id);
      if Ready(h.m, s.step, id) {
        LiftedCan(h, s.step, id);
        step := Network(Lifted(h.m, s.step, id));
      } else {
        step := DrainIsHubStep(h, drain, id);
      }
    }
  }

  lemma InnerCan(sys: Sys, s: SysStep)
    requires CanSys(sys, s) && !OfEnd(s)
    ensures CanStep(sys.l, s.step) && (s.step.Lookup? || s.step.Deliver? || s.step.Accept?)
  {
    hide CanStep;
  }

  lemma LiftedCan(h: Hub, step: LinkStep, id: nat)
    requires (step.Lookup? || step.Deliver? || step.Accept?) && Ready(h.m, step, id)
    ensures CanHub(h, Network(Lifted(h.m, step, id)))
  {
    hide CanMux, Seen;
  }

  /** Any number of connections, in every run from the start: once no relay, read loop or acceptor
      can take a step, every connection ever opened has delivered exactly its inputs and its ends
      of file in both directions, and its id is in neither map. The run was no longer than the
      work that came in. */
  lemma AllRelaysFinish(steps: seq<HubStep>, h: Hub, id: nat)
    requires IsHubRun(EMPTY_HUB, steps, h) && id in h.outside
    requires forall step :: CanHub(h, step) ==> !step.Relay? && !step.Network?
    ensures Finished(SysOf(h, id), h.outside[id].data) && |steps| <= Work(steps)
  {
    assert Total(EMPTY_HUB) == 0;
    hide HubInv, CanHub, HubNext, Finished, SysOf, Total, Work;
    EmptyHubInv();
    HubRunsAreBounded(EMPTY_HUB, steps, h);
    if !Finished(SysOf(h, id), h.outside[id].data) {
      var step := HubProgress(h, id);
    }
  }

  /** What the public connections of a run send and their targets answer, in the order in which they
      come in. */
  function Dialed(steps: seq<HubStep>): seq<Pair<seq<byte>>> {
    if steps == [] then [] else (if steps[0].Dial? then [steps[0].data] else []) + Dialed(steps[1..])
  }

  /** The connections of a hub are those in `all`, in that order. */
  ghost predicate Serves(h: Hub, all: seq<Pair<seq<byte>>>) {
    && |h.ids| == |all|
    && forall i :: 0 <= i < |all| ==> h.ids[i] in h.outside && h.outside[h.ids[i]].data == all[i]
  }

  lemma IdsGrow(h: Hub, step: HubStep)
    requires CanHub(h, step)
    ensures var h' := HubNext(h, step);
            && h'.ids == (if step.Dial? then h.ids + [h.m.nextID] else h.ids)
            && (step.Dial? ==> h.m.nextID in h'.outside && h'.outside[h.m.nextID].data == step.data)
  {
    hide MuxNext, SysNext;
  }

  lemma StepServes(h: Hub, step: HubStep, all: seq<Pair<seq<byte>>>)
    requires HubInv(h) && CanHub(h, step) && Serves(h, all)
    ensures Serves(HubNext(h, step), all + if step.Dial? then [step.data] else [])
  {
    hide HubInv, HubNext, CanHub;
    var h' := HubNext(h, step);
    IdsGrow(h, step);
    forall i | 0 <= i < |all| ensures h'.ids[i] in h'.outside && h'.outside[h'.ids[i]].data == all[i] {
      OneKeepsData(h, step, h.ids[i]);
    }
  }

  lemma OneKeepsData(h: Hub, step: HubStep, id: nat)
    requires HubInv(h) && CanHub(h, step) && id in h.outside
    ensures id in HubNext(h, step).outside && HubNext(h, step).outside[id].data == h.outside[id].data
  {
    OneMoves(h, step, id);
    hide BookInv, HubNext, CanHub, SysOf, MoverOf, RelayInv;
  }

  lemma {:induction false} RunServes(h: Hub, steps: seq<HubStep>, h': Hub, all: seq<Pair<seq<byte>>>)
    requires HubInv(h) && IsHubRun(h, steps, h') && Serves(h, all)
    ensures Serves(h', all + Dialed(steps))
    decreases |steps|
  {
    hide HubInv, CanHub, HubNext, Serves;
    if steps == [] {
      assert all + Dialed(steps) == all;
    } else {
      StepServes(h, steps[0], all);
      NextKeepsHub(h, steps[0]);
      var more := all + if steps[0].Dial? then [steps[0].data] else [];
      RunServes(HubNext(h, steps[0]), steps[1..], h', more);
      assert all + Dialed(steps) == more + Dialed(steps[1..]);
    }
  }

  /** The connections that finish are the ones that came in: one for each, with what its two sides
      were to send. */
  lemma EveryDialIsServed(steps: seq<HubStep>, h: Hub, i: nat)
    requires IsHubRun(EMPTY_HUB, steps, h) && i < |Dialed(steps)|
    requires forall step :: CanHub(h, step) ==> !step.Relay? && !step.Network?
    ensures |h.ids| == |Dialed(steps)| && h.ids[i] in h.outside
    ensures SysOf(h, h.ids[i]).out == Pair(Dialed(steps)[i].client, Dialed(steps)[i].server)
    ensures SysOf(h, h.ids[i]).eof == Pair(true, true)
  {
    hide HubInv, CanHub, HubNext, SysOf, Dialed, IsHubRun;
    EmptyHubInv();
    assert Serves(EMPTY_HUB, []);
    RunServes(EMPTY_HUB, steps, h, []);
    assert [] + Dialed(steps) == Dialed(steps);
    AllRelaysFinish(steps, h, h.ids[i]);
  }
}
