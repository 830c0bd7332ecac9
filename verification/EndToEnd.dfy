/** The relayed connection inside the mux: it completes whatever the other channels do. */
module EndToEnd {
  import opened Basics
  import opened ChannelEnd
  import opened Direction
  import opened Link
  import opened Mux
  import opened Isolation
  import opened RelaySystem

  /** From any reachable state of a relayed connection, a run to its end. */
  lemma {:induction false} Completion(sys: Sys, data: Pair<seq<byte>>) returns (steps: seq<LinkStep>, done: Sys)
    requires RelayInv(sys, data)
    ensures IsPromptRun(sys.l, steps, done.l) && RelayInv(done, data) && Finished(done, data)
    decreases Cost(sys)
  {
    hide RelayInv, Cost, Finished;
    if Finished(sys, data) {
      steps, done := [], sys;
    } else {
      var step := Progress(sys, data);
      StepLowers(sys, data, step);
      StepKeepsRelay(sys, data, step);
      var rest;
      rest, done := Completion(SysNext(sys, step), data);
      steps := [Under(sys, step)] + rest;
      assert steps[1..] == rest;
    }
  }

  /** A relayed connection in any state of its own, among channels in any state of theirs. */
  lemma RelayCompletesInMux(m: Mux, id: nat, sys: Sys, data: Pair<seq<byte>>) returns (steps: seq<MuxStep>, m': Mux)
    requires MuxInv(m) && RelayInv(sys, data) && Project(m, id) == sys.l
    ensures IsQuietRun(m, steps, m', id) && MuxInv(m')
    ensures EndAt(m', Client, id).rx.got == data.server && EndAt(m', Server, id).rx.got == data.client
    ensures !EndAt(m', Client, id).life.live && !EndAt(m', Server, id).life.live
    ensures forall other, side :: other != id ==> SameDeeds(EndAt(m, side, other), EndAt(m', side, other))
  {
    hide MuxInv, IsQuietRun;
    var run, done := Completion(sys, data);
    steps, m' := LiftRun(m, run, done.l, id);
    assert SideInv(done, data, Server) && SideInv(done, data, Client);
    assert done.l.ends.Of(Server).closer == CDone && done.l.ends.Of(Client).closer == CDone;
    forall other, side | other != id ensures SameDeeds(EndAt(m, side, other), EndAt(m', side, other)) {
      OthersRest(m, steps, m', id, other, side);
    }
  }

  /** The id that OpenChannel takes has nothing on the wires from before. */
  lemma NewChannelIsClean(m: Mux, target: seq<byte>, data: Pair<seq<byte>>)
    requires MuxInv(m) && CanMux(m, OpenChannel(target)) && m.up && m.closing == Pair(false, false)
    ensures Project(MuxNext(m, OpenChannel(target)), m.nextID) == Begin(target, data).l
  {
    hide DirInv, EndInv;
    NextIdIsFresh(m);
    StepIsSeen(m, OpenChannel(target), m.nextID);
    var l := Project(m, m.nextID);
    assert LinkInv(l);
    assert Flight(l, Client) == [];
    assert l == INIT;
  }

  /** Whatever state the mux and its other channels are in, as long as the control connection is
      up: a connection opened now is relayed to its end in both directions by a run in which no
      other channel reads a byte, sends one or gets closed. */
  lemma OpenedConnectionCompletes(m: Mux, target: seq<byte>, data: Pair<seq<byte>>)
    returns (begun: Mux, steps: seq<MuxStep>, m': Mux)
    requires MuxReachable(m) && m.up && m.closing == Pair(false, false) && m.opens < UINT32 && |target| <= MAX_TARGET
    ensures begun == MuxNext(m, OpenChannel(target)) && IsQuietRun(begun, steps, m', m.nextID)
    ensures EndAt(m', Client, m.nextID).rx.got == data.server && EndAt(m', Server, m.nextID).rx.got == data.client
    ensures !EndAt(m', Client, m.nextID).life.live && !EndAt(m', Server, m.nextID).life.live
    ensures forall other, side :: other != m.nextID ==> SameDeeds(EndAt(m, side, other), EndAt(m', side, other))
  {
    hide MuxInv, IsQuietRun;
    ReachableMuxInv(m);
    begun := MuxNext(m, OpenChannel(target));
    StepKeepsMux(m, OpenChannel(target));
    NewChannelIsClean(m, target, data);
    BeginInv(target, data);
    steps, m' := RelayCompletesInMux(begun, m.nextID, Begin(target, data), data);
  }
}
