/** The server's table of shared listeners (relay/remoteserver.go), as steps that each hold
    `rs.mu` or `sl.mu` once. Detach and Close are several steps, so others come in between. */
module Listeners {
  import opened Basics
  import opened RoundRobin

  datatype Key = Key(port: nat, bind: seq<byte>)

  /** A sharedListener object. */
  datatype Listener = Listener(key: Key, ring: Ring, closed: bool)

  /** What a goroutine in the middle of detachSharedListener or RemoteServer.Close still has to do. */
  datatype Task =
    | CloseListener(sl: nat)   // detach: sl.Close(), then
    | DropEntry(sl: nat)       // detach: delete the table entry if it is still sl
    | ShutListener(sl: nat)    // RemoteServer.Close: sl.Close() for one listener of the snapshot
    | ShutConn(cc: nat)        // RemoteServer.Close: cc.Close() for one connection of the snapshot

  /** `all` has every listener object ever made; `tasks` is a multiset of unfinished calls;
      `conns` are the tracked control connections and `dead` those that Close has closed. */
  datatype ServerState = ServerState(all: map<nat, Listener>, table: map<Key, nat>, closed: bool,
                                     tasks: multiset<Task>, conns: set<nat>, dead: set<nat>)

  const INITIAL := ServerState(map[], map[], false, multiset{}, {}, {})

  /** In Attach, `id` names the new object, if one is made, and `bound` says whether listening on
      the port succeeds. */
  datatype ServerStep =
    | Attach(key: Key, cc: nat, target: seq<byte>, id: nat, bound: bool)  // attachSharedListener
    | Detach(sl: nat, cc: nat)                                  // detachSharedListener, under sl.mu
    | Dispatch(sl: nat)                                         // dispatch, under sl.mu
    | Finish(task: Task)                                        // the next section of an unfinished call
    | Track(cc: nat)                                            // trackConn
    | Untrack(cc: nat)                                          // untrackConn
    | CloseServer                                               // RemoteServer.Close, under rs.mu

  predicate CanServe(s: ServerState, step: ServerStep) {
    match step
    case Attach(_, _, _, id, _) => id !in s.all
    case Detach(sl, _) => sl in s.all
    case Dispatch(sl) => sl in s.all
    case Finish(task) => task in s.tasks
    case _ => true
  }

  /** There is an open listener for `key` that attach joins. */
  predicate Joins(s: ServerState, key: Key) {
    key in s.table && s.table[key] in s.all && !s.all[s.table[key]].closed
  }

  function NewListener(key: Key, cc: nat, target: seq<byte>): Listener {
    Listener(key, RoundRobin.Attach(EMPTY, cc, target), false)
  }

  function SetRing(s: ServerState, sl: nat, ring: Ring): ServerState
    requires sl in s.all
  {
    s.(all := s.all[sl := s.all[sl].(ring := ring)])
  }

  function Shut(s: ServerState, sl: nat): ServerState {
    if sl in s.all then s.(all := s.all[sl := s.all[sl].(closed := true)]) else s
  }

  function Drop(s: ServerState, sl: nat): ServerState {
    if sl in s.all && s.all[sl].key in s.table && s.table[s.all[sl].key] == sl
    then s.(table := s.table - {s.all[sl].key}) else s
  }

  function Add(s: ServerState, task: Task): ServerState {
    s.(tasks := s.tasks + multiset{task})
  }

  function Remove(s: ServerState, task: Task): ServerState {
    s.(tasks := s.tasks - multiset{task})
  }

  function ShutTasks(sls: set<nat>, ccs: set<nat>): multiset<Task> {
    multiset(set sl | sl in sls :: ShutListener(sl)) + multiset(set cc | cc in ccs :: ShutConn(cc))
  }

  function Create(s: ServerState, key: Key, id: nat, l: Listener): ServerState {
    s.(all := s.all[id := l], table := s.table[key := id])
  }

  function AttachTo(s: ServerState, key: Key, cc: nat, target: seq<byte>, id: nat, bound: bool): ServerState {
    if s.closed then s
    else if Joins(s, key) then SetRing(s, s.table[key], RoundRobin.Attach(s.all[s.table[key]].ring, cc, target))
    else if bound then Create(s, key, id, NewListener(key, cc, target))
    else s.(table := s.table - {key})
  }

  function DetachFrom(s: ServerState, sl: nat, cc: nat): ServerState
    requires sl in s.all
  {
    if cc !in s.all[sl].ring.conns then s
    else
      var ring := RoundRobin.Detach(s.all[sl].ring, cc);
      if ring.order == [] then Add(SetRing(s, sl, ring), CloseListener(sl)) else SetRing(s, sl, ring)
  }

  function FinishTask(s: ServerState, task: Task): ServerState {
    match task
    case CloseListener(sl) => Add(Shut(Remove(s, task), sl), DropEntry(sl))
    case DropEntry(sl) => Drop(Remove(s, task), sl)
    case ShutListener(sl) => Shut(Remove(s, task), sl)
    case ShutConn(cc) => Remove(s, task).(dead := s.dead + {cc})
  }

  function ServerNext(s: ServerState, step: ServerStep): ServerState
    requires CanServe(s, step)
  {
    match step
    case Attach(key, cc, target, id, bound) => AttachTo(s, key, cc, target, id, bound)
    case Detach(sl, cc) => DetachFrom(s, sl, cc)
    case Dispatch(sl) => SetRing(s, sl, RoundRobin.Dispatch(s.all[sl].ring).1)
    case Finish(task) => FinishTask(s, task)
    case Track(cc) => if s.closed then s else s.(conns := s.conns + {cc})
    case Untrack(cc) => s.(conns := s.conns - {cc})
    case CloseServer =>
      if s.closed then s else s.(closed := true, tasks := s.tasks + ShutTasks(s.table.Values, s.conns))
  }

  lemma DropMeans(s: ServerState, sl: nat)
    requires sl in s.all
    ensures FinishTask(s, DropEntry(sl)) ==
              s.(tasks := s.tasks - multiset{DropEntry(sl)},
                 table := if IsEntry(s, sl) then s.table - {s.all[sl].key} else s.table)
  {
  }

  lemma DetachMeans(s: ServerState, sl: nat, cc: nat)
    requires sl in s.all
    ensures var ring := RoundRobin.Detach(s.all[sl].ring, cc);
            DetachFrom(s, sl, cc) ==
              if cc !in s.all[sl].ring.conns then s
              else s.(all := s.all[sl := s.all[sl].(ring := ring)],
                      tasks := if ring.order == [] then s.tasks + multiset{CloseListener(sl)} else s.tasks)
  {
    hide RoundRobin.Detach;
  }

  lemma CloseMeans(s: ServerState, sl: nat)
    requires sl in s.all
    ensures FinishTask(s, CloseListener(sl)) ==
              s.(all := s.all[sl := s.all[sl].(closed := true)],
                 tasks := s.tasks - multiset{CloseListener(sl)} + multiset{DropEntry(sl)})
  {
  }

  predicate IsOpen(s: ServerState, sl: nat) {
    sl in s.all && !s.all[sl].closed
  }

  /** The table entry for the key of `sl` is `sl`. */
  predicate IsEntry(s: ServerState, sl: nat)
    requires sl in s.all
  {
    s.all[sl].key in s.table && s.table[s.all[sl].key] == sl
  }

  /** Open listeners are table entries, and table entries are listeners under their own key. */
  ghost predicate EntryInv(s: ServerState) {
    && (forall sl :: IsOpen(s, sl) ==> IsEntry(s, sl))
    && (forall k :: k in s.table ==> s.table[k] in s.all && s.all[s.table[k]].key == k)
  }

  /** A listener whose entry is about to be dropped is closed already. */
  ghost predicate TaskInv(s: ServerState) {
    && (forall sl :: CloseListener(sl) in s.tasks || ShutListener(sl) in s.tasks ==> sl in s.all)
    && (forall sl :: DropEntry(sl) in s.tasks ==> sl in s.all && s.all[sl].closed)
  }

  /** Once the server is closed, every open listener and every tracked live connection is about
      to be shut. */
  ghost predicate ClosedInv(s: ServerState) {
    s.closed ==>
      && (forall sl :: IsOpen(s, sl) ==> ShutListener(sl) in s.tasks)
      && (forall cc :: cc in s.conns ==> cc in s.dead || ShutConn(cc) in s.tasks)
  }

  ghost predicate RingsInv(s: ServerState) {
    forall sl :: sl in s.all ==> RingInv(s.all[sl].ring)
  }

  ghost predicate TableInv(s: ServerState) {
    EntryInv(s) && TaskInv(s) && ClosedInv(s) && RingsInv(s)
  }

  lemma InitialInv()
    ensures TableInv(INITIAL)
  {
  }

  lemma SetRingKeeps(s: ServerState, sl: nat, ring: Ring)
    requires TableInv(s) && sl in s.all && RingInv(ring)
    ensures TableInv(SetRing(s, sl, ring))
  {
    hide RingInv;
    var s' := SetRing(s, sl, ring);
    assert forall x :: x in s'.all ==> s'.all[x].key == s.all[x].key && s'.all[x].closed == s.all[x].closed;
    assert forall x :: IsOpen(s', x) == IsOpen(s, x);
    assert forall x :: x in s.all ==> IsEntry(s', x) == IsEntry(s, x);
  }

  lemma ShutKeepsTable(s: ServerState, task: Task, sl: nat)
    requires TableInv(s) && sl in s.all && (task == ShutListener(sl) || task == CloseListener(sl))
    ensures var s' := Shut(Remove(s, task), sl); EntryInv(s') && ClosedInv(s')
  {
    hide RingsInv, TaskInv;
    var s' := Shut(Remove(s, task), sl);
    assert forall x :: x in s'.all ==> s'.all[x].key == s.all[x].key;
    forall x | IsOpen(s', x) ensures IsOpen(s, x) && x != sl {
    }
    forall x | IsOpen(s', x) ensures IsEntry(s', x) {
      assert IsEntry(s, x);
    }
    assert forall x :: ShutConn(x) in s.tasks ==> ShutConn(x) in s'.tasks;
  }

  lemma ShutKeepsTasks(s: ServerState, task: Task, sl: nat)
    requires TableInv(s) && sl in s.all
    ensures var s' := Shut(Remove(s, task), sl); TaskInv(s') && RingsInv(s')
  {
    hide RingInv, EntryInv, ClosedInv;
    var s' := Shut(Remove(s, task), sl);
    assert s'.all == s.all[sl := s.all[sl].(closed := true)];
    assert forall x :: x in s'.all ==> s'.all[x].ring == s.all[x].ring;
    assert s'.tasks <= s.tasks;
  }

  lemma ShutKeeps(s: ServerState, task: Task, sl: nat)
    requires TableInv(s) && sl in s.all && (task == ShutListener(sl) || task == CloseListener(sl))
    ensures TableInv(Shut(Remove(s, task), sl))
  {
    hide EntryInv, TaskInv, ClosedInv, RingsInv, Shut, Remove;
    ShutKeepsTable(s, task, sl);
    ShutKeepsTasks(s, task, sl);
  }

  /** What Shut and Drop leave alone. */
  lemma ShutFrame(s: ServerState, sl: nat)
    ensures Shut(s, sl) == s.(all := Shut(s, sl).all) && Shut(s, sl).all.Keys == s.all.Keys
  {
  }

  lemma DropFrame(s: ServerState, sl: nat)
    ensures Drop(s, sl) == s.(table := Drop(s, sl).table)
  {
  }

  lemma DropKeepsEntries(s: ServerState, sl: nat)
    requires EntryInv(s) && sl in s.all && s.all[sl].closed
    ensures EntryInv(Drop(s, sl))
  {
    var s' := Drop(s, sl);
    forall x | IsOpen(s', x) ensures IsEntry(s', x) {
      assert IsOpen(s, x) && IsEntry(s, x);
    }
  }

  lemma DropKeeps(s: ServerState, sl: nat)
    requires TableInv(s) && sl in s.all && s.all[sl].closed
    ensures TableInv(Drop(Remove(s, DropEntry(sl)), sl))
  {
    var rest := Remove(s, DropEntry(sl));
    BookKeeps(s, rest.tasks, s.conns, s.dead);
    assert rest == s.(tasks := rest.tasks, conns := s.conns, dead := s.dead);
    DropFrame(rest, sl);
    hide Drop;
    DropKeepsEntries(rest, sl);
    hide EntryInv, RingInv;
  }

  lemma AddKeeps(s: ServerState, task: Task)
    requires TableInv(s)
    requires match task case CloseListener(sl) => sl in s.all case DropEntry(sl) => sl in s.all && s.all[sl].closed case _ => false
    ensures TableInv(Add(s, task))
  {
    hide RingInv;
    var s' := Add(s, task);
    assert forall x :: IsOpen(s', x) == IsOpen(s, x);
    assert forall x :: x in s.all ==> IsEntry(s', x) == IsEntry(s, x);
  }

  lemma CreateKeepsTable(s: ServerState, key: Key, id: nat, l: Listener)
    requires EntryInv(s) && id !in s.all && !Joins(s, key) && l.key == key
    ensures EntryInv(Create(s, key, id, l))
  {
    var s' := Create(s, key, id, l);
    forall x | IsOpen(s', x) ensures IsEntry(s', x) {
      if x != id {
        assert IsOpen(s, x) && IsEntry(s, x);
      }
    }
  }

  lemma CreateKeeps(s: ServerState, key: Key, id: nat, l: Listener)
    requires TableInv(s) && !s.closed && id !in s.all && !Joins(s, key) && l.key == key && RingInv(l.ring)
    ensures TableInv(Create(s, key, id, l))
  {
    hide RingInv, EntryInv;
    CreateKeepsTable(s, key, id, l);
  }

  lemma StaleKeeps(s: ServerState, key: Key)
    requires TableInv(s) && !Joins(s, key)
    ensures TableInv(s.(table := s.table - {key}))
  {
    hide RingInv;
    var s' := s.(table := s.table - {key});
    forall x | IsOpen(s', x) ensures IsEntry(s', x) {
      assert IsOpen(s, x) && IsEntry(s, x);
    }
  }

  lemma OpenInTable(s: ServerState, sl: nat)
    requires EntryInv(s)
    ensures IsOpen(s, sl) ==> sl in s.table.Values
    ensures sl in s.table.Values ==> sl in s.all
  {
  }

  lemma CloseKeepsEntries(s: ServerState)
    requires EntryInv(s) && RingsInv(s)
    ensures EntryInv(ServerNext(s, CloseServer)) && RingsInv(ServerNext(s, CloseServer))
  {
    hide RingInv;
    var s' := ServerNext(s, CloseServer);
    assert forall x :: IsOpen(s', x) == IsOpen(s, x);
    assert forall x :: x in s.all ==> IsEntry(s', x) == IsEntry(s, x);
  }

  lemma ShutTasksAre(sls: set<nat>, ccs: set<nat>)
    ensures forall x :: ShutListener(x) in ShutTasks(sls, ccs) <==> x in sls
    ensures forall x :: ShutConn(x) in ShutTasks(sls, ccs) <==> x in ccs
    ensures forall x :: CloseListener(x) !in ShutTasks(sls, ccs) && DropEntry(x) !in ShutTasks(sls, ccs)
  {
  }

  lemma CloseKeepsTasks(s: ServerState)
    requires EntryInv(s) && TaskInv(s) && !s.closed
    ensures TaskInv(ServerNext(s, CloseServer)) && ClosedInv(ServerNext(s, CloseServer))
  {
    var sls := s.table.Values;
    ShutTasksAre(sls, s.conns);
    hide EntryInv, ShutTasks, AttachTo, DetachFrom, FinishTask, RoundRobin.Dispatch;
    forall sl ensures (IsOpen(s, sl) ==> sl in sls) && (sl in sls ==> sl in s.all) {
      OpenInTable(s, sl);
    }
  }

  lemma CloseKeeps(s: ServerState)
    requires TableInv(s)
    ensures TableInv(ServerNext(s, CloseServer))
  {
    hide EntryInv, TaskInv, ClosedInv, RingsInv;
    CloseKeepsEntries(s);
    if !s.closed {
      CloseKeepsTasks(s);
    }
  }

  lemma BookKeeps(s: ServerState, tasks: multiset<Task>, conns: set<nat>, dead: set<nat>)
    requires TableInv(s) && tasks <= s.tasks
    requires forall sl :: ShutListener(sl) in s.tasks ==> ShutListener(sl) in tasks
    requires forall cc :: cc in conns && s.closed ==> cc in dead || ShutConn(cc) in tasks
    ensures TableInv(s.(tasks := tasks, conns := conns, dead := dead))
  {
    hide RingInv;
    var s' := s.(tasks := tasks, conns := conns, dead := dead);
    assert forall x :: IsOpen(s', x) == IsOpen(s, x);
    assert forall x :: x in s.all ==> IsEntry(s', x) == IsEntry(s, x);
  }

  lemma FinishKeeps(s: ServerState, task: Task)
    requires TableInv(s) && task in s.tasks
    ensures TableInv(FinishTask(s, task))
  {
    match task
    case CloseListener(sl) =>
      ShutKeeps(s, task, sl);
      AddKeeps(Shut(Remove(s, task), sl), DropEntry(sl));
    case DropEntry(sl) => DropKeeps(s, sl);
    case ShutListener(sl) => ShutKeeps(s, task, sl);
    case ShutConn(cc) => BookKeeps(s, s.tasks - multiset{task}, s.conns, s.dead + {cc});
  }

  lemma AttachKeeps(s: ServerState, key: Key, cc: nat, target: seq<byte>, id: nat, bound: bool)
    requires TableInv(s) && id !in s.all
    ensures TableInv(AttachTo(s, key, cc, target, id, bound))
  {
    if s.closed {
    } else if Joins(s, key) {
      var ring := s.all[s.table[key]].ring;
      AttachKeepsInv(ring, cc, target);
      hide TableInv, SetRing, RoundRobin.Attach;
      SetRingKeeps(s, s.table[key], RoundRobin.Attach(ring, cc, target));
    } else {
      AttachKeepsInv(EMPTY, cc, target);
      hide TableInv, RingInv, RoundRobin.Attach;
      StaleKeeps(s, key);
      CreateKeeps(s, key, id, NewListener(key, cc, target));
    }
  }

  lemma DetachKeeps(s: ServerState, sl: nat, cc: nat)
    requires TableInv(s) && sl in s.all
    ensures TableInv(DetachFrom(s, sl, cc))
  {
    DetachKeepsInv(s.all[sl].ring, cc);
    var ring := RoundRobin.Detach(s.all[sl].ring, cc);
    SetRingKeeps(s, sl, ring);
    AddKeeps(SetRing(s, sl, ring), CloseListener(sl));
  }

  lemma ServerKeepsInv(s: ServerState, step: ServerStep)
    requires TableInv(s) && CanServe(s, step)
    ensures TableInv(ServerNext(s, step))
  {
    match step
    case Attach(key, cc, target, id, bound) => AttachKeeps(s, key, cc, target, id, bound);
    case Detach(sl, cc) => DetachKeeps(s, sl, cc);
    case Dispatch(sl) =>
      RingStepKeepsInv(s.all[sl].ring, Serve);
      SetRingKeeps(s, sl, RoundRobin.Dispatch(s.all[sl].ring).1);
    case Finish(task) => FinishKeeps(s, task);
    case Track(cc) =>
      if !s.closed {
        BookKeeps(s, s.tasks, s.conns + {cc}, s.dead);
      }
    case Untrack(cc) => BookKeeps(s, s.tasks, s.conns - {cc}, s.dead);
    case CloseServer => CloseKeeps(s);
  }

  ghost predicate IsServerRun(s: ServerState, steps: seq<ServerStep>, s': ServerState)
    decreases |steps|
  {
    if steps == [] then s == s'
    else CanServe(s, steps[0]) && IsServerRun(ServerNext(s, steps[0]), steps[1..], s')
  }

  lemma {:induction false} ServerRunKeepsInv(s: ServerState, steps: seq<ServerStep>, s': ServerState)
    requires TableInv(s) && IsServerRun(s, steps, s')
    ensures TableInv(s')
    decreases |steps|
  {
    hide TableInv, CanServe, ServerNext;
    if steps != [] {
      ServerKeepsInv(s, steps[0]);
      ServerRunKeepsInv(ServerNext(s, steps[0]), steps[1..], s');
    }
  }

  /** Table safety: in every run of the server, an open listener is the table's entry for its key,
      so there is at most one open listener for a port and bind address. */
  lemma OpenIsTheEntry(steps: seq<ServerStep>, s: ServerState, sl: nat)
    requires IsServerRun(INITIAL, steps, s) && IsOpen(s, sl)
    ensures IsEntry(s, sl) && forall x :: IsOpen(s, x) && s.all[x].key == s.all[sl].key ==> x == sl
  {
    InitialInv();
    ServerRunKeepsInv(INITIAL, steps, s);
    hide RingsInv, TaskInv, ClosedInv;
    forall x | IsOpen(s, x) && s.all[x].key == s.all[sl].key ensures x == sl {
      assert IsEntry(s, x) && IsEntry(s, sl);
    }
  }

  /** The first RemoteServer.Close call has returned: nothing of its snapshot is left to shut. */
  ghost predicate CloseReturned(s: ServerState) {
    s.closed && forall x :: ShutListener(x) !in s.tasks && ShutConn(x) !in s.tasks
  }

  /** What attach, detach and dispatch leave alone when the server is closed. */
  lemma ClosedDetach(s: ServerState, sl: nat, cc: nat)
    requires sl in s.all
    ensures var s' := DetachFrom(s, sl, cc);
            && s'.all.Keys == s.all.Keys && s'.closed == s.closed && s'.conns == s.conns
            && (s'.tasks == s.tasks || s'.tasks == s.tasks + multiset{CloseListener(sl)})
  {
    hide RoundRobin.Detach;
  }

  lemma ClosedStep(s: ServerState, step: ServerStep)
    requires CloseReturned(s) && CanServe(s, step)
    ensures CloseReturned(ServerNext(s, step)) && ServerNext(s, step).conns <= s.conns
    ensures ServerNext(s, step).all.Keys == s.all.Keys
  {
    match step
    case Attach(_, _, _, _, _) =>
    case Detach(sl, cc) =>
      hide DetachFrom;
      ClosedDetach(s, sl, cc);
    case Dispatch(sl) =>
      hide RoundRobin.Dispatch;
    case _ => ClosedOther(s, step);
  }

  lemma ClosedOther(s: ServerState, step: ServerStep)
    requires CloseReturned(s) && CanServe(s, step) && !step.Attach? && !step.Detach? && !step.Dispatch?
    ensures CloseReturned(ServerNext(s, step)) && ServerNext(s, step).conns <= s.conns
    ensures ServerNext(s, step).all.Keys == s.all.Keys
  {
    hide RoundRobin.Dispatch, AttachTo, DetachFrom, FinishTask;
    if step.Finish? {
      FinishLeaves(s, step.task);
    }
  }

  /** The sections of unfinished calls make no listener and only DropEntry tasks. */
  lemma FinishLeaves(s: ServerState, task: Task)
    ensures var s' := FinishTask(s, task);
            && s'.closed == s.closed && s'.conns == s.conns && s'.all.Keys == s.all.Keys
            && forall t :: t in s'.tasks ==> t in s.tasks || t.DropEntry?
  {
    hide Shut, Drop;
    match task
    case CloseListener(sl) => ShutFrame(Remove(s, task), sl);
    case DropEntry(sl) => DropFrame(Remove(s, task), sl);
    case ShutListener(sl) => ShutFrame(Remove(s, task), sl);
    case ShutConn(_) =>
  }

  lemma {:induction false} ClosedRun(s: ServerState, steps: seq<ServerStep>, s': ServerState)
    requires CloseReturned(s) && IsServerRun(s, steps, s')
    ensures CloseReturned(s') && s'.conns <= s.conns && s'.all.Keys == s.all.Keys
    decreases |steps|
  {
    hide CloseReturned, CanServe, ServerNext;
    if steps != [] {
      ClosedStep(s, steps[0]);
      ClosedRun(ServerNext(s, steps[0]), steps[1..], s');
    }
  }

  /** Once the first Close call has returned, no listener is open, none is ever made or opened
      again, no connection is ever tracked again, and every connection still tracked is closed. */
  lemma CloseIsFinal(before: seq<ServerStep>, s: ServerState, steps: seq<ServerStep>, s': ServerState)
    requires IsServerRun(INITIAL, before, s) && CloseReturned(s) && IsServerRun(s, steps, s')
    ensures (forall sl :: !IsOpen(s', sl)) && s'.all.Keys == s.all.Keys
    ensures s'.conns <= s.conns && s'.conns <= s'.dead
  {
    InitialInv();
    ServerRunKeepsInv(INITIAL, before, s);
    ServerRunKeepsInv(s, steps, s');
    ClosedRun(s, steps, s');
  }

  /** Connections are attached to open listeners only, and no such listener is about to be closed. */
  ghost predicate Attached(s: ServerState) {
    forall sl :: sl in s.all && s.all[sl].ring.order != [] ==> !s.all[sl].closed && CloseListener(sl) !in s.tasks
  }

  /** An attach that comes between the two sections of a detach: it joins a listener that a
      detach has emptied and is about to close. */
  predicate JoinsDoomed(s: ServerState, step: ServerStep) {
    step.Attach? && !s.closed && Joins(s, step.key) && CloseListener(s.table[step.key]) in s.tasks
  }

  lemma AttachedJoin(s: ServerState, sl: nat, ring: Ring)
    requires Attached(s) && sl in s.all && !s.all[sl].closed && ring.order != []
    ensures Attached(SetRing(s, sl, ring)) <==> CloseListener(sl) !in s.tasks
  {
    var s' := SetRing(s, sl, ring);
    assert s'.all[sl].ring.order != [];
    forall x | x in s'.all && x != sl && s'.all[x].ring.order != [] ensures !s'.all[x].closed && CloseListener(x) !in s'.tasks {
      assert s.all[x].ring.order != [];
    }
  }

  lemma AttachedNew(s: ServerState, key: Key, id: nat, l: Listener)
    requires Attached(s) && TaskInv(s) && id !in s.all && !l.closed
    ensures Attached(Create(s, key, id, l)) && Attached(s.(table := s.table - {key}))
  {
    var s' := Create(s, key, id, l);
    forall x | x in s'.all && s'.all[x].ring.order != [] ensures !s'.all[x].closed && CloseListener(x) !in s'.tasks {
      assert x == id || s.all[x].ring.order != [];
    }
  }

  lemma AttachFills(r: Ring, cc: nat, target: seq<byte>)
    requires RingInv(r)
    ensures RoundRobin.Attach(r, cc, target).order != []
  {
  }

  lemma AttachedAttach(s: ServerState, key: Key, cc: nat, target: seq<byte>, id: nat, bound: bool)
    requires TableInv(s) && Attached(s) && id !in s.all && !s.closed
    ensures Attached(AttachTo(s, key, cc, target, id, bound)) <==> !JoinsDoomed(s, Attach(key, cc, target, id, bound))
  {
    hide Attached, SetRing, Create, RoundRobin.Attach, RingInv, EntryInv, ClosedInv;
    if Joins(s, key) {
      var ring := s.all[s.table[key]].ring;
      AttachFills(ring, cc, target);
      AttachedJoin(s, s.table[key], RoundRobin.Attach(ring, cc, target));
    } else {
      AttachedNew(s, key, id, NewListener(key, cc, target));
    }
  }

  /** Exactly such an attach breaks `Attached` while the server is up. */
  lemma AttachedStep(s: ServerState, step: ServerStep)
    requires TableInv(s) && Attached(s) && CanServe(s, step) && !s.closed && step != CloseServer
    requires forall sl :: ShutListener(sl) !in s.tasks
    ensures Attached(ServerNext(s, step)) <==> !JoinsDoomed(s, step)
    ensures !ServerNext(s, step).closed && forall sl :: ShutListener(sl) !in ServerNext(s, step).tasks
  {
    StillUp(s, step);
    match step
    case Attach(key, cc, target, id, bound) =>
      hide TableInv, Attached, AttachTo;
      AttachedAttach(s, key, cc, target, id, bound);
    case _ =>
      hide Attached, AttachTo, DetachFrom, FinishTask;
      AttachedOther(s, step);
  }

  lemma AttachedRing(s: ServerState, sl: nat, ring: Ring)
    requires Attached(s) && sl in s.all && (s.all[sl].ring.order == [] ==> ring.order == [])
    ensures Attached(SetRing(s, sl, ring))
  {
    var s' := SetRing(s, sl, ring);
    forall x | x in s'.all && s'.all[x].ring.order != [] ensures !s'.all[x].closed && CloseListener(x) !in s'.tasks {
      assert s.all[x].ring.order != [];
    }
  }

  lemma AttachedDetach(s: ServerState, sl: nat, cc: nat)
    requires Attached(s) && sl in s.all && RingInv(s.all[sl].ring)
    ensures Attached(DetachFrom(s, sl, cc))
  {
    var ring := RoundRobin.Detach(s.all[sl].ring, cc);
    if cc in s.all[sl].ring.conns {
      assert cc in s.all[sl].ring.order;
      AttachedRing(s, sl, ring);
    }
  }

  lemma AttachedShut(s: ServerState, sl: nat)
    requires Attached(s) && TaskInv(s) && CloseListener(sl) in s.tasks
    ensures Attached(FinishTask(s, CloseListener(sl)))
  {
    CloseMeans(s, sl);
    hide FinishTask;
    var s' := FinishTask(s, CloseListener(sl));
    forall x | x in s'.all && s'.all[x].ring.order != [] ensures !s'.all[x].closed && CloseListener(x) !in s'.tasks {
      assert s.all[x].ring.order != [] && x != sl;
    }
  }

  lemma AttachedFinish(s: ServerState, task: Task)
    requires Attached(s) && TaskInv(s) && task in s.tasks && !task.ShutListener?
    ensures Attached(ServerNext(s, Finish(task)))
  {
    hide AttachTo, DetachFrom, RoundRobin.Dispatch, Shut, TaskInv;
    match task
    case CloseListener(sl) =>
      hide FinishTask, Attached;
      AttachedShut(s, sl);
    case DropEntry(sl) =>
      DropFrame(Remove(s, task), sl);
      hide Drop;
    case ShutConn(_) =>
  }

  lemma AttachedOther(s: ServerState, step: ServerStep)
    requires TableInv(s) && Attached(s) && CanServe(s, step) && !s.closed && step != CloseServer && !step.Attach?
    requires !(step.Finish? && step.task.ShutListener?)
    ensures Attached(ServerNext(s, step))
  {
    match step
    case Detach(sl, cc) => AttachedDetach(s, sl, cc);
    case Dispatch(sl) => AttachedRing(s, sl, RoundRobin.Dispatch(s.all[sl].ring).1);
    case Finish(task) => AttachedFinish(s, task);
    case _ =>
  }

  lemma StillUp(s: ServerState, step: ServerStep)
    requires CanServe(s, step) && !s.closed && step != CloseServer && forall sl :: ShutListener(sl) !in s.tasks
    ensures !ServerNext(s, step).closed && forall sl :: ShutListener(sl) !in ServerNext(s, step).tasks
  {
    hide RoundRobin.Dispatch, AttachTo, DetachFrom, FinishTask;
    match step
    case Attach(key, cc, target, id, bound) => AttachHasNoTask(s, key, cc, target, id, bound);
    case Detach(sl, cc) => ClosedDetach(s, sl, cc);
    case Finish(task) => FinishLeaves(s, task);
    case _ =>
  }

  lemma AttachHasNoTask(s: ServerState, key: Key, cc: nat, target: seq<byte>, id: nat, bound: bool)
    ensures var s' := AttachTo(s, key, cc, target, id, bound); s'.tasks == s.tasks && s'.closed == s.closed
  {
    hide RoundRobin.Attach;
  }

  /** A run in which no attach joins a listener that is about to be closed. */
  ghost predicate Spared(s: ServerState, steps: seq<ServerStep>)
    decreases |steps|
  {
    steps == [] || (CanServe(s, steps[0]) && !JoinsDoomed(s, steps[0]) && Spared(ServerNext(s, steps[0]), steps[1..]))
  }

  lemma {:induction false} SparedRun(s: ServerState, steps: seq<ServerStep>, s': ServerState)
    requires TableInv(s) && Attached(s) && !s.closed && (forall sl :: ShutListener(sl) !in s.tasks)
    requires IsServerRun(s, steps, s') && Spared(s, steps) && CloseServer !in steps
    ensures Attached(s')
    decreases |steps|
  {
    hide TableInv, Attached, CanServe, ServerNext, JoinsDoomed;
    if steps != [] {
      assert steps[0] != CloseServer;
      ServerKeepsInv(s, steps[0]);
      AttachedStep(s, steps[0]);
      SparedRun(ServerNext(s, steps[0]), steps[1..], s');
    }
  }

  /** While the server is up, and if no attach slips in between the two sections of a detach, an
      attached connection always has an open listener. */
  lemma AttachedListenersAreOpen(steps: seq<ServerStep>, s: ServerState, sl: nat, cc: nat)
    requires IsServerRun(INITIAL, steps, s) && Spared(INITIAL, steps) && CloseServer !in steps
    requires sl in s.all && cc in s.all[sl].ring.conns
    ensures IsOpen(s, sl)
  {
    InitialInv();
    ServerRunKeepsInv(INITIAL, steps, s);
    SparedRun(INITIAL, steps, s);
    assert RingInv(s.all[sl].ring);
    assert cc in s.all[sl].ring.order;
  }

  /** And if one does slip in, it loses its listener: the detach then goes on to close it. */
  lemma DoomedAttachIsLost(s: ServerState, step: ServerStep)
    requires TableInv(s) && CanServe(s, step) && JoinsDoomed(s, step)
    ensures var sl, s1 := s.table[step.key], ServerNext(s, step);
            && CanServe(s1, Finish(CloseListener(sl)))
            && var s2 := ServerNext(s1, Finish(CloseListener(sl)));
               sl in s2.all && step.cc in s2.all[sl].ring.conns && s2.all[sl].closed
  {
  }

  /** It can happen. */
  lemma DoomedAttachHappens(key: Key, target: seq<byte>)
    ensures exists steps, s, sl, cc ::
              && IsServerRun(INITIAL, steps, s) && !s.closed
              && sl in s.all && cc in s.all[sl].ring.conns && s.all[sl].closed
  {
    var first, leave := Attach(key, 1, target, 0, true), Detach(0, 1);
    var late, close := Attach(key, 2, target, 1, true), Finish(CloseListener(0));
    var s1 := ServerNext(INITIAL, first);
    var s2 := ServerNext(s1, leave);
    assert s2.all[0] == Listener(key, Ring(map[], [], 0), false) && CloseListener(0) in s2.tasks by {
      assert s1.all[0].ring == Ring(map[1 := target], [1], 0);
      assert IndexOf([1], 1) == 0;
    }
    assert s2.table[key] == 0 && !s2.closed;
    var s3, s4 := DoomedAttachAfter(s2, key, target);
    RunFour(INITIAL, first, leave, late, close, s1, s2, s3, s4);
  }

  lemma DoomedAttachAfter(s: ServerState, key: Key, target: seq<byte>) returns (s3: ServerState, s4: ServerState)
    requires s.all.Keys == {0} && s.all[0] == Listener(key, Ring(map[], [], 0), false) && CloseListener(0) in s.tasks
    requires key in s.table && s.table[key] == 0 && !s.closed
    ensures s3 == AttachTo(s, key, 2, target, 1, true) && CloseListener(0) in s3.tasks
    ensures s4 == FinishTask(s3, CloseListener(0)) && !s4.closed
    ensures 0 in s4.all && 2 in s4.all[0].ring.conns && s4.all[0].closed
  {
    s3 := AttachTo(s, key, 2, target, 1, true);
    assert 0 in s3.all && 2 in s3.all[0].ring.conns;
    s4 := FinishTask(s3, CloseListener(0));
  }

  lemma RunFour(s0: ServerState, a: ServerStep, b: ServerStep, c: ServerStep, d: ServerStep,
                s1: ServerState, s2: ServerState, s3: ServerState, s4: ServerState)
    requires CanServe(s0, a) && s1 == ServerNext(s0, a) && CanServe(s1, b) && s2 == ServerNext(s1, b)
    requires CanServe(s2, c) && s3 == ServerNext(s2, c) && CanServe(s3, d) && s4 == ServerNext(s3, d)
    ensures IsServerRun(s0, [a, b, c, d], s4)
  {
    hide CanServe, ServerNext;
    assert [a, b, c, d][1..] == [b, c, d] && [b, c, d][1..] == [c, d] && [c, d][1..] == [d] && [d][1..] == [];
    assert IsServerRun(s3, [d], s4);
    assert IsServerRun(s2, [c, d], s4);
  }

  /** The steps of a run that act on the ring of `sl`. */
  function RingSteps(s: ServerState, steps: seq<ServerStep>, sl: nat): seq<RingStep>
    decreases |steps|
  {
    if steps == [] || !CanServe(s, steps[0]) then []
    else RingStepOf(s, steps[0], sl) + RingSteps(ServerNext(s, steps[0]), steps[1..], sl)
  }

  function RingStepOf(s: ServerState, step: ServerStep, sl: nat): seq<RingStep> {
    match step
    case Attach(key, cc, target, _, _) =>
      if !s.closed && Joins(s, key) && s.table[key] == sl then [Join(cc, target)] else []
    case Detach(x, cc) => if x == sl then [Leave(cc)] else []
    case Dispatch(x) => if x == sl then [Serve] else []
    case _ => []
  }

  lemma OneRingStep(r: Ring, step: RingStep)
    ensures RingAfter(r, [step]) == RingNext(r, step) && RingAfter(r, []) == r
  {
    assert RingAfter(RingNext(r, step), [step][1..]) == RingNext(r, step);
  }

  lemma AttachIsRingStep(s: ServerState, key: Key, cc: nat, target: seq<byte>, id: nat, bound: bool, sl: nat)
    requires id !in s.all && sl in s.all
    ensures var s' := AttachTo(s, key, cc, target, id, bound);
            && sl in s'.all
            && s'.all[sl].ring == RingAfter(s.all[sl].ring, RingStepOf(s, Attach(key, cc, target, id, bound), sl))
  {
    OneRingStep(s.all[sl].ring, Join(cc, target));
    hide RingAfter, RoundRobin.Attach;
  }

  lemma FinishKeepsRings(s: ServerState, task: Task, sl: nat)
    requires sl in s.all
    ensures sl in FinishTask(s, task).all && FinishTask(s, task).all[sl].ring == s.all[sl].ring
  {
    match task
    case CloseListener(x) => ShutKeepsRing(Remove(s, task), x, sl);
    case ShutListener(x) => ShutKeepsRing(Remove(s, task), x, sl);
    case _ => assert FinishTask(s, task).all == s.all;
  }

  lemma ShutKeepsRing(s: ServerState, x: nat, sl: nat)
    requires sl in s.all
    ensures sl in Shut(s, x).all && Shut(s, x).all[sl].ring == s.all[sl].ring
  {
  }

  lemma StepIsRingStep(s: ServerState, step: ServerStep, sl: nat)
    requires CanServe(s, step) && sl in s.all
    ensures sl in ServerNext(s, step).all
    ensures ServerNext(s, step).all[sl].ring == RingAfter(s.all[sl].ring, RingStepOf(s, step, sl))
  {
    hide RoundRobin.Dispatch, RingAfter, AttachTo, DetachFrom, FinishTask;
    OneRingStep(s.all[sl].ring, Serve);
    match step
    case Attach(key, cc, target, id, bound) => AttachIsRingStep(s, key, cc, target, id, bound, sl);
    case Detach(x, cc) => DetachIsRingStep(s, x, cc, sl);
    case Finish(task) => FinishKeepsRings(s, task, sl);
    case _ =>
  }

  lemma DetachIsRingStep(s: ServerState, x: nat, cc: nat, sl: nat)
    requires x in s.all && sl in s.all
    ensures var s' := DetachFrom(s, x, cc);
            && s'.all.Keys == s.all.Keys
            && s'.all[sl].ring == RingAfter(s.all[sl].ring, RingStepOf(s, Detach(x, cc), sl))
  {
    OneRingStep(s.all[sl].ring, Leave(cc));
    hide RingAfter;
  }

  lemma {:induction false} RingAfterConcat(r: Ring, a: seq<RingStep>, b: seq<RingStep>)
    ensures RingAfter(r, a + b) == RingAfter(RingAfter(r, a), b)
    decreases |a|
  {
    hide RingNext;
    if a == [] {
      assert a + b == b;
    } else {
      assert (a + b)[1..] == a[1..] + b;
      RingAfterConcat(RingNext(r, a[0]), a[1..], b);
    }
  }

  /** A run of the whole server, with any other listeners and closes in between, moves the ring of
      one listener only by its own attaches, detaches and dispatches. So fairness and bounded
      waiting hold for each listener in every run of the server. */
  lemma {:induction false} RingsAreIndependent(s: ServerState, steps: seq<ServerStep>, s': ServerState, sl: nat)
    requires IsServerRun(s, steps, s') && sl in s.all
    ensures sl in s'.all && s'.all[sl].ring == RingAfter(s.all[sl].ring, RingSteps(s, steps, sl))
    decreases |steps|
  {
    hide RingAfter, ServerNext, RingStepOf;
    if steps == [] {
      NoRingSteps(s.all[sl].ring);
    } else {
      var s1 := ServerNext(s, steps[0]);
      StepIsRingStep(s, steps[0], sl);
      RingsAreIndependent(s1, steps[1..], s', sl);
      RingAfterConcat(s.all[sl].ring, RingStepOf(s, steps[0], sl), RingSteps(s1, steps[1..], sl));
    }
  }

  lemma NoRingSteps(r: Ring)
    ensures RingAfter(r, []) == r
  {
  }

  /** The target that listener `sl` has for `cc`, if `cc` is attached to it. */
  function TargetAt(s: ServerState, sl: nat, cc: nat): Option<seq<byte>> {
    if sl in s.all && cc in s.all[sl].ring.conns then Some(s.all[sl].ring.conns[cc]) else None
  }

  /** Whether attachSharedListener gives `sl` to its caller. */
  predicate Reaches(s: ServerState, step: ServerStep, sl: nat) {
    step.Attach? && !s.closed && if Joins(s, step.key) then s.table[step.key] == sl else step.bound && step.id == sl
  }

  /** The target with which `cc` last attached to `sl` in a run, unless it has detached since;
      `now` is the one from before the run. */
  function LastTarget(s: ServerState, steps: seq<ServerStep>, sl: nat, cc: nat, now: Option<seq<byte>>): Option<seq<byte>>
    decreases |steps|
  {
    if steps == [] || !CanServe(s, steps[0]) then now
    else
      LastTarget(ServerNext(s, steps[0]), steps[1..], sl, cc,
                 if Reaches(s, steps[0], sl) && steps[0].cc == cc then Some(steps[0].target)
                 else if steps[0] == Detach(sl, cc) then None else now)
  }

  lemma TargetAfterAttach(s: ServerState, step: ServerStep, sl: nat, cc: nat)
    requires CanServe(s, step) && step.Attach?
    ensures TargetAt(AttachTo(s, step.key, step.cc, step.target, step.id, step.bound), sl, cc) ==
              if Reaches(s, step, sl) && step.cc == cc then Some(step.target) else TargetAt(s, sl, cc)
  {
  }

  lemma TargetAfterDetach(s: ServerState, x: nat, c: nat, sl: nat, cc: nat)
    requires x in s.all
    ensures TargetAt(DetachFrom(s, x, c), sl, cc) == if x == sl && c == cc then None else TargetAt(s, sl, cc)
  {
    TargetAfterStep(s.all[x].ring, Leave(c), cc);
    hide RoundRobin.Detach;
  }

  lemma TargetAfterServerStep(s: ServerState, step: ServerStep, sl: nat, cc: nat)
    requires CanServe(s, step)
    ensures TargetAt(ServerNext(s, step), sl, cc) ==
              if Reaches(s, step, sl) && step.cc == cc then Some(step.target)
              else if step == Detach(sl, cc) then None else TargetAt(s, sl, cc)
  {
    hide AttachTo, DetachFrom;
    match step
    case Attach(_, _, _, _, _) => TargetAfterAttach(s, step, sl, cc);
    case Detach(x, c) => TargetAfterDetach(s, x, c, sl, cc);
    case Finish(task) =>
      if sl in s.all {
        FinishKeepsRings(s, task, sl);
      } else {
        FinishAddsNone(s, task);
      }
      hide FinishTask;
    case _ =>
  }

  lemma FinishAddsNone(s: ServerState, task: Task)
    ensures FinishTask(s, task).all.Keys == s.all.Keys
  {
    hide Shut, Drop;
    match task
    case CloseListener(x) => ShutFrame(Remove(s, task), x);
    case DropEntry(x) => DropFrame(Remove(s, task), x);
    case ShutListener(x) => ShutFrame(Remove(s, task), x);
    case ShutConn(_) =>
  }

  /** In every run of the server, with all its locks released in between, each listener sends the
      connections it gives to `cc` to the target of the last attach of `cc` that got it. */
  lemma {:induction false} TargetIsOfLastAttach(s: ServerState, steps: seq<ServerStep>, s': ServerState, sl: nat, cc: nat)
    requires IsServerRun(s, steps, s')
    ensures TargetAt(s', sl, cc) == LastTarget(s, steps, sl, cc, TargetAt(s, sl, cc))
    decreases |steps|
  {
    hide ServerNext, CanServe, TargetAt, Reaches;
    if steps != [] {
      TargetAfterServerStep(s, steps[0], sl, cc);
      TargetIsOfLastAttach(ServerNext(s, steps[0]), steps[1..], s', sl, cc);
    }
  }

  /** What a listener of a running server dispatches to has a target, and it is that one. */
  lemma DispatchGoesToLastTarget(steps: seq<ServerStep>, s: ServerState, sl: nat, cc: nat)
    requires IsServerRun(INITIAL, steps, s) && sl in s.all && RoundRobin.Dispatch(s.all[sl].ring).0 == Some(cc)
    ensures cc in s.all[sl].ring.conns
    ensures LastTarget(INITIAL, steps, sl, cc, None) == Some(s.all[sl].ring.conns[cc])
  {
    InitialInv();
    ServerRunKeepsInv(INITIAL, steps, s);
    TargetIsOfLastAttach(INITIAL, steps, s, sl, cc);
    hide LastTarget, IsServerRun, EntryInv, TaskInv, ClosedInv;
    assert RingInv(s.all[sl].ring) && cc in s.all[sl].ring.order;
  }
}
