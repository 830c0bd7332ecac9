/** The sharedListener and RemoteServer objects (relay/remoteserver.go), updated in place. Each
    method that holds a lock once is one step of the table's state machine. */
module ListenerObjects {
  import opened Basics
  import opened RoundRobin
  import L = Listeners

  class SharedListener {
    const key: L.Key
    var conns: map<nat, seq<byte>>
    var order: seq<nat>
    var next: nat
    var closed: bool
    /** Whether the network listener under it is open. */
    var listening: bool
    /** Its place among the listeners ever made. */
    ghost const id: nat

    constructor (key: L.Key, cc: nat, target: seq<byte>, ghost id: nat)
      ensures this.key == key && this.id == id && Value() == L.NewListener(key, cc, target) && listening
      ensures conns == map[cc := target] && order == [cc] && next == 0 && !closed
    {
      this.key, this.id := key, id;
      conns, order, next, closed, listening := map[cc := target], [cc], 0, false, true;
    }

    ghost function RingOf(): Ring
      reads this
    {
      Ring(conns, order, next)
    }

    ghost function Value(): L.Listener
      reads this
    {
      L.Listener(key, RingOf(), closed)
    }

    /** The part of attachSharedListener under sl.mu. */
    method Attach(cc: nat, target: seq<byte>) returns (joined: bool)
      modifies this`conns, this`order
      ensures joined == !closed
      ensures RingOf() == if joined then RoundRobin.Attach(old(RingOf()), cc, target) else old(RingOf())
      ensures joined ==> conns == old(conns)[cc := target]
                         && order == if cc in old(conns) then old(order) else old(order) + [cc]
      ensures !joined ==> conns == old(conns) && order == old(order)
    {
      joined := !closed;
      if joined {
        if cc !in conns {
          conns := conns[cc := target];
          order := order + [cc];
        } else {
          conns := conns[cc := target];
        }
      }
    }

    /** The part of detachSharedListener under sl.mu: a search, a removal from the slice, and the
        repair of `next`. */
    method Detach(cc: nat) returns (shouldClose: bool)
      modifies this`conns, this`order, this`next
      ensures RingOf() == RoundRobin.Detach(old(RingOf()), cc)
      ensures shouldClose == (cc in old(conns) && order == []) && conns == old(conns) - {cc}
    {
      if cc !in conns {
        return false;
      }
      conns := conns - {cc};
      var idx := 0;
      while idx < |order| && order[idx] != cc
        invariant idx <= |order| && cc !in order[..idx]
      {
        idx := idx + 1;
      }
      FirstIsIndex(order, idx, cc);
      if idx < |order| {
        order := order[..idx] + order[idx + 1..];
        if next > idx {
          next := next - 1;
        }
        if next >= |order| {
          next := 0;
        }
      }
      shouldClose := |order| == 0;
    }

    /** The part of dispatch under sl.mu. A missing target reads as the empty string. */
    method Dispatch() returns (chosen: Option<(nat, seq<byte>)>)
      modifies this`next
      ensures RingOf() == RoundRobin.Dispatch(old(RingOf())).1
      ensures match RoundRobin.Dispatch(old(RingOf())).0
              case None => chosen == None
              case Some(cc) => chosen == Some((cc, if cc in conns then conns[cc] else []))
      ensures if order == [] then chosen == None && next == old(next)
              else var cc := order[old(next) % |order|];
                   && next == (old(next) + 1) % |order|
                   && chosen == Some((cc, if cc in conns then conns[cc] else []))
    {
      if |order| == 0 {
        return None;
      }
      var cc := order[Wrap(next, |order|)];
      chosen := Some((cc, if cc in conns then conns[cc] else []));
      next := Wrap(next + 1, |order|);
    }

    method Close()
      modifies this`closed, this`listening
      ensures closed && listening == (old(closed) && old(listening))
    {
      if !closed {
        closed := true;
        listening := false;
      }
    }
  }

  /** The part of a control connection that the server's Close needs; its channels are in module
      CtrlConnObject. */
  class ControlConn {
    /** The number that names it in the model. */
    ghost const id: nat
    var closed: bool

    constructor (ghost id: nat)
      ensures !closed && this.id == id
    {
      this.id, closed := id, false;
    }

    method Close()
      modifies this`closed
      ensures closed
    {
      closed := true;
    }
  }

  lemma FirstIsIndex(order: seq<nat>, i: nat, cc: nat)
    requires i <= |order| && cc !in order[..i] && (i < |order| ==> order[i] == cc)
    ensures IndexOf(order, cc) == i
  {
    forall j | 0 <= j < i ensures order[j] != cc {
      assert order[j] in order[..i];
    }
  }

  /** Making a listener overwrites a stale entry. */
  lemma CreateOver(s: L.ServerState, stale: L.ServerState, key: L.Key, id: nat, l: L.Listener)
    requires stale == s || stale == s.(table := s.table - {key})
    ensures L.Create(stale, key, id, l) == L.Create(s, key, id, l)
  {
    assert (s.table - {key})[key := id] == s.table[key := id];
  }

  lemma CreateIsAttach(s: L.ServerState, key: L.Key, cc: nat, target: seq<byte>, id: nat)
    requires !s.closed && !L.Joins(s, key)
    ensures L.AttachTo(s, key, cc, target, id, true) == L.Create(s, key, id, L.NewListener(key, cc, target))
  {
  }

  /** What an attach comes to in each case. */
  lemma AttachIs(s: L.ServerState, key: L.Key, cc: nat, target: seq<byte>, id: nat, bound: bool)
    ensures s.closed ==> L.AttachTo(s, key, cc, target, id, bound) == s
    ensures L.Joins(s, key) ==> L.AttachTo(s, key, cc, target, id, bound) == L.AttachTo(s, key, cc, target, 0, true)
    ensures !s.closed && !L.Joins(s, key) && !bound ==>
              L.AttachTo(s, key, cc, target, id, bound) == s.(table := s.table - {key})
  {
    hide RoundRobin.Attach, L.NewListener, L.Create, L.SetRing;
  }

  /** What Close still has to shut: each of these once, and nothing else. */
  ghost predicate ToShut(tasks: multiset<L.Task>, ids: set<nat>, ccs: set<nat>) {
    && (forall x :: tasks[L.ShutListener(x)] == if x in ids then 1 else 0)
    && (forall x :: tasks[L.ShutConn(x)] == if x in ccs then 1 else 0)
  }

  lemma AllToShut(tasks: multiset<L.Task>, ids: set<nat>, ccs: set<nat>)
    requires ToShut(tasks, {}, {})
    ensures ToShut(tasks + L.ShutTasks(ids, ccs), ids, ccs)
  {
  }

  lemma ConnsShut(tasks: multiset<L.Task>, ids: set<nat>, ccs: set<nat>)
    requires ToShut(tasks, ids, ccs)
    ensures ToShut(tasks - L.ShutTasks({}, ccs), ids, {})
  {
  }

  lemma ListenersShut(tasks: multiset<L.Task>, ids: set<nat>)
    requires ToShut(tasks, ids, {})
    ensures ToShut(tasks - L.ShutTasks(ids, {}), {}, {})
  {
  }

  ghost function TableOf(listeners: map<L.Key, SharedListener>): map<L.Key, nat> {
    map k | k in listeners :: listeners[k].id
  }

  lemma TableChanges(listeners: map<L.Key, SharedListener>, key: L.Key, sl: SharedListener)
    ensures TableOf(listeners[key := sl]) == TableOf(listeners)[key := sl.id]
    ensures TableOf(listeners - {key}) == TableOf(listeners) - {key}
  {
  }

  lemma TableHas(listeners: map<L.Key, SharedListener>, key: L.Key)
    ensures key in TableOf(listeners) <==> key in listeners
    ensures key in listeners ==> TableOf(listeners)[key] == listeners[key].id
  {
  }

  lemma NotInTable(listeners: map<L.Key, SharedListener>, key: L.Key)
    ensures key !in listeners ==> TableOf(listeners) - {key} == TableOf(listeners)
  {
  }

  lemma DetachAbsent(r: Ring, cc: nat)
    ensures cc !in r.conns ==> RoundRobin.Detach(r, cc) == r
  {
  }

  class RemoteServer {
    var listeners: map<L.Key, SharedListener>
    var conns: set<ControlConn>
    var closed: bool
    /** Every listener ever made, and what the calls that hold no lock now still have to do. */
    ghost var made: seq<SharedListener>
    ghost var tasks: multiset<L.Task>
    ghost var dead: set<nat>

    constructor ()
      ensures Valid() && Model() == L.INITIAL
    {
      listeners, conns, closed, made, tasks, dead := map[], {}, false, [], multiset{}, {};
    }

    ghost function ConnIds(ccs: set<ControlConn>): set<nat> {
      set cc | cc in ccs :: cc.id
    }

    /** No tracked connection but `cc` has its number. */
    ghost predicate Named(cc: ControlConn)
      reads this`conns
    {
      forall c :: c in conns && c.id == cc.id ==> c == cc
    }

    ghost predicate Made(sl: SharedListener)
      reads this`made
    {
      sl.id < |made| && made[sl.id] == sl
    }

    ghost predicate Valid()
      reads this`made, this`listeners
    {
      && (forall i :: 0 <= i < |made| ==> made[i].id == i)
      && (forall k :: k in listeners ==> Made(listeners[k]))
    }

    ghost function All(): map<nat, L.Listener>
      reads this`made, made
    {
      map i | 0 <= i < |made| :: made[i].Value()
    }

    ghost function Table(): map<L.Key, nat>
      reads this`listeners
    {
      TableOf(listeners)
    }

    ghost function Model(): L.ServerState
      reads this, made
    {
      L.ServerState(All(), Table(), closed, tasks, ConnIds(conns), dead)
    }

    /** At most one listener has changed. */
    twostate lemma OneChanged(sl: SharedListener)
      requires old(Valid()) && old(Made(sl)) && listeners == old(listeners) && made == old(made)
      requires forall x :: x in made && x != sl ==> unchanged(x)
      ensures Valid() && Table() == old(Table()) && All() == old(All())[sl.id := sl.Value()]
    {
      forall i | 0 <= i < |made| && i != sl.id ensures All()[i] == old(All())[i] {
        assert made[i] in made && made[i].id == i;
      }
      assert All() == old(All())[sl.id := sl.Value()];
    }

    /** The part of attachSharedListener that finds a listener in the table. */
    method Join(sl: SharedListener, cc: nat, target: seq<byte>) returns (joined: bool)
      requires Valid() && Made(sl)
      modifies sl
      ensures Valid() && joined == !old(sl.closed) && (joined ==> cc in sl.conns)
      ensures sl.conns == if joined then old(sl.conns)[cc := target] else old(sl.conns)
      ensures sl.order == if joined && cc !in old(sl.conns) then old(sl.order) + [cc] else old(sl.order)
      ensures Model() == if joined then L.SetRing(old(Model()), sl.id, RoundRobin.Attach(old(sl.RingOf()), cc, target))
                         else old(Model())
    {
      hide L.NewListener;
      ghost var before := Model();
      joined := sl.Attach(cc, target);
      assert cc in RoundRobin.Attach(old(sl.RingOf()), cc, target).conns;
      hide RoundRobin.Attach;
      assert sl.Value() == before.all[sl.id].(ring := sl.RingOf());
      OneChanged(sl);
    }

    /** One more listener has been made. */
    twostate lemma OneMade(new sl: SharedListener)
      requires old(Valid()) && made == old(made) + [sl] && sl.id == |old(made)|
      requires forall x :: x in old(made) ==> unchanged(x)
      ensures All() == old(All())[sl.id := sl.Value()]
    {
      forall i | 0 <= i < |old(made)| ensures All()[i] == old(All())[i] {
        assert made[i] == old(made)[i] && made[i] in old(made);
      }
    }

    /** The part of attachSharedListener that makes a listener on a port it has bound. */
    method Open(key: L.Key, cc: nat, target: seq<byte>) returns (sl: SharedListener)
      requires Valid()
      modifies this`listeners, this`made
      ensures Valid() && Made(sl) && listeners == old(listeners)[key := sl] && cc in sl.conns
      ensures fresh(sl) && sl.key == key && sl.conns == map[cc := target] && sl.order == [cc] && sl.next == 0
      ensures !sl.closed && sl.listening
      ensures Model() == L.Create(old(Model()), key, old(|made|), L.NewListener(key, cc, target))
    {
      hide L.NewListener, RoundRobin.Attach, SharedListener.Value, SharedListener.RingOf, TableOf, All;
      sl := new SharedListener(key, cc, target, |made|);
      made := made + [sl];
      listeners := listeners[key := sl];
      TableChanges(old(listeners), key, sl);
      OneMade(sl);
    }

    /** delete(rs.listeners, key) */
    method Delete(key: L.Key)
      requires Valid() && key in listeners
      modifies this`listeners
      ensures Valid() && listeners == old(listeners) - {key}
      ensures Model() == old(Model()).(table := old(Model()).table - {key})
    {
      TableChanges(listeners, key, listeners[key]);
      hide TableOf, All;
      listeners := listeners - {key};
    }

    /** What attachSharedListener does with an entry that it finds: it joins an open listener, and
        drops a stale one. */
    method JoinOrDrop(key: L.Key, cc: nat, target: seq<byte>) returns (joined: bool)
      requires Valid() && !closed && key in listeners
      modifies this`listeners, listeners[key]
      ensures Valid() && joined == L.Joins(old(Model()), key) == !old(listeners[key].closed)
      ensures joined ==> Model() == L.AttachTo(old(Model()), key, cc, target, 0, true) && listeners == old(listeners)
      ensures !joined ==> Model() == old(Model()).(table := old(Model()).table - {key}) && listeners == old(listeners) - {key}
      ensures var sl := old(listeners[key]);
              joined ==> sl.conns == old(sl.conns)[cc := target]
                         && sl.order == if cc in old(sl.conns) then old(sl.order) else old(sl.order) + [cc]
    {
      hide RoundRobin.Attach, L.NewListener, L.Create, L.SetRing, TableOf;
      TableHas(listeners, key);
      var sl := listeners[key];
      joined := Join(sl, cc, target);
      if !joined {
        Delete(key);
      }
    }

    /** attachSharedListener, under rs.mu. */
    method AttachSharedListener(key: L.Key, cc: nat, target: seq<byte>, bound: bool) returns (r: Option<SharedListener>)
      requires Valid()
      modifies this`listeners, this`made, listeners.Values
      ensures Valid() && Model() == L.AttachTo(old(Model()), key, cc, target, old(|made|), bound)
      ensures r.Some? <==> !closed && (L.Joins(old(Model()), key) || bound)
      ensures r.Some? ==> Made(r.value) && key in listeners && listeners[key] == r.value && cc in r.value.conns
      ensures closed ==> listeners == old(listeners)
      ensures !closed && key in old(listeners) && !old(listeners[key].closed) ==>
                && r == Some(old(listeners[key])) && listeners == old(listeners)
                && r.value.conns == old(listeners[key].conns)[cc := target]
                && r.value.order == (if cc in old(listeners[key].conns) then old(listeners[key].order)
                                     else old(listeners[key].order) + [cc])
      ensures !closed && !(key in old(listeners) && !old(listeners[key].closed)) && bound ==>
                && r.Some? && fresh(r.value) && listeners == old(listeners)[key := r.value]
                && r.value.key == key && r.value.conns == map[cc := target] && r.value.order == [cc]
                && r.value.next == 0 && !r.value.closed && r.value.listening
      ensures !closed && !(key in old(listeners) && !old(listeners[key].closed)) && !bound ==>
                r == None && listeners == old(listeners) - {key}
    {
      hide L.NewListener, L.Create, L.AttachTo, TableOf, All;
      ghost var before := Model();
      AttachIs(before, key, cc, target, |made|, bound);
      TableHas(listeners, key);
      if closed {
        return None;
      }
      if key in listeners {
        var sl := listeners[key];
        assert sl in listeners.Values;
        var joined := JoinOrDrop(key, cc, target);
        if joined {
          return Some(sl);
        }
      }
      ghost var stale := Model();
      NotInTable(old(listeners), key);
      assert !L.Joins(before, key);
      if !bound {
        return None;
      }
      var sl := Open(key, cc, target);
      CreateOver(before, stale, key, old(|made|), L.NewListener(key, cc, target));
      CreateIsAttach(before, key, cc, target, old(|made|));
      r := Some(sl);
    }

    method DetachSection(sl: SharedListener, cc: nat) returns (shouldClose: bool)
      requires Valid() && Made(sl)
      modifies this`tasks, sl`conns, sl`order, sl`next
      ensures Valid() && Model() == L.DetachFrom(old(Model()), sl.id, cc)
      ensures shouldClose ==> L.CloseListener(sl.id) in tasks
      ensures shouldClose == (cc in old(sl.conns) && sl.order == []) && sl.conns == old(sl.conns) - {cc}
    {
      ghost var before := Model();
      shouldClose := sl.Detach(cc);
      hide RoundRobin.Detach, IndexOf;
      assert sl.Value() == before.all[sl.id].(ring := sl.RingOf());
      OneChanged(sl);
      L.DetachMeans(before, sl.id, cc);
      assert before.all[sl.id].ring == old(sl.RingOf()) && before.all[sl.id] == old(sl.Value());
      DetachAbsent(before.all[sl.id].ring, cc);
      hide SharedListener.Value, SharedListener.RingOf, All, Table, L.DetachFrom;
      if shouldClose {
        tasks := tasks + multiset{L.CloseListener(sl.id)};
      }
    }

    method CloseSection(sl: SharedListener)
      requires Valid() && Made(sl) && L.CloseListener(sl.id) in tasks
      modifies this`tasks, sl`closed, sl`listening
      ensures Valid() && Model() == L.FinishTask(old(Model()), L.CloseListener(sl.id))
      ensures L.DropEntry(sl.id) in tasks && listeners == old(listeners)
      ensures sl.closed && sl.listening == (old(sl.closed) && old(sl.listening))
    {
      ghost var before := Model();
      sl.Close();
      tasks := tasks - multiset{L.CloseListener(sl.id)};
      tasks := tasks + multiset{L.DropEntry(sl.id)};
      assert sl.Value() == before.all[sl.id].(closed := true);
      OneChanged(sl);
      L.CloseMeans(before, sl.id);
      hide SharedListener.Value, SharedListener.RingOf, All, Table, L.FinishTask;
    }

    lemma EntryOf(sl: SharedListener)
      requires Valid() && Made(sl)
      ensures sl.id in Model().all && Model().all[sl.id].key == sl.key
      ensures L.IsEntry(Model(), sl.id) <==> sl.key in listeners && listeners[sl.key] == sl
    {
      TableHas(listeners, sl.key);
      hide TableOf, SharedListener.RingOf;
    }

    method DropSection(sl: SharedListener)
      requires Valid() && Made(sl) && L.DropEntry(sl.id) in tasks
      modifies this`tasks, this`listeners
      ensures Valid() && Model() == L.FinishTask(old(Model()), L.DropEntry(sl.id))
      ensures listeners == if sl.key in old(listeners) && old(listeners)[sl.key] == sl then old(listeners) - {sl.key}
                           else old(listeners)
    {
      ghost var before := Model();
      EntryOf(sl);
      L.DropMeans(before, sl.id);
      hide TableOf, All, SharedListener.Value, L.FinishTask, L.IsEntry;
      tasks := tasks - multiset{L.DropEntry(sl.id)};
      if sl.key in listeners && listeners[sl.key] == sl {
        Delete(sl.key);
      }
    }

    /** detachSharedListener when no other call comes between its sections. */
    method DetachSharedListener(sl: SharedListener, cc: nat)
      requires Valid() && Made(sl)
      modifies this`tasks, this`listeners, sl
      ensures Valid()
      ensures var s := L.DetachFrom(old(Model()), sl.id, cc);
              if cc !in old(sl.conns) || sl.order != [] then Model() == s
              else Model() == L.FinishTask(L.FinishTask(s, L.CloseListener(sl.id)), L.DropEntry(sl.id))
      ensures sl.conns == old(sl.conns) - {cc}
      ensures var emptied := cc in old(sl.conns) && sl.order == [];
              && sl.closed == (old(sl.closed) || emptied)
              && sl.listening == (old(sl.listening) && (old(sl.closed) || !emptied))
              && listeners == if emptied && sl.key in old(listeners) && old(listeners)[sl.key] == sl
                              then old(listeners) - {sl.key} else old(listeners)
    {
      hide All, Table, TableOf, L.DetachFrom, L.FinishTask;
      var shouldClose := DetachSection(sl, cc);
      if shouldClose {
        CloseSection(sl);
        DropSection(sl);
      }
    }

    method TrackConn(cc: ControlConn) returns (ok: bool)
      requires Valid() && Named(cc)
      modifies this`conns
      ensures Valid() && Named(cc) && ok == !closed && Model() == L.ServerNext(old(Model()), L.Track(cc.id))
      ensures conns == if ok then old(conns) + {cc} else old(conns)
    {
      hide All, Table;
      if closed {
        return false;
      }
      conns := conns + {cc};
      assert ConnIds(conns) == ConnIds(old(conns)) + {cc.id};
      ok := true;
    }

    method UntrackConn(cc: ControlConn)
      requires Valid() && Named(cc)
      modifies this`conns
      ensures Valid() && Named(cc) && Model() == L.ServerNext(old(Model()), L.Untrack(cc.id)) && conns == old(conns) - {cc}
    {
      hide All, Table;
      conns := conns - {cc};
      assert ConnIds(conns) == ConnIds(old(conns)) - {cc.id};
    }

    /** The part of Close under rs.mu, with its two snapshots. */
    method BeginClose() returns (first: bool, ccs: set<ControlConn>, sls: set<SharedListener>)
      requires Valid()
      modifies this`closed, this`tasks
      ensures Valid() && Model() == L.ServerNext(old(Model()), L.CloseServer)
      ensures !first ==> Model() == old(Model())
      ensures closed && first == !old(closed) && listeners == old(listeners) && made == old(made)
      ensures first ==> ccs == conns && sls == listeners.Values
      ensures first ==> tasks == old(tasks) + L.ShutTasks(Ids(sls), ConnIds(conns))
    {
      first, ccs, sls := !closed, {}, {};
      TableIds();
      hide All, Table, Ids, ConnIds, L.ShutTasks, Made;
      if first {
        closed := true;
        ccs, sls := conns, listeners.Values;
        tasks := tasks + L.ShutTasks(Ids(sls), ConnIds(conns));
      }
    }

    method ShutConns(ccs: set<ControlConn>, ghost ids: set<nat>)
      requires ToShut(tasks, ids, ConnIds(conns)) && ccs == conns
      modifies this`tasks, this`dead, ccs`closed
      ensures ToShut(tasks, ids, {}) && dead == old(dead) + ConnIds(conns) && forall cc :: cc in ccs ==> cc.closed
    {
      ConnsShut(tasks, ids, ConnIds(conns));
      hide ToShut, L.ShutTasks;
      var rest := ccs;
      while rest != {}
        invariant rest <= ccs && forall cc :: cc in ccs - rest ==> cc.closed
        invariant tasks == old(tasks) && dead == old(dead)
        decreases |rest|
      {
        var cc :| cc in rest;
        cc.Close();
        rest := rest - {cc};
      }
      dead, tasks := dead + ConnIds(conns), tasks - L.ShutTasks({}, ConnIds(conns));
    }

    method ShutListeners(sls: set<SharedListener>)
      requires ToShut(tasks, Ids(sls), {})
      modifies this`tasks, sls`closed, sls`listening
      ensures ToShut(tasks, {}, {}) && forall sl :: sl in sls ==> sl.closed && (!old(sl.closed) ==> !sl.listening)
    {
      ListenersShut(tasks, Ids(sls));
      hide ToShut, L.ShutTasks, Ids;
      var rest := sls;
      while rest != {}
        invariant rest <= sls && tasks == old(tasks)
        invariant forall sl :: sl in sls - rest ==> sl.closed && (!old(sl.closed) ==> !sl.listening)
        invariant forall sl :: sl in rest ==> sl.closed == old(sl.closed)
        decreases |rest|
      {
        var sl :| sl in rest;
        sl.Close();
        rest := rest - {sl};
      }
      tasks := tasks - L.ShutTasks(Ids(sls), {});
    }

    ghost function Ids(sls: set<SharedListener>): set<nat> {
      set sl | sl in sls :: sl.id
    }

    lemma TableIds()
      ensures Ids(listeners.Values) == Table().Values
    {
      forall id | id in Table().Values ensures id in Ids(listeners.Values) {
        var k :| k in Table() && Table()[k] == id;
        assert listeners[k] in listeners.Values;
      }
      forall id | id in Ids(listeners.Values) ensures id in Table().Values {
        var sl :| sl in listeners.Values && sl.id == id;
        var k :| k in listeners && listeners[k] == sl;
        assert Table()[k] == id;
      }
    }

    /** The part of Close after rs.mu is released, on its two snapshots. */
    method FinishClose(ccs: set<ControlConn>, sls: set<SharedListener>)
      requires ToShut(tasks, Ids(sls), ConnIds(conns)) && ccs == conns
      modifies this`tasks, this`dead, ccs`closed, sls`closed, sls`listening
      ensures ToShut(tasks, {}, {}) && dead == old(dead) + ConnIds(conns)
      ensures (forall cc :: cc in ccs ==> cc.closed) && forall sl :: sl in sls ==> sl.closed
    {
      hide ToShut, Ids, ConnIds;
      ShutConns(ccs, Ids(sls));
      ShutListeners(sls);
    }

    /** RemoteServer.Close when no other call comes in between. Only the first call does anything. */
    method Close()
      requires Valid() && ToShut(tasks, {}, {})
      modifies this`closed, this`tasks, this`dead, conns`closed, listeners.Values`closed, listeners.Values`listening
      ensures Valid() && ToShut(tasks, {}, {}) && closed
      ensures old(closed) ==> Model() == old(Model())
      ensures !old(closed) ==> dead == old(dead) + ConnIds(conns) && forall cc :: cc in conns ==> cc.closed
      ensures !old(closed) ==> forall sl :: sl in listeners.Values ==> sl.closed
    {
      AllToShut(tasks, Ids(listeners.Values), ConnIds(conns));
      hide All, Table, TableOf, Ids, ConnIds, Valid, Made, ToShut, L.ShutTasks, L.ServerNext;
      var first, ccs, sls := BeginClose();
      if first {
        hide Model;
        FinishClose(ccs, sls);
      }
    }
  }
}
