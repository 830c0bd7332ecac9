/** The Manager object, updated in place: each method does what its command says. */
module ManagerObject {
  import opened Basics
  import opened M = Manager

  class Manager {
    var tunnelConfigs: seq<TunnelConfig>
    var global: string
    var tunnels: map<string, Running>
    /** The config file and the stop channels, which the manager reads and writes. */
    var file: File
    var made: nat
    var closed: set<nat>

    constructor (cfg: Config, file: File)
      ensures Valid() && Value() == Fresh(cfg, file)
    {
      tunnelConfigs, global, this.file := cfg.tunnels, cfg.global, file;
      tunnels, made, closed := map[], 0, {};
      new;
      FreshInv(cfg, file);
    }

    ghost function Value(): State
      reads this
    {
      State(Config(tunnelConfigs, global), file, tunnels, made, closed, multiset{})
    }

    ghost predicate Valid()
      reads this
    {
      Inv(Value())
    }

    /** close(ch), which panics on a channel that is closed already. */
    method CloseChannel(stop: nat)
      requires stop !in closed
      modifies this`closed
      ensures closed == old(closed) + {stop}
    {
      closed := closed + {stop};
    }

    /** SaveConfig. */
    method SaveConfig(saving: Saving) returns (ok: bool)
      modifies this`file
      ensures Value() == WriteConfig(old(Value()), saving) && ok == saving.Saved?
      ensures file == if ok then Holds(Config(tunnelConfigs, global)) else saving.left
    {
      match saving
      case Saved =>
        file := Holds(Config(tunnelConfigs, global));
        ok := true;
      case NotSaved(left) =>
        file := left;
        ok := false;
    }

    method FindConfig(name: string) returns (i: nat)
      ensures i == Find(tunnelConfigs, name)
    {
      i := 0;
      while i < |tunnelConfigs|
        invariant i <= |tunnelConfigs| && forall j :: 0 <= j < i ==> tunnelConfigs[j].name != name
      {
        if tunnelConfigs[i].name == name {
          break;
        }
        i := i + 1;
      }
    }

    method StartTunnel(tc: TunnelConfig) returns (failure: Option<Failure>)
      modifies this`tunnels, this`made
      ensures Value() == StartOne(old(Value()), tc) && failure == StartFailure(old(Value()), tc)
      ensures var known := tc.mode == "local" || tc.mode == "dynamic" || tc.mode == "remote";
              && (failure == Some(UnknownMode) <==> tc.name !in old(tunnels) && !known)
              && (failure != Some(UnknownMode) ==> failure == None)
              && (tc.name in old(tunnels) || !known ==> tunnels == old(tunnels) && made == old(made))
              && (tc.name !in old(tunnels) && known ==>
                    && tc.name in tunnels && tunnels == old(tunnels)[tc.name := tunnels[tc.name]]
                    && tunnels[tc.name].cfg == tc && tunnels[tc.name].stop == old(made) && made == old(made) + 1)
      ensures tc.name !in old(tunnels) && tc.mode == "local" ==>
                && (tunnels[tc.name].runner == RunChain <==> |tc.hops| > 0)
                && (tunnels[tc.name].runner == RunLocal <==> tc.hops == [])
      ensures tc.name !in old(tunnels) && tc.mode == "dynamic" ==> tunnels[tc.name].runner == RunDynamic
      ensures tc.name !in old(tunnels) && tc.mode == "remote" ==>
                && (tunnels[tc.name].runner == RunRemoteServer <==> tc.server == "")
                && (tunnels[tc.name].runner == RunRemoteClientMulti <==> tc.server != "" && tc.connections > 1)
                && (tunnels[tc.name].runner == RunRemoteClient <==> tc.server != "" && tc.connections <= 1)
    {
      if tc.name in tunnels {
        return None;
      }
      var runner;
      if tc.mode == "local" {
        runner := if |tc.hops| > 0 then RunChain else RunLocal;
      } else if tc.mode == "dynamic" {
        runner := RunDynamic;
      } else if tc.mode == "remote" {
        if tc.server != "" {
          runner := if tc.connections > 1 then RunRemoteClientMulti else RunRemoteClient;
        } else {
          runner := RunRemoteServer;
        }
      } else {
        return Some(UnknownMode);
      }
      var stop := made;
      made := made + 1;
      tunnels := tunnels[tc.name := Running(tc, runner, stop)];
      failure := None;
    }

    /** The loop of startLocked and StartGroup; failures are logged only. */
    method StartSelected(sel: Selector)
      modifies this`tunnels, this`made
      ensures Value() == StartEach(old(Value()), tunnelConfigs, sel)
    {
      ghost var was := Value();
      for i := 0 to |tunnelConfigs|
        invariant StartEach(Value(), tunnelConfigs[i..], sel) == StartEach(was, tunnelConfigs, sel)
        invariant Config(tunnelConfigs, global) == was.cfg && file == was.file && closed == was.closed
      {
        var tc := tunnelConfigs[i];
        assert tunnelConfigs[i..][0] == tc && tunnelConfigs[i..][1..] == tunnelConfigs[i + 1..];
        if Selects(sel, tc) {
          var failure := StartTunnel(tc);
        }
      }
      assert tunnelConfigs[|tunnelConfigs|..] == [];
    }

    method Start()
      requires Valid()
      modifies this`tunnels, this`made
      ensures Valid() && Value() == Do(old(Value()), M.Start).state
    {
      StartSelected(Autostarting);
      DoKeepsInv(old(Value()), M.Start);
    }

    method StartGroup(group: string)
      requires Valid()
      modifies this`tunnels, this`made
      ensures Valid() && Value() == Do(old(Value()), M.StartGroup(group)).state
    {
      StartSelected(InGroup(group));
      DoKeepsInv(old(Value()), M.StartGroup(group));
    }

    /** stopTunnelLocked: the channel is closed once and the entry goes. */
    method StopTunnel(name: string)
      requires Valid() && name in tunnels
      modifies this`tunnels, this`closed
      ensures Valid() && Value() == StopSet(old(Value()), {name})
      ensures tunnels == old(tunnels) - {name} && closed == old(closed) + {old(tunnels[name].stop)}
    {
      CloseChannel(tunnels[name].stop);
      tunnels := tunnels - {name};
      assert StopsOf(old(tunnels), {name}) == {old(tunnels[name].stop)};
      StopKeeps(old(Value()), {name});
    }

    /** The loop of stopLocked and StopGroup, over the entries in any order. */
    method StopNames(names: set<string>)
      requires Valid() && names <= tunnels.Keys
      modifies this`tunnels, this`closed
      ensures Valid() && Value() == StopSet(old(Value()), names)
      ensures tunnels == old(tunnels) - names && forall n :: n in names ==> old(tunnels[n].stop) in closed
    {
      hide Inv, StopSet;
      var rest := names;
      ghost var was, done: set<string> := Value(), {};
      NoneStopped(was);
      while rest != {}
        invariant Inv(Value()) && Value() == StopSet(was, done)
        invariant rest !! done && rest + done == names
        decreases |rest|
      {
        var name :| name in rest;
        assert name in was.tunnels;
        StopOneMore(was, done, name);
        StopTunnel(name);
        done, rest := done + {name}, rest - {name};
      }
      assert done == names;
      StopSetMeans(was, names);
    }

    method Stop()
      requires Valid()
      modifies this`tunnels, this`closed
      ensures Valid() && Value() == Do(old(Value()), M.Stop).state && tunnels == map[]
    {
      StopNames(tunnels.Keys);
    }

    method StopGroup(group: string)
      requires Valid()
      modifies this`tunnels, this`closed
      ensures Valid() && Value() == Do(old(Value()), M.StopGroup(group)).state
    {
      StopNames(set n | n in tunnels && tunnels[n].cfg.group == group);
    }

    method Add(tc: TunnelConfig, saving: Saving) returns (failure: Option<Failure>)
      requires Valid()
      modifies this
      ensures Valid() && Do(old(Value()), M.Add(tc, saving)) == Outcome(Value(), failure)
      ensures var tcs, i := old(tunnelConfigs), Find(old(tunnelConfigs), tc.name);
              && global == old(global) && closed == old(closed)
              && (i < |tcs| ==> failure == Some(AlreadyExists) && tunnelConfigs == tcs && file == old(file) && tunnels == old(tunnels))
              && (i == |tcs| ==>
                    && tunnelConfigs == tcs + [tc]
                    && file == (if saving.Saved? then Holds(Config(tunnelConfigs, global)) else saving.left)
                    && (saving.NotSaved? ==> failure == Some(CannotSave) && tunnels == old(tunnels))
                    && (saving.Saved? && !tc.autostart ==> failure == None && tunnels == old(tunnels)))
    {
      DoKeepsInv(Value(), M.Add(tc, saving));
      hide Inv, Find;
      var i := FindConfig(tc.name);
      if i < |tunnelConfigs| {
        return Some(AlreadyExists);
      }
      tunnelConfigs := tunnelConfigs + [tc];
      var ok := SaveConfig(saving);
      if !ok {
        return Some(CannotSave);
      }
      if tc.autostart {
        failure := StartTunnel(tc);
      } else {
        failure := None;
      }
    }

    method Remove(name: string, saving: Saving) returns (failure: Option<Failure>)
      requires Valid()
      modifies this
      ensures Valid() && Do(old(Value()), M.Remove(name, saving)) == Outcome(Value(), failure)
      ensures tunnels == old(tunnels) - {name} && global == old(global) && made == old(made)
      ensures Find(old(tunnelConfigs), name) == |old(tunnelConfigs)| ==>
                failure == Some(NotFound) && tunnelConfigs == old(tunnelConfigs) && file == old(file)
      ensures var i := Find(old(tunnelConfigs), name);
              i < |old(tunnelConfigs)| ==>
                && tunnelConfigs == old(tunnelConfigs)[..i] + old(tunnelConfigs)[i + 1..]
                && file == (if saving.Saved? then Holds(Config(tunnelConfigs, global)) else saving.left)
                && failure == if saving.Saved? then None else Some(CannotSave)
    {
      hide Do, Inv, Find, StopSet, StopsOf;
      DoKeepsInv(Value(), M.Remove(name, saving));
      NothingToStop(Value(), name);
      RemoveIs(Value(), name, saving);
      if name in tunnels {
        StopTunnel(name);
      }
      var i := FindConfig(name);
      if i == |tunnelConfigs| {
        return Some(NotFound);
      }
      assert Without(tunnelConfigs, i) == tunnelConfigs[..i] + tunnelConfigs[i + 1..];
      hide Without;
      tunnelConfigs := tunnelConfigs[..i] + tunnelConfigs[i + 1..];
      var ok := SaveConfig(saving);
      failure := if ok then None else Some(CannotSave);
    }

    method Enable(name: string, saving: Saving) returns (failure: Option<Failure>)
      requires Valid()
      modifies this
      ensures Valid() && Do(old(Value()), M.Enable(name, saving)) == Outcome(Value(), failure)
      ensures var tcs, i := old(tunnelConfigs), Find(old(tunnelConfigs), name);
              && global == old(global) && closed == old(closed)
              && (i == |tcs| ==> failure == Some(NotFound) && tunnelConfigs == tcs && file == old(file) && tunnels == old(tunnels))
              && (i < |tcs| ==>
                    && tunnelConfigs == tcs[i := tcs[i].(autostart := true)]
                    && file == (if saving.Saved? then Holds(Config(tunnelConfigs, global)) else saving.left)
                    && (saving.NotSaved? ==> failure == Some(CannotSave) && tunnels == old(tunnels)))
    {
      DoKeepsInv(Value(), M.Enable(name, saving));
      hide Inv;
      var i := FindConfig(name);
      if i == |tunnelConfigs| {
        return Some(NotFound);
      }
      tunnelConfigs := tunnelConfigs[i := tunnelConfigs[i].(autostart := true)];
      var ok := SaveConfig(saving);
      if !ok {
        return Some(CannotSave);
      }
      if name !in tunnels {
        failure := StartTunnel(tunnelConfigs[i]);
      } else {
        failure := None;
      }
    }

    method Disable(name: string, saving: Saving) returns (failure: Option<Failure>)
      requires Valid()
      modifies this
      ensures Valid() && Do(old(Value()), M.Disable(name, saving)) == Outcome(Value(), failure)
      ensures var tcs, i := old(tunnelConfigs), Find(old(tunnelConfigs), name);
              && global == old(global) && made == old(made)
              && (i == |tcs| ==> failure == Some(NotFound) && tunnelConfigs == tcs && file == old(file) && tunnels == old(tunnels))
              && (i < |tcs| ==>
                    && tunnelConfigs == tcs[i := tcs[i].(autostart := false)]
                    && file == (if saving.Saved? then Holds(Config(tunnelConfigs, global)) else saving.left)
                    && (if saving.Saved? then failure == None && tunnels == old(tunnels) - {name}
                        else failure == Some(CannotSave) && tunnels == old(tunnels)))
    {
      DoKeepsInv(Value(), M.Disable(name, saving));
      var i := FindConfig(name);
      if i == |tunnelConfigs| {
        return Some(NotFound);
      }
      FlagKeeps(Value(), i, false, saving);
      tunnelConfigs := tunnelConfigs[i := tunnelConfigs[i].(autostart := false)];
      hide Inv, Find;
      var ok := SaveConfig(saving);
      if !ok {
        return Some(CannotSave);
      }
      NothingToStop(Value(), name);
      hide StopSet;
      if name in tunnels {
        StopTunnel(name);
      }
      failure := None;
    }

    method Restart(name: string) returns (failure: Option<Failure>)
      requires Valid()
      modifies this`tunnels, this`made, this`closed
      ensures Valid() && Do(old(Value()), M.Restart(name)) == Outcome(Value(), failure)
      ensures Find(tunnelConfigs, name) == |tunnelConfigs| ==>
                failure == Some(NotFound) && tunnels == old(tunnels) && closed == old(closed) && made == old(made)
    {
      DoKeepsInv(Value(), M.Restart(name));
      NothingToStop(Value(), name);
      hide Inv, Find, StopSet;
      var i := FindConfig(name);
      if i == |tunnelConfigs| {
        return Some(NotFound);
      }
      if name in tunnels {
        StopTunnel(name);
      }
      failure := StartTunnel(tunnelConfigs[i]);
    }

    method Save(saving: Saving) returns (failure: Option<Failure>)
      requires Valid()
      modifies this`file
      ensures Valid() && Do(old(Value()), M.Save(saving)) == Outcome(Value(), failure)
      ensures if saving.Saved? then failure == None && file == Holds(Config(tunnelConfigs, global))
              else failure == Some(CannotSave) && file == saving.left
    {
      DoKeepsInv(Value(), M.Save(saving));
      var ok := SaveConfig(saving);
      failure := if ok then None else Some(CannotSave);
    }

    /** Reload when no other command comes between the reading and the lock. */
    method Reload() returns (failure: Option<Failure>)
      requires Valid()
      modifies this
      ensures Valid()
      ensures var loaded := Do(old(Value()), Load);
              failure == loaded.failure && Value() == if failure == None then Do(loaded.state, Swap(LoadConfig(old(file)).value)).state
                                                      else loaded.state
      ensures match old(file)
              case Missing => failure == None && tunnelConfigs == [] && global == "" && tunnels == map[]
              case Unreadable =>
                failure == Some(CannotLoad) && tunnelConfigs == old(tunnelConfigs) && global == old(global) && tunnels == old(tunnels)
              case Holds(cfg) => failure == None && tunnelConfigs == cfg.tunnels && global == cfg.global
      ensures file == old(file)
    {
      var cfg;
      match file {
        case Missing => cfg := Config([], "");
        case Unreadable => return Some(CannotLoad);
        case Holds(c) => cfg := c;
      }
      DoIs(Value(), cfg);
      ghost var loaded := DoLoad(Value()).state;
      DoIs(loaded, cfg);
      hide Do, StartEach, Inv, StopSet, DoSwap;
      DoKeepsInv(Value(), Load);
      DoKeepsInv(loaded, Swap(cfg));
      ReloadIs(Value(), cfg);
      StopNames(tunnels.Keys);
      tunnelConfigs, global := cfg.tunnels, cfg.global;
      StartSelected(Autostarting);
      failure := None;
    }
  }

  lemma StopOneMore(s: State, names: set<string>, name: string)
    requires Inv(s) && name in s.tunnels && name !in names
    ensures name in StopSet(s, names).tunnels
    ensures StopSet(StopSet(s, names), {name}) == StopSet(s, names + {name})
  {
    assert s.tunnels - names - {name} == s.tunnels - (names + {name});
    assert StopsOf(s.tunnels, names + {name}) == StopsOf(s.tunnels, names) + StopsOf(s.tunnels - names, {name});
  }

  lemma RemoveIs(s: State, name: string, saving: Saving)
    ensures Do(s, M.Remove(name, saving)) == DoRemove(s, name, saving)
  {
  }

  lemma DoIs(s: State, cfg: Config)
    ensures Do(s, Load) == DoLoad(s) && Do(s, Swap(cfg)) == Outcome(DoSwap(s, cfg), None)
  {
  }

  /** Loading and then swapping, with nothing else being loaded. */
  lemma ReloadIs(s: State, cfg: Config)
    requires s.loading == multiset{}
    ensures DoSwap(s.(loading := s.loading + multiset{cfg}), cfg) ==
              StartEach(StopSet(s, s.tunnels.Keys).(cfg := cfg), cfg.tunnels, Autostarting)
  {
    hide StartEach;
    assert multiset{} + multiset{cfg} - multiset{cfg} == multiset{};
  }

  lemma StopSetMeans(s: State, names: set<string>)
    requires names <= s.tunnels.Keys
    ensures StopSet(s, names).tunnels == s.tunnels - names
    ensures forall n :: n in names ==> s.tunnels[n].stop in StopSet(s, names).closed
  {
    forall n | n in names ensures s.tunnels[n].stop in StopsOf(s.tunnels, names) {
    }
  }

  lemma NoneStopped(s: State)
    ensures StopSet(s, {}) == s
  {
    assert StopsOf(s.tunnels, {}) == {} && s.tunnels - {} == s.tunnels;
  }

  lemma NothingToStop(s: State, name: string)
    ensures name !in s.tunnels ==> StopSet(s, {name}) == s && s.tunnels - {name} == s.tunnels
  {
    if name !in s.tunnels {
      assert StopsOf(s.tunnels, {name}) == {} && s.tunnels - {name} == s.tunnels;
    }
  }
}
