/** The tunnel manager (manager/manager.go, LoadConfig and SaveConfig of manager/config.go) as a
    state machine over its commands. A command is what runs under `m.mu`; Reload reads the file
    before it takes the lock, so it is two commands, Load and Swap. */
module Manager {
  import opened Basics

  /** `rest` stands for the fields that no command looks at. */
  datatype TunnelConfig = TunnelConfig(name: string, mode: string, autostart: bool, group: string,
                                       hops: seq<string>, server: string, connections: int, rest: string)

  datatype Config = Config(tunnels: seq<TunnelConfig>, global: string)

  /** Which function a tunnel's goroutine runs. */
  datatype Runner = RunChain | RunLocal | RunDynamic | RunRemoteClientMulti | RunRemoteClient | RunRemoteServer

  /** An entry of the map of running tunnels; `stop` names its stop channel. */
  datatype Running = Running(cfg: TunnelConfig, runner: Runner, stop: nat)

  /** The config file. */
  datatype File = Missing | Unreadable | Holds(cfg: Config)

  /** `made` stop channels have been made, numbered from 0, and those in `closed` are closed.
      `loading` has the configs read by Reload calls that still wait for the lock. */
  datatype State = State(cfg: Config, file: File, tunnels: map<string, Running>, made: nat, closed: set<nat>,
                         loading: multiset<Config>)

  datatype Failure = AlreadyExists | NotFound | CannotSave | UnknownMode | CannotLoad

  /** How SaveConfig ends. When it fails, the file may be left in any state. */
  datatype Saving = Saved | NotSaved(left: File)

  datatype Command =
    | Start
    | Stop
    | StopGroup(group: string)
    | StartGroup(group: string)
    | Add(tc: TunnelConfig, saving: Saving)
    | Remove(name: string, saving: Saving)
    | Load
    | Swap(cfg: Config)
    | Enable(name: string, saving: Saving)
    | Disable(name: string, saving: Saving)
    | Restart(name: string)
    | Save(saving: Saving)
    | Edit(file: File)           // somebody else writes the config file

  datatype Outcome = Outcome(state: State, failure: Option<Failure>)

  function RunnerOf(tc: TunnelConfig): Option<Runner> {
    if tc.mode == "local" then Some(if |tc.hops| > 0 then RunChain else RunLocal)
    else if tc.mode == "dynamic" then Some(RunDynamic)
    else if tc.mode == "remote" then
      Some(if tc.server == "" then RunRemoteServer
           else if tc.connections > 1 then RunRemoteClientMulti else RunRemoteClient)
    else None
  }

  function Find(tcs: seq<TunnelConfig>, name: string): (i: nat)
    ensures i <= |tcs| && (i < |tcs| ==> tcs[i].name == name)
    ensures forall j :: 0 <= j < i ==> tcs[j].name != name
  {
    if tcs == [] || tcs[0].name == name then 0 else 1 + Find(tcs[1..], name)
  }

  function StartOne(s: State, tc: TunnelConfig): State {
    if tc.name in s.tunnels then s
    else match RunnerOf(tc)
      case None => s
      case Some(runner) => s.(tunnels := s.tunnels[tc.name := Running(tc, runner, s.made)], made := s.made + 1)
  }

  function StartFailure(s: State, tc: TunnelConfig): Option<Failure> {
    if tc.name !in s.tunnels && RunnerOf(tc).None? then Some(UnknownMode) else None
  }

  /** Which tunnels Start and StartGroup start. */
  datatype Selector = Autostarting | InGroup(group: string)

  predicate Selects(sel: Selector, tc: TunnelConfig) {
    match sel
    case Autostarting => tc.autostart
    case InGroup(g) => tc.group == g
  }

  /** One pass over a list of configs; failures are only logged. */
  function StartEach(s: State, tcs: seq<TunnelConfig>, sel: Selector): State
    decreases |tcs|
  {
    if tcs == [] then s
    else StartEach(if Selects(sel, tcs[0]) then StartOne(s, tcs[0]) else s, tcs[1..], sel)
  }

  function StopsOf(tunnels: map<string, Running>, names: set<string>): set<nat> {
    set n | n in names && n in tunnels :: tunnels[n].stop
  }

  function StopSet(s: State, names: set<string>): State {
    s.(tunnels := s.tunnels - names, closed := s.closed + StopsOf(s.tunnels, names))
  }

  function GroupOf(tunnels: map<string, Running>, group: string): set<string> {
    set n | n in tunnels && tunnels[n].cfg.group == group
  }

  function SetTunnels(s: State, tcs: seq<TunnelConfig>): State {
    s.(cfg := s.cfg.(tunnels := tcs))
  }

  function WriteConfig(s: State, saving: Saving): State {
    s.(file := match saving case Saved => Holds(s.cfg) case NotSaved(left) => left)
  }

  function LoadConfig(file: File): Option<Config> {
    match file
    case Missing => Some(Config([], ""))
    case Unreadable => None
    case Holds(cfg) => Some(cfg)
  }

  function Without(tcs: seq<TunnelConfig>, i: nat): seq<TunnelConfig>
    requires i < |tcs|
  {
    tcs[..i] + tcs[i + 1..]
  }

  function WithAutostart(tcs: seq<TunnelConfig>, i: nat, on: bool): seq<TunnelConfig>
    requires i < |tcs|
  {
    tcs[i := tcs[i].(autostart := on)]
  }

  function DoAdd(s: State, tc: TunnelConfig, saving: Saving): Outcome {
    if Find(s.cfg.tunnels, tc.name) < |s.cfg.tunnels| then Outcome(s, Some(AlreadyExists))
    else
      var s1 := WriteConfig(SetTunnels(s, s.cfg.tunnels + [tc]), saving);
      if saving.NotSaved? then Outcome(s1, Some(CannotSave))
      else if tc.autostart then Outcome(StartOne(s1, tc), StartFailure(s1, tc))
      else Outcome(s1, None)
  }

  function DoRemove(s: State, name: string, saving: Saving): Outcome {
    var s1 := StopSet(s, {name});
    var i := Find(s.cfg.tunnels, name);
    if i == |s.cfg.tunnels| then Outcome(s1, Some(NotFound))
    else Outcome(WriteConfig(SetTunnels(s1, Without(s.cfg.tunnels, i)), saving),
                 if saving.NotSaved? then Some(CannotSave) else None)
  }

  function DoEnable(s: State, name: string, saving: Saving): Outcome {
    var i := Find(s.cfg.tunnels, name);
    if i == |s.cfg.tunnels| then Outcome(s, Some(NotFound))
    else
      var s1 := WriteConfig(SetTunnels(s, WithAutostart(s.cfg.tunnels, i, true)), saving);
      if saving.NotSaved? then Outcome(s1, Some(CannotSave))
      else Outcome(StartOne(s1, s1.cfg.tunnels[i]), StartFailure(s1, s1.cfg.tunnels[i]))
  }

  function DoDisable(s: State, name: string, saving: Saving): Outcome {
    var i := Find(s.cfg.tunnels, name);
    if i == |s.cfg.tunnels| then Outcome(s, Some(NotFound))
    else
      var s1 := WriteConfig(SetTunnels(s, WithAutostart(s.cfg.tunnels, i, false)), saving);
      if saving.NotSaved? then Outcome(s1, Some(CannotSave)) else Outcome(StopSet(s1, {name}), None)
  }

  function DoRestart(s: State, name: string): Outcome {
    var i := Find(s.cfg.tunnels, name);
    if i == |s.cfg.tunnels| then Outcome(s, Some(NotFound))
    else
      var s1 := StopSet(s, {name});
      Outcome(StartOne(s1, s.cfg.tunnels[i]), StartFailure(s1, s.cfg.tunnels[i]))
  }

  function DoLoad(s: State): Outcome {
    match LoadConfig(s.file)
    case None => Outcome(s, Some(CannotLoad))
    case Some(cfg) => Outcome(s.(loading := s.loading + multiset{cfg}), None)
  }

  function DoSwap(s: State, cfg: Config): State {
    StartEach(StopSet(s, s.tunnels.Keys).(cfg := cfg, loading := s.loading - multiset{cfg}), cfg.tunnels, Autostarting)
  }

  predicate CanDo(s: State, c: Command) {
    c.Swap? ==> c.cfg in s.loading
  }

  function Do(s: State, c: Command): Outcome {
    match c
    case Start => Outcome(StartEach(s, s.cfg.tunnels, Autostarting), None)
    case Stop => Outcome(StopSet(s, s.tunnels.Keys), None)
    case StopGroup(g) => Outcome(StopSet(s, GroupOf(s.tunnels, g)), None)
    case StartGroup(g) => Outcome(StartEach(s, s.cfg.tunnels, InGroup(g)), None)
    case Add(tc, saving) => DoAdd(s, tc, saving)
    case Remove(name, saving) => DoRemove(s, name, saving)
    case Load => DoLoad(s)
    case Swap(cfg) => Outcome(DoSwap(s, cfg), None)
    case Enable(name, saving) => DoEnable(s, name, saving)
    case Disable(name, saving) => DoDisable(s, name, saving)
    case Restart(name) => DoRestart(s, name)
    case Save(saving) => Outcome(WriteConfig(s, saving), if saving.NotSaved? then Some(CannotSave) else None)
    case Edit(file) => Outcome(s.(file := file), None)
  }

  predicate SameButAutostart(a: TunnelConfig, b: TunnelConfig) {
    a.(autostart := b.autostart) == b
  }

  /** Some config of the list is `tc`, apart from its autostart flag. */
  predicate Listed(tcs: seq<TunnelConfig>, tc: TunnelConfig) {
    exists i :: 0 <= i < |tcs| && SameButAutostart(tcs[i], tc)
  }

  /** Every running tunnel is configured, and runs what its config asks for. */
  ghost predicate EntriesInv(s: State) {
    forall n :: n in s.tunnels ==>
      && s.tunnels[n].cfg.name == n && RunnerOf(s.tunnels[n].cfg) == Some(s.tunnels[n].runner)
      && Listed(s.cfg.tunnels, s.tunnels[n].cfg)
  }

  predicate Owned(tunnels: map<string, Running>, stop: nat) {
    exists n :: n in tunnels && tunnels[n].stop == stop
  }

  /** Every stop channel ever made is either closed or the channel of exactly one running tunnel. */
  ghost predicate ChannelsInv(s: State) {
    && (forall i: nat :: i < s.made <==> i in s.closed || Owned(s.tunnels, i))
    && (forall n :: n in s.tunnels ==> s.tunnels[n].stop !in s.closed)
    && (forall m, n :: m in s.tunnels && n in s.tunnels && s.tunnels[m].stop == s.tunnels[n].stop ==> m == n)
  }

  ghost predicate Inv(s: State) {
    EntriesInv(s) && ChannelsInv(s)
  }

  function Fresh(cfg: Config, file: File): State {
    State(cfg, file, map[], 0, {}, multiset{})
  }

  lemma FreshInv(cfg: Config, file: File)
    ensures Inv(Fresh(cfg, file))
  {
  }

  lemma StartKeepsChannels(s: State, tc: TunnelConfig)
    requires ChannelsInv(s)
    ensures ChannelsInv(StartOne(s, tc))
  {
    var s' := StartOne(s, tc);
    if s' != s {
      assert !Owned(s.tunnels, s.made) && s.made !in s.closed;
      forall i: nat ensures Owned(s'.tunnels, i) <==> i == s.made || Owned(s.tunnels, i) {
        if Owned(s.tunnels, i) {
          var n :| n in s.tunnels && s.tunnels[n].stop == i;
          assert n in s'.tunnels && s'.tunnels[n].stop == i;
        }
        assert tc.name in s'.tunnels && s'.tunnels[tc.name].stop == s.made;
      }
      forall n | n in s.tunnels ensures s.tunnels[n].stop < s.made {
        assert Owned(s.tunnels, s.tunnels[n].stop);
      }
    }
  }

  lemma StartKeepsEntries(s: State, tc: TunnelConfig)
    requires EntriesInv(s) && Listed(s.cfg.tunnels, tc)
    ensures EntriesInv(StartOne(s, tc))
  {
    hide Listed, SameButAutostart;
  }

  lemma StopKeepsChannels(s: State, names: set<string>)
    requires ChannelsInv(s)
    ensures ChannelsInv(StopSet(s, names))
  {
    var s' := StopSet(s, names);
    forall i: nat ensures i < s.made <==> i in s'.closed || Owned(s'.tunnels, i) {
      if Owned(s.tunnels, i) {
        var n :| n in s.tunnels && s.tunnels[n].stop == i;
        assert n in names ==> i in StopsOf(s.tunnels, names);
        assert n !in names ==> n in s'.tunnels && s'.tunnels[n].stop == i;
      }
      if i in StopsOf(s.tunnels, names) || Owned(s'.tunnels, i) {
        assert Owned(s.tunnels, i);
      }
    }
  }

  lemma StopKeepsEntries(s: State, names: set<string>)
    requires EntriesInv(s)
    ensures EntriesInv(StopSet(s, names))
  {
    hide Listed;
  }

  lemma StopKeeps(s: State, names: set<string>)
    requires Inv(s)
    ensures Inv(StopSet(s, names))
  {
    hide EntriesInv, ChannelsInv, StopSet;
    StopKeepsChannels(s, names);
    StopKeepsEntries(s, names);
  }

  lemma StartOneKeeps(s: State, tc: TunnelConfig)
    requires Inv(s) && tc in s.cfg.tunnels
    ensures Inv(StartOne(s, tc))
  {
    hide EntriesInv, ChannelsInv, StartOne;
    assert Listed(s.cfg.tunnels, tc);
    StartKeepsChannels(s, tc);
    StartKeepsEntries(s, tc);
  }

  lemma {:induction false} StartEachKeeps(s: State, tcs: seq<TunnelConfig>, sel: Selector)
    requires Inv(s) && forall tc :: tc in tcs ==> tc in s.cfg.tunnels
    ensures Inv(StartEach(s, tcs, sel)) && StartEach(s, tcs, sel) == s.(tunnels := StartEach(s, tcs, sel).tunnels, made := StartEach(s, tcs, sel).made)
    decreases |tcs|
  {
    hide Inv;
    if tcs != [] {
      assert tcs[0] in tcs;
      StartOneKeeps(s, tcs[0]);
      StartEachKeeps(if Selects(sel, tcs[0]) then StartOne(s, tcs[0]) else s, tcs[1..], sel);
    }
  }

  /** A change of the list of configs that keeps the config of every running tunnel. */
  lemma ConfigKeeps(s: State, cfg: Config, file: File, loading: multiset<Config>)
    requires Inv(s)
    requires forall n :: n in s.tunnels ==> Listed(cfg.tunnels, s.tunnels[n].cfg)
    ensures Inv(s.(cfg := cfg, file := file, loading := loading))
  {
    hide Listed;
    var s' := s.(cfg := cfg, file := file, loading := loading);
    assert s'.tunnels == s.tunnels;
  }

  lemma AppendKeepsListed(tcs: seq<TunnelConfig>, more: TunnelConfig, tc: TunnelConfig)
    requires Listed(tcs, tc)
    ensures Listed(tcs + [more], tc)
  {
    var i :| 0 <= i < |tcs| && SameButAutostart(tcs[i], tc);
    assert (tcs + [more])[i] == tcs[i];
  }

  lemma FlagKeepsListed(tcs: seq<TunnelConfig>, k: nat, on: bool, tc: TunnelConfig)
    requires Listed(tcs, tc) && k < |tcs|
    ensures Listed(WithAutostart(tcs, k, on), tc)
  {
    var i :| 0 <= i < |tcs| && SameButAutostart(tcs[i], tc);
    assert SameButAutostart(WithAutostart(tcs, k, on)[i], tc);
  }

  lemma RemovalKeepsListed(tcs: seq<TunnelConfig>, k: nat, tc: TunnelConfig)
    requires Listed(tcs, tc) && k < |tcs| && tcs[k].name != tc.name
    ensures Listed(Without(tcs, k), tc)
  {
    var i :| 0 <= i < |tcs| && SameButAutostart(tcs[i], tc);
    assert i != k;
    assert Without(tcs, k)[if i < k then i else i - 1] == tcs[i];
  }

  lemma AddKeeps(s: State, tc: TunnelConfig, saving: Saving)
    requires Inv(s)
    ensures Inv(DoAdd(s, tc, saving).state)
  {
    if Find(s.cfg.tunnels, tc.name) == |s.cfg.tunnels| {
      var s1 := WriteConfig(SetTunnels(s, s.cfg.tunnels + [tc]), saving);
      forall n | n in s.tunnels ensures Listed(s1.cfg.tunnels, s.tunnels[n].cfg) {
        AppendKeepsListed(s.cfg.tunnels, tc, s.tunnels[n].cfg);
      }
      ConfigKeeps(s, s1.cfg, s1.file, s1.loading);
      hide Inv, StartOne;
      assert s1 == s.(cfg := s1.cfg, file := s1.file, loading := s1.loading);
      assert s1.cfg.tunnels[|s.cfg.tunnels|] == tc;
      StartOneKeeps(s1, tc);
    }
  }

  lemma RemoveKeeps(s: State, name: string, saving: Saving)
    requires Inv(s)
    ensures Inv(DoRemove(s, name, saving).state)
  {
    var s1, i := StopSet(s, {name}), Find(s.cfg.tunnels, name);
    StopKeeps(s, {name});
    if i < |s.cfg.tunnels| {
      var s2 := WriteConfig(SetTunnels(s1, Without(s.cfg.tunnels, i)), saving);
      forall n | n in s1.tunnels ensures Listed(s2.cfg.tunnels, s1.tunnels[n].cfg) {
        RemovalKeepsListed(s.cfg.tunnels, i, s1.tunnels[n].cfg);
      }
      ConfigKeeps(s1, s2.cfg, s2.file, s2.loading);
      assert s2 == s1.(cfg := s2.cfg, file := s2.file, loading := s2.loading);
    }
  }

  lemma FlagKeeps(s: State, i: nat, on: bool, saving: Saving)
    requires Inv(s) && i < |s.cfg.tunnels|
    ensures Inv(WriteConfig(SetTunnels(s, WithAutostart(s.cfg.tunnels, i, on)), saving))
  {
    var s1 := WriteConfig(SetTunnels(s, WithAutostart(s.cfg.tunnels, i, on)), saving);
    forall n | n in s.tunnels ensures Listed(s1.cfg.tunnels, s.tunnels[n].cfg) {
      FlagKeepsListed(s.cfg.tunnels, i, on, s.tunnels[n].cfg);
    }
    ConfigKeeps(s, s1.cfg, s1.file, s1.loading);
    assert s1 == s.(cfg := s1.cfg, file := s1.file, loading := s1.loading);
  }

  lemma EnableKeeps(s: State, name: string, saving: Saving)
    requires Inv(s)
    ensures Inv(DoEnable(s, name, saving).state)
  {
    var i := Find(s.cfg.tunnels, name);
    if i < |s.cfg.tunnels| {
      FlagKeeps(s, i, true, saving);
      var s1 := WriteConfig(SetTunnels(s, WithAutostart(s.cfg.tunnels, i, true)), saving);
      hide Inv, StartOne;
      StartOneKeeps(s1, s1.cfg.tunnels[i]);
    }
  }

  lemma DisableKeeps(s: State, name: string, saving: Saving)
    requires Inv(s)
    ensures Inv(DoDisable(s, name, saving).state)
  {
    hide Inv;
    var i := Find(s.cfg.tunnels, name);
    if i < |s.cfg.tunnels| {
      FlagKeeps(s, i, false, saving);
      StopKeeps(WriteConfig(SetTunnels(s, WithAutostart(s.cfg.tunnels, i, false)), saving), {name});
    }
  }

  lemma RestartKeeps(s: State, name: string)
    requires Inv(s)
    ensures Inv(DoRestart(s, name).state)
  {
    hide Inv;
    var i := Find(s.cfg.tunnels, name);
    if i < |s.cfg.tunnels| {
      StopKeeps(s, {name});
      StartOneKeeps(StopSet(s, {name}), s.cfg.tunnels[i]);
    }
  }

  lemma SwapKeeps(s: State, cfg: Config)
    requires Inv(s)
    ensures Inv(DoSwap(s, cfg))
  {
    hide StartEach;
    var s1 := StopSet(s, s.tunnels.Keys);
    StopKeeps(s, s.tunnels.Keys);
    ConfigKeeps(s1, cfg, s1.file, s.loading - multiset{cfg});
    var s2 := s1.(cfg := cfg, loading := s.loading - multiset{cfg});
    assert s2 == s1.(cfg := cfg, file := s1.file, loading := s.loading - multiset{cfg});
    StartEachKeeps(s2, cfg.tunnels, Autostarting);
  }

  lemma DoKeepsInv(s: State, c: Command)
    requires Inv(s)
    ensures Inv(Do(s, c).state)
  {
    match c
    case Start => StartEachKeeps(s, s.cfg.tunnels, Autostarting);
    case Stop => StopKeeps(s, s.tunnels.Keys);
    case StopGroup(g) => StopKeeps(s, GroupOf(s.tunnels, g));
    case StartGroup(g) => StartEachKeeps(s, s.cfg.tunnels, InGroup(g));
    case Add(tc, saving) => AddKeeps(s, tc, saving);
    case Remove(name, saving) => RemoveKeeps(s, name, saving);
    case Load =>
    case Swap(cfg) => SwapKeeps(s, cfg);
    case Enable(name, saving) => EnableKeeps(s, name, saving);
    case Disable(name, saving) => DisableKeeps(s, name, saving);
    case Restart(name) => RestartKeeps(s, name);
    case Save(saving) =>
    case Edit(file) =>
  }

  ghost predicate IsHistory(s: State, cs: seq<Command>, s': State)
    decreases |cs|
  {
    if cs == [] then s == s' else CanDo(s, cs[0]) && IsHistory(Do(s, cs[0]).state, cs[1..], s')
  }

  lemma {:induction false} HistoryKeepsInv(s: State, cs: seq<Command>, s': State)
    requires Inv(s) && IsHistory(s, cs, s')
    ensures Inv(s')
    decreases |cs|
  {
    hide Inv, Do;
    if cs != [] {
      DoKeepsInv(s, cs[0]);
      HistoryKeepsInv(Do(s, cs[0]).state, cs[1..], s');
    }
  }
}
