/** What the manager's commands achieve, over every history of commands. */
module ManagerTheorems {
  import opened Basics
  import opened Manager

  ghost predicate UniqueNames(tcs: seq<TunnelConfig>) {
    forall i, j :: 0 <= i < j < |tcs| ==> tcs[i].name != tcs[j].name
  }

  ghost predicate SaneFile(file: File) {
    file.Holds? ==> UniqueNames(file.cfg.tunnels)
  }

  /** No name occurs twice in memory, in the file, or in a config that a Reload has read. */
  ghost predicate Sane(s: State) {
    && UniqueNames(s.cfg.tunnels) && SaneFile(s.file)
    && forall cfg :: cfg in s.loading ==> UniqueNames(cfg.tunnels)
  }

  function SavingOf(c: Command): Saving {
    match c
    case Add(_, saving) => saving
    case Remove(_, saving) => saving
    case Enable(_, saving) => saving
    case Disable(_, saving) => saving
    case Save(saving) => saving
    case _ => Saved
  }

  /** What a failed save or somebody else leaves in the file has no name twice. */
  ghost predicate SaneCommand(c: Command) {
    && (c.Edit? ==> SaneFile(c.file))
    && (SavingOf(c).NotSaved? ==> SaneFile(SavingOf(c).left))
  }

  lemma StartEachOnlyStarts(s: State, tcs: seq<TunnelConfig>, sel: Selector)
    ensures var s' := StartEach(s, tcs, sel);
            s'.cfg == s.cfg && s'.file == s.file && s'.loading == s.loading && s'.closed == s.closed
    decreases |tcs|
  {
    if tcs != [] {
      StartEachOnlyStarts(if Selects(sel, tcs[0]) then StartOne(s, tcs[0]) else s, tcs[1..], sel);
    }
  }

  lemma AddIsSane(s: State, tc: TunnelConfig, saving: Saving)
    requires Sane(s) && (saving.NotSaved? ==> SaneFile(saving.left))
    ensures Sane(DoAdd(s, tc, saving).state)
  {
  }

  lemma RemoveIsSane(s: State, name: string, saving: Saving)
    requires Sane(s) && (saving.NotSaved? ==> SaneFile(saving.left))
    ensures Sane(DoRemove(s, name, saving).state)
  {
    var i := Find(s.cfg.tunnels, name);
    if i < |s.cfg.tunnels| {
      var tcs, tcs' := s.cfg.tunnels, Without(s.cfg.tunnels, i);
      assert forall k :: 0 <= k < |tcs'| ==> tcs'[k] == tcs[if k < i then k else k + 1];
      assert UniqueNames(tcs');
    }
  }

  lemma FlagIsSane(s: State, name: string, on: bool, saving: Saving)
    requires Sane(s) && (saving.NotSaved? ==> SaneFile(saving.left))
    ensures var i := Find(s.cfg.tunnels, name);
            i < |s.cfg.tunnels| ==> Sane(WriteConfig(SetTunnels(s, WithAutostart(s.cfg.tunnels, i, on)), saving))
  {
    hide Find;
  }

  lemma SwapIsSane(s: State, cfg: Config)
    requires Sane(s) && cfg in s.loading
    ensures Sane(DoSwap(s, cfg))
  {
    StartEachOnlyStarts(StopSet(s, s.tunnels.Keys).(cfg := cfg, loading := s.loading - multiset{cfg}), cfg.tunnels, Autostarting);
  }

  lemma StartIsSane(s: State, sel: Selector)
    requires Sane(s)
    ensures Sane(StartEach(s, s.cfg.tunnels, sel))
  {
    StartEachOnlyStarts(s, s.cfg.tunnels, sel);
    hide StartEach, UniqueNames;
  }

  lemma LoadIsSane(s: State)
    requires Sane(s)
    ensures Sane(DoLoad(s).state)
  {
    assert UniqueNames(Config([], "").tunnels);
    hide UniqueNames;
  }

  lemma EnableIsSane(s: State, name: string, saving: Saving)
    requires Sane(s) && (saving.NotSaved? ==> SaneFile(saving.left))
    ensures Sane(DoEnable(s, name, saving).state)
  {
    hide Find, UniqueNames;
    FlagIsSane(s, name, true, saving);
  }

  lemma DisableIsSane(s: State, name: string, saving: Saving)
    requires Sane(s) && (saving.NotSaved? ==> SaneFile(saving.left))
    ensures Sane(DoDisable(s, name, saving).state)
  {
    hide Find, UniqueNames;
    FlagIsSane(s, name, false, saving);
  }

  lemma SaneStep(s: State, c: Command)
    requires Sane(s) && SaneCommand(c) && CanDo(s, c)
    ensures Sane(Do(s, c).state)
  {
    hide Find, StartEach, SaneFile, UniqueNames, DoAdd, DoRemove, DoSwap, DoEnable, DoDisable, DoLoad, DoRestart;
    match c
    case Start => StartIsSane(s, Autostarting);
    case StartGroup(g) => StartIsSane(s, InGroup(g));
    case Enable(name, saving) => EnableIsSane(s, name, saving);
    case Disable(name, saving) => DisableIsSane(s, name, saving);
    case Add(tc, saving) => AddIsSane(s, tc, saving);
    case Remove(name, saving) => RemoveIsSane(s, name, saving);
    case Load => LoadIsSane(s);
    case Swap(cfg) => SwapIsSane(s, cfg);
    case Restart(name) => RestartIsSane(s, name);
    case Save(saving) => SaveIsSane(s, saving);
    case _ =>
  }

  lemma RestartIsSane(s: State, name: string)
    requires Sane(s)
    ensures Sane(DoRestart(s, name).state)
  {
    hide Find, UniqueNames;
  }

  lemma SaveIsSane(s: State, saving: Saving)
    requires Sane(s) && (saving.NotSaved? ==> SaneFile(saving.left))
    ensures Sane(WriteConfig(s, saving))
  {
    hide UniqueNames;
  }

  lemma {:induction false} SaneHistory(s: State, cs: seq<Command>, s': State)
    requires Sane(s) && IsHistory(s, cs, s') && forall c :: c in cs ==> SaneCommand(c)
    ensures Sane(s')
    decreases |cs|
  {
    hide Sane, SaneCommand, Do;
    if cs != [] {
      assert cs[0] in cs;
      SaneStep(s, cs[0]);
      SaneHistory(Do(s, cs[0]).state, cs[1..], s');
    }
  }

  lemma FoundByName(tcs: seq<TunnelConfig>, i: nat)
    requires UniqueNames(tcs) && i < |tcs|
    ensures Find(tcs, tcs[i].name) == i
  {
  }

  /** In every history from a config without repeated names, each running tunnel is the one
      configured under its name, with at most the autostart flag changed since it was started. */
  lemma RunningIsConfigured(cfg: Config, file: File, cs: seq<Command>, s: State, n: string)
    requires Sane(Fresh(cfg, file)) && IsHistory(Fresh(cfg, file), cs, s) && forall c :: c in cs ==> SaneCommand(c)
    requires n in s.tunnels
    ensures var i := Find(s.cfg.tunnels, n);
            && i < |s.cfg.tunnels| && SameButAutostart(s.cfg.tunnels[i], s.tunnels[n].cfg)
            && RunnerOf(s.cfg.tunnels[i]) == Some(s.tunnels[n].runner)
  {
    FreshInv(cfg, file);
    HistoryKeepsInv(Fresh(cfg, file), cs, s);
    SaneHistory(Fresh(cfg, file), cs, s);
    hide SaneCommand, IsHistory, ChannelsInv;
    ConfiguredOnce(s, n);
  }

  lemma ConfiguredOnce(s: State, n: string)
    requires EntriesInv(s) && UniqueNames(s.cfg.tunnels) && n in s.tunnels
    ensures var i := Find(s.cfg.tunnels, n);
            && i < |s.cfg.tunnels| && SameButAutostart(s.cfg.tunnels[i], s.tunnels[n].cfg)
            && RunnerOf(s.cfg.tunnels[i]) == Some(s.tunnels[n].runner)
  {
    var i :| 0 <= i < |s.cfg.tunnels| && SameButAutostart(s.cfg.tunnels[i], s.tunnels[n].cfg);
    FoundByName(s.cfg.tunnels, i);
    SameRunner(s.cfg.tunnels[i], s.tunnels[n].cfg);
    hide RunnerOf, Find, UniqueNames, SameButAutostart;
  }

  lemma SameRunner(a: TunnelConfig, b: TunnelConfig)
    requires SameButAutostart(a, b)
    ensures RunnerOf(a) == RunnerOf(b) && a.name == b.name && a.group == b.group
  {
  }

  /** In every history, from any config: stop channels are numbered without gaps, each is closed
      or belongs to exactly one running tunnel, and never both. */
  lemma ChannelsAreAccountedFor(cfg: Config, file: File, cs: seq<Command>, s: State, i: nat)
    requires IsHistory(Fresh(cfg, file), cs, s)
    ensures i < s.made <==> i in s.closed || Owned(s.tunnels, i)
    ensures !(i in s.closed && Owned(s.tunnels, i))
    ensures forall m, n :: m in s.tunnels && n in s.tunnels && s.tunnels[m].stop == s.tunnels[n].stop ==> m == n
  {
    FreshInv(cfg, file);
    HistoryKeepsInv(Fresh(cfg, file), cs, s);
    hide EntriesInv;
  }

  /** A command closes exactly the channels of the tunnels it takes out of the map. */
  lemma ClosesWhatItStops(s: State, c: Command, i: nat)
    requires Inv(s) && CanDo(s, c) && i !in s.closed
    ensures i in Do(s, c).state.closed <==> Owned(s.tunnels, i) && !Owned(Do(s, c).state.tunnels, i)
  {
    DoKeepsInv(s, c);
    ClosedBefore(s, c);
    hide EntriesInv, Do;
  }

  lemma StopSetCloses(s: State, names: set<string>)
    ensures s.closed <= StopSet(s, names).closed
    ensures forall i :: i in StopSet(s, names).closed ==> i in s.closed || Owned(s.tunnels, i)
  {
  }

  lemma SwapCloses(s: State, cfg: Config)
    ensures s.closed <= DoSwap(s, cfg).closed && s.made <= DoSwap(s, cfg).made
    ensures forall i :: i in DoSwap(s, cfg).closed ==> i in s.closed || Owned(s.tunnels, i)
  {
    StopSetCloses(s, s.tunnels.Keys);
    hide StartEach, Owned, StopsOf;
    MoreMade(StopSet(s, s.tunnels.Keys).(cfg := cfg, loading := s.loading - multiset{cfg}), cfg.tunnels, Autostarting);
  }

  lemma OneCloses(s: State, c: Command)
    requires c.Add? || c.Remove? || c.Enable? || c.Disable? || c.Restart?
    ensures s.closed <= Do(s, c).state.closed && s.made <= Do(s, c).state.made
    ensures forall i :: i in Do(s, c).state.closed ==> i in s.closed || Owned(s.tunnels, i)
  {
    hide Find, RunnerOf;
  }

  lemma ClosedBefore(s: State, c: Command)
    requires Inv(s) && CanDo(s, c)
    ensures s.closed <= Do(s, c).state.closed && s.made <= Do(s, c).state.made
    ensures forall i :: i in Do(s, c).state.closed ==> i in s.closed || Owned(s.tunnels, i)
  {
    hide StartEach, StopSet, Owned, DoAdd, DoRemove, DoEnable, DoDisable, DoRestart, DoSwap, Inv;
    match c
    case Start => MoreMade(s, s.cfg.tunnels, Autostarting);
    case StartGroup(g) => MoreMade(s, s.cfg.tunnels, InGroup(g));
    case Stop =>
      StopSetCloses(s, s.tunnels.Keys);
      StopSetMakes(s, s.tunnels.Keys);
    case StopGroup(g) =>
      StopSetCloses(s, GroupOf(s.tunnels, g));
      StopSetMakes(s, GroupOf(s.tunnels, g));
    case Swap(cfg) => SwapCloses(s, cfg);
    case Load =>
    case Save(_) =>
    case Edit(_) =>
    case _ => OneCloses(s, c);
  }

  lemma StopSetMakes(s: State, names: set<string>)
    ensures StopSet(s, names).made == s.made
  {
  }

  lemma MoreMade(s: State, tcs: seq<TunnelConfig>, sel: Selector)
    ensures StartEach(s, tcs, sel).made >= s.made && StartEach(s, tcs, sel).closed == s.closed
    decreases |tcs|
  {
    if tcs != [] {
      MoreMade(if Selects(sel, tcs[0]) then StartOne(s, tcs[0]) else s, tcs[1..], sel);
    }
  }

  /** The config that StartEach starts for `name`, if any: the first one selected, of known mode. */
  predicate Starts(tcs: seq<TunnelConfig>, sel: Selector, name: string) {
    exists i :: 0 <= i < |tcs| && Wanted(tcs[i], sel, name)
  }

  predicate Wanted(tc: TunnelConfig, sel: Selector, name: string) {
    tc.name == name && Selects(sel, tc) && RunnerOf(tc).Some?
  }

  /** After a pass over the configs, the running tunnels are those running before, untouched, and
      the selected ones of known mode, each with its own config. */
  lemma {:induction false} StartEachStarts(s: State, tcs: seq<TunnelConfig>, sel: Selector, name: string)
    ensures var s' := StartEach(s, tcs, sel);
            && (name in s'.tunnels <==> name in s.tunnels || Starts(tcs, sel, name))
            && (name in s.tunnels ==> s'.tunnels[name] == s.tunnels[name])
            && (name in s'.tunnels && name !in s.tunnels ==>
                  s'.tunnels[name].cfg in tcs && Wanted(s'.tunnels[name].cfg, sel, name) && s'.tunnels[name].stop >= s.made)
    decreases |tcs|
  {
    hide RunnerOf, Selects;
    if tcs != [] {
      var s1 := if Selects(sel, tcs[0]) then StartOne(s, tcs[0]) else s;
      StartEachStarts(s1, tcs[1..], sel, name);
      StartsSplit(tcs, sel, name);
    }
  }

  lemma StartsSplit(tcs: seq<TunnelConfig>, sel: Selector, name: string)
    requires tcs != []
    ensures Starts(tcs, sel, name) <==> Wanted(tcs[0], sel, name) || Starts(tcs[1..], sel, name)
  {
    hide Wanted;
    if Starts(tcs[1..], sel, name) {
      var i :| 0 <= i < |tcs[1..]| && Wanted(tcs[1..][i], sel, name);
      assert Wanted(tcs[i + 1], sel, name);
    }
    if Starts(tcs, sel, name) && !Wanted(tcs[0], sel, name) {
      var i :| 0 <= i < |tcs| && Wanted(tcs[i], sel, name);
      assert Wanted(tcs[1..][i - 1], sel, name);
    }
  }

  /** The modes that startOne knows. */
  predicate KnownMode(mode: string) {
    mode == "local" || mode == "dynamic" || mode == "remote"
  }

  lemma KnownRuns(tc: TunnelConfig)
    ensures RunnerOf(tc).Some? <==> KnownMode(tc.mode)
  {
  }

  lemma StartsAre(tcs: seq<TunnelConfig>, name: string)
    ensures Starts(tcs, Autostarting, name) <==>
              exists i :: 0 <= i < |tcs| && tcs[i].name == name && tcs[i].autostart && KnownMode(tcs[i].mode)
    ensures forall g :: Starts(tcs, InGroup(g), name) <==>
              exists i :: 0 <= i < |tcs| && tcs[i].name == name && tcs[i].group == g && KnownMode(tcs[i].mode)
  {
    hide KnownMode, RunnerOf;
    forall i | 0 <= i < |tcs| ensures RunnerOf(tcs[i]).Some? <==> KnownMode(tcs[i].mode) {
      KnownRuns(tcs[i]);
    }
    assert forall i, sel :: 0 <= i < |tcs| && Wanted(tcs[i], sel, name) ==> KnownMode(tcs[i].mode);
  }

  /** Start runs the tunnels with the autostart flag, of known mode, that did not run yet, with
      their own configs; those that ran are untouched, and nothing else changes. */
  lemma StartStartsAutostart(s: State, name: string)
    ensures var s', tcs := Do(s, Start).state, s.cfg.tunnels;
            && (name in s'.tunnels <==>
                  || name in s.tunnels
                  || exists i :: 0 <= i < |tcs| && tcs[i].name == name && tcs[i].autostart && KnownMode(tcs[i].mode))
            && (name in s.tunnels ==> s'.tunnels[name] == s.tunnels[name])
            && (name in s'.tunnels && name !in s.tunnels ==>
                  var cfg := s'.tunnels[name].cfg; cfg in tcs && cfg.name == name && cfg.autostart && KnownMode(cfg.mode))
            && s'.cfg == s.cfg && s'.file == s.file && s'.closed == s.closed
  {
    StartEachStarts(s, s.cfg.tunnels, Autostarting, name);
    StartEachOnlyStarts(s, s.cfg.tunnels, Autostarting);
    StartsAre(s.cfg.tunnels, name);
    hide StartEach, Starts, RunnerOf, KnownMode;
    if name in Do(s, Start).state.tunnels {
      KnownRuns(Do(s, Start).state.tunnels[name].cfg);
    }
  }

  /** StartGroup does so with the tunnels of its group, whether or not they have the flag. */
  lemma StartGroupStartsGroup(s: State, g: string, name: string)
    ensures var s', tcs := Do(s, StartGroup(g)).state, s.cfg.tunnels;
            && (name in s'.tunnels <==>
                  || name in s.tunnels
                  || exists i :: 0 <= i < |tcs| && tcs[i].name == name && tcs[i].group == g && KnownMode(tcs[i].mode))
            && (name in s.tunnels ==> s'.tunnels[name] == s.tunnels[name])
            && (name in s'.tunnels && name !in s.tunnels ==>
                  var cfg := s'.tunnels[name].cfg; cfg in tcs && cfg.name == name && cfg.group == g && KnownMode(cfg.mode))
            && s'.cfg == s.cfg && s'.file == s.file && s'.closed == s.closed
  {
    StartEachStarts(s, s.cfg.tunnels, InGroup(g), name);
    StartEachOnlyStarts(s, s.cfg.tunnels, InGroup(g));
    StartsAre(s.cfg.tunnels, name);
    hide StartEach, Starts, RunnerOf, KnownMode;
    if name in Do(s, StartGroup(g)).state.tunnels {
      KnownRuns(Do(s, StartGroup(g)).state.tunnels[name].cfg);
    }
  }

  /** Reload leaves running exactly the autostart tunnels of known mode in the config it read. */
  lemma ReloadRunsAutostart(s: State, cfg: Config, name: string)
    ensures var s' := DoSwap(s, cfg);
            && s'.cfg == cfg
            && (name in s'.tunnels <==>
                  var tcs := cfg.tunnels;
                  exists i :: 0 <= i < |tcs| && tcs[i].name == name && tcs[i].autostart && KnownMode(tcs[i].mode))
            && (name in s'.tunnels ==>
                  && s'.tunnels[name].cfg in cfg.tunnels && s'.tunnels[name].cfg.name == name
                  && s'.tunnels[name].cfg.autostart && KnownMode(s'.tunnels[name].cfg.mode)
                  && s'.tunnels[name].stop >= s.made)
  {
    StartsAre(cfg.tunnels, name);
    hide KnownMode, RunnerOf, Starts;
    if name in DoSwap(s, cfg).tunnels {
      KnownRuns(DoSwap(s, cfg).tunnels[name].cfg);
    }
    var s2 := StopSet(s, s.tunnels.Keys).(cfg := cfg, loading := s.loading - multiset{cfg});
    StartEachStarts(s2, cfg.tunnels, Autostarting, name);
    StartEachOnlyStarts(s2, cfg.tunnels, Autostarting);
  }

  /** StopGroup removes exactly the running tunnels whose configured group it is. */
  lemma StopGroupStopsGroup(s: State, g: string, n: string)
    requires Inv(s) && UniqueNames(s.cfg.tunnels) && n in s.tunnels
    ensures var s', i := Do(s, StopGroup(g)).state, Find(s.cfg.tunnels, n);
            && i < |s.cfg.tunnels|
            && (n in s'.tunnels <==> s.cfg.tunnels[i].group != g)
            && (n in s'.tunnels ==> s'.tunnels[n] == s.tunnels[n])
            && s'.tunnels.Keys <= s.tunnels.Keys
  {
    hide ChannelsInv;
    ConfiguredOnce(s, n);
    var i := Find(s.cfg.tunnels, n);
    SameRunner(s.cfg.tunnels[i], s.tunnels[n].cfg);
    hide EntriesInv, UniqueNames, Find, RunnerOf, SameButAutostart;
  }

  /** StartGroup and then StopGroup of the same group leaves none of the group, and everything
      else as it was. */
  lemma StopGroupUndoesStartGroup(s: State, g: string, n: string)
    requires Inv(s) && UniqueNames(s.cfg.tunnels)
    ensures var s' := Do(Do(s, StartGroup(g)).state, StopGroup(g)).state;
            n in s'.tunnels <==> n in s.tunnels && s.tunnels[n].cfg.group != g
  {
    StartEachStarts(s, s.cfg.tunnels, InGroup(g), n);
    hide Inv;
  }

  predicate InSync(s: State) {
    LoadConfig(s.file) == Some(s.cfg)
  }

  predicate SavesConfig(c: Command) {
    c.Add? || c.Remove? || c.Enable? || c.Disable? || c.Save?
  }

  /** A successful Add, Remove, Enable, Disable or Save leaves in the file what is in memory. */
  lemma SuccessIsSaved(s: State, c: Command)
    requires SavesConfig(c) && Do(s, c).failure == None
    ensures Do(s, c).state.file == Holds(Do(s, c).state.cfg) && InSync(Do(s, c).state)
  {
    hide Find;
  }

  /** The command gets as far as writing the file. */
  predicate Writes(s: State, c: Command) {
    match c
    case Add(tc, _) => Find(s.cfg.tunnels, tc.name) == |s.cfg.tunnels|
    case Remove(name, _) => Find(s.cfg.tunnels, name) < |s.cfg.tunnels|
    case Enable(name, _) => Find(s.cfg.tunnels, name) < |s.cfg.tunnels|
    case Disable(name, _) => Find(s.cfg.tunnels, name) < |s.cfg.tunnels|
    case Save(_) => true
    case _ => false
  }

  /** When memory and file agree, exactly these commands break it: one whose save fails and leaves
      something else in the file, a change by somebody else, and a Reload that installs a config
      other than the one in memory. */
  lemma SyncIsKept(s: State, c: Command)
    requires InSync(s) && CanDo(s, c)
    ensures match c
            case Swap(cfg) => InSync(Do(s, c).state) <==> cfg == s.cfg
            case Edit(file) => InSync(Do(s, c).state) <==> LoadConfig(file) == Some(s.cfg)
            case _ =>
              InSync(Do(s, c).state) <==>
                (Writes(s, c) && SavingOf(c).NotSaved? ==> LoadConfig(SavingOf(c).left) == Some(Do(s, c).state.cfg))
  {
    hide Find, StartEach;
    StartEachOnlyStarts(s, s.cfg.tunnels, Autostarting);
    match c
    case StartGroup(g) => StartEachOnlyStarts(s, s.cfg.tunnels, InGroup(g));
    case Swap(cfg) =>
      StartEachOnlyStarts(StopSet(s, s.tunnels.Keys).(cfg := cfg, loading := s.loading - multiset{cfg}), cfg.tunnels, Autostarting);
    case _ =>
  }

  /** Reload reads the file before it takes the lock. An Add that succeeds in between is saved, but
      the reload then drops the new tunnel from memory. */
  lemma StaleReloadForgets(s: State, tc: TunnelConfig)
    requires InSync(s) && Find(s.cfg.tunnels, tc.name) == |s.cfg.tunnels| && RunnerOf(tc).Some?
    ensures var s1 := Do(s, Load).state;
            var added := Do(s1, Add(tc, Saved));
            && added.failure == None && CanDo(added.state, Swap(s.cfg))
            && var s3 := Do(added.state, Swap(s.cfg)).state;
               s3.cfg == s.cfg && s3.file == Holds(s.cfg.(tunnels := s.cfg.tunnels + [tc])) && !InSync(s3)
  {
    hide Find, StartEach, RunnerOf, DoAdd, DoSwap;
    var s1 := s.(loading := s.loading + multiset{s.cfg});
    assert Do(s, Load).state == s1;
    AddsToStale(s1, tc);
    SwapsBack(DoAdd(s1, tc, Saved).state, s.cfg);
    assert |s.cfg.tunnels + [tc]| != |s.cfg.tunnels|;
  }

  lemma AddsToStale(s: State, tc: TunnelConfig)
    requires Find(s.cfg.tunnels, tc.name) == |s.cfg.tunnels| && RunnerOf(tc).Some?
    ensures var o, cfg := DoAdd(s, tc, Saved), s.cfg.(tunnels := s.cfg.tunnels + [tc]);
            o.failure == None && o.state.file == Holds(cfg) && o.state.loading == s.loading
  {
    hide Find, RunnerOf;
  }

  lemma SwapsBack(s: State, cfg: Config)
    ensures DoSwap(s, cfg).cfg == cfg && DoSwap(s, cfg).file == s.file
  {
    StartEachOnlyStarts(StopSet(s, s.tunnels.Keys).(cfg := cfg, loading := s.loading - multiset{cfg}), cfg.tunnels, Autostarting);
    hide StartEach;
  }

  lemma FindAppended(tcs: seq<TunnelConfig>, tc: TunnelConfig)
    requires Find(tcs, tc.name) == |tcs|
    ensures Find(tcs + [tc], tc.name) == |tcs|
  {
    assert (tcs + [tc])[|tcs|].name == tc.name;
    assert forall k :: 0 <= k < |tcs| ==> (tcs + [tc])[k].name != tc.name;
  }

  /** Remove undoes Add: the configs, the file and the running tunnels are as they were. */
  lemma RemoveUndoesAdd(s: State, tc: TunnelConfig)
    requires Inv(s) && Find(s.cfg.tunnels, tc.name) == |s.cfg.tunnels|
    ensures var added := Do(s, Add(tc, Saved)).state;
            var removed := Do(added, Remove(tc.name, Saved));
            removed.failure == None && removed.state.cfg == s.cfg && removed.state.tunnels == s.tunnels
            && removed.state.file == Holds(s.cfg)
  {
    hide Do, EntriesInv, ChannelsInv, Find, DoAdd, DoRemove, RunnerOf;
    NotRunning(s, tc.name);
    var added := DoAdd(s, tc, Saved).state;
    AddAndRemoveAre(s, tc);
    AddAndRemoveAre(added, tc);
    Adds(s, tc);
    RemovesLast(added, s.cfg.tunnels, tc);
    assert added.tunnels - {tc.name} == s.tunnels;
  }

  lemma AddAndRemoveAre(s: State, tc: TunnelConfig)
    ensures Do(s, Add(tc, Saved)) == DoAdd(s, tc, Saved) && Do(s, Remove(tc.name, Saved)) == DoRemove(s, tc.name, Saved)
  {
    hide DoAdd, DoRemove;
  }

  lemma RemovesLast(s: State, tcs: seq<TunnelConfig>, tc: TunnelConfig)
    requires s.cfg.tunnels == tcs + [tc] && Find(tcs, tc.name) == |tcs|
    ensures var o := DoRemove(s, tc.name, Saved);
            && o.failure == None && o.state.cfg == s.cfg.(tunnels := tcs) && o.state.file == Holds(o.state.cfg)
            && o.state.tunnels == s.tunnels - {tc.name}
  {
    FindAppended(tcs, tc);
    hide Find;
    assert Without(tcs + [tc], |tcs|) == tcs;
  }

  lemma Adds(s: State, tc: TunnelConfig)
    requires Find(s.cfg.tunnels, tc.name) == |s.cfg.tunnels| && tc.name !in s.tunnels
    ensures var added := DoAdd(s, tc, Saved).state;
            && added.cfg == s.cfg.(tunnels := s.cfg.tunnels + [tc])
            && (added.tunnels == s.tunnels
                || (tc.name in added.tunnels && added.tunnels == s.tunnels[tc.name := added.tunnels[tc.name]]))
  {
    hide Find;
  }

  lemma NotRunning(s: State, name: string)
    requires EntriesInv(s) && Find(s.cfg.tunnels, name) == |s.cfg.tunnels|
    ensures name !in s.tunnels
  {
    assert forall i :: 0 <= i < |s.cfg.tunnels| ==> s.cfg.tunnels[i].name != name;
  }

  /** Of two states, the second has the same running tunnels, except perhaps `name`. */
  ghost predicate SameElsewhere(s: State, s': State, name: string) {
    forall n :: n != name ==>
      (n in s.tunnels <==> n in s'.tunnels) && (n in s.tunnels ==> s'.tunnels[n] == s.tunnels[n])
  }

  /** What a command on one tunnel achieves for it when it succeeds, and that it touches no other. */
  lemma AddWorks(s: State, tc: TunnelConfig, saving: Saving)
    requires Inv(s)
    ensures var o := DoAdd(s, tc, saving);
            && SameElsewhere(s, o.state, tc.name)
            && (o.failure == None ==> (tc.name in o.state.tunnels <==> tc.autostart))
  {
    if Find(s.cfg.tunnels, tc.name) == |s.cfg.tunnels| {
      NotRunning(s, tc.name);
    }
    hide Inv, Find;
  }

  lemma RemoveWorks(s: State, name: string, saving: Saving)
    ensures var o := DoRemove(s, name, saving);
            SameElsewhere(s, o.state, name) && name !in o.state.tunnels
  {
    hide Find;
  }

  lemma EnableWorks(s: State, name: string, saving: Saving)
    ensures var o := DoEnable(s, name, saving);
            && SameElsewhere(s, o.state, name)
            && (o.failure == None ==>
                  name in o.state.tunnels && (name in s.tunnels ==> o.state.tunnels[name] == s.tunnels[name]))
  {
  }

  lemma DisableWorks(s: State, name: string, saving: Saving)
    ensures var o := DoDisable(s, name, saving);
            SameElsewhere(s, o.state, name) && (o.failure == None ==> name !in o.state.tunnels)
  {
    hide Find;
  }

  /** A successful restart leaves the tunnel running as it is configured now, on a new channel. */
  lemma RestartWorks(s: State, name: string)
    ensures var o, i := DoRestart(s, name), Find(s.cfg.tunnels, name);
            && SameElsewhere(s, o.state, name)
            && (o.failure == None <==> i < |s.cfg.tunnels| && RunnerOf(s.cfg.tunnels[i]).Some?)
            && (o.failure == None ==>
                  name in o.state.tunnels && o.state.tunnels[name].cfg == s.cfg.tunnels[i] && o.state.tunnels[name].stop == s.made)
  {
  }
}
