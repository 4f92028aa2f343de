/** Routing by name, and when saving and starting again preserves it. */
module RoutingPersistence {
  import opened Options
  import opened DltHeaders
  import opened Routing
  import opened RoutingTheorems

  /** A server with indices replaced by names. */
  datatype View = View(
    filtering: bool,
    defaultThreshold: nat,
    thresholds: map<Key, nat>,
    named: map<Key, set<DltId>>,
    levels: map<DltId, nat>)

  function NameSet(channels: seq<LogChannel>, mask: Mask): set<DltId> {
    set i | i in mask && i < |channels| :: channels[i].name
  }

  function AssignedNames(channels: seq<LogChannel>, assignments: map<Key, Mask>): map<Key, set<DltId>> {
    map k | k in assignments :: NameSet(channels, assignments[k])
  }

  function ViewOf(s: Server): View {
    View(s.filtering, s.defaultThreshold, s.thresholds, AssignedNames(s.channels, s.assignments), SavedLevels(s.channels))
  }

  predicate AcceptedBy(v: View, app: DltId, ctx: DltId, level: nat) {
    !v.filtering || level <= ValueOr(FindInKeyMap(v.thresholds, app, ctx), v.defaultThreshold)
  }

  function AssignedBy(v: View, app: DltId, ctx: DltId): set<DltId> {
    ValueOr(FindInKeyMap(v.named, app, ctx), {})
  }

  /** The reference: routing without indices. */
  function HandedBy(v: View, default: DltId, app: DltId, ctx: DltId, level: nat): set<DltId> {
    if !AcceptedBy(v, app, ctx, level) then {}
    else if AssignedBy(v, app, ctx) == {} then {default}
    else AssignedBy(v, app, ctx)
  }

  function EmittingBy(v: View, default: DltId, app: DltId, ctx: DltId, level: nat): set<DltId> {
    set n | n in HandedBy(v, default, app, ctx, level) && n in v.levels && level <= v.levels[n]
  }

  function DefaultName(s: Server): DltId
    requires s.defaultChannel < |s.channels|
  {
    s.channels[s.defaultChannel].name
  }

  // ----- The server routes by name -----

  lemma {:induction false} SavedLevelsAt(channels: seq<LogChannel>)
    requires Distinct(Names(channels))
    ensures forall i :: 0 <= i < |channels| ==>
              channels[i].name in SavedLevels(channels) && SavedLevels(channels)[channels[i].name] == channels[i].threshold
    ensures forall n :: n in SavedLevels(channels) ==> n in Names(channels)
  {
    if channels != [] {
      var n := |channels| - 1;
      var before := channels[..n];
      assert Names(before) == Names(channels)[..n];
      SavedLevelsAt(before);
      forall i | 0 <= i < n ensures channels[i].name != channels[n].name && before[i] == channels[i] {
        assert Names(channels)[i] != Names(channels)[n];
      }
      assert Names(channels)[n] == channels[n].name;
    }
  }

  lemma NameSetEmpty(channels: seq<LogChannel>, mask: Mask)
    requires Below(mask, |channels|)
    ensures NameSet(channels, mask) == {} <==> mask == {}
  {
    if mask != {} {
      var i :| i in mask;
      assert channels[i].name in NameSet(channels, mask);
    }
  }

  lemma HandedIsByName(s: Server, app: DltId, ctx: DltId, level: nat)
    requires s.defaultChannel < |s.channels| && MasksBelow(s.assignments, |s.channels|)
    ensures Handed(s, app, ctx, level) == HandedBy(ViewOf(s), DefaultName(s), app, ctx, level)
    ensures AssignedBy(ViewOf(s), app, ctx) == {} <==> Assigned(s, app, ctx) == {}
  {
    hide SavedLevels; hide NameSet;
    var mask := Assigned(s, app, ctx);
    assert Below(mask, |s.channels|);
    NameSetEmpty(s.channels, mask);
    NameSetEmpty(s.channels, {});
    assert AssignedBy(ViewOf(s), app, ctx) == NameSet(s.channels, mask);
    HandedCases(s, app, ctx, level);
  }

  lemma HandedCases(s: Server, app: DltId, ctx: DltId, level: nat)
    requires s.defaultChannel < |s.channels|
    ensures Handed(s, app, ctx, level)
            == if !Accepted(s, app, ctx, level) then {}
               else if Assigned(s, app, ctx) == {} then {DefaultName(s)} else NameSet(s.channels, Assigned(s, app, ctx))
  {
    hide Accepted; hide Assigned;
  }

  lemma EmittingFromHanded(s: Server, app: DltId, ctx: DltId, level: nat)
    requires Distinct(Names(s.channels))
    ensures Emitting(s, app, ctx, level)
            == set n | n in Handed(s, app, ctx, level) && n in SavedLevels(s.channels) && level <= SavedLevels(s.channels)[n]
  {
    hide Called; hide SavedLevels;
    SavedLevelsAt(s.channels);
    hide Distinct; hide Names;
  }

  lemma EmittingIsByName(s: Server, app: DltId, ctx: DltId, level: nat)
    requires s.defaultChannel < |s.channels| && MasksBelow(s.assignments, |s.channels|) && Distinct(Names(s.channels))
    ensures Emitting(s, app, ctx, level) == EmittingBy(ViewOf(s), DefaultName(s), app, ctx, level)
  {
    hide Emitting; hide Handed; hide HandedBy; hide SavedLevels;
    HandedIsByName(s, app, ctx, level);
    EmittingFromHanded(s, app, ctx, level);
  }

  // ----- Saving and starting again -----

  lemma UnnestNest<T>(m: map<Key, T>)
    ensures Unnest(Nest(m)) == m
  {
    var n, u := Nest(m), Unnest(Nest(m));
    hide Nest;
    forall k: Key ensures k in u <==> k in m {
      NestAt(m, k);
      if k in u {
        assert k == Key(k.app, k.ctx);
      }
    }
    forall k | k in m ensures u[k] == m[k] {
      NestAt(m, k);
    }
  }

  lemma NestAt<T>(m: map<Key, T>, k: Key)
    ensures k in m <==> k.app in Nest(m) && k.ctx in Nest(m)[k.app]
    ensures k in m ==> Nest(m)[k.app][k.ctx] == m[k]
  {
    if k in m {
      assert k.ctx in Row(m, k.app);
    }
  }

  /** Saving a mask writes the names of its bits ... */
  lemma {:induction false} NamesOfIsNameSet(channels: seq<LogChannel>, mask: Mask)
    ensures (set n | n in NamesOf(channels, mask)) == NameSet(channels, mask)
  {
    if channels != [] {
      var n := |channels| - 1;
      var before := channels[..n];
      NamesOfIsNameSet(before, mask);
      assert NameSet(channels, mask) == NameSet(before, mask) + if n in mask then {channels[n].name} else {} by {
        hide NamesOf;
        assert forall i :: 0 <= i < n ==> before[i] == channels[i];
      }
      assert forall x :: x in NamesOf(channels, mask) <==> x in NamesOf(before, mask) || (n in mask && x == channels[n].name);
    }
  }

  /** ... and reading them back in any order gives a mask with the same names. */
  lemma MaskOfNames(order: seq<DltId>, src: Config, names: seq<DltId>)
    requires Distinct(order) && forall n :: n in names ==> n in order
    ensures NameSet(NewChannels(order, src), MaskOf(Positions(order), names)) == set n | n in names
  {
    hide Positions; hide Distinct; hide NameSet; hide MaskOf; hide NewChannels;
    var channels, mask := NewChannels(order, src), MaskOf(Positions(order), names);
    forall n | n in names ensures n in NameSet(channels, mask) {
      NameIsRead(order, src, names, n);
    }
    forall n | n in NameSet(channels, mask) ensures n in names {
      ReadIsName(order, src, names, n);
    }
  }

  lemma NameIsRead(order: seq<DltId>, src: Config, names: seq<DltId>, n: DltId)
    requires Distinct(order) && n in order && n in names
    ensures n in NameSet(NewChannels(order, src), MaskOf(Positions(order), names))
  {
    PositionAt(order, n);
    hide Positions; hide Distinct;
    var nums, channels := Positions(order), NewChannels(order, src);
    assert NumOf(nums, n) in MaskOf(nums, names);
    assert channels[nums[n]].name == n;
  }

  lemma ReadIsName(order: seq<DltId>, src: Config, names: seq<DltId>, n: DltId)
    requires Distinct(order) && (forall m :: m in names ==> m in order)
    requires n in NameSet(NewChannels(order, src), MaskOf(Positions(order), names))
    ensures n in names
  {
    hide Positions; hide Distinct;
    var nums, channels := Positions(order), NewChannels(order, src);
    var mask := MaskOf(nums, names);
    var i :| i in mask && i < |channels| && channels[i].name == n;
    hide NameSet;
    var m :| m in names && NumOf(nums, m) == i;
    hide MaskOf;
    PositionAt(order, m);
    assert order[i] == m;
  }

  lemma PositionAt(order: seq<DltId>, n: DltId)
    requires Distinct(order) && n in order
    ensures n in Positions(order) && Positions(order)[n] < |order| && order[Positions(order)[n]] == n
  {
    PositionsOf(order);
  }

  lemma SavedNamesKnown(st: StaticConfig, s: Server, k: Key)
    requires ServerInv(st, s) && Configured(st) && k in s.assignments
    ensures forall n :: n in NamesOf(s.channels, s.assignments[k]) ==> n in st.base.channels
  {
    hide NamesOf; hide NumsMatch; hide DefaultIndex; hide MasksBelow; hide NumsBelow; hide Distinct;
    var mask := s.assignments[k];
    NamesOfIsNameSet(s.channels, mask);
    forall n | n in NamesOf(s.channels, mask) ensures n in st.base.channels {
      assert n in NameSet(s.channels, mask);
      var i :| i in mask && i < |s.channels| && s.channels[i].name == n;
      assert Names(s.channels)[i] == n;
    }
  }

  lemma AssignmentsSurvive(st: StaticConfig, s: Server, order: seq<DltId>, src: Config)
    requires ServerInv(st, s) && Configured(st) && IsOrder(order, st)
    requires src.assignments == Nest(NamedAssignments(s))
    ensures AssignedNames(NewChannels(order, src), LoadMasks(Positions(order), src.assignments))
            == AssignedNames(s.channels, s.assignments)
  {
    hide Nest; hide Unnest; hide NamesOf; hide NameSet; hide Positions; hide ServerInv; hide NewChannels; hide MaskOf;
    UnnestNest(NamedAssignments(s));
    forall k | k in s.assignments
      ensures NameSet(NewChannels(order, src), MaskOf(Positions(order), NamesOf(s.channels, s.assignments[k])))
              == NameSet(s.channels, s.assignments[k])
    {
      var names := NamesOf(s.channels, s.assignments[k]);
      SavedNamesKnown(st, s, k);
      NamesOfIsNameSet(s.channels, s.assignments[k]);
      MaskOfNames(order, src, names);
    }
  }

  lemma LevelsSurvive(st: StaticConfig, channels: seq<LogChannel>, order: seq<DltId>, src: Config)
    requires IsOrder(order, st) && IsOrder(Names(channels), st)
    requires src.channels == SavedLevels(channels)
    ensures SavedLevels(NewChannels(order, src)) == SavedLevels(channels)
  {
    hide SavedLevels; hide NewChannels; hide Distinct; hide Names;
    var a, b := SavedLevels(NewChannels(order, src)), SavedLevels(channels);
    LevelKeys(channels);
    NewNames(order, src);
    LevelKeys(NewChannels(order, src));
    forall n | n in a ensures a[n] == b[n] {
      NewLevelAt(order, src, n);
    }
  }

  lemma LevelKeys(channels: seq<LogChannel>)
    requires Distinct(Names(channels))
    ensures forall n :: n in SavedLevels(channels) <==> n in Names(channels)
  {
    SavedLevelsAt(channels);
    hide SavedLevels; hide Distinct;
    forall n | n in Names(channels) ensures n in SavedLevels(channels) {
      var i :| 0 <= i < |channels| && Names(channels)[i] == n;
      assert channels[i].name == n;
    }
  }

  lemma NewLevelAt(order: seq<DltId>, src: Config, n: DltId)
    requires Distinct(order) && n in order
    ensures n in SavedLevels(NewChannels(order, src)) && SavedLevels(NewChannels(order, src))[n] == LevelIn(src, n)
  {
    var channels := NewChannels(order, src);
    NewNames(order, src);
    SavedLevelsAt(channels);
    hide SavedLevels; hide Distinct;
    var i :| 0 <= i < |order| && order[i] == n;
    assert channels[i] == LogChannel(n, LevelIn(src, n));
  }

  /** A server started on a saved configuration routes by the same names, in whatever order its channels are created. */
  lemma ViewSurvives(st: StaticConfig, s: Server, order: seq<DltId>)
    requires ServerInv(st, s) && Configured(st) && IsOrder(order, st)
    ensures ViewOf(Initialize(st, order, Save(s))) == ViewOf(s)
  {
    hide SavedLevels; hide Nest; hide Unnest; hide NamedAssignments; hide LoadMasks; hide AssignedNames;
    hide NewChannels; hide Positions; hide WithAliases; hide IsOrder; hide NumsMatch; hide DefaultIndex; hide MasksBelow;
    var src := Save(s);
    LevelsSurvive(st, s.channels, order, src);
    AssignmentsSurvive(st, s, order, src);
    UnnestNest(s.thresholds);
    SavedNotEmpty(s.channels);
    hide Names;
  }

  lemma SavedNotEmpty(channels: seq<LogChannel>)
    requires channels != []
    ensures SavedLevels(channels) != map[]
  {
    assert channels[|channels| - 1].name in SavedLevels(channels);
  }

  // ----- When a restart preserves what is emitted -----

  ghost predicate SameEmission(s: Server, s': Server) {
    forall app, ctx, level: nat :: Emitting(s', app, ctx, level) == Emitting(s, app, ctx, level)
  }

  ghost predicate EveryMessageAssigned(s: Server) {
    forall app, ctx :: Assigned(s, app, ctx) != {}
  }

  lemma DefaultNameIs(st: StaticConfig, s: Server)
    requires ServerInv(st, s) && Configured(st)
    ensures DefaultName(s) == if st.defaultName in st.base.channels then st.defaultName else s.channels[0].name
  {
    hide NumsMatch; hide MasksBelow; hide NumsBelow; hide Distinct; hide Positions;
    var order := Names(s.channels);
    assert order[s.defaultChannel] == DefaultName(s);
    if st.defaultName in order {
      PositionAt(order, st.defaultName);
    }
  }

  lemma InvIsDistinct(st: StaticConfig, s: Server)
    requires ServerInv(st, s) && Configured(st)
    ensures Distinct(Names(s.channels))
  {
  }

  /** A message of the lowest level that no assignment covers is emitted by the default channel alone. */
  lemma UnassignedGoesToDefault(st: StaticConfig, s: Server, app: DltId, ctx: DltId)
    requires ServerInv(st, s) && Configured(st) && Assigned(s, app, ctx) == {}
    ensures Emitting(s, app, ctx, OFF) == {DefaultName(s)}
  {
    hide Assigned; hide ChannelsMatch; hide Configured; hide MasksBelow; hide NumsBelow;
    assert Called(s, app, ctx, OFF) == {s.defaultChannel};
  }

  lemma SameViewSameEmission(st: StaticConfig, s: Server, s': Server)
    requires ServerInv(st, s) && ServerInv(st, s') && Configured(st) && ViewOf(s) == ViewOf(s')
    requires DefaultName(s) == DefaultName(s') || EveryMessageAssigned(s)
    ensures SameEmission(s, s')
  {
    InvIsDistinct(st, s);
    InvIsDistinct(st, s');
    hide Emitting; hide ChannelsMatch; hide Configured; hide Distinct; hide ViewOf; hide MasksBelow; hide DefaultName;
    hide AssignedBy; hide AcceptedBy;
    forall app, ctx, level: nat ensures Emitting(s', app, ctx, level) == Emitting(s, app, ctx, level) {
      EmittingIsByName(s, app, ctx, level);
      EmittingIsByName(s', app, ctx, level);
      HandedIsByName(s, app, ctx, level);
    }
  }

  lemma RestartIff(st: StaticConfig, s: Server, s': Server)
    requires ServerInv(st, s) && ServerInv(st, s') && Configured(st) && ViewOf(s) == ViewOf(s')
    ensures SameEmission(s, s') <==> DefaultName(s) == DefaultName(s') || EveryMessageAssigned(s)
  {
    hide ChannelsMatch; hide Configured; hide ViewOf; hide DefaultName; hide Emitting; hide Assigned; hide MasksBelow; hide NumsBelow;
    if DefaultName(s) == DefaultName(s') || EveryMessageAssigned(s) {
      SameViewSameEmission(st, s, s');
    } else {
      var app, ctx :| Assigned(s, app, ctx) == {};
      HandedIsByName(s, app, ctx, OFF);
      HandedIsByName(s', app, ctx, OFF);
      UnassignedGoesToDefault(st, s, app, ctx);
      UnassignedGoesToDefault(st, s', app, ctx);
      assert DefaultName(s) in Emitting(s, app, ctx, OFF) && DefaultName(s) !in Emitting(s', app, ctx, OFF);
    }
  }

  lemma RunSnoc(st: StaticConfig, order: seq<DltId>, p: Config, commands: seq<Command>, k: Command)
    requires IsOrder(order, st) && AllPossible(st, commands) && Possible(st, k)
    ensures AllPossible(st, commands + [k])
    ensures Run(st, order, p, commands + [k]) == Apply(st, Run(st, order, p, commands), k)
  {
    hide Apply; hide Initialize; hide Possible; hide IsOrder;
    assert (commands + [k])[..|commands|] == commands;
  }

  /**
   * After every run, saving and restarting preserves the set of channel names that emit a message, for
   * every application, context and level, exactly when the default channel is configured, or the channels
   * happen to be iterated with the same first one, or no message ever falls back to the default channel.
   */
  lemma SaveAndRestart(st: StaticConfig, first: seq<DltId>, p: Config, commands: seq<Command>, order: seq<DltId>)
    requires Configured(st) && IsOrder(first, st) && IsOrder(order, st) && AllPossible(st, commands)
    ensures AllPossible(st, commands + [StoreDltConfig] + [Restart(order)])
    ensures var s := Run(st, first, p, commands);
            var s' := Run(st, first, p, commands + [StoreDltConfig] + [Restart(order)]);
            SameEmission(s, s')
            <==> st.defaultName in st.base.channels || s.channels[0].name == order[0] || EveryMessageAssigned(s)
  {
    hide Run; hide SameEmission; hide EveryMessageAssigned; hide ServerInv; hide Apply; hide IsOrder; hide Initialize;
    RunSnoc(st, first, p, commands, StoreDltConfig);
    RunSnoc(st, first, p, commands + [StoreDltConfig], Restart(order));
    RunHasInv(st, first, p, commands);
    hide AllPossible;
    var s := Run(st, first, p, commands);
    StoreThenRestart(st, s, order);
    RestartOf(st, s, order);
  }

  lemma StoreThenRestart(st: StaticConfig, s: Server, order: seq<DltId>)
    requires s.channels != [] && IsOrder(order, st)
    ensures Apply(st, Apply(st, s, StoreDltConfig), Restart(order)) == Initialize(st, order, Save(s))
  {
    hide Initialize; hide Save; hide IsOrder;
  }

  lemma RestartOf(st: StaticConfig, s: Server, order: seq<DltId>)
    requires ServerInv(st, s) && Configured(st) && IsOrder(order, st)
    ensures s.channels != [] && order != []
    ensures SameEmission(s, Initialize(st, order, Save(s)))
            <==> st.defaultName in st.base.channels || s.channels[0].name == order[0] || EveryMessageAssigned(s)
  {
    var s' := Initialize(st, order, Save(s));
    InitializeInv(st, order, Save(s));
    ViewSurvives(st, s, order);
    DefaultNameIs(st, s);
    DefaultNameIs(st, s');
    FirstName(st, order, Save(s));
    hide Initialize; hide SameEmission; hide EveryMessageAssigned; hide ViewOf; hide DefaultName; hide ChannelsMatch; hide Save;
    RestartIff(st, s, s');
  }

  lemma FirstName(st: StaticConfig, order: seq<DltId>, p: Config)
    requires Configured(st) && IsOrder(order, st)
    ensures Initialize(st, order, p).channels[0].name == order[0]
  {
  }

  // ----- Back to the factory settings -----

  lemma SameNumbers(nums: map<DltId, nat>, order: seq<DltId>, n: DltId)
    requires Distinct(order) && NumsMatch(nums, order)
    ensures NumOf(nums, n) == NumOf(Positions(order), n)
  {
    PositionsOf(order);
  }

  lemma SameMasks(nums: map<DltId, nat>, order: seq<DltId>, m: Nested<seq<DltId>>)
    requires Distinct(order) && NumsMatch(nums, order)
    ensures LoadMasks(nums, m) == LoadMasks(Positions(order), m)
  {
    hide Unnest; hide NumsMatch; hide NumOf; hide Positions; hide Distinct;
    forall names: seq<DltId> ensures MaskOf(nums, names) == MaskOf(Positions(order), names) {
      forall n ensures NumOf(nums, n) == NumOf(Positions(order), n) {
        SameNumbers(nums, order, n);
      }
    }
  }

  /**
   * After every run, `ResetToDefault` brings a configured server back to what a first start with an empty store
   * would route, whatever commands, stored settings and aliases came before.
   */
  lemma ResetRestoresFactory(st: StaticConfig, first: seq<DltId>, p: Config, commands: seq<Command>)
    requires Configured(st) && IsOrder(first, st) && AllPossible(st, commands)
    ensures AllPossible(st, commands + [ResetToDefault])
    ensures var s := Run(st, first, p, commands);
            var order := Names(s.channels);
            IsOrder(order, st) && SameEmission(Initialize(st, order, NO_CONFIG), Run(st, first, p, commands + [ResetToDefault]))
  {
    RunSnoc(st, first, p, commands, ResetToDefault);
    RunHasInv(st, first, p, commands);
    hide Run; hide AllPossible; hide SameEmission;
    ResetOf(st, Run(st, first, p, commands));
  }

  lemma ResetOf(st: StaticConfig, s: Server)
    requires ServerInv(st, s) && Configured(st)
    ensures IsOrder(Names(s.channels), st)
    ensures SameEmission(Initialize(st, Names(s.channels), NO_CONFIG), Apply(st, s, ResetToDefault))
  {
    hide SameEmission; hide Initialize; hide Reload; hide Names; hide Configured; hide ChannelsMatch; hide MasksBelow; hide NumsBelow;
    SameNamesKeepsInv(st, s, s.(stored := NO_CONFIG));
    ReloadIsStart(st, s.(stored := NO_CONFIG));
  }

  /** Re-initialising in place routes like a new server that creates its channels in the same order. */
  lemma ReloadIsStart(st: StaticConfig, s: Server)
    requires ServerInv(st, s) && Configured(st)
    ensures IsOrder(Names(s.channels), st)
    ensures SameEmission(Initialize(st, Names(s.channels), s.stored), Reload(st, s))
  {
    hide LoadMasks; hide Unnest; hide Positions; hide SameEmission; hide Initialize; hide Reload; hide Names; hide DefaultIndex; hide NumsMatch;
    hide Distinct; hide ViewOf; hide DefaultName;
    InitializeInv(st, Names(s.channels), s.stored);
    ReloadKeepsInv(st, s);
    ReloadView(st, s);
    hide ServerInv; hide IsOrder;
    SameViewSameEmission(st, Initialize(st, Names(s.channels), s.stored), Reload(st, s));
  }

  lemma SameChannels(channels: seq<LogChannel>, src: Config)
    ensures NewChannels(Names(channels), src) == Rethreshold(channels, src)
    ensures |Rethreshold(channels, src)| == |channels|
  {
  }

  lemma ReloadView(st: StaticConfig, s: Server)
    requires Configured(st) && s.defaultChannel < |s.channels| && ChannelsMatch(st, s)
    ensures var new_ := Initialize(st, Names(s.channels), s.stored);
            var s' := Reload(st, s);
            && |new_.channels| == |s'.channels| == |s.channels|
            && new_.defaultChannel == s'.defaultChannel == s.defaultChannel
            && ViewOf(new_) == ViewOf(s') && DefaultName(new_) == DefaultName(s')
  {
    hide LoadMasks; hide Unnest; hide Positions; hide AssignedNames; hide SavedLevels; hide NewChannels; hide Rethreshold;
    hide DefaultIndex; hide NumsMatch; hide WithAliases; hide Mentioned; hide Names; hide Distinct;
    var src := Source(st, s.stored);
    SameMasks(s.nums, Names(s.channels), src.assignments);
    SameChannels(s.channels, src);
  }

  /** Saving and re-initialising in place always preserves what is emitted. */
  lemma SaveAndReload(st: StaticConfig, first: seq<DltId>, p: Config, commands: seq<Command>)
    requires Configured(st) && IsOrder(first, st) && AllPossible(st, commands)
    ensures var s := Run(st, first, p, commands);
            SameEmission(s, Reload(st, s.(stored := Save(s))))
  {
    RunHasInv(st, first, p, commands);
    var s := Run(st, first, p, commands);
    hide Run; hide AllPossible; hide SameEmission; hide EveryMessageAssigned; hide Initialize; hide Reload; hide Save; hide Configured;
    hide MasksBelow; hide NumsBelow; hide NumsMatch; hide DefaultIndex;
    SameNamesKeepsInv(st, s, s.(stored := Save(s)));
    ReloadIsStart(st, s.(stored := Save(s)));
    assert Names(s.channels)[0] == s.channels[0].name;
    hide ServerInv;
    RestartOf(st, s, Names(s.channels));
    EmissionChain(s, Initialize(st, Names(s.channels), Save(s)), Reload(st, s.(stored := Save(s))));
  }

  lemma EmissionChain(a: Server, b: Server, c: Server)
    requires SameEmission(a, b) && SameEmission(b, c)
    ensures SameEmission(a, c)
  {
    hide Emitting;
  }

  // ----- A restart that does not preserve what is emitted -----

  const ID_A: DltId := [65, 0, 0, 0]
  const ID_B: DltId := [66, 0, 0, 0]
  const NO_DEFAULT: StaticConfig :=
    StaticConfig([88, 0, 0, 0], Config(map[ID_A := INFO, ID_B := INFO], false, INFO, map[], map[]))

  lemma TwoOrders()
    ensures Configured(NO_DEFAULT) && IsOrder([ID_A, ID_B], NO_DEFAULT) && IsOrder([ID_B, ID_A], NO_DEFAULT)
    ensures NO_DEFAULT.defaultName !in NO_DEFAULT.base.channels && ID_A != ID_B
  {
    assert ID_A[0] != ID_B[0] && NO_DEFAULT.defaultName[0] != ID_A[0] && NO_DEFAULT.defaultName[0] != ID_B[0];
    assert NO_DEFAULT.base.channels.Keys == {ID_A, ID_B};
  }

  /** Two channels and a default that is neither of them: the fallback moves with the iteration order. */
  lemma DefaultDependsOnOrder()
    ensures IsOrder([ID_A, ID_B], NO_DEFAULT) && IsOrder([ID_B, ID_A], NO_DEFAULT)
    ensures var s := Initialize(NO_DEFAULT, [ID_A, ID_B], NO_CONFIG);
            !SameEmission(s, Initialize(NO_DEFAULT, [ID_B, ID_A], Save(s)))
  {
    hide IsOrder; hide Configured; hide Initialize; hide SameEmission; hide EveryMessageAssigned; hide ServerInv; hide Save;
    TwoOrders();
    InitializeInv(NO_DEFAULT, [ID_A, ID_B], NO_CONFIG);
    RestartOf(NO_DEFAULT, Initialize(NO_DEFAULT, [ID_A, ID_B], NO_CONFIG), [ID_B, ID_A]);
    FirstName(NO_DEFAULT, [ID_A, ID_B], NO_CONFIG);
    NothingAssigned([ID_A, ID_B]);
  }

  lemma NothingAssigned(order: seq<DltId>)
    requires IsOrder(order, NO_DEFAULT) && Distinct(order)
    ensures !EveryMessageAssigned(Initialize(NO_DEFAULT, order, NO_CONFIG))
  {
    hide IsOrder; hide Configured; hide NewChannels; hide Positions; hide DefaultIndex; hide WithAliases; hide Distinct; hide LoadMasks; hide Unnest;
    TwoOrders();
    EmptyTable(Positions(order));
    var s := Initialize(NO_DEFAULT, order, NO_CONFIG);
    assert s.assignments == map[];
    assert Assigned(s, ID_A, ID_A) == {};
  }

  // ----- An empty assignment in the configuration -----

  const ID_X: DltId := [88, 0, 0, 0]
  const ALL_X: Nested<seq<DltId>> := map[ID_X := map[ID_X := []], NO_ID := map[ID_X := [ID_A]]]
  const EMPTY_ENTRY: StaticConfig :=
    StaticConfig(ID_B, Config(map[ID_A := INFO, ID_B := INFO], false, INFO, ALL_X, map[]))

  lemma EmptyEntryOrder()
    ensures Configured(EMPTY_ENTRY) && IsOrder([ID_A, ID_B], EMPTY_ENTRY) && Distinct([ID_A, ID_B])
    ensures ID_X != NO_ID && ID_A != ID_B
  {
    assert ID_A[0] != ID_B[0] && ID_X[0] != NO_ID[0];
    assert EMPTY_ENTRY.base.channels.Keys == {ID_A, ID_B};
  }

  lemma LoadedAt(nums: map<DltId, nat>, m: Nested<seq<DltId>>, k: Key)
    requires k.app in m && k.ctx in m[k.app]
    ensures k in LoadMasks(nums, m) && LoadMasks(nums, m)[k] == MaskOf(nums, m[k.app][k.ctx])
  {
    hide Unnest; hide MaskOf;
    UnnestAt(m, k);
  }

  lemma TwoPositions()
    requires Distinct([ID_A, ID_B])
    ensures var nums := Positions([ID_A, ID_B]);
            ID_A in nums && nums[ID_A] == 0 && ID_B in nums && nums[ID_B] == 1
  {
    var order := [ID_A, ID_B];
    PositionsOf(order);
    hide Positions; hide Distinct;
    assert order[0] == ID_A && order[1] == ID_B;
  }

  lemma EmptyEntryMasks(nums: map<DltId, nat>)
    requires ID_A in nums && nums[ID_A] == 0 && ID_X != NO_ID
    ensures var masks := LoadMasks(nums, ALL_X);
            && Key(ID_X, ID_X) in masks && masks[Key(ID_X, ID_X)] == {}
            && Key(NO_ID, ID_X) in masks && masks[Key(NO_ID, ID_X)] == {0}
  {
    hide LoadMasks;
    LoadedAt(nums, ALL_X, Key(ID_X, ID_X));
    LoadedAt(nums, ALL_X, Key(NO_ID, ID_X));
    assert [ID_A][0] in [ID_A] && NumOf(nums, ID_A) in MaskOf(nums, [ID_A]);
    assert MaskOf(nums, [ID_A]) == {0};
  }

  /** The tables of the server that starts on this configuration. */
  lemma EmptyEntryTables() returns (s: Server)
    ensures IsOrder([ID_A, ID_B], EMPTY_ENTRY) && s == Initialize(EMPTY_ENTRY, [ID_A, ID_B], NO_CONFIG)
    ensures Key(ID_X, ID_X) in s.assignments && s.assignments[Key(ID_X, ID_X)] == {}
    ensures Key(NO_ID, ID_X) in s.assignments && s.assignments[Key(NO_ID, ID_X)] == {0}
    ensures !s.filtering && s.defaultChannel == 1 && |s.channels| == 2 && ID_A in s.nums && s.nums[ID_A] == 0
  {
    hide LoadMasks; hide Unnest; hide Configured; hide IsOrder; hide NewChannels; hide Distinct; hide Mentioned; hide Positions;
    EmptyEntryOrder();
    TwoPositions();
    EmptyEntryMasks(Positions([ID_A, ID_B]));
    NewNames([ID_A, ID_B], EMPTY_ENTRY.base);
    s := Initialize(EMPTY_ENTRY, [ID_A, ID_B], NO_CONFIG);
  }

  /**
   * A configured empty entry hides the wildcard, so the message goes to the default channel; adding a channel to
   * the entry and removing it again drops the entry, and the same message goes to the wildcard's channel.
   */
  lemma EmptyEntryIsNotRestored()
    ensures IsOrder([ID_A, ID_B], EMPTY_ENTRY)
    ensures var s := Initialize(EMPTY_ENTRY, [ID_A, ID_B], NO_CONFIG);
            var s' := Assign(Assign(s, Key(ID_X, ID_X), ID_A, true), Key(ID_X, ID_X), ID_A, false);
            Called(s, ID_X, ID_X, OFF) == {1} && Called(s', ID_X, ID_X, OFF) == {0}
  {
    hide Initialize; hide IsOrder;
    EmptyEntryOrder();
    var s := EmptyEntryTables();
    var s1 := Assign(s, Key(ID_X, ID_X), ID_A, true);
    assert s1.assignments[Key(ID_X, ID_X)] - {0} == {};
    var s' := Assign(s1, Key(ID_X, ID_X), ID_A, false);
    assert Key(ID_X, ID_X) !in s'.assignments && s'.assignments[Key(NO_ID, ID_X)] == {0};
    assert Assigned(s', ID_X, ID_X) == {0};
  }
}
