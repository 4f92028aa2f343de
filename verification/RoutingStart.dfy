/** What a server routes when it starts, in terms of the configuration alone. */
module RoutingStart {
  import opened Options
  import opened DltHeaders
  import opened Routing
  import opened RoutingTheorems
  import opened RoutingPersistence

  // ----- The reference -----

  /** Exact entry first, then any application, then any context. */
  function FindNested<T>(m: Nested<T>, app: DltId, ctx: DltId): Option<T> {
    if app in m && ctx in m[app] then Some(m[app][ctx])
    else if NO_ID in m && ctx in m[NO_ID] then Some(m[NO_ID][ctx])
    else if app in m && NO_ID in m[app] then Some(m[app][NO_ID])
    else None
  }

  predicate AcceptedIn(cfg: Config, app: DltId, ctx: DltId, level: nat) {
    !cfg.filtering || level <= ValueOr(FindNested(cfg.thresholds, app, ctx), cfg.defaultThreshold)
  }

  /** A name that is not a channel stands for the first channel. */
  function Resolve(st: StaticConfig, first: DltId, n: DltId): DltId { if n in st.base.channels then n else first }

  function ResolveAll(st: StaticConfig, first: DltId, names: seq<DltId>): set<DltId> { set n | n in names :: Resolve(st, first, n) }

  /** The channels assigned in the configuration, or else the default channel. */
  function HandedIn(st: StaticConfig, cfg: Config, first: DltId, app: DltId, ctx: DltId, level: nat): set<DltId> {
    if !AcceptedIn(cfg, app, ctx, level) then {}
    else
      var names := ResolveAll(st, first, ValueOr(FindNested(cfg.assignments, app, ctx), []));
      if names == {} then {Resolve(st, first, st.defaultName)} else names
  }

  /** ... as far as the level is within their configured thresholds. */
  function EmittingIn(st: StaticConfig, cfg: Config, first: DltId, app: DltId, ctx: DltId, level: nat): set<DltId> {
    set n | n in HandedIn(st, cfg, first, app, ctx, level) && level <= LevelIn(cfg, n)
  }

  // ----- Lookup -----

  lemma LookupNested<T>(m: Nested<T>, app: DltId, ctx: DltId)
    ensures FindInKeyMap(Unnest(m), app, ctx) == FindNested(m, app, ctx)
  {
    hide Unnest;
    UnnestAt(m, Key(app, ctx));
    UnnestAt(m, Key(NO_ID, ctx));
    UnnestAt(m, Key(app, NO_ID));
  }

  lemma LookupMasks(nums: map<DltId, nat>, m: Nested<seq<DltId>>, app: DltId, ctx: DltId)
    ensures ValueOr(FindInKeyMap(LoadMasks(nums, m), app, ctx), {}) == MaskOf(nums, ValueOr(FindNested(m, app, ctx), []))
  {
    LookupNested(m, app, ctx);
    assert MaskOf(nums, []) == {};
    hide Unnest; hide MaskOf; hide FindNested;
  }

  // ----- Masks by name -----

  lemma ResolvedAt(st: StaticConfig, order: seq<DltId>, n: DltId)
    requires IsOrder(order, st) && order != []
    ensures var i := NumOf(Positions(order), n); i < |order| && order[i] == Resolve(st, order[0], n)
  {
    hide Distinct;
    PositionKnown(order, n);
    if n in order {
      PositionAt(order, n);
    }
    hide Positions;
  }

  lemma PositionKnown(order: seq<DltId>, n: DltId)
    requires Distinct(order)
    ensures n in Positions(order) <==> n in order
  {
    PositionsOf(order);
  }

  lemma NameIsInMask(st: StaticConfig, order: seq<DltId>, src: Config, names: seq<DltId>, n: DltId)
    requires IsOrder(order, st) && order != [] && n in names
    ensures Resolve(st, order[0], n) in NameSet(NewChannels(order, src), MaskOf(Positions(order), names))
  {
    hide Positions; hide Distinct; hide Resolve;
    ResolvedAt(st, order, n);
    hide IsOrder;
    var i, mask := NumOf(Positions(order), n), MaskOf(Positions(order), names);
    assert i in mask;
    hide MaskOf; hide NumOf;
    assert NewChannels(order, src)[i].name == Resolve(st, order[0], n);
  }

  lemma MaskIsFromName(st: StaticConfig, order: seq<DltId>, names: seq<DltId>, i: nat)
    requires IsOrder(order, st) && order != [] && i in MaskOf(Positions(order), names)
    ensures i < |order| && order[i] in ResolveAll(st, order[0], names)
  {
    hide Positions; hide Distinct; hide Resolve;
    var n :| n in names && NumOf(Positions(order), n) == i;
    hide MaskOf;
    ResolvedAt(st, order, n);
  }

  lemma MaskResolves(st: StaticConfig, order: seq<DltId>, src: Config, names: seq<DltId>)
    requires IsOrder(order, st) && order != []
    ensures Below(MaskOf(Positions(order), names), |order|)
    ensures NameSet(NewChannels(order, src), MaskOf(Positions(order), names)) == ResolveAll(st, order[0], names)
  {
    OrderIsDistinct(st, order);
    hide Positions; hide Distinct; hide IsOrder; hide Resolve; hide MaskOf; hide NewChannels;
    var channels, mask := NewChannels(order, src), MaskOf(Positions(order), names);
    forall i | i in mask ensures i < |order| && order[i] in ResolveAll(st, order[0], names) {
      MaskIsFromName(st, order, names, i);
    }
    forall x | x in NameSet(channels, mask) ensures x in ResolveAll(st, order[0], names) {
      var i :| i in mask && i < |channels| && channels[i].name == x;
      NewNameAt(order, src, i);
    }
    forall x | x in ResolveAll(st, order[0], names) ensures x in NameSet(channels, mask) {
      var n :| n in names && Resolve(st, order[0], n) == x;
      NameIsInMask(st, order, src, names, n);
    }
  }

  lemma NewNameAt(order: seq<DltId>, src: Config, i: nat)
    requires i < |NewChannels(order, src)|
    ensures i < |order| && NewChannels(order, src)[i] == LogChannel(order[i], LevelIn(src, order[i]))
  {
  }

  // ----- The server that starts -----

  /** The server's tables after a start that reads `src`. */
  lemma StartTables(st: StaticConfig, order: seq<DltId>, p: Config, app: DltId, ctx: DltId, level: nat)
    requires Configured(st) && IsOrder(order, st) && order != []
    ensures var s := Initialize(st, order, p); var src := Source(st, p);
            && s.channels == NewChannels(order, src)
            && (Accepted(s, app, ctx, level) <==> AcceptedIn(src, app, ctx, level))
            && Assigned(s, app, ctx) == MaskOf(Positions(order), ValueOr(FindNested(src.assignments, app, ctx), []))
  {
    hide IsOrder; hide Configured; hide NewChannels; hide Positions; hide DefaultIndex; hide WithAliases; hide Unnest; hide LoadMasks;
    hide MaskOf; hide FindInKeyMap; hide FindNested; hide Distinct;
    OrderIsDistinct(st, order);
    var src := Source(st, p);
    LookupNested(src.thresholds, app, ctx);
    LookupMasks(Positions(order), src.assignments, app, ctx);
  }

  lemma StartHands(st: StaticConfig, order: seq<DltId>, p: Config, app: DltId, ctx: DltId, level: nat)
    requires Configured(st) && IsOrder(order, st) && order != []
    ensures Handed(Initialize(st, order, p), app, ctx, level) == HandedIn(st, Source(st, p), order[0], app, ctx, level)
  {
    hide IsOrder; hide Configured; hide Initialize; hide NewChannels; hide MaskOf; hide FindNested; hide ResolveAll; hide Positions;
    hide Accepted; hide AcceptedIn; hide Assigned; hide Resolve; hide Distinct;
    OrderIsDistinct(st, order);
    var s, src := Initialize(st, order, p), Source(st, p);
    var names := ValueOr(FindNested(src.assignments, app, ctx), []);
    StartTables(st, order, p, app, ctx, level);
    MaskResolves(st, order, src, names);
    StartDefault(st, order, p);
    NewNames(order, src);
    HandedCases(s, app, ctx, level);
    NameSetEmpty(s.channels, MaskOf(Positions(order), names));
  }

  lemma StartDefault(st: StaticConfig, order: seq<DltId>, p: Config)
    requires Configured(st) && IsOrder(order, st) && order != []
    ensures var s := Initialize(st, order, p);
            s.defaultChannel < |s.channels| && DefaultName(s) == Resolve(st, order[0], st.defaultName)
  {
    hide IsOrder; hide Configured; hide Initialize; hide ServerInv;
    InitializeInv(st, order, p);
    StartInv(st, Initialize(st, order, p));
    DefaultNameIs(st, Initialize(st, order, p));
    FirstName(st, order, p);
  }

  lemma StartInv(st: StaticConfig, s: Server)
    requires ServerInv(st, s)
    ensures s.defaultChannel < |s.channels|
  {
  }

  lemma StartEmits(st: StaticConfig, order: seq<DltId>, p: Config, app: DltId, ctx: DltId, level: nat)
    requires Configured(st) && IsOrder(order, st) && order != []
    ensures Emitting(Initialize(st, order, p), app, ctx, level) == EmittingIn(st, Source(st, p), order[0], app, ctx, level)
  {
    hide IsOrder; hide Configured; hide Initialize; hide Handed; hide HandedIn; hide Emitting; hide SavedLevels; hide Distinct; hide NewChannels;
    var s, src := Initialize(st, order, p), Source(st, p);
    StartTables(st, order, p, app, ctx, level);
    StartHands(st, order, p, app, ctx, level);
    OrderIsDistinct(st, order);
    NewNames(order, src);
    EmittingFromHanded(s, app, ctx, level);
    forall n | n in Handed(s, app, ctx, level) ensures n in SavedLevels(s.channels) && SavedLevels(s.channels)[n] == LevelIn(src, n) {
      HandedIsNamed(s, app, ctx, level, n);
      NewLevelAt(order, src, n);
    }
  }

  lemma OrderIsDistinct(st: StaticConfig, order: seq<DltId>)
    requires IsOrder(order, st)
    ensures Distinct(order)
  {
  }

  lemma HandedIsNamed(s: Server, app: DltId, ctx: DltId, level: nat, n: DltId)
    requires n in Handed(s, app, ctx, level)
    ensures n in Names(s.channels)
  {
    hide Called;
    var i :| i in Called(s, app, ctx, level) && i < |s.channels| && s.channels[i].name == n;
    assert Names(s.channels)[i] == n;
  }

  /** The tables of `s` are those of `cfg`, with channels by name. */
  ghost predicate Loaded(st: StaticConfig, cfg: Config, order: seq<DltId>, s: Server)
    requires order != []
  {
    && |s.channels| == |order| && (forall i :: 0 <= i < |order| ==> s.channels[i] == LogChannel(order[i], LevelIn(cfg, order[i])))
    && s.filtering == cfg.filtering && s.defaultThreshold == cfg.defaultThreshold
    && (forall k :: k in s.thresholds <==> k.app in cfg.thresholds && k.ctx in cfg.thresholds[k.app])
    && (forall k :: k in s.thresholds ==> s.thresholds[k] == cfg.thresholds[k.app][k.ctx])
    && (forall k :: k in s.assignments <==> k.app in cfg.assignments && k.ctx in cfg.assignments[k.app])
    && (forall k :: k in s.assignments ==>
          NameSet(s.channels, s.assignments[k]) == ResolveAll(st, order[0], cfg.assignments[k.app][k.ctx]))
  }

  lemma StartLoads(st: StaticConfig, order: seq<DltId>, p: Config)
    requires Configured(st) && IsOrder(order, st) && order != []
    ensures Loaded(st, Source(st, p), order, Initialize(st, order, p))
  {
    hide Configured; hide Positions; hide DefaultIndex; hide WithAliases; hide Unnest; hide MaskOf; hide Distinct; hide ResolveAll; hide NameSet;
    OrderIsDistinct(st, order);
    var s, src := Initialize(st, order, p), Source(st, p);
    assert s.channels == NewChannels(order, src);
    forall k: Key
      ensures k in s.thresholds <==> k.app in src.thresholds && k.ctx in src.thresholds[k.app]
      ensures k in s.thresholds ==> s.thresholds[k] == src.thresholds[k.app][k.ctx]
    {
      UnnestAt(src.thresholds, k);
    }
    forall k: Key
      ensures k in s.assignments <==> k.app in src.assignments && k.ctx in src.assignments[k.app]
      ensures k in s.assignments ==>
                NameSet(s.channels, s.assignments[k]) == ResolveAll(st, order[0], src.assignments[k.app][k.ctx])
    {
      UnnestAt(src.assignments, k);
      if k.app in src.assignments && k.ctx in src.assignments[k.app] {
        MaskResolves(st, order, src, src.assignments[k.app][k.ctx]);
      }
    }
  }

  /**
   * A start without a stored configuration loads the static one: every channel with its configured threshold, every table
   * entry by name. So what each message's emitting channels are can be read off the static configuration.
   */
  lemma FirstStart(st: StaticConfig, order: seq<DltId>, p: Config)
    requires Configured(st) && IsOrder(order, st) && p.channels == map[]
    ensures order != [] && Loaded(st, st.base, order, Initialize(st, order, p))
    ensures forall i :: 0 <= i < |order| ==>
              order[i] in st.base.channels && Initialize(st, order, p).channels[i].threshold == st.base.channels[order[i]]
    ensures forall app, ctx, level: nat ::
              Emitting(Initialize(st, order, p), app, ctx, level) == EmittingIn(st, st.base, order[0], app, ctx, level)
  {
    assert Source(st, p) == st.base;
    StartLoads(st, order, p);
    forall i | 0 <= i < |order| ensures order[i] in st.base.channels {
      assert order[i] in order;
    }
    hide Initialize; hide Emitting; hide EmittingIn; hide IsOrder; hide Configured;
    forall app, ctx, level: nat
      ensures Emitting(Initialize(st, order, p), app, ctx, level) == EmittingIn(st, st.base, order[0], app, ctx, level)
    {
      StartEmits(st, order, p, app, ctx, level);
    }
  }

  /** A start with a stored configuration loads that one, and a channel that it does not mention is off. */
  lemma StoredStart(st: StaticConfig, order: seq<DltId>, p: Config)
    requires Configured(st) && IsOrder(order, st) && p.channels != map[]
    ensures order != [] && Loaded(st, p, order, Initialize(st, order, p))
    ensures forall app, ctx, level: nat ::
              Emitting(Initialize(st, order, p), app, ctx, level) == EmittingIn(st, p, order[0], app, ctx, level)
  {
    assert Source(st, p) == p;
    StartLoads(st, order, p);
    hide Initialize; hide Emitting; hide EmittingIn; hide IsOrder; hide Configured;
    forall app, ctx, level: nat
      ensures Emitting(Initialize(st, order, p), app, ctx, level) == EmittingIn(st, p, order[0], app, ctx, level)
    {
      StartEmits(st, order, p, app, ctx, level);
    }
  }

  /** After every run, `ResetToDefault` makes the server emit what the static configuration says. */
  lemma ResetEmits(st: StaticConfig, first: seq<DltId>, p: Config, commands: seq<Command>)
    requires Configured(st) && IsOrder(first, st) && AllPossible(st, commands)
    ensures AllPossible(st, commands + [ResetToDefault])
    ensures var s := Run(st, first, p, commands);
            s.channels != [] &&
            forall app, ctx, level: nat ::
              Emitting(Run(st, first, p, commands + [ResetToDefault]), app, ctx, level)
              == EmittingIn(st, st.base, s.channels[0].name, app, ctx, level)
  {
    hide Run; hide IsOrder; hide Configured; hide Initialize; hide Emitting; hide EmittingIn; hide AllPossible;
    ResetRestoresFactory(st, first, p, commands);
    var order := Names(Run(st, first, p, commands).channels);
    FirstStart(st, order, NO_CONFIG);
  }
}
