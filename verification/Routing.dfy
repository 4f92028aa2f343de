/** Which channels a message goes to: a table of channel masks, edited by commands, saved and reloaded by name. */
module Routing {
  import opened Options
  import opened DltHeaders

  const NO_ID: DltId := [0, 0, 0, 0]
  const TEST_ID: DltId := [84, 69, 83, 84]
  const MASK_BITS: nat := 32
  const OFF: nat := 0
  const ERROR: nat := 2
  const INFO: nat := 4

  datatype Key = Key(app: DltId, ctx: DltId)

  type Nested<T> = map<DltId, map<DltId, T>>
  type Mask = set<nat>                          // the indices whose bits are set

  datatype LogChannel = LogChannel(name: DltId, threshold: nat)

  datatype Config = Config(
    channels: map<DltId, nat>,                  // name and threshold
    filtering: bool,
    defaultThreshold: nat,
    assignments: Nested<seq<DltId>>,
    thresholds: Nested<nat>)

  datatype StaticConfig = StaticConfig(defaultName: DltId, base: Config)

  const NO_CONFIG: Config := Config(map[], false, OFF, map[], map[])

  datatype Server = Server(
    filtering: bool,
    defaultThreshold: nat,
    thresholds: map<Key, nat>,
    assignments: map<Key, Mask>,
    channels: seq<LogChannel>,
    defaultChannel: nat,
    nums: map<DltId, nat>,
    stored: Config)                             // what the persistence callbacks hand over

  // ----- Lookup and filtering -----

  /** Exact key first, then any application, then any context. */
  function FindInKeyMap<T>(m: map<Key, T>, app: DltId, ctx: DltId): Option<T> {
    if Key(app, ctx) in m then Some(m[Key(app, ctx)])
    else if Key(NO_ID, ctx) in m then Some(m[Key(NO_ID, ctx)])
    else if Key(app, NO_ID) in m then Some(m[Key(app, NO_ID)])
    else None
  }

  function ValueOr<T>(o: Option<T>, d: T): T { if o.Some? then o.value else d }

  predicate Accepted(s: Server, app: DltId, ctx: DltId, level: nat) {
    !s.filtering || level <= ValueOr(FindInKeyMap(s.thresholds, app, ctx), s.defaultThreshold)
  }

  function Assigned(s: Server, app: DltId, ctx: DltId): Mask {
    ValueOr(FindInKeyMap(s.assignments, app, ctx), {})
  }

  /** The channels that `FilterAndCall` hands the message to, by index. */
  function Called(s: Server, app: DltId, ctx: DltId, level: nat): set<nat> {
    if !Accepted(s, app, ctx, level) then {}
    else if Assigned(s, app, ctx) == {} then {s.defaultChannel}
    else set i | i in Assigned(s, app, ctx) && i < |s.channels|
  }

  /** The names of the channels that get the message. */
  function Handed(s: Server, app: DltId, ctx: DltId, level: nat): set<DltId> {
    set i | i in Called(s, app, ctx, level) && i < |s.channels| :: s.channels[i].name
  }

  /** The names of the channels that send it: a channel drops what is above its threshold. */
  function Emitting(s: Server, app: DltId, ctx: DltId, level: nat): set<DltId> {
    set i | i in Called(s, app, ctx, level) && i < |s.channels| && level <= s.channels[i].threshold :: s.channels[i].name
  }

  // ----- Nested and flat tables -----

  function Unnest<T>(m: Nested<T>): map<Key, T> {
    map a, c | a in m && c in m[a] :: Key(a, c) := m[a][c]
  }

  function Row<T>(m: map<Key, T>, app: DltId): map<DltId, T> {
    map k | k in m && k.app == app :: k.ctx := m[k]
  }

  function Apps<T>(m: map<Key, T>): set<DltId> { set k | k in m :: k.app }

  function Nest<T>(m: map<Key, T>): Nested<T> {
    map a | a in Apps(m) :: Row(m, a)
  }

  lemma UnnestAt<T>(m: Nested<T>, k: Key)
    ensures k in Unnest(m) <==> k.app in m && k.ctx in m[k.app]
    ensures k in Unnest(m) ==> Unnest(m)[k] == m[k.app][k.ctx]
  {
    if k.app in m && k.ctx in m[k.app] {
      assert Key(k.app, k.ctx) in Unnest(m);
    }
  }

  lemma UnnestStart<T>()
    ensures Unnest<T>(map[]) == map[]
  {
    hide Unnest;
    forall k: Key ensures k !in Unnest<T>(map[]) {
      UnnestAt<T>(map[], k);
    }
  }

  // ----- Initialisation -----

  predicate Configured(st: StaticConfig) { 1 <= |st.base.channels| < MASK_BITS }

  predicate Distinct(order: seq<DltId>) { forall i, j :: 0 <= i < j < |order| ==> order[i] != order[j] }

  /** One of the orders in which the channel map may be iterated. */
  predicate IsOrder(order: seq<DltId>, st: StaticConfig) {
    && Distinct(order) && |order| == |st.base.channels|
    && (forall n :: n in order ==> n in st.base.channels) && (forall n :: n in st.base.channels ==> n in order)
  }

  function Source(st: StaticConfig, p: Config): Config { if p.channels != map[] then p else st.base }

  function LevelIn(src: Config, name: DltId): nat { if name in src.channels then src.channels[name] else OFF }

  function Positions(order: seq<DltId>): map<DltId, nat>
    requires Distinct(order)
  {
    map i | 0 <= i < |order| :: order[i] := i
  }

  function DefaultIndex(st: StaticConfig, order: seq<DltId>): nat
    requires Distinct(order)
  {
    if st.defaultName in order then Positions(order)[st.defaultName] else 0
  }

  /** Reading an unknown name from the index map yields 0 ... */
  function NumOf(nums: map<DltId, nat>, name: DltId): nat { if name in nums then nums[name] else 0 }

  function MaskOf(nums: map<DltId, nat>, names: seq<DltId>): Mask { set n | n in names :: NumOf(nums, n) }

  function Mentioned(m: Nested<seq<DltId>>): set<DltId> {
    set a, c, n | a in m && c in m[a] && n in m[a][c] :: n
  }

  /** ... and leaves it there as an alias of channel 0. */
  function WithAliases(nums: map<DltId, nat>, names: set<DltId>): map<DltId, nat> {
    nums + map n | n in names && n !in nums :: 0
  }

  function LoadMasks(nums: map<DltId, nat>, m: Nested<seq<DltId>>): map<Key, Mask> {
    var flat := Unnest(m);
    map k | k in flat :: MaskOf(nums, flat[k])
  }

  lemma EmptyTable(nums: map<DltId, nat>)
    ensures LoadMasks(nums, map[]) == map[]
  {
    hide Unnest; hide MaskOf;
    UnnestStart<seq<DltId>>();
  }

  function LoadTables(s: Server, src: Config): Server {
    s.(assignments := LoadMasks(s.nums, src.assignments), nums := WithAliases(s.nums, Mentioned(src.assignments)),
       filtering := src.filtering, defaultThreshold := src.defaultThreshold, thresholds := Unnest(src.thresholds))
  }

  function NewChannels(order: seq<DltId>, src: Config): seq<LogChannel> {
    seq(|order|, i requires 0 <= i < |order| => LogChannel(order[i], LevelIn(src, order[i])))
  }

  function Rethreshold(channels: seq<LogChannel>, src: Config): seq<LogChannel> {
    seq(|channels|, i requires 0 <= i < |channels| => LogChannel(channels[i].name, LevelIn(src, channels[i].name)))
  }

  /** `InitLogChannels` of a new server. */
  function Initialize(st: StaticConfig, order: seq<DltId>, p: Config): (s: Server)
    requires IsOrder(order, st)
    ensures s.channels != []
  {
    if !Configured(st) then Server(false, ERROR, map[], map[], [LogChannel(TEST_ID, INFO)], 0, map[], p)
    else
      var src := Source(st, p);
      LoadTables(Server(false, 0, map[], map[], NewChannels(order, src), DefaultIndex(st, order), Positions(order), p), src)
  }

  /** `InitLogChannels(true)`: the channels stay, everything else is read again. */
  function Reload(st: StaticConfig, s: Server): Server
    requires s.channels != []
  {
    if !Configured(st) then
      s.(filtering := false, defaultThreshold := ERROR, defaultChannel := 0,
         channels := s.channels[0 := s.channels[0].(threshold := OFF)])
    else
      var src := Source(st, s.stored);
      LoadTables(s.(channels := Rethreshold(s.channels, src)), src)
  }

  // ----- Saving -----

  /** The names of the set bits, in index order. */
  function NamesOf(channels: seq<LogChannel>, mask: Mask): seq<DltId> {
    if channels == [] then []
    else
      var n := |channels| - 1;
      NamesOf(channels[..n], mask) + if n in mask then [channels[n].name] else []
  }

  function SavedLevels(channels: seq<LogChannel>): map<DltId, nat> {
    if channels == [] then map[]
    else
      var n := |channels| - 1;
      SavedLevels(channels[..n])[channels[n].name := channels[n].threshold]
  }

  function NamedAssignments(s: Server): map<Key, seq<DltId>> {
    map k | k in s.assignments :: NamesOf(s.channels, s.assignments[k])
  }

  function Save(s: Server): Config {
    Config(SavedLevels(s.channels), s.filtering, s.defaultThreshold, Nest(NamedAssignments(s)), Nest(s.thresholds))
  }

  // ----- Commands -----

  datatype Command =
    | SetLogChannelThreshold(channel: DltId, threshold: nat)
    | SetLogLevel(app: DltId, ctx: DltId, level: Option<nat>)
    | SetMessagingFilteringState(enabled: bool)
    | SetDefaultLogLevel(threshold: nat)
    | SetLogChannelAssignment(app: DltId, ctx: DltId, channel: DltId, add: bool)
    | StoreDltConfig
    | ResetToDefault
    | Restart(order: seq<DltId>)                // a new process on the same configuration and store

  predicate Possible(st: StaticConfig, k: Command) { k.Restart? ==> IsOrder(k.order, st) }

  function Assign(s: Server, key: Key, channel: DltId, add: bool): Server {
    if channel !in s.nums then s
    else
      var bit := s.nums[channel];
      if key !in s.assignments then (if add then s.(assignments := s.assignments[key := {bit}]) else s)
      else if add then s.(assignments := s.assignments[key := s.assignments[key] + {bit}])
      else
        var left := s.assignments[key] - {bit};
        s.(assignments := if left == {} then s.assignments - {key} else s.assignments[key := left])
  }

  function SetThreshold(s: Server, channel: DltId, threshold: nat): Server {
    if channel in s.nums && s.nums[channel] < |s.channels|
    then var i := s.nums[channel]; s.(channels := s.channels[i := s.channels[i].(threshold := threshold)])
    else s
  }

  function SetLevel(s: Server, key: Key, level: Option<nat>): Server {
    s.(thresholds := if level.Some? then s.thresholds[key := level.value] else s.thresholds - {key})
  }

  function Apply(st: StaticConfig, s: Server, k: Command): (r: Server)
    requires Possible(st, k) && s.channels != []
    ensures r.channels != []
  {
    match k
    case SetLogChannelThreshold(channel, threshold) => SetThreshold(s, channel, threshold)
    case SetLogLevel(app, ctx, level) => SetLevel(s, Key(app, ctx), level)
    case SetMessagingFilteringState(enabled) => s.(filtering := enabled)
    case SetDefaultLogLevel(threshold) => s.(defaultThreshold := threshold)
    case SetLogChannelAssignment(app, ctx, channel, add) => Assign(s, Key(app, ctx), channel, add)
    case StoreDltConfig => s.(stored := Save(s))
    case ResetToDefault => Reload(st, s.(stored := NO_CONFIG))
    case Restart(order) => Initialize(st, order, s.stored)
  }

  predicate AllPossible(st: StaticConfig, commands: seq<Command>) {
    forall i :: 0 <= i < |commands| ==> Possible(st, commands[i])
  }

  function Run(st: StaticConfig, order: seq<DltId>, p: Config, commands: seq<Command>): (s: Server)
    requires IsOrder(order, st) && AllPossible(st, commands)
    ensures s.channels != []
  {
    if commands == [] then Initialize(st, order, p)
    else
      Apply(st, Run(st, order, p, commands[..|commands| - 1]), commands[|commands| - 1])
  }
}
