/** The server object: tables rebuilt, edited, saved and searched step by step. */
module DltLogServers {
  import opened Options
  import opened DltHeaders
  import opened Routing

  // ----- One step of each rebuilding loop -----

  function RowMasks(nums: map<DltId, nat>, app: DltId, row: map<DltId, seq<DltId>>): map<Key, Mask> {
    map c | c in row :: Key(app, c) := MaskOf(nums, row[c])
  }

  function AsSet(names: seq<DltId>): set<DltId> { set n | n in names }

  function RowNames(row: map<DltId, seq<DltId>>): set<DltId> { set c, n | c in row && n in row[c] :: n }

  function KeyedRow<T>(app: DltId, row: map<DltId, T>): map<Key, T> { map c | c in row :: Key(app, c) := row[c] }

  lemma AliasesCompose(nums: map<DltId, nat>, a: set<DltId>, b: set<DltId>)
    ensures WithAliases(WithAliases(nums, a), b) == WithAliases(nums, a + b)
  {
  }

  lemma AliasesKeepMasks(nums: map<DltId, nat>, a: set<DltId>, names: seq<DltId>)
    ensures MaskOf(WithAliases(nums, a), names) == MaskOf(nums, names)
  {
    assert forall n :: NumOf(WithAliases(nums, a), n) == NumOf(nums, n);
  }

  lemma AliasesKeepRow(nums: map<DltId, nat>, a: set<DltId>, app: DltId, row: map<DltId, seq<DltId>>)
    ensures RowMasks(WithAliases(nums, a), app, row) == RowMasks(nums, app, row)
  {
    hide MaskOf; hide WithAliases;
    forall c | c in row ensures MaskOf(WithAliases(nums, a), row[c]) == MaskOf(nums, row[c]) {
      AliasesKeepMasks(nums, a, row[c]);
    }
  }

  lemma RowStep(nums: map<DltId, nat>, app: DltId, done: map<DltId, seq<DltId>>, c: DltId, names: seq<DltId>)
    requires c !in done
    ensures RowMasks(nums, app, done[c := names]) == RowMasks(nums, app, done)[Key(app, c) := MaskOf(nums, names)]
  {
    hide MaskOf;
  }

  lemma RowNamesStep(done: map<DltId, seq<DltId>>, c: DltId, names: seq<DltId>)
    requires c !in done
    ensures RowNames(done[c := names]) == RowNames(done) + AsSet(names)
  {
    var after := done[c := names];
    forall n | n in names ensures n in RowNames(after) {
      assert n in after[c];
    }
    forall n | n in RowNames(done) ensures n in RowNames(after) {
      var d :| d in done && n in done[d];
      assert n in after[d];
    }
  }

  lemma UnnestStep<T>(done: Nested<T>, app: DltId, row: map<DltId, T>)
    requires app !in done
    ensures Unnest(done[app := row]) == Unnest(done) + KeyedRow(app, row)
  {
    hide Unnest; hide KeyedRow;
    var a, b := Unnest(done[app := row]), Unnest(done) + KeyedRow(app, row);
    forall k: Key ensures (k in a <==> k in b) && (k in a ==> a[k] == b[k]) {
      UnnestAt(done[app := row], k);
      UnnestAt(done, k);
      KeyedRowAt(app, row, k);
    }
  }

  lemma KeyedRowAt<T>(app: DltId, row: map<DltId, T>, k: Key)
    ensures k in KeyedRow(app, row) <==> k.app == app && k.ctx in row
    ensures k in KeyedRow(app, row) ==> KeyedRow(app, row)[k] == row[k.ctx]
  {
    if k.app == app && k.ctx in row {
      assert Key(app, k.ctx) in KeyedRow(app, row);
    }
  }

  lemma MasksStep(nums: map<DltId, nat>, done: Nested<seq<DltId>>, app: DltId, row: map<DltId, seq<DltId>>)
    requires app !in done
    ensures LoadMasks(nums, done[app := row]) == LoadMasks(nums, done) + RowMasks(nums, app, row)
  {
    hide Unnest; hide MaskOf; hide KeyedRow;
    UnnestStep(done, app, row);
    var a, b := LoadMasks(nums, done[app := row]), LoadMasks(nums, done) + RowMasks(nums, app, row);
    forall k: Key ensures (k in a <==> k in b) && (k in a ==> a[k] == b[k]) {
      KeyedRowAt(app, row, k);
      RowMasksAt(nums, app, row, k);
    }
  }

  lemma RowMasksAt(nums: map<DltId, nat>, app: DltId, row: map<DltId, seq<DltId>>, k: Key)
    ensures k in RowMasks(nums, app, row) <==> k.app == app && k.ctx in row
    ensures k in RowMasks(nums, app, row) ==> RowMasks(nums, app, row)[k] == MaskOf(nums, row[k.ctx])
  {
    hide MaskOf;
    if k.app == app && k.ctx in row {
      assert Key(app, k.ctx) in RowMasks(nums, app, row);
    }
  }

  lemma MentionedStep(done: Nested<seq<DltId>>, app: DltId, row: map<DltId, seq<DltId>>)
    requires app !in done
    ensures Mentioned(done[app := row]) == Mentioned(done) + RowNames(row)
  {
    var after := done[app := row];
    forall n | n in RowNames(row) ensures n in Mentioned(after) {
      var c :| c in row && n in row[c];
      assert n in after[app][c];
    }
    forall n | n in Mentioned(done) ensures n in Mentioned(after) {
      var a, c :| a in done && c in done[a] && n in done[a][c];
      assert n in after[a][c];
    }
  }

  /** `table[app][ctx] = value` on nested maps. */
  function NestedPut<T>(nested: Nested<T>, k: Key, value: T): Nested<T> {
    var row: map<DltId, T> := if k.app in nested then nested[k.app] else map[];
    nested[k.app := row[k.ctx := value]]
  }

  lemma NestStep<T>(m: map<Key, T>, k: Key, value: T)
    ensures Nest(m[k := value]) == NestedPut(Nest(m), k, value)
  {
    var after := m[k := value];
    assert k in after && k.app in Apps(after);
    forall a | a in Apps(m) ensures a in Apps(after) {
      var x :| x in m && x.app == a;
      assert x in after;
    }
    forall a | a in Nest(after) ensures a in NestedPut(Nest(m), k, value) && Nest(after)[a] == NestedPut(Nest(m), k, value)[a] {
      RowPut(m, k, value, a);
    }
  }

  lemma RowPut<T>(m: map<Key, T>, k: Key, value: T, app: DltId)
    ensures Row(m[k := value], app) == if app == k.app then Row(m, app)[k.ctx := value] else Row(m, app)
  {
    var after := m[k := value];
    if app == k.app {
      assert k in after;
    }
  }

  class DltLogServer {
    const config: StaticConfig
    var filtering: bool
    var defaultThreshold: nat
    var thresholds: map<Key, nat>
    var assignments: map<Key, Mask>
    var channels: seq<LogChannel>
    var defaultChannel: nat
    var nums: map<DltId, nat>
    var stored: Config

    function State(): Server
      reads this
    {
      Server(filtering, defaultThreshold, thresholds, assignments, channels, defaultChannel, nums, stored)
    }

    constructor (config: StaticConfig, order: seq<DltId>, stored: Config)
      requires IsOrder(order, config)
      ensures State() == Initialize(config, order, stored)
    {
      this.config, this.stored := config, stored;
      filtering, defaultThreshold, thresholds, assignments := false, 0, map[], map[];
      channels, defaultChannel, nums := [], 0, map[];
      new;
      hide Initialize; hide IsOrder;
      InitLogChannels(order);
    }

    method InitLogChannels(order: seq<DltId>)
      requires IsOrder(order, config)
      requires State() == Server(false, 0, map[], map[], [], 0, map[], stored)
      modifies this
      ensures State() == Initialize(config, order, old(stored))
      ensures Configured(config) && old(stored).channels == map[] ==>
                && filtering == config.base.filtering && defaultThreshold == config.base.defaultThreshold
                && |channels| == |order|
                && forall i :: 0 <= i < |order| ==>
                     order[i] in config.base.channels && channels[i] == LogChannel(order[i], config.base.channels[order[i]])
    {
      hide LoadTables; hide NewChannels; hide Positions; hide DefaultIndex; hide Distinct;
      if !Configured(config) {
        InitLogChannelsDefault(false);
      } else {
        FactoryLevels(config, order);
        CreateChannels(order, Source(config, stored));
        LoadAll(Source(config, stored));
        TablesKeepChannels(Server(false, 0, map[], map[], channels, defaultChannel, Positions(order), stored), Source(config, stored));
      }
    }

    /** `InitLogChannels(true)`. */
    method ReloadLogChannels()
      requires channels != []
      modifies this
      ensures State() == Reload(config, old(State()))
      ensures Configured(config) ==> channels == Rethreshold(old(channels), Source(config, old(stored)))
    {
      hide LoadTables; hide Rethreshold;
      if !Configured(config) {
        InitLogChannelsDefault(true);
      } else {
        var src := Source(config, stored);
        SetThresholds(src);
        LoadAll(src);
      }
    }

    /** The settings without a usable channel list. */
    method InitLogChannelsDefault(reloading: bool)
      requires reloading ==> channels != []
      modifies this`filtering, this`defaultThreshold, this`defaultChannel, this`channels
      ensures !filtering && defaultThreshold == ERROR && defaultChannel == 0
      ensures channels == if reloading then old(channels)[0 := old(channels)[0].(threshold := OFF)]
                          else old(channels) + [LogChannel(TEST_ID, INFO)]
    {
      filtering, defaultThreshold, defaultChannel := false, ERROR, 0;
      if reloading {
        channels := channels[0 := channels[0].(threshold := OFF)];
      } else {
        channels := channels + [LogChannel(TEST_ID, INFO)];
      }
    }

    /** One channel per configured name, in iteration order. */
    method CreateChannels(order: seq<DltId>, src: Config)
      requires Distinct(order) && channels == [] && nums == map[] && defaultChannel == 0
      modifies this`channels, this`nums, this`defaultChannel
      ensures channels == NewChannels(order, src) && nums == Positions(order) && defaultChannel == DefaultIndex(config, order)
    {
      hide LevelIn;
      for i := 0 to |order|
        invariant channels == NewChannels(order[..i], src)
        invariant nums == Positions(order[..i])
        invariant defaultChannel == DefaultIndex(config, order[..i])
      {
        PositionsStep(order, i);
        hide Positions;
        if config.defaultName == order[i] {
          defaultChannel := i;
        }
        channels := channels + [LogChannel(order[i], LevelIn(src, order[i]))];
        nums := nums[order[i] := i];
      }
      assert order[..|order|] == order;
    }

    method SetThresholds(src: Config)
      modifies this`channels
      ensures channels == Rethreshold(old(channels), src)
    {
      for i := 0 to |channels|
        invariant |channels| == |old(channels)|
        invariant forall j :: 0 <= j < i ==> channels[j] == Rethreshold(old(channels), src)[j]
        invariant forall j :: i <= j < |channels| ==> channels[j] == old(channels)[j]
      {
        channels := channels[i := channels[i].(threshold := LevelIn(src, channels[i].name))];
      }
    }

    method LoadAll(src: Config)
      modifies this`assignments, this`nums, this`filtering, this`defaultThreshold, this`thresholds
      ensures State() == LoadTables(old(State()), src)
    {
      hide LoadMasks; hide WithAliases; hide Unnest; hide Mentioned;
      LoadAssignments(src.assignments);
      filtering := src.filtering;
      defaultThreshold := src.defaultThreshold;
      LoadThresholds(src.thresholds);
    }

    method ReadMask(names: seq<DltId>) returns (mask: Mask)
      modifies this`nums
      ensures mask == MaskOf(old(nums), names)
      ensures nums == WithAliases(old(nums), AsSet(names))
    {
      hide MaskOf; hide WithAliases; hide AsSet;
      MaskStart(nums);
      mask := {};
      for i := 0 to |names|
        invariant mask == MaskOf(old(nums), names[..i])
        invariant nums == WithAliases(old(nums), AsSet(names[..i]))
      {
        MaskStep(old(nums), names, i);
        AliasStep(old(nums), AsSet(names[..i]), names[i]);
        if names[i] !in nums {
          nums := nums[names[i] := 0];
        }
        mask := mask + {nums[names[i]]};
      }
      assert names[..|names|] == names;
    }

    method LoadRow(app: DltId, row: map<DltId, seq<DltId>>)
      requires forall c :: c in row ==> Key(app, c) !in assignments
      modifies this`assignments, this`nums
      ensures assignments == old(assignments) + RowMasks(old(nums), app, row)
      ensures nums == WithAliases(old(nums), RowNames(row))
    {
      hide MaskOf; hide WithAliases; hide RowMasks; hide RowNames;
      var todo := row.Keys;
      ghost var done: map<DltId, seq<DltId>> := map[];
      RowStart(nums, app);
      while todo != {}
        invariant todo <= row.Keys && done.Keys == row.Keys - todo && forall c :: c in done ==> done[c] == row[c]
        invariant assignments == old(assignments) + RowMasks(old(nums), app, done)
        invariant nums == WithAliases(old(nums), RowNames(done))
      {
        var c :| c in todo;
        AliasesKeepMasks(old(nums), RowNames(done), row[c]);
        AliasesCompose(old(nums), RowNames(done), AsSet(row[c]));
        RowStep(old(nums), app, done, c, row[c]);
        RowNamesStep(done, c, row[c]);
        var mask := ReadMask(row[c]);
        assignments := assignments[Key(app, c) := mask];
        done := done[c := row[c]];
        todo := todo - {c};
      }
      assert done == row;
    }

    method LoadAssignments(m: Nested<seq<DltId>>)
      modifies this`assignments, this`nums
      ensures assignments == LoadMasks(old(nums), m)
      ensures nums == WithAliases(old(nums), Mentioned(m))
    {
      hide LoadMasks; hide WithAliases; hide RowMasks; hide RowNames; hide Mentioned;
      assignments := map[];
      var todo := m.Keys;
      ghost var done: Nested<seq<DltId>> := map[];
      TableStart(nums);
      while todo != {}
        invariant todo <= m.Keys && done.Keys == m.Keys - todo && forall a :: a in done ==> done[a] == m[a]
        invariant assignments == LoadMasks(old(nums), done)
        invariant nums == WithAliases(old(nums), Mentioned(done))
      {
        var a :| a in todo;
        NotLoaded(old(nums), done, a);
        AliasesKeepRow(old(nums), Mentioned(done), a, m[a]);
        AliasesCompose(old(nums), Mentioned(done), RowNames(m[a]));
        MasksStep(old(nums), done, a, m[a]);
        MentionedStep(done, a, m[a]);
        LoadRow(a, m[a]);
        done := done[a := m[a]];
        todo := todo - {a};
      }
      assert done == m;
    }

    method LoadThresholds(m: Nested<nat>)
      modifies this`thresholds
      ensures thresholds == Unnest(m)
    {
      hide Unnest; hide KeyedRow;
      thresholds := map[];
      var todo := m.Keys;
      ghost var done: Nested<nat> := map[];
      UnnestStart<nat>();
      while todo != {}
        invariant todo <= m.Keys && done.Keys == m.Keys - todo && forall a :: a in done ==> done[a] == m[a]
        invariant thresholds == Unnest(done)
      {
        var a :| a in todo;
        UnnestStep(done, a, m[a]);
        LoadThresholdRow(a, m[a]);
        done := done[a := m[a]];
        todo := todo - {a};
      }
      assert done == m;
    }

    method LoadThresholdRow(app: DltId, row: map<DltId, nat>)
      modifies this`thresholds
      ensures thresholds == old(thresholds) + KeyedRow(app, row)
    {
      hide KeyedRow;
      var todo := row.Keys;
      ghost var done: map<DltId, nat> := map[];
      KeyedRowStart<nat>(app);
      while todo != {}
        invariant todo <= row.Keys && done.Keys == row.Keys - todo && forall c :: c in done ==> done[c] == row[c]
        invariant thresholds == old(thresholds) + KeyedRow(app, done)
      {
        var c :| c in todo;
        KeyedRowStep(app, done, c, row[c]);
        thresholds := thresholds[Key(app, c) := row[c]];
        done := done[c := row[c]];
        todo := todo - {c};
      }
      assert done == row;
    }

    // ----- Saving -----

    method NamesOfMask(mask: Mask) returns (names: seq<DltId>)
      ensures names == NamesOf(channels, mask)
    {
      names := [];
      for i := 0 to |channels|
        invariant names == NamesOf(channels[..i], mask)
      {
        assert channels[..i + 1][..i] == channels[..i];
        if i in mask {
          names := names + [channels[i].name];
        }
      }
      assert channels[..|channels|] == channels;
    }

    method SaveLevels() returns (levels: map<DltId, nat>)
      ensures levels == SavedLevels(channels)
    {
      levels := map[];
      for i := 0 to |channels|
        invariant levels == SavedLevels(channels[..i])
      {
        assert channels[..i + 1][..i] == channels[..i];
        levels := levels[channels[i].name := channels[i].threshold];
      }
      assert channels[..|channels|] == channels;
    }

    method SaveAssignments() returns (nested: Nested<seq<DltId>>)
      ensures nested == Nest(NamedAssignments(State()))
    {
      hide Nest; hide NamesOf;
      nested := map[];
      var todo := assignments.Keys;
      ghost var done: map<Key, seq<DltId>> := map[];
      NestStart<seq<DltId>>();
      while todo != {}
        invariant todo <= assignments.Keys && done.Keys == assignments.Keys - todo
        invariant forall k :: k in done ==> done[k] == NamesOf(channels, assignments[k])
        invariant nested == Nest(done)
      {
        var k :| k in todo;
        var names := NamesOfMask(assignments[k]);
        NestStep(done, k, names);
        nested := NestedPut(nested, k, names);
        done := done[k := names];
        todo := todo - {k};
      }
      assert done == NamedAssignments(State());
    }

    method SaveThresholds() returns (nested: Nested<nat>)
      ensures nested == Nest(thresholds)
    {
      hide Nest;
      nested := map[];
      var todo := thresholds.Keys;
      ghost var done: map<Key, nat> := map[];
      NestStart<nat>();
      while todo != {}
        invariant todo <= thresholds.Keys && done.Keys == thresholds.Keys - todo
        invariant forall k :: k in done ==> done[k] == thresholds[k]
        invariant nested == Nest(done)
      {
        var k :| k in todo;
        NestStep(done, k, thresholds[k]);
        nested := NestedPut(nested, k, thresholds[k]);
        done := done[k := thresholds[k]];
        todo := todo - {k};
      }
      assert done == thresholds;
    }

    method SaveDatabase()
      modifies this`stored
      ensures State() == old(State()).(stored := Save(old(State())))
    {
      hide Nest; hide NamedAssignments; hide SavedLevels;
      var levels := SaveLevels();
      var named := SaveAssignments();
      var perMessage := SaveThresholds();
      stored := Config(levels, filtering, defaultThreshold, named, perMessage);
    }

    // ----- Commands: true stands for the positive response -----

    method ResetToDefault()
      requires channels != []
      modifies this
      ensures State() == Apply(config, old(State()), Command.ResetToDefault)
      ensures Configured(config) ==>
                && |channels| == |old(channels)|
                && forall i :: 0 <= i < |channels| && old(channels)[i].name in config.base.channels ==>
                     channels[i] == LogChannel(old(channels)[i].name, config.base.channels[old(channels)[i].name])
    {
      stored := NO_CONFIG;
      ReloadLogChannels();
    }

    method SetLogChannelThreshold(channel: DltId, threshold: nat) returns (ok: bool)
      requires forall n :: n in nums ==> nums[n] < |channels|
      modifies this`channels
      ensures ok == (channel in nums)
      ensures State() == SetThreshold(old(State()), channel, threshold)
    {
      ok := channel in nums;
      if ok {
        var i := nums[channel];
        channels := channels[i := channels[i].(threshold := threshold)];
      }
    }

    method SetLogLevel(app: DltId, ctx: DltId, level: Option<nat>)
      modifies this`thresholds
      ensures State() == SetLevel(old(State()), Key(app, ctx), level)
      ensures thresholds - {Key(app, ctx)} == old(thresholds) - {Key(app, ctx)}
      ensures if level.Some? then Key(app, ctx) in thresholds && thresholds[Key(app, ctx)] == level.value else Key(app, ctx) !in thresholds
    {
      thresholds := thresholds - {Key(app, ctx)};
      if level.Some? {
        thresholds := thresholds[Key(app, ctx) := level.value];
      }
    }

    method SetLogChannelAssignment(app: DltId, ctx: DltId, channel: DltId, add: bool) returns (ok: bool)
      modifies this`assignments
      ensures ok == (channel in nums)
      ensures State() == Assign(old(State()), Key(app, ctx), channel, add)
      ensures assignments - {Key(app, ctx)} == old(assignments) - {Key(app, ctx)}
    {
      ok := channel in nums;
      if !ok {
        return;
      }
      var bit, key := nums[channel], Key(app, ctx);
      if key !in assignments {
        if add {
          assignments := assignments[key := {bit}];
        }
      } else if add {
        assignments := assignments[key := assignments[key] + {bit}];
      } else {
        var left := assignments[key] - {bit};
        if left == {} {
          assignments := assignments - {key};
        } else {
          assignments := assignments[key := left];
        }
      }
    }

    // ----- Routing a message -----

    /** The channels the message is handed to, in index order. */
    method FilterAndCall(app: DltId, ctx: DltId, level: nat) returns (called: seq<nat>)
      ensures (set i | i in called) == Called(State(), app, ctx, level)
      ensures forall i, j :: 0 <= i < j < |called| ==> called[i] < called[j]
    {
      called := [];
      if filtering {
        var threshold := FindInKeyMap(thresholds, app, ctx);
        if level > ValueOr(threshold, defaultThreshold) {
          return;
        }
      }
      var mask := ValueOr(FindInKeyMap(assignments, app, ctx), {});
      if mask == {} {
        called := [defaultChannel];
      } else {
        called := CallAssigned(mask);
      }
    }

    method CallAssigned(mask: Mask) returns (called: seq<nat>)
      ensures forall i :: i in called <==> i in mask && i < |channels|
      ensures forall i, j :: 0 <= i < j < |called| ==> called[i] < called[j]
    {
      called := [];
      for i := 0 to |channels|
        invariant forall j :: j in called <==> j in mask && j < i
        invariant forall j, k :: 0 <= j < k < |called| ==> called[j] < called[k]
      {
        if i in mask {
          assert forall j :: 0 <= j < |called| ==> called[j] in called;
          called := called + [i];
        }
      }
    }
  }

  lemma FactoryLevels(st: StaticConfig, order: seq<DltId>)
    requires IsOrder(order, st)
    ensures |NewChannels(order, st.base)| == |order|
    ensures forall i :: 0 <= i < |order| ==>
              order[i] in st.base.channels && NewChannels(order, st.base)[i] == LogChannel(order[i], st.base.channels[order[i]])
  {
    forall i | 0 <= i < |order| ensures order[i] in st.base.channels {
      assert order[i] in order;
    }
  }

  lemma TablesKeepChannels(s: Server, src: Config)
    ensures LoadTables(s, src).channels == s.channels
    ensures LoadTables(s, src).filtering == src.filtering && LoadTables(s, src).defaultThreshold == src.defaultThreshold
  {
  }

  lemma NestStart<T>()
    ensures Nest<T>(map[]) == map[]
  {
  }

  lemma PositionsStep(order: seq<DltId>, i: nat)
    requires Distinct(order) && i < |order|
    ensures Positions(order[..i + 1]) == Positions(order[..i])[order[i] := i]
    ensures order[i] !in order[..i]
    ensures order[..i + 1] == order[..i] + [order[i]]
  {
  }

  lemma MaskStep(nums: map<DltId, nat>, names: seq<DltId>, i: nat)
    requires i < |names|
    ensures MaskOf(nums, names[..i + 1]) == MaskOf(nums, names[..i]) + {NumOf(nums, names[i])}
    ensures AsSet(names[..i + 1]) == AsSet(names[..i]) + {names[i]}
  {
    assert names[..i + 1] == names[..i] + [names[i]];
  }

  lemma MaskStart(nums: map<DltId, nat>)
    ensures MaskOf(nums, []) == {} && WithAliases(nums, AsSet([])) == nums
  {
  }

  lemma AliasStep(nums: map<DltId, nat>, names: set<DltId>, n: DltId)
    ensures var now := WithAliases(nums, names);
            var next := if n in now then now else now[n := 0];
            next == WithAliases(nums, names + {n}) && next[n] == NumOf(nums, n)
  {
  }

  lemma KeyedRowStep<T>(app: DltId, done: map<DltId, T>, c: DltId, value: T)
    requires c !in done
    ensures KeyedRow(app, done[c := value]) == KeyedRow(app, done)[Key(app, c) := value]
  {
    hide KeyedRow;
    var a, b := KeyedRow(app, done[c := value]), KeyedRow(app, done)[Key(app, c) := value];
    forall k: Key ensures (k in a <==> k in b) && (k in a ==> a[k] == b[k]) {
      KeyedRowAt(app, done[c := value], k);
      KeyedRowAt(app, done, k);
    }
  }

  lemma RowStart(nums: map<DltId, nat>, app: DltId)
    ensures RowMasks(nums, app, map[]) == map[] && WithAliases(nums, RowNames(map[])) == nums
  {
  }

  lemma TableStart(nums: map<DltId, nat>)
    ensures LoadMasks(nums, map[]) == map[] && WithAliases(nums, Mentioned(map[])) == nums
  {
    EmptyTable(nums);
    hide LoadMasks;
  }

  lemma KeyedRowStart<T>(app: DltId)
    ensures KeyedRow<T>(app, map[]) == map[]
  {
  }

  lemma NotLoaded(nums: map<DltId, nat>, done: Nested<seq<DltId>>, app: DltId)
    requires app !in done
    ensures forall c :: Key(app, c) !in LoadMasks(nums, done)
  {
    hide MaskOf;
    forall c ensures Key(app, c) !in LoadMasks(nums, done) {
      UnnestAt(done, Key(app, c));
    }
  }
}
