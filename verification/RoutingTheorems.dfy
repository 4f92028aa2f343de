/** What routing keeps: every accepted message finds a channel, and names survive saving and restarting. */
module RoutingTheorems {
  import opened Options
  import opened DltHeaders
  import opened Routing

  // ----- Invariant -----

  function Names(channels: seq<LogChannel>): seq<DltId> {
    seq(|channels|, i requires 0 <= i < |channels| => channels[i].name)
  }

  predicate Below(mask: Mask, n: nat) { forall i :: i in mask ==> i < n }

  predicate MasksBelow(assignments: map<Key, Mask>, n: nat) { forall k :: k in assignments ==> Below(assignments[k], n) }

  predicate NumsBelow(nums: map<DltId, nat>, n: nat) { forall name :: name in nums ==> nums[name] < n }

  /** Channel names have their own index, any other known name is an alias of channel 0. */
  predicate NumsMatch(nums: map<DltId, nat>, order: seq<DltId>)
    requires Distinct(order)
  {
    (forall i :: 0 <= i < |order| ==> order[i] in nums) && (forall n :: n in nums ==> nums[n] == NumOf(Positions(order), n))
  }

  predicate ChannelsMatch(st: StaticConfig, s: Server)
    requires s.defaultChannel < |s.channels|
  {
    var order := Names(s.channels);
    && IsOrder(order, st) && NumsMatch(s.nums, order) && s.defaultChannel == DefaultIndex(st, order)
  }

  predicate ServerInv(st: StaticConfig, s: Server) {
    && s.defaultChannel < |s.channels|
    && MasksBelow(s.assignments, |s.channels|)
    && NumsBelow(s.nums, |s.channels|)
    && (Configured(st) ==> ChannelsMatch(st, s))
  }

  lemma PositionsOf(order: seq<DltId>)
    requires Distinct(order)
    ensures forall i :: 0 <= i < |order| ==> order[i] in Positions(order) && Positions(order)[order[i]] == i
    ensures forall n :: n in Positions(order) ==> n in order && Positions(order)[n] < |order|
  {
  }

  lemma LoadMasksBelow(nums: map<DltId, nat>, m: Nested<seq<DltId>>, n: nat)
    requires NumsBelow(nums, n) && n > 0
    ensures MasksBelow(LoadMasks(nums, m), n)
  {
    hide Unnest;
  }

  lemma AliasesMatch(nums: map<DltId, nat>, names: set<DltId>, order: seq<DltId>)
    requires Distinct(order) && NumsMatch(nums, order)
    ensures NumsMatch(WithAliases(nums, names), order)
  {
    hide Positions;
    PositionsOf(order);
  }

  lemma LoadTablesKeepsInv(st: StaticConfig, s: Server, src: Config)
    requires ServerInv(st, s)
    ensures ServerInv(st, LoadTables(s, src))
  {
    hide Unnest; hide Mentioned; hide LoadMasks; hide NumsMatch; hide DefaultIndex; hide Configured;
    LoadMasksBelow(s.nums, src.assignments, |s.channels|);
    if Configured(st) {
      AliasesMatch(s.nums, Mentioned(src.assignments), Names(s.channels));
    }
  }

  lemma NewNames(order: seq<DltId>, src: Config)
    ensures Names(NewChannels(order, src)) == order && |NewChannels(order, src)| == |order|
  {
  }

  lemma NewServerInv(st: StaticConfig, order: seq<DltId>, src: Config, p: Config)
    requires IsOrder(order, st) && Configured(st)
    ensures ServerInv(st, Server(false, 0, map[], map[], NewChannels(order, src), DefaultIndex(st, order), Positions(order), p))
  {
    hide Positions; hide Names; hide NumsMatch; hide NewChannels; hide DefaultIndex; hide Distinct;
    NewNames(order, src);
    PositionsMatch(st, order);
  }

  lemma PositionsMatch(st: StaticConfig, order: seq<DltId>)
    requires Distinct(order) && order != []
    ensures NumsMatch(Positions(order), order) && NumsBelow(Positions(order), |order|)
    ensures DefaultIndex(st, order) < |order|
  {
    PositionsOf(order);
    hide Positions; hide Distinct;
  }

  lemma InitializeInv(st: StaticConfig, order: seq<DltId>, p: Config)
    requires IsOrder(order, st)
    ensures ServerInv(st, Initialize(st, order, p))
  {
    if Configured(st) {
      hide LoadTables; hide NewChannels; hide Names; hide ChannelsMatch; hide MasksBelow; hide NumsBelow;
      var src := Source(st, p);
      var s := Server(false, 0, map[], map[], NewChannels(order, src), DefaultIndex(st, order), Positions(order), p);
      NewServerInv(st, order, src, p);
      LoadTablesKeepsInv(st, s, src);
    }
  }

  /** A server whose channels keep their names and whose masks and numbers stay in range. */
  lemma SameNamesKeepsInv(st: StaticConfig, s: Server, s': Server)
    requires ServerInv(st, s) && Names(s'.channels) == Names(s.channels)
    requires s'.nums == s.nums && s'.defaultChannel == s.defaultChannel
    requires MasksBelow(s'.assignments, |s.channels|)
    ensures ServerInv(st, s')
  {
    assert |Names(s'.channels)| == |s'.channels|;
  }

  lemma ReloadKeepsInv(st: StaticConfig, s: Server)
    requires ServerInv(st, s)
    ensures ServerInv(st, Reload(st, s))
  {
    hide LoadTables; hide IsOrder; hide NumsMatch; hide DefaultIndex;
    if Configured(st) {
      var src := Source(st, s.stored);
      var s1 := s.(channels := Rethreshold(s.channels, src));
      assert Names(s1.channels) == Names(s.channels);
      SameNamesKeepsInv(st, s, s1);
      LoadTablesKeepsInv(st, s1, src);
    }
  }

  lemma AssignKeepsInv(st: StaticConfig, s: Server, key: Key, channel: DltId, add: bool)
    requires ServerInv(st, s)
    ensures ServerInv(st, Assign(s, key, channel, add))
  {
    hide Configured; hide ChannelsMatch;
    SameNamesKeepsInv(st, s, Assign(s, key, channel, add));
  }

  lemma CommandKeepsInv(st: StaticConfig, s: Server, k: Command)
    requires ServerInv(st, s) && Possible(st, k)
    ensures ServerInv(st, Apply(st, s, k))
  {
    hide Reload; hide Initialize; hide IsOrder; hide Configured; hide ChannelsMatch; hide Save; hide Assign;
    match k
    case SetLogChannelAssignment(app, ctx, channel, add) => AssignKeepsInv(st, s, Key(app, ctx), channel, add);
    case ResetToDefault =>
      SameNamesKeepsInv(st, s, s.(stored := NO_CONFIG));
      ReloadKeepsInv(st, s.(stored := NO_CONFIG));
    case Restart(order) => InitializeInv(st, order, s.stored);
    case _ =>
      assert Names(Apply(st, s, k).channels) == Names(s.channels);
      SameNamesKeepsInv(st, s, Apply(st, s, k));
  }

  lemma {:induction false} RunHasInv(st: StaticConfig, order: seq<DltId>, p: Config, commands: seq<Command>)
    requires IsOrder(order, st) && AllPossible(st, commands)
    ensures ServerInv(st, Run(st, order, p, commands))
  {
    hide ServerInv; hide Apply; hide Initialize;
    if commands == [] {
      InitializeInv(st, order, p);
    } else {
      var n := |commands| - 1;
      RunHasInv(st, order, p, commands[..n]);
      CommandKeepsInv(st, Run(st, order, p, commands[..n]), commands[n]);
    }
  }

  /** After every run, a message that filtering accepts is handed to at least one existing channel, any other to none. */
  lemma AcceptedIsHanded(st: StaticConfig, order: seq<DltId>, p: Config, commands: seq<Command>,
                         app: DltId, ctx: DltId, level: nat)
    requires IsOrder(order, st) && AllPossible(st, commands)
    ensures var s := Run(st, order, p, commands);
            && (Accepted(s, app, ctx, level) <==> Handed(s, app, ctx, level) != {})
            && Handed(s, app, ctx, level) <= (set n | n in Names(s.channels))
            && Below(Called(s, app, ctx, level), |s.channels|)
  {
    RunHasInv(st, order, p, commands);
    hide Run; hide ChannelsMatch; hide Configured; hide NumsBelow; hide IsOrder; hide Possible;
    var s := Run(st, order, p, commands);
    CalledExists(s, app, ctx, level);
    hide Called; hide Accepted;
    if Accepted(s, app, ctx, level) {
      var i :| i in Called(s, app, ctx, level);
      assert s.channels[i].name in Handed(s, app, ctx, level);
    }
    forall n | n in Handed(s, app, ctx, level) ensures n in Names(s.channels) {
      var i :| i in Called(s, app, ctx, level) && i < |s.channels| && s.channels[i].name == n;
      assert Names(s.channels)[i] == n;
    }
  }

  lemma CalledExists(s: Server, app: DltId, ctx: DltId, level: nat)
    requires s.defaultChannel < |s.channels| && MasksBelow(s.assignments, |s.channels|)
    ensures Below(Called(s, app, ctx, level), |s.channels|)
    ensures Accepted(s, app, ctx, level) <==> Called(s, app, ctx, level) != {}
  {
    var mask := Assigned(s, app, ctx);
    if Accepted(s, app, ctx, level) && mask != {} {
      var i :| i in mask;
      assert i in Called(s, app, ctx, level);
    }
  }

  // ----- What the commands are for -----

  /** An entry for any application hides the one for any context, and an exact entry hides both. */
  lemma MoreSpecificWins<T>(m: map<Key, T>, app: DltId, ctx: DltId, v: T)
    requires app != NO_ID && ctx != NO_ID
    ensures FindInKeyMap(m[Key(app, ctx) := v], app, ctx) == Some(v)
    ensures Key(app, ctx) in m ==> FindInKeyMap(m[Key(NO_ID, ctx) := v], app, ctx) == FindInKeyMap(m, app, ctx)
    ensures Key(app, ctx) !in m ==> FindInKeyMap(m[Key(NO_ID, ctx) := v], app, ctx) == Some(v)
    ensures FindInKeyMap(m[Key(app, NO_ID) := v], app, ctx)
            == if Key(app, ctx) in m || Key(NO_ID, ctx) in m then FindInKeyMap(m, app, ctx) else Some(v)
  {
  }

  /** After adding a channel for an application and context, it gets their accepted messages; others keep theirs. */
  lemma AddedIsHanded(st: StaticConfig, s: Server, app: DltId, ctx: DltId, channel: DltId, level: nat)
    requires ServerInv(st, s) && channel in s.nums && Accepted(s, app, ctx, level)
    ensures var s' := Assign(s, Key(app, ctx), channel, true);
            && s.channels[s.nums[channel]].name in Handed(s', app, ctx, level)
            && (Key(app, ctx) in s.assignments && s.assignments[Key(app, ctx)] != {} ==>
                  Handed(s, app, ctx, level) <= Handed(s', app, ctx, level))
  {
    hide ChannelsMatch; hide Configured; hide MasksBelow;
    var s', i := Assign(s, Key(app, ctx), channel, true), s.nums[channel];
    assert i in Assigned(s', app, ctx);
    assert i in Called(s', app, ctx, level);
    assert s'.channels[i].name in Handed(s', app, ctx, level);
    if Key(app, ctx) in s.assignments && s.assignments[Key(app, ctx)] != {} {
      assert Called(s, app, ctx, level) <= Called(s', app, ctx, level);
      hide Called;
    }
  }

  /**
   * Adding a channel and removing it again restores the table exactly when it was not assigned before and
   * the entry was not an empty one, as a configuration file may contain: an empty entry is removed with it.
   */
  lemma AddThenRemove(s: Server, key: Key, channel: DltId)
    requires channel in s.nums
    ensures Assign(Assign(s, key, channel, true), key, channel, false) == s
            <==> key !in s.assignments || (s.nums[channel] !in s.assignments[key] && s.assignments[key] != {})
  {
    var bit := s.nums[channel];
    var s2 := Assign(Assign(s, key, channel, true), key, channel, false);
    if key !in s.assignments {
      assert s2.assignments == s.assignments;
    } else {
      var mask := s.assignments[key];
      assert mask + {bit} - {bit} == mask - {bit};
      assert s.assignments[key := mask + {bit}] - {key} == s.assignments - {key};
      assert s2.assignments == if mask - {bit} == {} then s.assignments - {key} else s.assignments[key := mask - {bit}];
      if bit !in mask {
        assert mask - {bit} == mask;
      }
      if bit !in mask && mask != {} {
        assert s.assignments[key := mask] == s.assignments;
      } else {
        assert key !in s2.assignments || bit !in s2.assignments[key];
      }
    }
  }

  /** After setting a channel's threshold, the channel emits exactly what it is handed up to that level. */
  lemma ThresholdDecides(st: StaticConfig, s: Server, i: nat, threshold: nat, app: DltId, ctx: DltId, level: nat)
    requires ServerInv(st, s) && Configured(st) && i < |s.channels|
    ensures var name := s.channels[i].name;
            var s' := SetThreshold(s, name, threshold);
            && (name in Emitting(s', app, ctx, level) <==> i in Called(s, app, ctx, level) && level <= threshold)
            && forall j :: 0 <= j < |s.channels| && j != i ==> s'.channels[j] == s.channels[j]
  {
    hide Called; hide ServerInv; hide Configured;
    NumberOf(st, s, i);
    OnlyOneOfThatName(st, s, i);
    var s' := SetThreshold(s, s.channels[i].name, threshold);
    SameCalls(s, s', app, ctx, level);
    if i in Called(s, app, ctx, level) && level <= threshold {
      assert s'.channels[i].name in Emitting(s', app, ctx, level);
    }
  }

  lemma SameCalls(s: Server, s': Server, app: DltId, ctx: DltId, level: nat)
    requires |s'.channels| == |s.channels| && s' == s.(channels := s'.channels)
    ensures Called(s', app, ctx, level) == Called(s, app, ctx, level)
  {
  }

  lemma NumberOf(st: StaticConfig, s: Server, i: nat)
    requires ServerInv(st, s) && Configured(st) && i < |s.channels|
    ensures s.channels[i].name in s.nums && s.nums[s.channels[i].name] == i
  {
    hide MasksBelow; hide NumsBelow; hide DefaultIndex; hide Positions; hide Configured;
    var order := Names(s.channels);
    PositionsOf(order);
    hide Distinct;
    assert order[i] == s.channels[i].name && order[i] in s.nums;
  }

  lemma OnlyOneOfThatName(st: StaticConfig, s: Server, i: nat)
    requires ServerInv(st, s) && Configured(st) && i < |s.channels|
    ensures forall j :: 0 <= j < |s.channels| && j != i ==> s.channels[j].name != s.channels[i].name
  {
    hide NumsMatch; hide MasksBelow; hide NumsBelow; hide DefaultIndex;
    var order := Names(s.channels);
    forall j | 0 <= j < |s.channels| && j != i ensures s.channels[j].name != s.channels[i].name {
      assert order[i] != order[j];
    }
  }

  /** With filtering on, a level set for an application and context decides alone; removing it gives way to the wildcards. */
  lemma LevelDecides(s: Server, app: DltId, ctx: DltId, t: nat, level: nat)
    requires s.filtering && app != NO_ID && ctx != NO_ID
    ensures Accepted(SetLevel(s, Key(app, ctx), Some(t)), app, ctx, level) <==> level <= t
    ensures var s' := SetLevel(s, Key(app, ctx), None);
            Accepted(s', app, ctx, level) <==>
              level <= if Key(NO_ID, ctx) in s.thresholds then s.thresholds[Key(NO_ID, ctx)]
                       else if Key(app, NO_ID) in s.thresholds then s.thresholds[Key(app, NO_ID)] else s.defaultThreshold
  {
  }

  /** The keys under which a message is looked up. */
  predicate Concerns(key: Key, app: DltId, ctx: DltId) {
    key == Key(app, ctx) || key == Key(NO_ID, ctx) || key == Key(app, NO_ID)
  }

  /** Setting a level or an assignment for a key leaves every message alone that is not looked up under it. */
  lemma OthersUnaffected(s: Server, key: Key, o: Option<nat>, channel: DltId, add: bool, app: DltId, ctx: DltId, level: nat)
    requires !Concerns(key, app, ctx)
    ensures Called(SetLevel(s, key, o), app, ctx, level) == Called(s, app, ctx, level)
    ensures Called(Assign(s, key, channel, add), app, ctx, level) == Called(s, app, ctx, level)
  {
    var t, u := SetLevel(s, key, o), Assign(s, key, channel, add);
    assert FindInKeyMap(t.thresholds, app, ctx) == FindInKeyMap(s.thresholds, app, ctx);
    assert FindInKeyMap(u.assignments, app, ctx) == FindInKeyMap(s.assignments, app, ctx);
    hide FindInKeyMap;
  }
}
