/** The bridge plug (`plugs/Bridge.js`): bridges named in the
    configuration, each with the channels it links by `socketId:resolve`
    string; channels attach to their bridge when their socket announces
    them and detach when they are removed; a message in a bridged channel is
    relayed, with its author in front, to every other channel of the bridge.
    Channel objects are `Ref` handles; the `bridge` property the plug sets
    on a channel is the `channels` table here. */
module Bridge {
  import opened Wrappers
  import JsSet
  import opened Socket
  import opened Extensions

  /** One entry of the `bridges` configuration; a field left out is `None`. */
  datatype BridgeConfig = BridgeConfig(enabled: Option<bool>, channels: Option<seq<string>>, ignore: Option<seq<string>>)

  /** A `Bridge.Info`: its id, the `enabled` flag and ignore list of its
      configuration, and `resolves`, the set of its configured channels. */
  datatype Info = Info(id: string, enabled: bool, ignore: seq<string>, resolves: seq<string>)

  /** The plug: the global ignore list, `bridges` by id, `_resolveMap` from
      resolve string to bridge id, the `channels` set of every bridge, the
      `channels` map from channel to bridge id, and for every channel the
      bridges whose `removed` listener it carries, in the order they were
      registered. */
  datatype State = State(
    ignore: seq<string>,
    bridges: map<string, Info>,
    resolveMap: map<string, string>,
    members: map<string, seq<Ref>>,
    channels: map<Ref, string>,
    listeners: map<Ref, seq<string>>)

  // ---------------------------------------------------------------------------
  // Configuration

  /** `new Set(values)`: the first occurrence of every value, in order. */
  function SetOf(xs: seq<string>): seq<string>
  {
    if xs == [] then [] else JsSet.Add(SetOf(xs[..|xs| - 1]), xs[|xs| - 1])
  }

  lemma {:induction false} SetOfSpec(xs: seq<string>)
    ensures JsSet.NoDup(SetOf(xs))
    ensures forall x :: x in SetOf(xs) <==> x in xs
  {
    if xs != [] {
      var init := xs[..|xs| - 1];
      SetOfSpec(init);
      assert xs == init + [xs[|xs| - 1]];
    }
  }

  function Channels(c: BridgeConfig): seq<string>
  {
    if c.channels.Some? then c.channels.value else []
  }

  /** `extend({ }, bridgeDefaults, config)` and `new Bridge.Info(...)`. */
  function WithDefaults(id: string, c: BridgeConfig): (info: Info)
  {
    Info(id, if c.enabled.Some? then c.enabled.value else true,
         if c.ignore.Some? then c.ignore.value else [], SetOf(Channels(c)))
  }

  /** A missing field takes its default: enabled, no channels, nothing
      ignored; a present field is taken as configured. */
  lemma Defaults(id: string, c: BridgeConfig)
    ensures var info := WithDefaults(id, c);
      && info.id == id
      && (info.enabled <==> c.enabled != Some(false))
      && (c.channels.None? ==> info.resolves == [])
      && (c.ignore.None? ==> info.ignore == [])
      && (c.ignore.Some? ==> info.ignore == c.ignore.value)
      && JsSet.NoDup(info.resolves)
      && (forall r :: r in info.resolves <==> r in Channels(c))
  {
    SetOfSpec(Channels(c));
  }

  function Conflict(resolve: string, oldId: string, newId: string): JsError
  {
    Error("Channel '" + resolve + "' is in multiple bridges ('" + oldId + "' and '" + newId + "')")
  }

  /** The loop over `bridge.resolves`: each resolve string is entered into
      `_resolveMap`, or the construction fails on one that is there already. */
  function Register(m: map<string, string>, id: string, rs: seq<string>): Result<map<string, string>, JsError>
  {
    if rs == [] then Ok(m)
    else
      var prev := Register(m, id, rs[..|rs| - 1]);
      var r := rs[|rs| - 1];
      if prev.Err? then prev
      else if r in prev.value then Err(Conflict(r, prev.value[r], id))
      else Ok(prev.value[r := id])
  }

  /** None of the resolve strings is in the map. */
  ghost predicate Free(m: map<string, string>, rs: seq<string>)
  {
    forall r :: r in rs ==> r !in m
  }

  /** `t` is `m` with every one of the resolve strings sent to the bridge. */
  ghost predicate Registered(m: map<string, string>, t: map<string, string>, id: string, rs: seq<string>)
  {
    && (forall r :: r in t <==> r in m || r in rs)
    && (forall r :: r in rs ==> t[r] == id)
    && (forall r :: r in m ==> t[r] == m[r])
  }

  /** The error names a taken resolve string and the bridge holding it. */
  ghost predicate Taken(m: map<string, string>, id: string, rs: seq<string>, e: JsError)
  {
    exists i :: 0 <= i < |rs| && rs[i] in m && e == Conflict(rs[i], m[rs[i]], id)
  }

  /** Registering distinct resolve strings fails exactly when one of them is
      taken, naming the first such string and the bridge that holds it;
      otherwise every one of them maps to the new bridge and every other key
      keeps its bridge. */
  lemma {:induction false} RegisterSpec(m: map<string, string>, id: string, rs: seq<string>)
    requires JsSet.NoDup(rs)
    ensures Register(m, id, rs).Ok? <==> Free(m, rs)
    ensures Register(m, id, rs).Ok? ==> Registered(m, Register(m, id, rs).value, id, rs)
    ensures Register(m, id, rs).Err? ==> Taken(m, id, rs, Register(m, id, rs).error)
  {
    if rs != [] {
      var init := rs[..|rs| - 1];
      var r := rs[|rs| - 1];
      assert rs == init + [r];
      assert JsSet.NoDup(init);
      RegisterSpec(m, id, init);
      assert r !in init;
      var prev := Register(m, id, init);
      if prev.Err? {
        var i :| 0 <= i < |init| && init[i] in m && prev.error == Conflict(init[i], m[init[i]], id);
        assert rs[i] == init[i];
      } else if r in prev.value {
        assert rs[|rs| - 1] in m;
      }
    }
  }

  /** Once the loop has thrown, the rest of the resolve strings change
      nothing. */
  lemma {:induction false} RegisterErrSticks(m: map<string, string>, id: string, rs: seq<string>, n: nat)
    requires n <= |rs| && Register(m, id, rs[..n]).Err?
    ensures Register(m, id, rs) == Register(m, id, rs[..n])
    decreases |rs| - n
  {
    if n < |rs| {
      assert rs[..n + 1][..n] == rs[..n];
      RegisterErrSticks(m, id, rs, n + 1);
    } else {
      assert rs[..n] == rs;
    }
  }

  function Initial(ignore: Option<seq<string>>): State
  {
    State(if ignore.Some? then ignore.value else [], map[], map[], map[], map[], map[])
  }

  /** One round of the constructor's loop: the bridge's resolve strings are
      registered, then the bridge is stored under its id. */
  function AfterAddBridge(s: State, id: string, c: BridgeConfig): Result<State, JsError>
  {
    var info := WithDefaults(id, c);
    var reg := Register(s.resolveMap, id, info.resolves);
    if reg.Err? then Err(reg.error)
    else Ok(s.(bridges := s.bridges[id := info], resolveMap := reg.value, members := s.members[id := []]))
  }

  /** The constructor: every configured bridge in turn. */
  function Construct(ignore: Option<seq<string>>, configs: seq<(string, BridgeConfig)>): Result<State, JsError>
  {
    if configs == [] then Ok(Initial(ignore))
    else
      var prev := Construct(ignore, configs[..|configs| - 1]);
      if prev.Err? then prev
      else AfterAddBridge(prev.value, configs[|configs| - 1].0, configs[|configs| - 1].1)
  }

  /** No resolve string is configured for two different bridges. */
  ghost predicate Disjoint(configs: seq<(string, BridgeConfig)>)
  {
    forall i, j, r :: 0 <= i < j < |configs| && r in Channels(configs[i].1) ==> r !in Channels(configs[j].1)
  }

  /** The keys of an object are distinct. */
  ghost predicate DistinctIds(configs: seq<(string, BridgeConfig)>)
  {
    forall i, j :: 0 <= i < j < |configs| ==> configs[i].0 != configs[j].0
  }

  /** Every configured resolve string maps to its bridge, and nothing else
      is mapped. */
  ghost predicate MapsConfigured(m: map<string, string>, configs: seq<(string, BridgeConfig)>)
  {
    MapsAll(m, configs) && MapsOnly(m, configs)
  }

  ghost predicate MapsAll(m: map<string, string>, configs: seq<(string, BridgeConfig)>)
  {
    forall i, r :: 0 <= i < |configs| && r in Channels(configs[i].1) ==> r in m && m[r] == configs[i].0
  }

  ghost predicate MapsOnly(m: map<string, string>, configs: seq<(string, BridgeConfig)>)
  {
    forall r :: r in m ==> exists i :: 0 <= i < |configs| && r in Channels(configs[i].1)
  }

  /** Every configured bridge is stored under its id, with its defaults
      applied, and nothing else is stored. */
  ghost predicate BridgesConfigured(bridges: map<string, Info>, configs: seq<(string, BridgeConfig)>)
  {
    && (forall i :: 0 <= i < |configs| ==>
          configs[i].0 in bridges && bridges[configs[i].0] == WithDefaults(configs[i].0, configs[i].1))
    && (forall b :: b in bridges ==> exists i :: 0 <= i < |configs| && configs[i].0 == b)
  }

  /** No channel is attached yet and every bridge has an empty set. */
  ghost predicate Unattached(s: State, ignore: Option<seq<string>>)
  {
    && s.ignore == Initial(ignore).ignore && s.channels == map[] && s.listeners == map[]
    && s.members.Keys == s.bridges.Keys && (forall b :: b in s.members ==> s.members[b] == [])
  }

  ghost predicate Built(s: State, ignore: Option<seq<string>>, configs: seq<(string, BridgeConfig)>)
  {
    Unattached(s, ignore) && MapsConfigured(s.resolveMap, configs) && BridgesConfigured(s.bridges, configs)
  }

  /** The error names a resolve string listed in two bridges, and those
      bridges, the earlier first. */
  ghost predicate ConflictReported(configs: seq<(string, BridgeConfig)>, e: JsError)
  {
    exists i, j, r :: 0 <= i < j < |configs| && r in Channels(configs[i].1) && r in Channels(configs[j].1)
      && e == Conflict(r, configs[i].0, configs[j].0)
  }

  /** Construction succeeds exactly when no channel is listed in two
      bridges; then every configured resolve string maps to its bridge and
      nothing else is mapped, and every bridge is stored under its id with
      no channels attached. Otherwise the error names a resolve string and
      the two bridges, the earlier first. */
  lemma {:induction false} ConstructSpec(ignore: Option<seq<string>>, configs: seq<(string, BridgeConfig)>)
    requires DistinctIds(configs)
    ensures Construct(ignore, configs).Ok? <==> Disjoint(configs)
    ensures Construct(ignore, configs).Ok? ==> Built(Construct(ignore, configs).value, ignore, configs)
    ensures Construct(ignore, configs).Err? ==> ConflictReported(configs, Construct(ignore, configs).error)
  {
    if configs != [] {
      var n := |configs| - 1;
      var init := configs[..n];
      PrefixDistinct(configs);
      ConstructSpec(ignore, init);
      var prev := Construct(ignore, init);
      if prev.Err? {
        PrefixConflict(configs, prev.error);
        PrefixNotDisjoint(configs);
      } else {
        ConstructStep(ignore, configs);
      }
    }
  }

  lemma PrefixDistinct(configs: seq<(string, BridgeConfig)>)
    requires configs != [] && DistinctIds(configs)
    ensures DistinctIds(configs[..|configs| - 1])
  {
    var init := configs[..|configs| - 1];
    assert forall i :: 0 <= i < |init| ==> init[i] == configs[i];
  }

  lemma PrefixConflict(configs: seq<(string, BridgeConfig)>, e: JsError)
    requires configs != [] && ConflictReported(configs[..|configs| - 1], e)
    ensures ConflictReported(configs, e)
  {
    var init := configs[..|configs| - 1];
    var i, j, r :| 0 <= i < j < |init| && r in Channels(init[i].1) && r in Channels(init[j].1)
      && e == Conflict(r, init[i].0, init[j].0);
    assert init[i] == configs[i] && init[j] == configs[j];
  }

  lemma PrefixNotDisjoint(configs: seq<(string, BridgeConfig)>)
    requires configs != [] && !Disjoint(configs[..|configs| - 1])
    ensures !Disjoint(configs)
  {
    var init := configs[..|configs| - 1];
    var i, j, r :| 0 <= i < j < |init| && r in Channels(init[i].1) && r in Channels(init[j].1);
    assert init[i] == configs[i] && init[j] == configs[j];
  }

  /** The last round of the constructor, given that the rounds before it
      succeeded. */
  lemma ConstructStep(ignore: Option<seq<string>>, configs: seq<(string, BridgeConfig)>)
    requires configs != [] && DistinctIds(configs)
    requires var init := configs[..|configs| - 1];
      Construct(ignore, init).Ok? && Disjoint(init) && Built(Construct(ignore, init).value, ignore, init)
    ensures Construct(ignore, configs).Ok? <==> Disjoint(configs)
    ensures Construct(ignore, configs).Ok? ==> Built(Construct(ignore, configs).value, ignore, configs)
    ensures Construct(ignore, configs).Err? ==> ConflictReported(configs, Construct(ignore, configs).error)
  {
    var n := |configs| - 1;
    var p := Construct(ignore, configs[..n]).value;
    var (id, c) := configs[n];
    if Register(p.resolveMap, id, SetOf(Channels(c))).Err? {
      StepFails(ignore, configs);
    } else {
      StepSucceeds(ignore, configs);
    }
  }

  lemma StepFails(ignore: Option<seq<string>>, configs: seq<(string, BridgeConfig)>)
    requires configs != []
    requires var init := configs[..|configs| - 1];
      Construct(ignore, init).Ok? && MapsConfigured(Construct(ignore, init).value.resolveMap, init)
    requires var (id, c) := configs[|configs| - 1];
      Register(Construct(ignore, configs[..|configs| - 1]).value.resolveMap, id, SetOf(Channels(c))).Err?
    ensures Construct(ignore, configs).Err? && ConflictReported(configs, Construct(ignore, configs).error)
    ensures !Disjoint(configs)
  {
    var n := |configs| - 1;
    var p := Construct(ignore, configs[..n]).value;
    var (id, c) := configs[n];
    var rs := SetOf(Channels(c));
    SetOfSpec(Channels(c));
    RegisterSpec(p.resolveMap, id, rs);
    var reg := Register(p.resolveMap, id, rs);
    assert Construct(ignore, configs) == Err(reg.error);
    StepConflict(configs, p.resolveMap, reg.error);
  }

  lemma StepSucceeds(ignore: Option<seq<string>>, configs: seq<(string, BridgeConfig)>)
    requires configs != [] && DistinctIds(configs)
    requires var init := configs[..|configs| - 1];
      Construct(ignore, init).Ok? && Disjoint(init) && Built(Construct(ignore, init).value, ignore, init)
    requires var (id, c) := configs[|configs| - 1];
      Register(Construct(ignore, configs[..|configs| - 1]).value.resolveMap, id, SetOf(Channels(c))).Ok?
    ensures Construct(ignore, configs).Ok? && Built(Construct(ignore, configs).value, ignore, configs)
    ensures Disjoint(configs)
  {
    var n := |configs| - 1;
    var p := Construct(ignore, configs[..n]).value;
    var (id, c) := configs[n];
    var reg := Register(p.resolveMap, id, SetOf(Channels(c)));
    RegisterOkFree(p.resolveMap, id, Channels(c));
    StepDisjoint(configs, p.resolveMap);
    StepMaps(configs, p.resolveMap);
    StepBridges(configs, p.bridges);
    StepValue(ignore, configs);
    StepUnattached(p, ignore, id, WithDefaults(id, c), reg.value);
  }

  lemma StepValue(ignore: Option<seq<string>>, configs: seq<(string, BridgeConfig)>)
    requires configs != [] && Construct(ignore, configs[..|configs| - 1]).Ok?
    requires var (id, c) := configs[|configs| - 1];
      Register(Construct(ignore, configs[..|configs| - 1]).value.resolveMap, id, SetOf(Channels(c))).Ok?
    ensures var p := Construct(ignore, configs[..|configs| - 1]).value;
      var (id, c) := configs[|configs| - 1];
      Construct(ignore, configs) ==
        Ok(p.(bridges := p.bridges[id := WithDefaults(id, c)],
              resolveMap := Register(p.resolveMap, id, SetOf(Channels(c))).value,
              members := p.members[id := []]))
  {
  }

  lemma StepUnattached(p: State, ignore: Option<seq<string>>, id: string, info: Info, m: map<string, string>)
    requires Unattached(p, ignore)
    ensures Unattached(p.(bridges := p.bridges[id := info], resolveMap := m, members := p.members[id := []]), ignore)
  {
  }

  /** Registration succeeds only with resolve strings nobody holds. */
  lemma RegisterOkFree(m: map<string, string>, id: string, chs: seq<string>)
    requires Register(m, id, SetOf(chs)).Ok?
    ensures Free(m, chs)
  {
    SetOfSpec(chs);
    RegisterSpec(m, id, SetOf(chs));
  }

  /** A resolve string of the last bridge that an earlier bridge holds makes
      the construction fail, naming both. */
  lemma StepConflict(configs: seq<(string, BridgeConfig)>, m: map<string, string>, e: JsError)
    requires configs != [] && MapsConfigured(m, configs[..|configs| - 1])
    requires var (id, c) := configs[|configs| - 1];
      Taken(m, id, SetOf(Channels(c)), e)
    ensures ConflictReported(configs, e) && !Disjoint(configs)
  {
    var n := |configs| - 1;
    var init := configs[..n];
    var (id, c) := configs[n];
    SetOfSpec(Channels(c));
    var k :| 0 <= k < |SetOf(Channels(c))| && SetOf(Channels(c))[k] in m
      && e == Conflict(SetOf(Channels(c))[k], m[SetOf(Channels(c))[k]], id);
    var r := SetOf(Channels(c))[k];
    var i :| 0 <= i < |init| && r in Channels(init[i].1);
    assert init[i] == configs[i];
    assert m[r] == configs[i].0;
    assert r in Channels(configs[i].1) && r in Channels(configs[n].1);
  }

  lemma StepDisjoint(configs: seq<(string, BridgeConfig)>, m: map<string, string>)
    requires configs != [] && Disjoint(configs[..|configs| - 1])
    requires MapsAll(m, configs[..|configs| - 1])
    requires Free(m, Channels(configs[|configs| - 1].1))
    ensures Disjoint(configs)
  {
    var n := |configs| - 1;
    var init := configs[..n];
    forall i, j, r | 0 <= i < j < |configs| && r in Channels(configs[i].1)
      ensures r !in Channels(configs[j].1)
    {
      assert configs[i] == init[i];
      if j < n {
        assert configs[j] == init[j];
      } else {
        assert r in m;
      }
    }
  }

  lemma StepMaps(configs: seq<(string, BridgeConfig)>, m: map<string, string>)
    requires configs != [] && MapsConfigured(m, configs[..|configs| - 1])
    requires var (id, c) := configs[|configs| - 1];
      Register(m, id, SetOf(Channels(c))).Ok?
    ensures var (id, c) := configs[|configs| - 1];
      MapsConfigured(Register(m, id, SetOf(Channels(c))).value, configs)
  {
    var n := |configs| - 1;
    var (id, c) := configs[n];
    SetOfSpec(Channels(c));
    RegisterSpec(m, id, SetOf(Channels(c)));
    var t := Register(m, id, SetOf(Channels(c))).value;
    RegisteredChannels(m, t, id, Channels(c));
    StepMapsAll(configs, m, t);
    StepMapsOnly(configs, m, t);
  }

  lemma RegisteredChannels(m: map<string, string>, t: map<string, string>, id: string, chs: seq<string>)
    requires Registered(m, t, id, SetOf(chs))
    ensures Registered(m, t, id, chs)
  {
    SetOfSpec(chs);
  }

  lemma StepMapsAll(configs: seq<(string, BridgeConfig)>, m: map<string, string>, t: map<string, string>)
    requires configs != [] && MapsAll(m, configs[..|configs| - 1])
    requires Registered(m, t, configs[|configs| - 1].0, Channels(configs[|configs| - 1].1))
    ensures MapsAll(t, configs)
  {
    var n := |configs| - 1;
    var init := configs[..n];
    forall i, r | 0 <= i < |configs| && r in Channels(configs[i].1) ensures r in t && t[r] == configs[i].0 {
      if i < n { assert configs[i] == init[i]; }
    }
  }

  lemma StepMapsOnly(configs: seq<(string, BridgeConfig)>, m: map<string, string>, t: map<string, string>)
    requires configs != [] && MapsOnly(m, configs[..|configs| - 1])
    requires Registered(m, t, configs[|configs| - 1].0, Channels(configs[|configs| - 1].1))
    ensures MapsOnly(t, configs)
  {
    var n := |configs| - 1;
    var init := configs[..n];
    forall r | r in t ensures exists i :: 0 <= i < |configs| && r in Channels(configs[i].1) {
      if r in m {
        var i :| 0 <= i < |init| && r in Channels(init[i].1);
        assert configs[i] == init[i];
      } else {
        assert r in Channels(configs[n].1);
      }
    }
  }

  lemma StepBridges(configs: seq<(string, BridgeConfig)>, bridges: map<string, Info>)
    requires configs != [] && DistinctIds(configs) && BridgesConfigured(bridges, configs[..|configs| - 1])
    ensures var (id, c) := configs[|configs| - 1];
      BridgesConfigured(bridges[id := WithDefaults(id, c)], configs)
  {
    var n := |configs| - 1;
    var init := configs[..n];
    var (id, c) := configs[n];
    var t := bridges[id := WithDefaults(id, c)];
    forall i | 0 <= i < |configs|
      ensures configs[i].0 in t && t[configs[i].0] == WithDefaults(configs[i].0, configs[i].1)
    {
      if i < n { assert configs[i] == init[i]; assert configs[i].0 != id; }
    }
    forall b | b in t ensures exists i :: 0 <= i < |configs| && configs[i].0 == b {
      if b != id {
        var i :| 0 <= i < |init| && init[i].0 == b;
        assert configs[i] == init[i];
      }
    }
  }

  // ---------------------------------------------------------------------------
  // The plug's invariant

  function MembersOf(s: State, b: string): seq<Ref>
  {
    if b in s.members then s.members[b] else []
  }

  function ListenersOf(s: State, c: Ref): seq<string>
  {
    if c in s.listeners then s.listeners[c] else []
  }

  /** Every resolve string and every listener names a stored bridge, and
      every stored bridge has a channel set. */
  ghost predicate BridgesKnown(s: State)
  {
    && (forall r :: r in s.resolveMap ==> s.resolveMap[r] in s.bridges)
    && s.members.Keys == s.bridges.Keys
    && (forall c, b :: c in s.listeners && b in s.listeners[c] ==> b in s.members)
  }

  ghost predicate SetsNoDup(members: map<string, seq<Ref>>)
  {
    forall b :: b in members ==> JsSet.NoDup(members[b])
  }

  /** A channel is in a bridge's set exactly when the `channels` map sends
      it to that bridge. */
  ghost predicate Attached(members: map<string, seq<Ref>>, channels: map<Ref, string>)
  {
    && (forall c :: c in channels ==> channels[c] in members && c in members[channels[c]])
    && (forall b, c :: b in members && c in members[b] ==> c in channels && channels[c] == b)
  }

  /** An attached channel carries its bridge's `removed` listener. */
  ghost predicate Listening(channels: map<Ref, string>, listeners: map<Ref, seq<string>>)
  {
    forall c :: c in channels ==> c in listeners && channels[c] in listeners[c]
  }

  ghost predicate Valid(s: State)
  {
    BridgesKnown(s) && SetsNoDup(s.members) && Attached(s.members, s.channels) && Listening(s.channels, s.listeners)
  }

  /** A freshly constructed plug is valid. */
  lemma ConstructValid(ignore: Option<seq<string>>, configs: seq<(string, BridgeConfig)>)
    requires DistinctIds(configs) && Construct(ignore, configs).Ok?
    ensures Valid(Construct(ignore, configs).value)
  {
    ConstructSpec(ignore, configs);
    var s := Construct(ignore, configs).value;
    forall r | r in s.resolveMap ensures s.resolveMap[r] in s.bridges {
      var i :| 0 <= i < |configs| && r in Channels(configs[i].1);
      assert configs[i].0 in s.bridges;
    }
  }

  /** A channel is attached to at most one bridge at a time. */
  lemma OneBridgePerChannel(s: State, c: Ref, b1: string, b2: string)
    requires Valid(s)
    requires b1 in s.members && c in s.members[b1] && b2 in s.members && c in s.members[b2]
    ensures b1 == b2
  {
    assert Attached(s.members, s.channels);
    assert s.channels[c] == b1 && s.channels[c] == b2;
  }

  // ---------------------------------------------------------------------------
  // newChannel and removed

  function Key(socketId: string, resolve: string): string
  {
    socketId + ":" + resolve
  }

  /** The position of the first of a channel's resolve strings that some
      bridge lists, as `socketId:resolve`. */
  function FirstBridged(m: map<string, string>, socketId: string, rs: seq<string>): (i: Option<nat>)
    ensures i.Some? ==> i.value < |rs| && Key(socketId, rs[i.value]) in m
                        && forall j :: 0 <= j < i.value ==> Key(socketId, rs[j]) !in m
    ensures i.None? ==> forall j :: 0 <= j < |rs| ==> Key(socketId, rs[j]) !in m
  {
    if rs == [] then None
    else if Key(socketId, rs[0]) in m then Some(0)
    else
      var rest := FirstBridged(m, socketId, rs[1..]);
      if rest.None? then None else Some(rest.value + 1)
  }

  function ActiveConflict(resolve: string, oldId: string, newId: string): JsError
  {
    Error("Channel '" + resolve + "' active in multiple bridges ('" + oldId + "' and '" + newId + "')")
  }

  /** The `newChannel` listener: the channel attaches to the bridge of its
      first bridged resolve string, or the listener throws when the channel
      is attached already. */
  function AfterNewChannel(s: State, channel: Ref, socketId: string, rs: seq<string>): Result<State, JsError>
  {
    var first := FirstBridged(s.resolveMap, socketId, rs);
    if first.None? then Ok(s)
    else
      var key := Key(socketId, rs[first.value]);
      var b := s.resolveMap[key];
      if channel in s.channels then Err(ActiveConflict(key, s.channels[channel], b))
      else Ok(Attach(s, channel, b))
  }

  /** The channel joins the bridge's set, the `channels` map and carries
      the bridge's `removed` listener. */
  function Attach(s: State, channel: Ref, b: string): State
  {
    s.(members := s.members[b := JsSet.Add(MembersOf(s, b), channel)],
       channels := s.channels[channel := b],
       listeners := s.listeners[channel := ListenersOf(s, channel) + [b]])
  }

  /** Attaching an unattached channel to a stored bridge keeps the plug
      valid. */
  lemma AttachValid(s: State, channel: Ref, b: string)
    requires Valid(s) && channel !in s.channels && b in s.bridges
    ensures Valid(Attach(s, channel, b))
  {
    AttachKnown(s, channel, b);
    AttachSets(s, channel, b);
    AttachAttached(s, channel, b);
  }

  lemma AttachKnown(s: State, channel: Ref, b: string)
    requires BridgesKnown(s) && b in s.bridges
    ensures BridgesKnown(Attach(s, channel, b))
  {
  }

  lemma AttachSets(s: State, channel: Ref, b: string)
    requires SetsNoDup(s.members)
    ensures SetsNoDup(Attach(s, channel, b).members)
  {
  }

  lemma AttachAttached(s: State, channel: Ref, b: string)
    requires Attached(s.members, s.channels) && Listening(s.channels, s.listeners)
    requires channel !in s.channels && b in s.members
    ensures Attached(Attach(s, channel, b).members, Attach(s, channel, b).channels)
    ensures Listening(Attach(s, channel, b).channels, Attach(s, channel, b).listeners)
  {
    var t := Attach(s, channel, b);
    forall c | c in t.channels ensures t.channels[c] in t.members && c in t.members[t.channels[c]] {
      if c != channel { assert t.channels[c] == s.channels[c]; }
    }
    forall b', c | b' in t.members && c in t.members[b'] ensures c in t.channels && t.channels[c] == b' {
      if b' != b { assert t.members[b'] == s.members[b']; }
    }
  }

  /** A channel with no bridged resolve string changes nothing; otherwise it
      fails exactly when it is attached already, and else it is attached to
      the bridge of its first bridged resolve string and to no other, with
      every other bridge's channels unchanged. */
  lemma NewChannelAttaches(s: State, channel: Ref, socketId: string, rs: seq<string>)
    requires Valid(s)
    ensures var r := AfterNewChannel(s, channel, socketId, rs);
      var first := FirstBridged(s.resolveMap, socketId, rs);
      && (first.None? ==> r == Ok(s))
      && (first.Some? ==> (r.Err? <==> channel in s.channels))
      && (r.Ok? ==> Valid(r.value))
      && (r.Ok? && first.Some? ==>
            var b := s.resolveMap[Key(socketId, rs[first.value])];
            && r.value.channels[channel] == b && channel in r.value.members[b]
            && (forall b' :: b' in r.value.members && b' != b ==> r.value.members[b'] == s.members[b'])
            && (forall c :: c in s.members[b] ==> c in r.value.members[b]))
  {
    var first := FirstBridged(s.resolveMap, socketId, rs);
    if first.Some? && channel !in s.channels {
      var b := s.resolveMap[Key(socketId, rs[first.value])];
      AttachValid(s, channel, b);
    }
  }

  /** The bridge sets after the `removed` listeners of the given bridges
      have run, in order. */
  function Detach(members: map<string, seq<Ref>>, channel: Ref, bs: seq<string>): map<string, seq<Ref>>
  {
    if bs == [] then members
    else
      var prev := Detach(members, channel, bs[..|bs| - 1]);
      var b := bs[|bs| - 1];
      if b in prev then prev[b := JsSet.Delete(prev[b], channel)] else prev
  }

  /** Detaching removes the channel from the sets of the listed bridges
      and from nowhere else, and keeps every set free of repeats. */
  lemma {:induction false} DetachSpec(members: map<string, seq<Ref>>, channel: Ref, bs: seq<string>)
    requires forall b :: b in members ==> JsSet.NoDup(members[b])
    ensures Detach(members, channel, bs).Keys == members.Keys
    ensures forall b :: b in members ==> JsSet.NoDup(Detach(members, channel, bs)[b])
    ensures forall b, c :: b in members ==>
      (c in Detach(members, channel, bs)[b] <==> c in members[b] && (c != channel || b !in bs))
  {
    if bs != [] {
      var init := bs[..|bs| - 1];
      DetachSpec(members, channel, init);
      assert bs == init + [bs[|bs| - 1]];
    }
  }

  /** The `removed` event of a channel: every `removed` listener the plug
      registered on it takes it out of that listener's bridge and out of the
      `channels` map. The listeners stay registered. */
  function AfterRemoved(s: State, channel: Ref): State
  {
    var bs := ListenersOf(s, channel);
    if bs == [] then s
    else s.(members := Detach(s.members, channel, bs), channels := s.channels - {channel})
  }

  /** After `removed` the channel is in no bridge and every other channel
      stays where it was. */
  lemma RemovedDetaches(s: State, channel: Ref)
    requires Valid(s)
    ensures var t := AfterRemoved(s, channel);
      && Valid(t) && channel !in t.channels
      && t.members.Keys == s.members.Keys
      && (forall b :: b in t.members ==> channel !in t.members[b])
      && (forall b, c :: b in t.members && c != channel ==> (c in t.members[b] <==> c in s.members[b]))
  {
    var bs := ListenersOf(s, channel);
    DetachSpec(s.members, channel, bs);
    if bs != [] {
      RemovedKnown(s, channel);
      RemovedAttached(s, channel);
    }
  }

  lemma RemovedKnown(s: State, channel: Ref)
    requires BridgesKnown(s) && SetsNoDup(s.members)
    ensures BridgesKnown(AfterRemoved(s, channel)) && SetsNoDup(AfterRemoved(s, channel).members)
  {
    DetachSpec(s.members, channel, ListenersOf(s, channel));
  }

  lemma RemovedAttached(s: State, channel: Ref)
    requires Valid(s)
    ensures Attached(AfterRemoved(s, channel).members, AfterRemoved(s, channel).channels)
    ensures Listening(AfterRemoved(s, channel).channels, AfterRemoved(s, channel).listeners)
  {
    var bs := ListenersOf(s, channel);
    DetachSpec(s.members, channel, bs);
    if bs != [] {
      var t := AfterRemoved(s, channel);
      forall c | c in t.channels ensures t.channels[c] in t.members && c in t.members[t.channels[c]] {
        assert c != channel && t.channels[c] == s.channels[c];
      }
    }
  }

  // ---------------------------------------------------------------------------
  // Relaying messages

  /** One `sendSilent` call: the channel and the parts it is given. */
  datatype Delivery = Delivery(channel: Ref, parts: seq<Part>)

  /** The parts without their `Action` markers. */
  function StripActions(parts: seq<Part>): (r: seq<Part>)
  {
    if parts == [] then []
    else (if parts[0] == Action then [] else [parts[0]]) + StripActions(parts[1..])
  }

  /** A part is kept exactly when it was there and is not the marker. */
  lemma {:induction false} StripActionsMembers(parts: seq<Part>)
    ensures forall p :: p in StripActions(parts) <==> p in parts && p != Action
  {
    if parts != [] {
      StripActionsMembers(parts[1..]);
      assert parts == [parts[0]] + parts[1..];
    }
  }

  /** Parts without a marker are relayed as they are. */
  lemma {:induction false} StripActionsUnmarked(parts: seq<Part>)
    requires Action !in parts
    ensures StripActions(parts) == parts
  {
    if parts != [] {
      assert Action !in parts[1..];
      StripActionsUnmarked(parts[1..]);
      assert parts == [parts[0]] + parts[1..];
    }
  }

  /** Every part other than the marker is kept as often as it occurs. */
  lemma {:induction false} StripActionsCounts(parts: seq<Part>)
    ensures multiset(StripActions(parts)) == multiset(parts)[Action := 0]
  {
    if parts != [] {
      assert parts == [parts[0]] + parts[1..];
      StripActionsCounts(parts[1..]);
    }
  }

  /** Stripping keeps the order of what is left: it works piece by piece. */
  lemma {:induction false} StripActionsAppend(a: seq<Part>, b: seq<Part>)
    ensures StripActions(a + b) == StripActions(a) + StripActions(b)
  {
    if a == [] {
      assert a + b == b;
    } else {
      StripActionsAppend(a[1..], b);
      StripActionsStep(a, b);
    }
  }

  /** The inductive step: the head of `a` is dropped or kept in front of both sides. */
  lemma StripActionsStep(a: seq<Part>, b: seq<Part>)
    requires a != [] && StripActions(a[1..] + b) == StripActions(a[1..]) + StripActions(b)
    ensures StripActions(a + b) == StripActions(a) + StripActions(b)
  {
    assert (a + b)[0] == a[0] && (a + b)[1..] == a[1..] + b;
    StripHead(a);
    StripHead(a + b);
    if a[0] != Action {
      SeqAssoc([a[0]], StripActions(a[1..]), StripActions(b));
    }
  }

  lemma StripHead(a: seq<Part>)
    requires a != []
    ensures a[0] == Action ==> StripActions(a) == StripActions(a[1..])
    ensures a[0] != Action ==> StripActions(a) == [a[0]] + StripActions(a[1..])
  {
    assert [] + StripActions(a[1..]) == StripActions(a[1..]);
  }

  lemma SeqAssoc(h: seq<Part>, x: seq<Part>, y: seq<Part>)
    ensures h + (x + y) == (h + x) + y
  {
  }

  /** The parts relayed for a message: the socket's own messages as they
      are, anyone else's behind `* sender ` with the action marker taken
      out, or behind `<sender> `. */
  function RelayParts(m: Message, isSelf: bool): seq<Part>
  {
    if isSelf then m.parts
    else if HasAction(m.parts, false) then [Text("* "), Named(m.sender), Text(" ")] + StripActions(m.parts)
    else [Text("<"), Named(m.sender), Text("> ")] + m.parts
  }

  /** Some string of the global or the bridge's ignore list is one of the
      sender's resolve strings. */
  predicate Ignored(global: seq<string>, info: Info, senderResolves: seq<string>)
  {
    exists e :: e in global + info.ignore && e in senderResolves
  }

  /** The `sendSilent` calls for every channel of the set but the origin. */
  function Deliveries(chs: seq<Ref>, origin: Ref, parts: seq<Part>): seq<Delivery>
  {
    if chs == [] then []
    else
      var prev := Deliveries(chs[..|chs| - 1], origin, parts);
      var c := chs[|chs| - 1];
      if c != origin then prev + [Delivery(c, parts)] else prev
  }

  /** Some delivery goes to the channel. */
  predicate Reaches(d: seq<Delivery>, c: Ref)
  {
    exists k :: 0 <= k < |d| && d[k].channel == c
  }

  /** Every delivery carries the parts and none goes to the origin. */
  predicate Carry(d: seq<Delivery>, origin: Ref, parts: seq<Part>)
  {
    forall k :: 0 <= k < |d| ==> d[k].parts == parts && d[k].channel != origin
  }

  /** No channel gets two deliveries. */
  predicate Once(d: seq<Delivery>)
  {
    forall k, l :: 0 <= k < l < |d| ==> d[k].channel != d[l].channel
  }

  lemma {:induction false} DeliveriesParts(chs: seq<Ref>, origin: Ref, parts: seq<Part>)
    ensures Carry(Deliveries(chs, origin, parts), origin, parts)
  {
    if chs != [] {
      var prev := Deliveries(chs[..|chs| - 1], origin, parts);
      DeliveriesParts(chs[..|chs| - 1], origin, parts);
      var last := chs[|chs| - 1];
      if last != origin {
        var d := prev + [Delivery(last, parts)];
        assert Deliveries(chs, origin, parts) == d;
        assert forall k :: 0 <= k < |prev| ==> d[k] == prev[k];
      }
    }
  }

  /** Exactly the channels of the set other than the origin are reached. */
  lemma {:induction false} DeliveriesReach(chs: seq<Ref>, origin: Ref, parts: seq<Part>)
    ensures forall c :: Reaches(Deliveries(chs, origin, parts), c) <==> c in chs && c != origin
  {
    if chs != [] {
      var init := chs[..|chs| - 1];
      var last := chs[|chs| - 1];
      DeliveriesReach(init, origin, parts);
      assert chs == init + [last];
      var prev := Deliveries(init, origin, parts);
      var d := Deliveries(chs, origin, parts);
      if last != origin {
        assert d == prev + [Delivery(last, parts)];
        assert d[|prev|].channel == last;
        forall c | Reaches(prev, c) ensures Reaches(d, c) {
          var k :| 0 <= k < |prev| && prev[k].channel == c;
          assert d[k] == prev[k];
        }
        forall c | Reaches(d, c) && c != last ensures Reaches(prev, c) {
          var k :| 0 <= k < |d| && d[k].channel == c;
          assert k < |prev| && prev[k] == d[k];
        }
      }
    }
  }

  /** With a set that holds no channel twice, no channel is reached twice. */
  lemma {:induction false} DeliveriesOnce(chs: seq<Ref>, origin: Ref, parts: seq<Part>)
    requires JsSet.NoDup(chs)
    ensures Once(Deliveries(chs, origin, parts))
  {
    if chs != [] {
      var init := chs[..|chs| - 1];
      var last := chs[|chs| - 1];
      assert forall i, j :: 0 <= i < j < |init| ==> init[i] == chs[i] && init[j] == chs[j];
      DeliveriesOnce(init, origin, parts);
      DeliveriesReach(init, origin, parts);
      var prev := Deliveries(init, origin, parts);
      if last != origin {
        assert last !in init;
        assert !Reaches(prev, last);
        var d := prev + [Delivery(last, parts)];
        assert Deliveries(chs, origin, parts) == d;
        forall k, l | 0 <= k < l < |d| ensures d[k].channel != d[l].channel {
          assert d[k] == prev[k];
          if l < |prev| {
            assert d[l] == prev[l];
          } else {
            assert 0 <= k < |prev| && prev[k].channel == d[k].channel;
          }
        }
      }
    }
  }

  /** The `message` listener: the `sendSilent` calls it makes. `self` is
      the sending socket's own user, `senderResolves` the sender's resolve
      strings. */
  function Relay(s: State, m: Message, self: Option<Ref>, senderResolves: seq<string>): seq<Delivery>
    requires Valid(s)
  {
    if !m.sender.User? || !IsChannel(m.target) || m.target.ref !in s.channels then []
    else
      var b := s.channels[m.target.ref];
      var info := s.bridges[b];
      if !info.enabled || Ignored(s.ignore, info, senderResolves) then []
      else Deliveries(s.members[b], m.target.ref, RelayParts(m, IsSelf(self, m.sender)))
  }

  /** Nothing is relayed from a sender that is not a user, to a target
      that is not a channel, from an unbridged or disabled channel, or from
      an ignored sender; otherwise every other channel of the bridge gets the
      relayed parts exactly once. */
  lemma RelayRules(s: State, m: Message, self: Option<Ref>, senderResolves: seq<string>)
    requires Valid(s)
    ensures var d := Relay(s, m, self, senderResolves);
      && (!m.sender.User? || !IsChannel(m.target) || m.target.ref !in s.channels ==> d == [])
      && (m.sender.User? && IsChannel(m.target) && m.target.ref in s.channels ==>
            var b := s.channels[m.target.ref];
            && (!s.bridges[b].enabled || Ignored(s.ignore, s.bridges[b], senderResolves) ==> d == [])
            && (s.bridges[b].enabled && !Ignored(s.ignore, s.bridges[b], senderResolves) ==>
                  && Carry(d, m.target.ref, RelayParts(m, IsSelf(self, m.sender)))
                  && (forall c :: Reaches(d, c) <==> c in s.members[b] && c != m.target.ref)
                  && Once(d)))
  {
    if m.sender.User? && IsChannel(m.target) && m.target.ref in s.channels {
      var b := s.channels[m.target.ref];
      var parts := RelayParts(m, IsSelf(self, m.sender));
      assert b in s.members && JsSet.NoDup(s.members[b]);
      DeliveriesParts(s.members[b], m.target.ref, parts);
      DeliveriesReach(s.members[b], m.target.ref, parts);
      DeliveriesOnce(s.members[b], m.target.ref, parts);
    }
  }

  /** The relayed parts: the socket's own messages unchanged; an action of
      someone else as `* sender ` and its parts without the marker; anything
      else as `<sender> ` and its parts. */
  lemma RelayPartsShape(m: Message, isSelf: bool)
    ensures isSelf ==> RelayParts(m, isSelf) == m.parts
    ensures !isSelf && HasAction(m.parts, false) ==>
      var r := RelayParts(m, isSelf);
      r[..3] == [Text("* "), Named(m.sender), Text(" ")] && Action !in r
      && forall p :: p in r[3..] <==> p in m.parts && p != Action
    ensures !isSelf && !HasAction(m.parts, false) ==>
      RelayParts(m, isSelf)[..3] == [Text("<"), Named(m.sender), Text("> ")] && RelayParts(m, isSelf)[3..] == m.parts
  {
    if !isSelf && HasAction(m.parts, false) {
      var r := RelayParts(m, isSelf);
      assert r[3..] == StripActions(m.parts);
      StripActionsMembers(m.parts);
    }
  }

  // ---------------------------------------------------------------------------
  // The plug as an object

  class BridgePlug {
    const ignore: seq<string>
    var bridges: map<string, Info>
    var resolveMap: map<string, string>
    var members: map<string, seq<Ref>>
    var channels: map<Ref, string>
    var listeners: map<Ref, seq<string>>

    ghost function Snapshot(): State
      reads this
    {
      State(ignore, bridges, resolveMap, members, channels, listeners)
    }

    /** The plug before its bridges are read: `extend({ }, defaults, config)`
        for the global ignore list, and empty tables. */
    constructor Empty(ignore: Option<seq<string>>)
      ensures Snapshot() == Initial(ignore)
    {
      this.ignore := if ignore.Some? then ignore.value else [];
      bridges, resolveMap, members, channels, listeners := map[], map[], map[], map[], map[];
    }

    /** The constructor: every configured bridge in turn, or the error of
        the first resolve string listed twice. */
    static method Create(ignore: Option<seq<string>>, configs: seq<(string, BridgeConfig)>)
      returns (r: Result<BridgePlug, JsError>)
      ensures r.Ok? <==> Construct(ignore, configs).Ok?
      ensures r.Ok? ==> fresh(r.value) && r.value.Snapshot() == Construct(ignore, configs).value
      ensures r.Err? ==> r.error == Construct(ignore, configs).error
    {
      var plug := new BridgePlug.Empty(ignore);
      var i := 0;
      while i < |configs|
        invariant 0 <= i <= |configs| && fresh(plug)
        invariant Construct(ignore, configs[..i]) == Ok(plug.Snapshot())
      {
        assert configs[..i + 1][..i] == configs[..i];
        var err := plug.AddBridge(configs[i].0, configs[i].1);
        if err.Some? {
          ConstructErrSticks(ignore, configs, i + 1);
          return Err(err.value);
        }
        i := i + 1;
      }
      assert configs[..i] == configs;
      return Ok(plug);
    }

    /** One round of the constructor's loop. When it throws, the object is
        abandoned half-built, so its state is left unstated. */
    method AddBridge(id: string, c: BridgeConfig) returns (err: Option<JsError>)
      modifies this
      ensures var r := AfterAddBridge(old(Snapshot()), id, c);
        && (r.Ok? ==> err.None? && Snapshot() == r.value)
        && (r.Err? ==> err == Some(r.error))
    {
      var info := WithDefaults(id, c);
      var rs := info.resolves;
      var i := 0;
      while i < |rs|
        invariant 0 <= i <= |rs|
        invariant Register(old(resolveMap), id, rs[..i]) == Ok(resolveMap)
        invariant bridges == old(bridges) && members == old(members)
        invariant channels == old(channels) && listeners == old(listeners)
      {
        assert rs[..i + 1][..i] == rs[..i];
        var r := rs[i];
        if r in resolveMap {
          RegisterErrSticks(old(resolveMap), id, rs, i + 1);
          return Some(Conflict(r, resolveMap[r], id));
        }
        resolveMap := resolveMap[r := id];
        i := i + 1;
      }
      assert rs[..i] == rs;
      bridges := bridges[id := info];
      members := members[id := []];
      return None;
    }

    /** The `newChannel` listener. */
    method NewChannel(channel: Ref, socketId: string, resolveStrings: seq<string>) returns (err: Option<JsError>)
      modifies this
      ensures var r := AfterNewChannel(old(Snapshot()), channel, socketId, resolveStrings);
        && (r.Ok? ==> err.None? && Snapshot() == r.value)
        && (r.Err? ==> err == Some(r.error) && Snapshot() == old(Snapshot()))
    {
      var i := 0;
      while i < |resolveStrings|
        invariant 0 <= i <= |resolveStrings|
        invariant forall j :: 0 <= j < i ==> Key(socketId, resolveStrings[j]) !in resolveMap
      {
        var resolve := socketId + ":" + resolveStrings[i];
        if resolve in resolveMap {
          var bridge := resolveMap[resolve];
          if channel in channels {
            return Some(ActiveConflict(resolve, channels[channel], bridge));
          }
          var joined := if bridge in members then members[bridge] else [];
          var registered := if channel in listeners then listeners[channel] else [];
          members := members[bridge := JsSet.Add(joined, channel)];
          channels := channels[channel := bridge];
          listeners := listeners[channel := registered + [bridge]];
          return None;
        }
        i := i + 1;
      }
      return None;
    }

    /** The `removed` event of a channel, delivered to each listener the
        plug registered on it. */
    method ChannelRemoved(channel: Ref)
      modifies this
      ensures Snapshot() == AfterRemoved(old(Snapshot()), channel)
    {
      var bs := if channel in listeners then listeners[channel] else [];
      var i := 0;
      while i < |bs|
        invariant 0 <= i <= |bs|
        invariant members == Detach(old(members), channel, bs[..i])
        invariant channels == if i == 0 then old(channels) else old(channels) - {channel}
        invariant bridges == old(bridges) && resolveMap == old(resolveMap) && listeners == old(listeners)
      {
        assert bs[..i + 1][..i] == bs[..i];
        var bridge := bs[i];
        if bridge in members {
          members := members[bridge := JsSet.Delete(members[bridge], channel)];
        }
        channels := channels - {channel};
        i := i + 1;
      }
      assert bs[..i] == bs;
    }

    /** The `message` listener: the `sendSilent` calls it makes, in order. */
    method Message(m: Message, self: Option<Ref>, senderResolves: seq<string>) returns (sends: seq<Delivery>)
      requires Valid(Snapshot())
      ensures sends == Relay(Snapshot(), m, self, senderResolves)
    {
      if !m.sender.User? || !IsChannel(m.target) || m.target.ref !in channels {
        return [];
      }
      var bridge := channels[m.target.ref];
      var info := bridges[bridge];
      if !info.enabled || Ignored(ignore, info, senderResolves) {
        return [];
      }
      var parts := RelayParts(m, IsSelf(self, m.sender));
      var chs := members[bridge];
      sends := [];
      var i := 0;
      while i < |chs|
        invariant 0 <= i <= |chs|
        invariant sends == Deliveries(chs[..i], m.target.ref, parts)
      {
        assert chs[..i + 1][..i] == chs[..i];
        if chs[i] != m.target.ref {
          sends := sends + [Delivery(chs[i], parts)];
        }
        i := i + 1;
      }
      assert chs[..i] == chs;
    }

    /** The `enabled` setter of a bridge. */
    method SetEnabled(id: string, value: bool)
      requires id in bridges
      modifies this
      ensures Snapshot() == old(Snapshot()).(bridges := old(bridges)[id := old(bridges)[id].(enabled := value)])
    {
      bridges := bridges[id := bridges[id].(enabled := value)];
    }
  }

  /** Once the constructor has thrown, the later bridges change nothing. */
  lemma {:induction false} ConstructErrSticks(ignore: Option<seq<string>>, configs: seq<(string, BridgeConfig)>, n: nat)
    requires n <= |configs| && Construct(ignore, configs[..n]).Err?
    ensures Construct(ignore, configs) == Construct(ignore, configs[..n])
    decreases |configs| - n
  {
    if n < |configs| {
      assert configs[..n + 1][..n] == configs[..n];
      ConstructErrSticks(ignore, configs, n + 1);
    } else {
      assert configs[..n] == configs;
    }
  }

  /** Switching a bridge's `enabled` flag keeps the plug valid; switched
      off, the bridge relays nothing. */
  lemma DisabledRelaysNothing(s: State, id: string, m: Message, self: Option<Ref>, senderResolves: seq<string>)
    requires Valid(s) && id in s.bridges
    ensures var t := s.(bridges := s.bridges[id := s.bridges[id].(enabled := false)]);
      && Valid(t)
      && (IsChannel(m.target) && m.target.ref in t.channels && t.channels[m.target.ref] == id ==>
            Relay(t, m, self, senderResolves) == [])
  {
  }
}
