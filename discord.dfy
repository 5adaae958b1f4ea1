/** The Discord socket's bookkeeping (`sockets/Discord.js`): the resolve
    string classifier, the user and channel objects cached by their Discord
    id, the client events that create, rename and remove them, and the
    gating of incoming and outgoing messages. The discord.js client is left
    out: what it knows arrives as parameters and what is sent to it is
    recorded in `outbox`. */
module Discord {
  import opened Wrappers
  import JsSet
  import Iterable
  import Reflect
  import opened Socket
  import opened Extensions

  // ---------------------------------------------------------------------------
  // type(resolveStr): ^(?:(?:(\d{17,18})\/)?#([^\d].+)|#(\d{17,18})|@!?(\d{17,18}))$

  predicate IsDigit(c: char) { '0' <= c <= '9' }

  /** A Discord id as the classifier reads it: 17 or 18 digits. */
  predicate Snowflake(s: string)
  {
    (|s| == 17 || |s| == 18) && forall i :: 0 <= i < |s| ==> IsDigit(s[i])
  }

  /** `[^\d].+`: a non-digit and at least one more character that is not a
      line terminator. */
  predicate ChannelNameText(s: string)
  {
    |s| >= 2 && !IsDigit(s[0]) && forall i :: 1 <= i < |s| ==> !Reflect.IsLineTerminator(s[i])
  }

  /** `#([^\d].+)`. */
  predicate NamedChannel(s: string)
  {
    |s| >= 1 && s[0] == '#' && ChannelNameText(s[1..])
  }

  /** `(\d{17,18})\/#([^\d].+)` with an id of `n` digits. */
  predicate GuildPrefixed(s: string, n: nat)
  {
    n < |s| && Snowflake(s[..n]) && s[n] == '/' && NamedChannel(s[n + 1..])
  }

  /** The first alternative: a channel by name, maybe after a guild id. */
  predicate ChannelByName(s: string)
  {
    NamedChannel(s) || GuildPrefixed(s, 17) || GuildPrefixed(s, 18)
  }

  /** The second alternative: `#` and a channel id. */
  predicate ChannelById(s: string)
  {
    |s| >= 1 && s[0] == '#' && Snowflake(s[1..])
  }

  /** The third alternative: `@` or `@!` and a user id. */
  predicate UserById(s: string)
  {
    |s| >= 1 && s[0] == '@' && (Snowflake(s[1..]) || (|s| >= 2 && s[1] == '!' && Snowflake(s[2..])))
  }

  /** `type(resolveStr)`: "user" when the user alternative matched,
      "channel" when one of the others did, `null` otherwise. */
  function Type(s: string): (r: Option<string>)
    ensures r == Some("user") <==> UserById(s)
    ensures r == Some("channel") <==> ChannelByName(s) || ChannelById(s)
    ensures r == None <==> !UserById(s) && !ChannelByName(s) && !ChannelById(s)
  {
    TypeAlternativesDisjoint(s);
    if ChannelByName(s) || ChannelById(s) then Some("channel")
    else if UserById(s) then Some("user")
    else None
  }

  /** The user alternative starts with `@`, the others with `#` or a digit,
      so at most one kind matches. */
  lemma TypeAlternativesDisjoint(s: string)
    ensures UserById(s) ==> !ChannelByName(s) && !ChannelById(s)
  {
    if UserById(s) {
      if 17 < |s| { assert s[..17][0] == '@'; }
      if 18 < |s| { assert s[..18][0] == '@'; }
    }
  }

  // ---------------------------------------------------------------------------
  // Users and channels

  /** A `DiscordUser`: its Discord id and its `_name`. */
  datatype UserObj = UserObj(id: string, name: string)

  /** A `DiscordChannel`: its Discord id, its `_name`, and the id of the
      guild the client places it in. */
  datatype ChannelObj = ChannelObj(id: string, name: string, guild: string)

  /** What the client tells about a channel: its name, its type ("text",
      "voice", "dm", ...) and its guild's id. */
  datatype ChannelInfo = ChannelInfo(name: string, kind: string, guild: string)

  /** `resolveStrings` of a user: `@` and its id. */
  function UserResolves(u: UserObj): (r: seq<string>)
    ensures r == ["@" + u.id]
  {
    ["@" + u.id]
  }

  /** `resolveStrings` of a channel: `#id`, `#name` and `guild/#name`. */
  function ChannelResolves(c: ChannelObj): (r: seq<string>)
    ensures r == ["#" + c.id, "#" + c.name, c.guild + "/#" + c.name]
  {
    ["#" + c.id, "#" + c.name, c.guild + "/#" + c.name]
  }

  /** `name` of a user and of a channel, and a user's `mentionStr`. */
  function UserName(u: UserObj): string { u.name }

  function ChannelName(c: ChannelObj): (r: string)
    ensures r == "#" + c.name
  {
    "#" + c.name
  }

  function UserMentionStr(u: UserObj): (r: string)
    ensures r == "@" + u.name
  {
    "@" + u.name
  }

  /** `_discordMention` of a user and of a channel. */
  function UserNative(u: UserObj): (r: string)
    ensures r == "<@" + u.id + ">"
  {
    "<@" + u.id + ">"
  }

  function ChannelNative(c: ChannelObj): (r: string)
    ensures r == "<#" + c.id + ">"
  {
    "<#" + c.id + ">"
  }

  /** Every string a user with a proper id resolves under classifies as a
      user; a channel's `#id` classifies as a channel, and its two name
      strings do exactly when the name is one the classifier accepts. A
      native mention never classifies. */
  lemma TypeOfResolveStrings(u: UserObj, c: ChannelObj)
    requires Snowflake(u.id) && Snowflake(c.id) && Snowflake(c.guild)
    ensures Type(UserResolves(u)[0]) == Some("user")
    ensures Type(ChannelResolves(c)[0]) == Some("channel")
    ensures Type(ChannelResolves(c)[1]) == Some("channel") <==> ChannelNameText(c.name) || Snowflake(c.name)
    ensures Type(ChannelResolves(c)[2]) == Some("channel") <==> ChannelNameText(c.name)
    ensures Type(UserNative(u)) == None && Type(ChannelNative(c)) == None
  {
    assert ("@" + u.id)[1..] == u.id;
    assert ("#" + c.id)[1..] == c.id;
    HashNameType(c.name);
    GuildStringType(c.guild, c.name);
    assert UserNative(u)[0] == '<';
    assert ChannelNative(c)[0] == '<';
  }

  /** What the getters show and what they resolve: a user's `mentionStr`
      is `@` and its name, and it resolves the user only when the name is
      the id; a channel's `name` is one of its resolve strings; the native
      mentions are never resolve strings. */
  lemma MentionStrings(u: UserObj, c: ChannelObj)
    requires Snowflake(c.guild)
    ensures UserMentionStr(u) == "@" + UserName(u)
    ensures UserMentionStr(u) in UserResolves(u) <==> u.name == u.id
    ensures ChannelName(c) in ChannelResolves(c)
    ensures UserNative(u) !in UserResolves(u)
    ensures ChannelNative(c) !in ChannelResolves(c)
  {
    assert ("@" + u.name)[1..] == u.name && ("@" + u.id)[1..] == u.id;
    assert UserNative(u)[0] == '<' && ("@" + u.id)[0] == '@';
    var n := ChannelNative(c);
    assert n[0] == '<';
    assert ("#" + c.id)[0] == '#' && ("#" + c.name)[0] == '#';
    assert (c.guild + "/#" + c.name)[0] == c.guild[0];
  }

  lemma HashNameType(name: string)
    ensures Type("#" + name) == Some("channel") <==> ChannelNameText(name) || Snowflake(name)
  {
    var n := "#" + name;
    assert n[1..] == name;
    if 17 < |n| { assert n[..17][0] == '#'; }
    if 18 < |n| { assert n[..18][0] == '#'; }
  }

  lemma GuildStringType(guild: string, name: string)
    requires Snowflake(guild)
    ensures Type(guild + "/#" + name) == Some("channel") <==> ChannelNameText(name)
  {
    var s := guild + "/#" + name;
    var n := |guild|;
    assert s[..n] == guild && s[n] == '/' && s[n + 1..] == "#" + name;
    assert ("#" + name)[1..] == name;
    assert !NamedChannel(s) && !ChannelById(s) && !UserById(s) by { assert IsDigit(s[0]); }
    if n == 17 {
      if 18 < |s| { assert s[..18][17] == '/'; }
    } else {
      assert s[17] == guild[17];
    }
  }

  /** Classifier examples: ids of the wrong length and names starting with
      a digit do not classify. */
  lemma TypeExamplesUser()
    ensures Type("@123456789012345678") == Some("user")
    ensures Type("@1234") == None
  {
    assert "@123456789012345678"[1..] == "123456789012345678";
    assert "@1234"[1..] == "1234";
  }

  lemma TypeExamplesBang()
    ensures Type("@!12345678901234567") == Some("user")
  {
    var s := "@!12345678901234567";
    assert s[2..] == "12345678901234567";
    assert !IsDigit(s[1..][0]);
  }

  lemma TypeExamplesChannel()
    ensures Type("#general") == Some("channel")
    ensures Type("#123456789012345678") == Some("channel")
    ensures Type("#1234") == None
    ensures Type("#g") == None
  {
    assert "#general"[1..] == "general";
    assert "#123456789012345678"[1..] == "123456789012345678";
    assert "#1234"[1..] == "1234";
    assert "#g"[1..] == "g";
  }

  // ---------------------------------------------------------------------------
  // The socket's state

  /** Everything the socket holds: its id, its own user, the `_users` and
      `_channels` maps by Discord id (with their insertion order, which is
      the order `values()` visits them in), the fields of every user and
      channel object, the next free handle, the events emitted, the
      messages handed to the client and the resolver's cache. */
  datatype State = State(
    id: string,
    self: Option<Ref>,
    users: map<string, Ref>,
    userOrder: seq<string>,
    channels: map<string, Ref>,
    channelOrder: seq<string>,
    userObjs: map<Ref, UserObj>,
    channelObjs: map<Ref, ChannelObj>,
    next: nat,
    events: seq<Event>,
    outbox: seq<Sent>,
    cache: Cache)

  /** A `sendMessage` call on a channel: the channel's id, the text, and
      whether the sent message is fed back through `_message`. */
  datatype Sent = Sent(channel: string, content: string, echo: bool)

  /** An object still in the socket's maps. */
  predicate LiveUser(s: State, w: Ref)
  {
    w in s.userObjs && s.userObjs[w].id in s.users && s.users[s.userObjs[w].id] == w
  }

  predicate LiveChannel(s: State, w: Ref)
  {
    w in s.channelObjs && s.channelObjs[w].id in s.channels && s.channels[s.channelObjs[w].id] == w
  }

  /** The resolve strings the resolver holds an object under: its current
      ones while it is in the maps, none once it was removed. */
  function Resolves(s: State, w: Ref): seq<string>
  {
    if LiveUser(s, w) then UserResolves(s.userObjs[w])
    else if LiveChannel(s, w) then ChannelResolves(s.channelObjs[w])
    else []
  }

  /** Each map entry is an object of that id; users and channels are
      different objects; every object has a handle below `next`; the own
      user is a user object. */
  ghost predicate Tables(s: State)
  {
    && (forall k :: k in s.users ==> s.users[k] in s.userObjs && s.userObjs[s.users[k]].id == k)
    && (forall k :: k in s.channels ==> s.channels[k] in s.channelObjs && s.channelObjs[s.channels[k]].id == k)
    && s.userObjs.Keys !! s.channelObjs.Keys
    && (forall r :: r in s.userObjs ==> r.handle < s.next)
    && (forall r :: r in s.channelObjs ==> r.handle < s.next)
    && (s.self.Some? ==> s.self.value in s.userObjs)
  }

  /** The parts of `Tables` the farewell loops of `disconnected` rely on. */
  ghost predicate UserTable(s: State)
  {
    forall k :: k in s.users ==> s.users[k] in s.userObjs && s.userObjs[s.users[k]].id == k
  }

  ghost predicate ChannelTable(s: State)
  {
    && (forall k :: k in s.channels ==> s.channels[k] in s.channelObjs && s.channelObjs[s.channels[k]].id == k)
    && s.userObjs.Keys !! s.channelObjs.Keys
  }

  /** The insertion orders list each key of their map once. */
  ghost predicate Orders(s: State)
  {
    && JsSet.NoDup(s.userOrder) && (forall k :: k in s.userOrder <==> k in s.users)
    && JsSet.NoDup(s.channelOrder) && (forall k :: k in s.channelOrder <==> k in s.channels)
  }

  /** The resolver holds exactly the objects in the maps, each under its
      current resolve strings. */
  ghost predicate Exact(s: State)
  {
    CacheValid(s.cache) && forall k, w :: w in Lookup(s.cache, k) <==> k in Resolves(s, w)
  }

  ghost predicate Valid(s: State)
  {
    Tables(s) && Orders(s) && Exact(s)
  }

  /** A socket before `ready`. */
  function Initial(id: string): (s: State)
    ensures Valid(s)
  {
    State(id, None, map[], [], map[], [], map[], map[], 0, [], [], map[])
  }

  // ---------------------------------------------------------------------------
  // _getUser / _getChannel

  /** `_getUser(id)`: the cached user of that id. */
  function FindUser(s: State, id: string): Option<Ref>
  {
    if id in s.users then Some(s.users[id]) else None
  }

  function FindChannel(s: State, id: string): Option<Ref>
  {
    if id in s.channels then Some(s.channels[id]) else None
  }

  /** `_getUser(id, true)`: the cached user, or a new one named with the
      username the client reports, stored, announced with `newUser` and
      handed to the resolver. */
  function CreateUser(s: State, id: string, username: string): (Ref, State)
  {
    if id in s.users then (s.users[id], s)
    else
      var u := Ref(s.id, s.next);
      var obj := UserObj(id, username);
      (u, s.(users := s.users[id := u], userOrder := s.userOrder + [id], userObjs := s.userObjs[u := obj],
             next := s.next + 1, events := s.events + [NewUser(u)], cache := AddAll(s.cache, UserResolves(obj), u)))
  }

  /** `_getChannel(id, true)`: the cached channel; else `null` for a channel
      the client reports as other than a text channel (nothing is stored);
      else a new one, stored, announced and handed to the resolver. */
  function CreateChannel(s: State, id: string, info: ChannelInfo): (Option<Ref>, State)
  {
    if id in s.channels then (Some(s.channels[id]), s)
    else if info.kind != "text" then (None, s)
    else
      var c := Ref(s.id, s.next);
      var obj := ChannelObj(id, info.name, info.guild);
      (Some(c), s.(channels := s.channels[id := c], channelOrder := s.channelOrder + [id],
                   channelObjs := s.channelObjs[c := obj], next := s.next + 1,
                   events := s.events + [NewChannel(c)], cache := AddAll(s.cache, ChannelResolves(obj), c)))
  }

  lemma ResolvesNewUser(s: State, id: string, username: string, w: Ref)
    requires Tables(s) && id !in s.users
    ensures var (u, t) := CreateUser(s, id, username);
      Resolves(t, w) == if w == u then UserResolves(UserObj(id, username)) else Resolves(s, w)
  {
  }

  lemma ResolvesNewChannel(s: State, id: string, info: ChannelInfo, w: Ref)
    requires Tables(s) && id !in s.channels && info.kind == "text"
    ensures var (c, t) := CreateChannel(s, id, info);
      Resolves(t, w) == if w == c.value then ChannelResolves(ChannelObj(id, info.name, info.guild)) else Resolves(s, w)
  {
  }

  lemma CreateUserTables(s: State, id: string, username: string)
    requires Valid(s) && id !in s.users
    ensures Tables(CreateUser(s, id, username).1) && Orders(CreateUser(s, id, username).1)
  {
  }

  lemma CreateChannelTables(s: State, id: string, info: ChannelInfo)
    requires Valid(s) && id !in s.channels && info.kind == "text"
    ensures Tables(CreateChannel(s, id, info).1) && Orders(CreateChannel(s, id, info).1)
  {
  }

  lemma CreateUserExact(s: State, id: string, username: string)
    requires Valid(s) && id !in s.users
    ensures Exact(CreateUser(s, id, username).1)
  {
    var (u, t) := CreateUser(s, id, username);
    var obj := UserObj(id, username);
    AddAllMembers(s.cache, UserResolves(obj), u);
    assert Resolves(s, u) == [] by { assert u !in s.userObjs && u !in s.channelObjs; }
    forall k, w ensures w in Lookup(t.cache, k) <==> k in Resolves(t, w) {
      ResolvesNewUser(s, id, username, w);
      assert w in Lookup(s.cache, k) <==> k in Resolves(s, w);
    }
  }

  lemma CreateChannelExact(s: State, id: string, info: ChannelInfo)
    requires Valid(s) && id !in s.channels && info.kind == "text"
    ensures Exact(CreateChannel(s, id, info).1)
  {
    var (c, t) := CreateChannel(s, id, info);
    var obj := ChannelObj(id, info.name, info.guild);
    AddAllMembers(s.cache, ChannelResolves(obj), c.value);
    assert Resolves(s, c.value) == [] by { assert c.value !in s.userObjs && c.value !in s.channelObjs; }
    forall k, w ensures w in Lookup(t.cache, k) <==> k in Resolves(t, w) {
      ResolvesNewChannel(s, id, info, w);
      assert w in Lookup(s.cache, k) <==> k in Resolves(s, w);
    }
  }

  /** `_getUser(id, true)` keeps the socket valid and returns the user the
      map holds under `id` afterwards; a cached user is returned with
      nothing changed, a new one is announced once, resolvable under
      `@id`, and nothing else changes. */
  lemma CreateUserValid(s: State, id: string, username: string)
    requires Valid(s)
    ensures var (u, t) := CreateUser(s, id, username);
      && Valid(t) && t.users[id] == u && u in t.userObjs
      && (id in s.users ==> t == s)
      && (id !in s.users ==>
            && u !in s.userObjs && u !in s.channelObjs && t.userObjs[u] == UserObj(id, username)
            && t.events == s.events + [NewUser(u)] && t.userOrder == s.userOrder + [id]
            && t.channels == s.channels && t.channelObjs == s.channelObjs && t.self == s.self
            && t.outbox == s.outbox && u in Lookup(t.cache, "@" + id))
  {
    if id !in s.users {
      CreateUserExact(s, id, username);
      CreateUserTables(s, id, username);
      var (u, t) := CreateUser(s, id, username);
      ResolvesNewUser(s, id, username, u);
    }
  }

  lemma CreateChannelValid(s: State, id: string, info: ChannelInfo)
    requires Valid(s)
    ensures var (c, t) := CreateChannel(s, id, info);
      && Valid(t)
      && (c.None? <==> id !in s.channels && info.kind != "text")
      && (c.Some? ==> t.channels[id] == c.value && c.value in t.channelObjs)
      && (id in s.channels || info.kind != "text" ==> t == s)
      && (id !in s.channels && info.kind == "text" ==>
            && c.value !in s.userObjs && c.value !in s.channelObjs
            && t.channelObjs[c.value] == ChannelObj(id, info.name, info.guild)
            && t.events == s.events + [NewChannel(c.value)] && t.channelOrder == s.channelOrder + [id]
            && t.users == s.users && t.userObjs == s.userObjs && t.self == s.self && t.outbox == s.outbox
            && c.value in Lookup(t.cache, "#" + id))
  {
    if id !in s.channels && info.kind == "text" {
      CreateChannelExact(s, id, info);
      CreateChannelTables(s, id, info);
      var (c, t) := CreateChannel(s, id, info);
      ResolvesNewChannel(s, id, info, c.value);
    }
  }

  /** A lookup with `create` inserts at most once: asking again for the
      same id returns the same object and changes nothing. */
  lemma CreateUserOnce(s: State, id: string, username: string, again: string)
    requires Valid(s)
    ensures var (u, t) := CreateUser(s, id, username);
      CreateUser(t, id, again) == (u, t) && FindUser(t, id) == Some(u)
    ensures |CreateUser(s, id, username).1.events| <= |s.events| + 1
  {
    CreateUserValid(s, id, username);
  }

  lemma CreateChannelOnce(s: State, id: string, info: ChannelInfo, again: ChannelInfo)
    requires Valid(s)
    ensures var (c, t) := CreateChannel(s, id, info);
      c.Some? ==> CreateChannel(t, id, again) == (c, t) && FindChannel(t, id) == c
    ensures var (c, t) := CreateChannel(s, id, info);
      c.None? ==> FindChannel(t, id) == None && t == s
  {
    CreateChannelValid(s, id, info);
  }

  // ---------------------------------------------------------------------------
  // Removing and renaming objects

  /** `this._users.delete(user._id); user.emit("removed")`: the user leaves
      the map and its order, and the resolver takes it off its resolve
      strings. */
  function RemoveUser(s: State, id: string): State
    requires id in s.users
  {
    var u := s.users[id];
    s.(users := s.users - {id}, userOrder := JsSet.Delete(s.userOrder, id), events := s.events + [Removed(u)],
       cache := RemoveAll(s.cache, Resolves(s, u), u))
  }

  function RemoveChannel(s: State, id: string): State
    requires id in s.channels
  {
    var c := s.channels[id];
    s.(channels := s.channels - {id}, channelOrder := JsSet.Delete(s.channelOrder, id), events := s.events + [Removed(c)],
       cache := RemoveAll(s.cache, Resolves(s, c), c))
  }

  lemma ResolvesRemovedUser(s: State, id: string, w: Ref)
    requires Tables(s) && id in s.users
    ensures Resolves(RemoveUser(s, id), w) == if w == s.users[id] then [] else Resolves(s, w)
  {
  }

  lemma ResolvesRemovedChannel(s: State, id: string, w: Ref)
    requires Tables(s) && id in s.channels
    ensures Resolves(RemoveChannel(s, id), w) == if w == s.channels[id] then [] else Resolves(s, w)
  {
  }

  lemma RemoveUserTables(s: State, id: string)
    requires Valid(s) && id in s.users
    ensures Tables(RemoveUser(s, id)) && Orders(RemoveUser(s, id))
  {
  }

  lemma RemoveChannelTables(s: State, id: string)
    requires Valid(s) && id in s.channels
    ensures Tables(RemoveChannel(s, id)) && Orders(RemoveChannel(s, id))
  {
  }

  /** A removed user is valid to keep: the socket stays valid, the user is
      gone from the map and from every resolve string, and every other
      object is resolved as before. */
  lemma RemoveUserValid(s: State, id: string)
    requires Valid(s) && id in s.users
    ensures var t := RemoveUser(s, id);
      && Valid(t) && id !in t.users && t.events == s.events + [Removed(s.users[id])]
      && (forall k :: s.users[id] !in Lookup(t.cache, k))
      && (forall k, w :: w != s.users[id] ==> (w in Lookup(t.cache, k) <==> w in Lookup(s.cache, k)))
  {
    var u := s.users[id];
    var t := RemoveUser(s, id);
    RemoveAllMembers(s.cache, Resolves(s, u), u);
    RemoveUserTables(s, id);
    forall k, w ensures w in Lookup(t.cache, k) <==> k in Resolves(t, w) {
      ResolvesRemovedUser(s, id, w);
      assert w in Lookup(s.cache, k) <==> k in Resolves(s, w);
    }
  }

  lemma RemoveChannelValid(s: State, id: string)
    requires Valid(s) && id in s.channels
    ensures var t := RemoveChannel(s, id);
      && Valid(t) && id !in t.channels && t.events == s.events + [Removed(s.channels[id])]
      && (forall k :: s.channels[id] !in Lookup(t.cache, k))
      && (forall k, w :: w != s.channels[id] ==> (w in Lookup(t.cache, k) <==> w in Lookup(s.cache, k)))
  {
    var c := s.channels[id];
    var t := RemoveChannel(s, id);
    RemoveAllMembers(s.cache, Resolves(s, c), c);
    RemoveChannelTables(s, id);
    forall k, w ensures w in Lookup(t.cache, k) <==> k in Resolves(t, w) {
      ResolvesRemovedChannel(s, id, w);
      assert w in Lookup(s.cache, k) <==> k in Resolves(s, w);
    }
  }

  /** `user._name = name; user.emit("renamed", oldName, name, resolves)`
      with the resolve strings from before the change; the resolver moves
      the user from those to its current ones. */
  function RenameUser(s: State, u: Ref, oldName: string, newName: string): State
    requires u in s.userObjs
  {
    var obj := s.userObjs[u];
    var obj' := obj.(name := newName);
    s.(userObjs := s.userObjs[u := obj'], events := s.events + [Renamed(u, oldName, newName, UserResolves(obj))],
       cache := RenamedCache(s.cache, u, UserResolves(obj), UserResolves(obj')))
  }

  function RenameChannel(s: State, c: Ref, oldName: string, newName: string): State
    requires c in s.channelObjs
  {
    var obj := s.channelObjs[c];
    var obj' := obj.(name := newName);
    s.(channelObjs := s.channelObjs[c := obj'], events := s.events + [Renamed(c, oldName, newName, ChannelResolves(obj))],
       cache := RenamedCache(s.cache, c, ChannelResolves(obj), ChannelResolves(obj')))
  }

  lemma ResolvesRenamedUser(s: State, id: string, oldName: string, newName: string, w: Ref)
    requires Tables(s) && id in s.users
    ensures var u := s.users[id];
      Resolves(RenameUser(s, u, oldName, newName), w)
        == if w == u then UserResolves(s.userObjs[u].(name := newName)) else Resolves(s, w)
  {
  }

  lemma ResolvesRenamedChannel(s: State, id: string, oldName: string, newName: string, w: Ref)
    requires Tables(s) && id in s.channels
    ensures var c := s.channels[id];
      Resolves(RenameChannel(s, c, oldName, newName), w)
        == if w == c then ChannelResolves(s.channelObjs[c].(name := newName)) else Resolves(s, w)
  {
  }

  lemma RenameUserTables(s: State, id: string, oldName: string, newName: string)
    requires Valid(s) && id in s.users
    ensures var t := RenameUser(s, s.users[id], oldName, newName); Tables(t) && Orders(t)
  {
  }

  lemma RenameChannelTables(s: State, id: string, oldName: string, newName: string)
    requires Valid(s) && id in s.channels
    ensures var t := RenameChannel(s, s.channels[id], oldName, newName); Tables(t) && Orders(t)
  {
  }

  /** After a rename the socket stays valid, the object carries the new
      name and is found exactly under its new resolve strings, and every
      other object is resolved as before. */
  lemma RenameUserValid(s: State, id: string, oldName: string, newName: string)
    requires Valid(s) && id in s.users
    ensures var u := s.users[id];
      var t := RenameUser(s, u, oldName, newName);
      && Valid(t) && t.userObjs[u].name == newName && t.users == s.users
      && t.events == s.events + [Renamed(u, oldName, newName, UserResolves(s.userObjs[u]))]
      && (forall k :: u in Lookup(t.cache, k) <==> k in UserResolves(t.userObjs[u]))
      && (forall k, w :: w != u ==> (w in Lookup(t.cache, k) <==> w in Lookup(s.cache, k)))
  {
    var u := s.users[id];
    var obj := s.userObjs[u];
    var t := RenameUser(s, u, oldName, newName);
    RemoveAllMembers(s.cache, UserResolves(obj), u);
    AddAllMembers(RemoveAll(s.cache, UserResolves(obj), u), UserResolves(obj.(name := newName)), u);
    RenameUserTables(s, id, oldName, newName);
    assert Resolves(s, u) == UserResolves(obj);
    forall k, w ensures w in Lookup(t.cache, k) <==> k in Resolves(t, w) {
      ResolvesRenamedUser(s, id, oldName, newName, w);
      assert w in Lookup(s.cache, k) <==> k in Resolves(s, w);
    }
    ResolvesRenamedUser(s, id, oldName, newName, u);
  }

  lemma RenameChannelValid(s: State, id: string, oldName: string, newName: string)
    requires Valid(s) && id in s.channels
    ensures var c := s.channels[id];
      var t := RenameChannel(s, c, oldName, newName);
      && Valid(t) && t.channelObjs[c].name == newName && t.channels == s.channels
      && t.events == s.events + [Renamed(c, oldName, newName, ChannelResolves(s.channelObjs[c]))]
      && (forall k :: c in Lookup(t.cache, k) <==> k in ChannelResolves(t.channelObjs[c]))
      && (forall k, w :: w != c ==> (w in Lookup(t.cache, k) <==> w in Lookup(s.cache, k)))
  {
    var c := s.channels[id];
    var obj := s.channelObjs[c];
    var t := RenameChannel(s, c, oldName, newName);
    RemoveAllMembers(s.cache, ChannelResolves(obj), c);
    AddAllMembers(RemoveAll(s.cache, ChannelResolves(obj), c), ChannelResolves(obj.(name := newName)), c);
    RenameChannelTables(s, id, oldName, newName);
    assert Resolves(s, c) == ChannelResolves(obj);
    forall k, w ensures w in Lookup(t.cache, k) <==> k in Resolves(t, w) {
      ResolvesRenamedChannel(s, id, oldName, newName, w);
      assert w in Lookup(s.cache, k) <==> k in Resolves(s, w);
    }
    ResolvesRenamedChannel(s, id, oldName, newName, c);
  }

  // ---------------------------------------------------------------------------
  // The client's events

  /** A user as the client reports it: its id and its username. */
  datatype UserInfo = UserInfo(id: string, username: string)

  /** A channel as the client reports it. */
  datatype ChannelEntry = ChannelEntry(id: string, info: ChannelInfo)

  /** `_getUser(id, true)` for each user in turn. */
  function CreateUsers(s: State, users: seq<UserInfo>): State
  {
    if users == [] then s
    else
      var last := users[|users| - 1];
      CreateUser(CreateUsers(s, users[..|users| - 1]), last.id, last.username).1
  }

  /** `_getChannel(id, true)` for each channel in turn. */
  function CreateChannels(s: State, channels: seq<ChannelEntry>): State
  {
    if channels == [] then s
    else
      var last := channels[|channels| - 1];
      CreateChannel(CreateChannels(s, channels[..|channels| - 1]), last.id, last.info).1
  }

  /** `ready`: the bot's own user is found or created and `connected` is
      emitted with it (which sets `self`); then every user and every
      channel the client knows is found or created. */
  function AfterReady(s: State, bot: UserInfo, users: seq<UserInfo>, channels: seq<ChannelEntry>): State
  {
    var (u, t) := CreateUser(s, bot.id, bot.username);
    CreateChannels(CreateUsers(t.(events := t.events + [Connected(u)], self := Some(u)), users), channels)
  }

  /** The ids of listed users, and of the listed channels that are text
      channels. */
  function UserIds(users: seq<UserInfo>): (r: seq<string>)
    ensures |r| == |users|
    ensures forall i :: 0 <= i < |users| ==> r[i] == users[i].id
  {
    if users == [] then [] else UserIds(users[..|users| - 1]) + [users[|users| - 1].id]
  }

  function TextIds(channels: seq<ChannelEntry>): (r: seq<string>)
    ensures forall k :: k in r <==> exists i :: 0 <= i < |channels| && channels[i].id == k && channels[i].info.kind == "text"
  {
    if channels == [] then []
    else
      var last := channels[|channels| - 1];
      var init := TextIds(channels[..|channels| - 1]);
      var r := if last.info.kind == "text" then init + [last.id] else init;
      assert forall i :: 0 <= i < |channels| - 1 ==> channels[..|channels| - 1][i] == channels[i];
      r
  }

  /** One `_getUser(id, true)` adds at most that id, and touches neither
      the channels nor the own user. */
  lemma CreateUserKeys(s: State, id: string, username: string)
    ensures var t := CreateUser(s, id, username).1;
      && (forall k :: k in t.users <==> k in s.users || k == id)
      && (forall k :: k in s.users ==> t.users[k] == s.users[k])
      && t.channels == s.channels && t.self == s.self && t.outbox == s.outbox
  {
  }

  lemma CreateChannelKeys(s: State, id: string, info: ChannelInfo)
    ensures var t := CreateChannel(s, id, info).1;
      && (forall k :: k in t.channels <==> k in s.channels || (k == id && info.kind == "text"))
      && (forall k :: k in s.channels ==> t.channels[k] == s.channels[k])
      && t.users == s.users && t.self == s.self && t.outbox == s.outbox
  {
  }

  /** Creating users keeps the socket valid. */
  lemma {:induction false} CreateUsersValid(s: State, users: seq<UserInfo>)
    requires Valid(s)
    ensures Valid(CreateUsers(s, users))
  {
    if users != [] {
      var last := users[|users| - 1];
      CreateUsersValid(s, users[..|users| - 1]);
      CreateUserValid(CreateUsers(s, users[..|users| - 1]), last.id, last.username);
    }
  }

  /** Afterwards exactly the users known before and the ones listed are in
      the map, the known ones unchanged; channels and the own user stay. */
  lemma {:induction false} CreateUsersKeys(s: State, users: seq<UserInfo>)
    ensures var t := CreateUsers(s, users);
      && (forall k :: k in t.users <==> k in s.users || k in UserIds(users))
      && (forall k :: k in s.users ==> t.users[k] == s.users[k])
      && t.channels == s.channels && t.self == s.self && t.outbox == s.outbox
  {
    if users != [] {
      var last := users[|users| - 1];
      CreateUsersKeys(s, users[..|users| - 1]);
      CreateUserKeys(CreateUsers(s, users[..|users| - 1]), last.id, last.username);
    }
  }

  lemma {:induction false} CreateChannelsValid(s: State, channels: seq<ChannelEntry>)
    requires Valid(s)
    ensures Valid(CreateChannels(s, channels))
  {
    if channels != [] {
      var last := channels[|channels| - 1];
      CreateChannelsValid(s, channels[..|channels| - 1]);
      CreateChannelValid(CreateChannels(s, channels[..|channels| - 1]), last.id, last.info);
    }
  }

  /** Afterwards exactly the channels known before and the listed text
      channels are in the map; users and the own user stay. */
  lemma {:induction false} CreateChannelsKeys(s: State, channels: seq<ChannelEntry>)
    ensures var t := CreateChannels(s, channels);
      && (forall k :: k in t.channels <==> k in s.channels || k in TextIds(channels))
      && (forall k :: k in s.channels ==> t.channels[k] == s.channels[k])
      && t.users == s.users && t.self == s.self && t.outbox == s.outbox
  {
    if channels != [] {
      var last := channels[|channels| - 1];
      CreateChannelsKeys(s, channels[..|channels| - 1]);
      CreateChannelKeys(CreateChannels(s, channels[..|channels| - 1]), last.id, last.info);
    }
  }

  /** `connected` only sets the own user, to a user object. */
  lemma ConnectedValid(s: State, u: Ref)
    requires Valid(s) && u in s.userObjs
    ensures Valid(s.(events := s.events + [Connected(u)], self := Some(u)))
  {
    var t := s.(events := s.events + [Connected(u)], self := Some(u));
    forall k, w ensures w in Lookup(t.cache, k) <==> k in Resolves(t, w) {
      assert Resolves(t, w) == Resolves(s, w);
    }
  }

  /** After `ready` the socket is connected as the bot's user, knows every
      user the client knows and every text channel, and holds no other
      channel than those it knew before. */
  lemma ReadyKnowsAll(s: State, bot: UserInfo, users: seq<UserInfo>, channels: seq<ChannelEntry>)
    requires Valid(s)
    ensures var t := AfterReady(s, bot, users, channels);
      && Valid(t) && bot.id in t.users && t.self == Some(t.users[bot.id]) && IsConnected(t.self)
      && (forall k :: k in t.users <==> k in s.users || k == bot.id || k in UserIds(users))
      && (forall k :: k in t.channels <==> k in s.channels || k in TextIds(channels))
  {
    CreateUserValid(s, bot.id, bot.username);
    CreateUserKeys(s, bot.id, bot.username);
    var (u, t0) := CreateUser(s, bot.id, bot.username);
    var t1 := t0.(events := t0.events + [Connected(u)], self := Some(u));
    ConnectedValid(t0, u);
    CreateUsersValid(t1, users);
    CreateUsersKeys(t1, users);
    CreateChannelsValid(CreateUsers(t1, users), channels);
    CreateChannelsKeys(CreateUsers(t1, users), channels);
  }

  /** `guildMemberRemove`: nothing happens while the client still sees the
      user (in another guild); otherwise the cached user is removed. A
      user that was never cached makes the handler read `_id` of
      `undefined`. */
  function AfterMemberRemove(s: State, id: string, visible: bool): (r: Result<State, JsError>)
  {
    if visible then Ok(s)
    else if id !in s.users then Err(TypeError("Cannot read properties of undefined (reading '_id')"))
    else Ok(RemoveUser(s, id))
  }

  lemma MemberRemoveValid(s: State, id: string, visible: bool)
    requires Valid(s)
    ensures var r := AfterMemberRemove(s, id, visible);
      && (visible ==> r == Ok(s))
      && (r.Err? <==> !visible && id !in s.users)
      && (r.Ok? && !visible ==>
            && Valid(r.value) && id !in r.value.users
            && r.value.events == s.events + [Removed(s.users[id])]
            && (forall k :: s.users[id] !in Lookup(r.value.cache, k)))
  {
    if !visible && id in s.users {
      RemoveUserValid(s, id);
    }
  }

  /** `presenceUpdate`: when the name changed, the cached user is renamed;
      an uncached user makes the handler read `resolveStrings` of
      `undefined`. */
  function AfterPresence(s: State, id: string, oldName: string, newName: string): (r: Result<State, JsError>)
    requires UserTable(s)
  {
    if oldName == newName then Ok(s)
    else if id !in s.users then Err(TypeError("Cannot read properties of undefined (reading 'resolveStrings')"))
    else Ok(RenameUser(s, s.users[id], oldName, newName))
  }

  /** A user's resolve string is its id, so a rename leaves the user
      resolvable exactly where it was. */
  lemma PresenceKeepsResolves(s: State, id: string, oldName: string, newName: string)
    requires Valid(s)
    ensures var r := AfterPresence(s, id, oldName, newName);
      && (r.Err? <==> oldName != newName && id !in s.users)
      && (oldName == newName ==> r == Ok(s))
      && (r.Ok? ==> Valid(r.value) && r.value.cache.Keys == s.cache.Keys
                    && forall k, w :: w in Lookup(r.value.cache, k) <==> w in Lookup(s.cache, k))
      && (r.Ok? && oldName != newName ==> r.value.userObjs[s.users[id]].name == newName)
  {
    if oldName != newName && id in s.users {
      var u := s.users[id];
      RenameUserValid(s, id, oldName, newName);
      var t := RenameUser(s, u, oldName, newName);
      assert UserResolves(t.userObjs[u]) == UserResolves(s.userObjs[u]);
      assert Resolves(s, u) == UserResolves(s.userObjs[u]);
      forall k, w ensures w in Lookup(t.cache, k) <==> w in Lookup(s.cache, k) {
        assert w in Lookup(s.cache, k) <==> k in Resolves(s, w);
      }
      SameMembersSameKeys(t.cache, s.cache);
    }
  }

  /** Two valid caches that hold the same objects under every string have
      the same strings. */
  lemma SameMembersSameKeys(c1: Cache, c2: Cache)
    requires CacheValid(c1) && CacheValid(c2)
    requires forall k, w :: w in Lookup(c1, k) <==> w in Lookup(c2, k)
    ensures c1.Keys == c2.Keys
  {
    forall k ensures k in c1 <==> k in c2 {
      if k in c1 { assert Lookup(c1, k)[0] in Lookup(c2, k); }
      if k in c2 { assert Lookup(c2, k)[0] in Lookup(c1, k); }
    }
  }

  /** `channelUpdate`: a cached channel whose name changed is renamed; an
      uncached one is ignored. */
  function AfterChannelUpdate(s: State, id: string, oldName: string, newName: string): State
    requires ChannelTable(s)
  {
    if id in s.channels && oldName != newName then RenameChannel(s, s.channels[id], oldName, newName) else s
  }

  /** After a channel's rename it resolves exactly under `#id` and the
      `#name` and `guild/#name` of its new name. */
  lemma ChannelUpdateMoves(s: State, id: string, oldName: string, newName: string)
    requires Valid(s) && id in s.channels
    ensures var c := s.channels[id];
      var t := AfterChannelUpdate(s, id, oldName, newName);
      var name := if oldName != newName then newName else s.channelObjs[c].name;
      && Valid(t) && t.channels == s.channels
      && forall k :: c in Lookup(t.cache, k) <==> k in ["#" + id, "#" + name, s.channelObjs[c].guild + "/#" + name]
  {
    var c := s.channels[id];
    if oldName != newName {
      RenameChannelValid(s, id, oldName, newName);
    } else {
      assert Resolves(s, c) == ChannelResolves(s.channelObjs[c]);
    }
  }

  /** When the client reports the name it had as the old one, its old name
      strings no longer resolve to it, provided the old name is not its id
      and the guild is a proper id. */
  lemma OldNameStringsGone(id: string, guild: string, name: string, newName: string)
    requires name != newName && name != id && Snowflake(guild)
    ensures "#" + name !in ["#" + id, "#" + newName, guild + "/#" + newName]
    ensures guild + "/#" + name !in ["#" + id, "#" + newName, guild + "/#" + newName]
  {
    assert ("#" + name)[1..] == name && ("#" + newName)[1..] == newName && ("#" + id)[1..] == id;
    assert (guild + "/#" + name)[0] == guild[0] && (guild + "/#" + newName)[0] == guild[0];
    var g := |guild| + 2;
    assert (guild + "/#" + name)[g..] == name && (guild + "/#" + newName)[g..] == newName;
  }

  /** The deletion listener as written is registered under `channelDeletd`,
      a name the client never emits, so a deleted channel changes nothing. */
  function AfterChannelDeleteAsWritten(s: State, id: string): State
  {
    s
  }

  /** The deletion listener under the client's `channelDelete`: the cached
      channel is removed; an uncached one makes it read `_id` of
      `undefined`. */
  function AfterChannelDelete(s: State, id: string): (r: Result<State, JsError>)
  {
    if id !in s.channels then Err(TypeError("Cannot read properties of undefined (reading '_id')"))
    else Ok(RemoveChannel(s, id))
  }

  /** A deleted channel stays cached and resolvable under `#id` with the
      listener as written, and is gone with the listener under the event
      name the client emits. */
  lemma ChannelDeleteFinding(s: State, id: string)
    requires Valid(s) && id in s.channels
    ensures var c := s.channels[id];
      && c in Lookup(AfterChannelDeleteAsWritten(s, id).cache, "#" + id)
      && id in AfterChannelDeleteAsWritten(s, id).channels
    ensures var r := AfterChannelDelete(s, id);
      && r.Ok? && Valid(r.value) && id !in r.value.channels
      && (forall k :: s.channels[id] !in Lookup(r.value.cache, k))
  {
    var c := s.channels[id];
    assert Resolves(s, c) == ChannelResolves(s.channelObjs[c]);
    RemoveChannelValid(s, id);
  }

  lemma ChannelDeleteUnknown(s: State, id: string)
    requires id !in s.channels
    ensures AfterChannelDelete(s, id).Err?
  {
  }

  // ---------------------------------------------------------------------------
  // disconnected

  /** The objects of a map in the order of its keys, as `values()` yields
      them. */
  function OrderRefs(order: seq<string>, m: map<string, Ref>): seq<Ref>
  {
    if order == [] then []
    else
      var last := order[|order| - 1];
      OrderRefs(order[..|order| - 1], m) + (if last in m then [m[last]] else [])
  }

  /** One `removed` event per object, in order. */
  function RemovedEvents(refs: seq<Ref>): seq<Event>
  {
    if refs == [] then [] else RemovedEvents(refs[..|refs| - 1]) + [Removed(refs[|refs| - 1])]
  }

  /** Exactly one `removed` event per object, in the objects' order. */
  lemma {:induction false} RemovedEventsInOrder(refs: seq<Ref>)
    ensures |RemovedEvents(refs)| == |refs|
    ensures forall i :: 0 <= i < |refs| ==> RemovedEvents(refs)[i] == Removed(refs[i])
  {
    if refs != [] {
      RemovedEventsInOrder(refs[..|refs| - 1]);
    }
  }

  /** The resolver's cache after each object of `refs` emitted `removed`:
      each is taken off the strings it resolves under in `s` (the maps do
      not change while the objects say farewell). */
  function Dropped(c: Cache, s: State, refs: seq<Ref>): Cache
  {
    if refs == [] then c
    else
      var r := refs[|refs| - 1];
      RemoveAll(Dropped(c, s, refs[..|refs| - 1]), Resolves(s, r), r)
  }

  /** The `removed` events of every user and then every channel. */
  function Farewells(s: State): seq<Event>
  {
    RemovedEvents(OrderRefs(s.userOrder, s.users)) + RemovedEvents(OrderRefs(s.channelOrder, s.channels))
  }

  /** The resolver's cache once every user and then every channel said
      farewell. */
  function FarewellCache(s: State): Cache
  {
    Dropped(Dropped(s.cache, s, OrderRefs(s.userOrder, s.users)), s, OrderRefs(s.channelOrder, s.channels))
  }

  /** `disconnected`: every user and then every channel emits `removed`,
      both maps are cleared, and `disconnected` is emitted with a reason
      that tells whether the socket had been connected, which clears
      `self`. */
  function Disconnect(s: State): State
  {
    var reason := if IsConnected(s.self) then "Disconnected" else "Unable to connect / login";
    s.(users := map[], userOrder := [], channels := map[], channelOrder := [],
       events := s.events + Farewells(s) + [Disconnected(reason)], cache := FarewellCache(s), self := None)
  }

  lemma {:induction false} OrderRefsCover(order: seq<string>, m: map<string, Ref>)
    ensures forall k :: k in order && k in m ==> m[k] in OrderRefs(order, m)
  {
    if order != [] {
      var init := order[..|order| - 1];
      OrderRefsCover(init, m);
      assert forall k :: k in order ==> k in init || k == order[|order| - 1];
    }
  }

  /** Each object of `refs` leaves the strings it resolved under; every
      other membership stays. */
  lemma {:induction false} DroppedMember(c: Cache, s: State, refs: seq<Ref>, k: string, w: Ref)
    ensures w in Lookup(Dropped(c, s, refs), k) <==> w in Lookup(c, k) && !(w in refs && k in Resolves(s, w))
  {
    if refs != [] {
      var init := refs[..|refs| - 1];
      var r := refs[|refs| - 1];
      DroppedMember(c, s, init, k, w);
      RemoveAllMembers(Dropped(c, s, init), Resolves(s, r), r);
      assert refs == init + [r];
    }
  }

  lemma {:induction false} DroppedValid(c: Cache, s: State, refs: seq<Ref>)
    requires CacheValid(c)
    ensures CacheValid(Dropped(c, s, refs))
  {
    if refs != [] {
      var r := refs[|refs| - 1];
      DroppedValid(c, s, refs[..|refs| - 1]);
      RemoveAllMembers(Dropped(c, s, refs[..|refs| - 1]), Resolves(s, r), r);
    }
  }

  /** Every object with resolve strings is among the objects the
      farewells visit. */
  lemma LiveInOrders(s: State, w: Ref)
    requires Valid(s) && Resolves(s, w) != []
    ensures w in OrderRefs(s.userOrder, s.users) || w in OrderRefs(s.channelOrder, s.channels)
  {
    OrderRefsCover(s.userOrder, s.users);
    OrderRefsCover(s.channelOrder, s.channels);
    if LiveUser(s, w) {
      assert s.userObjs[w].id in s.userOrder;
    } else {
      assert s.channelObjs[w].id in s.channelOrder;
    }
  }

  /** After the farewells of all users and channels the resolver holds
      nothing. */
  lemma DroppedAll(s: State)
    requires Valid(s)
    ensures FarewellCache(s) == map[]
  {
    var ur := OrderRefs(s.userOrder, s.users);
    var cr := OrderRefs(s.channelOrder, s.channels);
    var c1 := Dropped(s.cache, s, ur);
    var c2 := Dropped(c1, s, cr);
    DroppedValid(s.cache, s, ur);
    DroppedValid(c1, s, cr);
    forall k ensures k !in c2 {
      if k in c2 {
        DroppedNothingLeft(s, k, c2[k][0]);
      }
    }
  }

  lemma DroppedNothingLeft(s: State, k: string, w: Ref)
    requires Valid(s)
    ensures w !in Lookup(FarewellCache(s), k)
  {
    var ur := OrderRefs(s.userOrder, s.users);
    var cr := OrderRefs(s.channelOrder, s.channels);
    DroppedMember(s.cache, s, ur, k, w);
    DroppedMember(Dropped(s.cache, s, ur), s, cr, k, w);
    assert w in Lookup(s.cache, k) <==> k in Resolves(s, w);
    if k in Resolves(s, w) {
      LiveInOrders(s, w);
    }
  }

  /** A disconnect reports whether the socket had been connected, leaves it
      valid with no own user, no objects in its maps and nothing in the
      resolver; every user and then every channel said `removed` first. */
  lemma DisconnectForgets(s: State)
    requires Valid(s)
    ensures var t := Disconnect(s);
      && Valid(t) && t.self == None && !IsConnected(t.self)
      && t.users == map[] && t.channels == map[] && t.cache == map[]
      && t.userObjs == s.userObjs && t.channelObjs == s.channelObjs && t.outbox == s.outbox
      && t.events == s.events + RemovedEvents(OrderRefs(s.userOrder, s.users))
                     + RemovedEvents(OrderRefs(s.channelOrder, s.channels))
                     + [Disconnected(if IsConnected(s.self) then "Disconnected" else "Unable to connect / login")]
  {
    DroppedAll(s);
    DisconnectValid(s);
  }

  lemma DisconnectValid(s: State)
    requires Valid(s)
    ensures Valid(Disconnect(s))
  {
    DroppedAll(s);
    var t := Disconnect(s);
    assert t.cache == map[];
    assert Tables(t) && Orders(t);
    forall k, w ensures w in Lookup(t.cache, k) <==> k in Resolves(t, w) {
      assert Resolves(t, w) == [];
    }
  }

  // ---------------------------------------------------------------------------
  // _message

  /** An attachment as the client reports it. */
  datatype AttachmentInfo = AttachmentInfo(filename: string, url: string)

  /** A message as the client reports it: its author, its channel, the
      author's nickname in the guild, its text and its attachments. */
  datatype Incoming = Incoming(
    author: UserInfo,
    channel: ChannelEntry,
    nickname: Option<string>,
    content: string,
    attachments: seq<AttachmentInfo>)

  /** `^_([^_]*)_$`: underscores around a text with no underscore. */
  predicate ActionForm(content: string)
  {
    |content| >= 2 && content[0] == '_' && content[|content| - 1] == '_'
    && forall i :: 1 <= i < |content| - 1 ==> content[i] != '_'
  }

  /** The action rewrite of an incoming text: an action-like text becomes
      the `Action` marker and the text between the underscores. */
  function ActionRewrite(content: string): (r: seq<Part>)
    ensures HasAction(r, false) <==> ActionForm(content)
  {
    if ActionForm(content) then
      var r := [Action, Text(content[1..|content| - 1])];
      assert IsActionPart(r[0], false);
      r
    else [Text(content)]
  }

  /** `parts.push(" ", new Socket.Attachment(attachment.filename, attachment.url))`
      as written: `Attachment` takes one argument, so its `url` is the
      file name. */
  function AttachmentPartsAsWritten(attachments: seq<AttachmentInfo>): (r: seq<Part>)
    ensures |r| == 2 * |attachments|
  {
    if attachments == [] then []
    else
      var last := attachments[|attachments| - 1];
      AttachmentPartsAsWritten(attachments[..|attachments| - 1]) + [Text(" "), Attachment(last.filename)]
  }

  /** The attachment parts with the attachment's url, as `Attachment`
      stores it. */
  function AttachmentParts(attachments: seq<AttachmentInfo>): (r: seq<Part>)
    ensures |r| == 2 * |attachments|
    ensures forall i :: 0 <= i < |attachments| ==> r[2 * i] == Text(" ") && r[2 * i + 1] == Attachment(attachments[i].url)
  {
    if attachments == [] then []
    else
      var init := attachments[..|attachments| - 1];
      var last := attachments[|attachments| - 1];
      var r := AttachmentParts(init) + [Text(" "), Attachment(last.url)];
      assert forall i :: 0 <= i < |init| ==> init[i] == attachments[i];
      r
  }

  /** As written, an attachment whose file name differs from its url is
      passed on with the file name where the url belongs. */
  lemma AttachmentFinding(a: AttachmentInfo)
    requires a.filename != a.url
    ensures AttachmentPartsAsWritten([a])[1] == Attachment(a.filename)
    ensures AttachmentParts([a])[1] == Attachment(a.url)
    ensures AttachmentPartsAsWritten([a]) != AttachmentParts([a])
  {
    assert AttachmentPartsAsWritten([a]) == [Text(" "), Attachment(a.filename)];
    assert AttachmentParts([a]) == [Text(" "), Attachment(a.url)];
  }

  /** The parts of an incoming message. */
  function IncomingParts(m: Incoming): (r: seq<Part>)
  {
    ActionRewrite(m.content) + AttachmentParts(m.attachments)
  }

  /** Whether `_message` gets as far as building a message: the bot's own
      incoming messages are skipped unless they come from a send, and a
      message in a channel that cannot be created (not a text channel) is
      dropped. */
  predicate Delivered(s: State, m: Incoming, botId: string, sent: bool)
  {
    (sent || m.author.id != botId) && (m.channel.id in s.channels || m.channel.info.kind == "text")
  }

  /** `_message(discordMsg, sent)`: the author and the channel are found or
      created; the message, with the author's nickname when it has one,
      goes through `preMessage` unless it came from a send, and `message`
      is emitted unless a `preMessage` listener aborted it. */
  function AfterMessage(s: State, m: Incoming, botId: string, sent: bool, abort: bool): State
  {
    if !sent && m.author.id == botId then s
    else
      var (u, t1) := CreateUser(s, m.author.id, m.author.username);
      var (c, t2) := CreateChannel(t1, m.channel.id, m.channel.info);
      if c.None? then t2
      else
        var msg := Message(s.id, Channel(c.value), User(u, m.nickname), IncomingParts(m));
        t2.(events := t2.events + Emitted(msg, sent, abort))
  }

  predicate HasPreMessage(events: seq<Event>)
  {
    exists i :: 0 <= i < |events| && events[i].PreMessage?
  }

  predicate HasMessage(events: seq<Event>)
  {
    exists i :: 0 <= i < |events| && events[i].MessageEvent?
  }

  /** The sender and target of the message `_message` builds, once the
      author and channel are in the maps. */
  function Sender(t: State, m: Incoming): Party
  {
    if m.author.id in t.users then User(t.users[m.author.id], m.nickname) else Nobody
  }

  function Target(t: State, m: Incoming): Party
  {
    if m.channel.id in t.channels then Channel(t.channels[m.channel.id]) else Nobody
  }

  lemma CreateUserEvents(s: State, id: string, username: string)
    ensures var (u, t) := CreateUser(s, id, username);
      && t.events == s.events + (if id in s.users then [] else [NewUser(u)])
      && id in t.users && t.users[id] == u && t.channels == s.channels && t.self == s.self && t.outbox == s.outbox
  {
  }

  lemma CreateChannelEvents(s: State, id: string, info: ChannelInfo)
    ensures var (c, t) := CreateChannel(s, id, info);
      && t.events == s.events + (if c.Some? && id !in s.channels then [NewChannel(c.value)] else [])
      && (c.Some? <==> id in s.channels || info.kind == "text")
      && (c.Some? ==> id in t.channels && t.channels[id] == c.value)
      && t.users == s.users && t.self == s.self && t.outbox == s.outbox
  {
  }

  lemma CreateUserStaysValid(s: State, id: string, username: string)
    requires Valid(s)
    ensures Valid(CreateUser(s, id, username).1)
  {
    CreateUserValid(s, id, username);
  }

  lemma CreateChannelStaysValid(s: State, id: string, info: ChannelInfo)
    requires Valid(s)
    ensures Valid(CreateChannel(s, id, info).1)
  {
    CreateChannelValid(s, id, info);
  }

  /** Only the event log changes when an event is emitted. */
  lemma EmitValid(s: State, extra: seq<Event>)
    requires Valid(s)
    ensures Valid(s.(events := s.events + extra))
  {
    var t := s.(events := s.events + extra);
    forall k, w ensures w in Lookup(t.cache, k) <==> k in Resolves(t, w) {
      assert Resolves(t, w) == Resolves(s, w);
    }
  }

  /** `_message` keeps the socket valid, and a skipped message changes
      nothing. */
  lemma MessageValid(s: State, m: Incoming, botId: string, sent: bool, abort: bool)
    requires Valid(s)
    ensures !sent && m.author.id == botId ==> AfterMessage(s, m, botId, sent, abort) == s
    ensures Valid(AfterMessage(s, m, botId, sent, abort))
  {
    if sent || m.author.id != botId {
      var (u, t1) := CreateUser(s, m.author.id, m.author.username);
      CreateUserStaysValid(s, m.author.id, m.author.username);
      var (c, t2) := CreateChannel(t1, m.channel.id, m.channel.info);
      CreateChannelStaysValid(t1, m.channel.id, m.channel.info);
      if c.Some? {
        var msg := Message(s.id, Channel(c.value), User(u, m.nickname), IncomingParts(m));
        EmitValid(t2, Emitted(msg, sent, abort));
      }
    }
  }

  /** The gating of `_message`: a skipped or dropped message emits neither
      `preMessage` nor `message`; a delivered one emits `preMessage`
      exactly when it did not come from a send, and `message` exactly when
      it came from a send or was not aborted, from the author (with its
      nickname) to the channel, made of the text's parts. */
  lemma MessageGating(s: State, m: Incoming, botId: string, sent: bool, abort: bool)
    ensures var t := AfterMessage(s, m, botId, sent, abort);
      && |s.events| <= |t.events| && t.events[..|s.events|] == s.events
      && t.self == s.self && t.outbox == s.outbox
      && (HasPreMessage(t.events[|s.events|..]) <==> Delivered(s, m, botId, sent) && !sent)
      && (HasMessage(t.events[|s.events|..]) <==> Delivered(s, m, botId, sent) && (sent || !abort))
      && (Delivered(s, m, botId, sent) && (sent || !abort) ==>
            t.events[|t.events| - 1] == MessageEvent(Message(s.id, Target(t, m), Sender(t, m), IncomingParts(m))))
  {
    if Delivered(s, m, botId, sent) {
      MessageDelivered(s, m, botId, sent, abort);
    } else {
      MessageDropped(s, m, botId, sent, abort);
    }
  }

  lemma MessageDropped(s: State, m: Incoming, botId: string, sent: bool, abort: bool)
    requires !Delivered(s, m, botId, sent)
    ensures var t := AfterMessage(s, m, botId, sent, abort);
      && |s.events| <= |t.events| && t.events[..|s.events|] == s.events
      && t.self == s.self && t.outbox == s.outbox
      && !HasPreMessage(t.events[|s.events|..]) && !HasMessage(t.events[|s.events|..])
  {
    if sent || m.author.id != botId {
      var (u, t1) := CreateUser(s, m.author.id, m.author.username);
      CreateUserEvents(s, m.author.id, m.author.username);
      var (c, t2) := CreateChannel(t1, m.channel.id, m.channel.info);
      CreateChannelEvents(t1, m.channel.id, m.channel.info);
      assert c.None?;
      assert AfterMessage(s, m, botId, sent, abort) == t2;
      var d2 := t2.events[|s.events|..];
      assert !HasPreMessage(d2) && !HasMessage(d2);
    }
  }

  lemma MessageDelivered(s: State, m: Incoming, botId: string, sent: bool, abort: bool)
    requires Delivered(s, m, botId, sent)
    ensures var t := AfterMessage(s, m, botId, sent, abort);
      && |s.events| <= |t.events| && t.events[..|s.events|] == s.events
      && t.self == s.self && t.outbox == s.outbox
      && (HasPreMessage(t.events[|s.events|..]) <==> !sent)
      && (HasMessage(t.events[|s.events|..]) <==> sent || !abort)
      && (sent || !abort ==>
            t.events[|t.events| - 1] == MessageEvent(Message(s.id, Target(t, m), Sender(t, m), IncomingParts(m))))
  {
    var d, msg := DeliveredEvents(s, m, botId, sent, abort);
    var t := AfterMessage(s, m, botId, sent, abort);
    var extra := Emitted(msg, sent, abort);
    EmittedShape(msg, sent, abort);
    EventsAfterAppend(d, extra);
    PrefixSuffix(s.events, d + extra);
  }

  /** A delivered message's events: announcements of the author and the
      channel, then what the gating lets through, of a message from the
      author to the channel. */
  lemma DeliveredEvents(s: State, m: Incoming, botId: string, sent: bool, abort: bool) returns (d: seq<Event>, msg: Message)
    requires Delivered(s, m, botId, sent)
    ensures var t := AfterMessage(s, m, botId, sent, abort);
      && t.events == s.events + (d + Emitted(msg, sent, abort))
      && !HasPreMessage(d) && !HasMessage(d)
      && msg == Message(s.id, Target(t, m), Sender(t, m), IncomingParts(m))
      && t.self == s.self && t.outbox == s.outbox
  {
    var (u, t1) := CreateUser(s, m.author.id, m.author.username);
    CreateUserEvents(s, m.author.id, m.author.username);
    var (c, t2) := CreateChannel(t1, m.channel.id, m.channel.info);
    CreateChannelEvents(t1, m.channel.id, m.channel.info);
    var a: seq<Event> := if m.author.id in s.users then [] else [NewUser(u)];
    var b: seq<Event> := if m.channel.id in t1.channels then [] else [NewChannel(c.value)];
    d := a + b;
    msg := Message(s.id, Channel(c.value), User(u, m.nickname), IncomingParts(m));
    var t := AfterMessage(s, m, botId, sent, abort);
    assert t == t2.(events := t2.events + Emitted(msg, sent, abort));
    assert Target(t, m) == Channel(c.value) && Sender(t, m) == User(u, m.nickname);
  }

  lemma PrefixSuffix(a: seq<Event>, b: seq<Event>)
    ensures (a + b)[..|a|] == a && (a + b)[|a|..] == b
  {
  }

  /** What `_message` emits for a delivered message. */
  function Emitted(msg: Message, sent: bool, abort: bool): seq<Event>
  {
    if sent then [MessageEvent(msg)] else if abort then [PreMessage(msg)] else [PreMessage(msg), MessageEvent(msg)]
  }

  lemma EmittedShape(msg: Message, sent: bool, abort: bool)
    ensures var e := Emitted(msg, sent, abort);
      && (HasPreMessage(e) <==> !sent) && (HasMessage(e) <==> sent || !abort)
      && (sent || !abort ==> e[|e| - 1] == MessageEvent(msg))
  {
    var e := Emitted(msg, sent, abort);
    if sent {
      assert e[0].MessageEvent?;
    } else if abort {
      assert e[0].PreMessage?;
    } else {
      assert e[0].PreMessage? && e[1].MessageEvent?;
    }
  }

  lemma EventsAfterAppend(d: seq<Event>, extra: seq<Event>)
    ensures HasPreMessage(d + extra) <==> HasPreMessage(d) || HasPreMessage(extra)
    ensures HasMessage(d + extra) <==> HasMessage(d) || HasMessage(extra)
  {
    if HasPreMessage(d + extra) {
      var i :| 0 <= i < |d + extra| && (d + extra)[i].PreMessage?;
      if i >= |d| { assert extra[i - |d|].PreMessage?; }
    }
    if HasMessage(d + extra) {
      var i :| 0 <= i < |d + extra| && (d + extra)[i].MessageEvent?;
      if i >= |d| { assert extra[i - |d|].MessageEvent?; }
    }
    if HasPreMessage(extra) {
      var i :| 0 <= i < |extra| && extra[i].PreMessage?;
      assert (d + extra)[|d| + i] == extra[i];
    }
    if HasMessage(extra) {
      var i :| 0 <= i < |extra| && extra[i].MessageEvent?;
      assert (d + extra)[|d| + i] == extra[i];
    }
    if HasPreMessage(d) {
      var i :| 0 <= i < |d| && d[i].PreMessage?;
      assert (d + extra)[i] == d[i];
    }
    if HasMessage(d) {
      var i :| 0 <= i < |d| && d[i].MessageEvent?;
      assert (d + extra)[i] == d[i];
    }
  }

  // ---------------------------------------------------------------------------
  // DiscordChannel._send

  /** `_discordMention` of a party, when it is one of this socket's users
      (a nickname wrapper included) or channels. */
  function Native(s: State, p: Party): Option<string>
  {
    match p
    case User(r, _) => if r in s.userObjs then Some(UserNative(s.userObjs[r])) else None
    case Channel(r) => if r in s.channelObjs then Some(ChannelNative(s.channelObjs[r])) else None
    case _ => None
  }

  /** The text one part is sent as: a newline for `NewLine`, nothing for
      the `Action` marker, a user or channel in bold, a mention of this
      socket's own objects as a native mention and any other mention in
      bold; everything else as its string. */
  function SendText(s: State, part: Part, names: Names): string
  {
    match part
    case Action => ""
    case NewLine => "\n"
    case Mention(p) => if Native(s, p).Some? then Native(s, p).value else "**" + MentionStr(p, names) + "**"
    case Named(p) => "**" + Name(p, names) + "**"
    case _ => PartText(part, names)
  }

  /** The parts' texts joined with nothing between them. */
  function SendContent(s: State, parts: seq<Part>, names: Names): string
  {
    if parts == [] then "" else SendContent(s, parts[..|parts| - 1], names) + SendText(s, parts[|parts| - 1], names)
  }

  /** The text handed to the client: wrapped in underscores when some part
      is the `Action` marker. */
  function Outgoing(s: State, parts: seq<Part>, names: Names): string
  {
    var content := SendContent(s, parts, names);
    if HasAction(parts, false) then "_" + content + "_" else content
  }

  /** `_send(parts, silent)` on channel `c`: a non-silent send goes through
      `preMessage` and stops when a listener aborts it; the text is handed
      to the client, which feeds a non-silent send back through
      `_message`. */
  function AfterSend(s: State, c: Ref, parts: seq<Part>, silent: bool, abort: bool, names: Names): State
    requires c in s.channelObjs
  {
    var msg := Message(s.id, Channel(c), SelfSender(s), parts);
    var sent := Sent(s.channelObjs[c].id, Outgoing(s, parts, names), !silent);
    if silent then s.(outbox := s.outbox + [sent])
    else if abort then s.(events := s.events + [PreMessage(msg)])
    else s.(events := s.events + [PreMessage(msg)], outbox := s.outbox + [sent])
  }

  lemma SendContentSnoc(s: State, parts: seq<Part>, part: Part, names: Names)
    ensures SendContent(s, parts + [part], names) == SendContent(s, parts, names) + SendText(s, part, names)
  {
    assert (parts + [part])[..|parts|] == parts;
  }

  lemma HasActionSnoc(parts: seq<Part>, part: Part)
    ensures HasAction(parts + [part], false) <==> HasAction(parts, false) || part == Action
  {
    var ps := parts + [part];
    if part == Action {
      assert IsActionPart(ps[|parts|], false);
    }
    if HasAction(parts, false) {
      var i :| 0 <= i < |parts| && IsActionPart(parts[i], false);
      assert IsActionPart(ps[i], false);
    }
  }

  /** The text of the parts depends only on the socket's objects. */
  lemma {:induction false} SendContentSameObjects(s: State, t: State, parts: seq<Part>, names: Names)
    requires s.userObjs == t.userObjs && s.channelObjs == t.channelObjs
    ensures SendContent(s, parts, names) == SendContent(t, parts, names)
  {
    if parts != [] {
      SendContentSameObjects(s, t, parts[..|parts| - 1], names);
    }
  }

  /** `send` and `sendSilent`: a silent send emits nothing and always
      reaches the client, without echo; a non-silent one emits
      `preMessage` with the socket's own user as sender and reaches the
      client, with echo, exactly when not aborted. The socket stays valid. */
  lemma SendGating(s: State, c: Ref, parts: seq<Part>, silent: bool, abort: bool, names: Names)
    requires Valid(s) && c in s.channelObjs
    ensures var t := AfterSend(s, c, parts, silent, abort, names);
      && Valid(t)
      && (silent ==> t.events == s.events)
      && (!silent ==> t.events == s.events + [PreMessage(Message(s.id, Channel(c), SelfSender(s), parts))])
      && (silent || !abort ==> t.outbox == s.outbox + [Sent(s.channelObjs[c].id, Outgoing(s, parts, names), !silent)])
      && (!silent && abort ==> t.outbox == s.outbox)
  {
    var t := AfterSend(s, c, parts, silent, abort, names);
    forall k, w ensures w in Lookup(t.cache, k) <==> k in Resolves(t, w) {
      assert Resolves(t, w) == Resolves(s, w);
    }
  }

  /** The sender of a message the socket sends: its own user, or `null`. */
  function SelfSender(s: State): Party
  {
    if s.self.Some? then User(s.self.value, None) else Nobody
  }

  /** An action sent by the socket comes back as an action: when the text
      of the parts holds no underscore, the echoed message's action rewrite
      gives the `Action` marker and that text again; without the marker it
      gives the text unchanged, unless the text itself looks like an
      action. */
  lemma SendEchoRoundTrip(s: State, parts: seq<Part>, names: Names)
    requires forall i :: 0 <= i < |SendContent(s, parts, names)| ==> SendContent(s, parts, names)[i] != '_'
    ensures HasAction(parts, false) ==>
      ActionRewrite(Outgoing(s, parts, names)) == [Action, Text(SendContent(s, parts, names))]
    ensures !HasAction(parts, false) ==>
      ActionRewrite(Outgoing(s, parts, names)) == [Text(SendContent(s, parts, names))]
  {
    var content := SendContent(s, parts, names);
    if HasAction(parts, false) {
      var out := "_" + content + "_";
      assert out[1..|out| - 1] == content;
      assert forall i :: 1 <= i < |out| - 1 ==> out[i] == content[i - 1];
    } else if |content| > 0 {
      assert !ActionForm(content) by { assert content[0] != '_'; }
    }
  }

  /** Mentions of this socket's own user and channel objects are sent as
      native mentions; a mention of anything else is sent in bold. */
  lemma SendMentions(s: State, u: Ref, nick: Option<string>, c: Ref, p: Party, names: Names)
    requires u in s.userObjs && c in s.channelObjs && Native(s, p).None?
    ensures SendContent(s, [Mention(User(u, nick))], names) == "<@" + s.userObjs[u].id + ">"
    ensures SendContent(s, [Mention(Channel(c))], names) == "<#" + s.channelObjs[c].id + ">"
    ensures SendContent(s, [Mention(p)], names) == "**" + MentionStr(p, names) + "**"
  {
    assert [Mention(User(u, nick))][..0] == [] && [Mention(Channel(c))][..0] == [] && [Mention(p)][..0] == [];
  }

  // ---------------------------------------------------------------------------
  // Authentication

  /** The `auth` options after `extend({ }, defaults, auth)`: an option left
      out is `null`. */
  datatype Auth = Auth(token: Option<string>, email: Option<string>, password: Option<string>)

  /** How `connect` logs in: with the token when there is one, else with
      email and password. */
  datatype Login = TokenLogin(token: string) | PasswordLogin(email: string, password: string)

  /** The constructor's check, together with the choice `connect` makes. */
  function CheckAuth(id: string, auth: Auth): (r: Result<Login, JsError>)
    ensures r.Err? <==> auth.token.None? && (auth.email.None? || auth.password.None?)
    ensures r.Err? ==> r.error == Error(id + ": token or email and password required")
    ensures r.Ok? ==> (r.value.TokenLogin? <==> auth.token.Some?)
    ensures r.Ok? && r.value.TokenLogin? ==> Some(r.value.token) == auth.token
    ensures r.Ok? && r.value.PasswordLogin? ==> Some(r.value.email) == auth.email && Some(r.value.password) == auth.password
  {
    if auth.token.None? && (auth.email.None? || auth.password.None?) then
      Err(Error(id + ": token or email and password required"))
    else if auth.token.Some? then Ok(TokenLogin(auth.token.value))
    else Ok(PasswordLogin(auth.email.value, auth.password.value))
  }

  /** A token alone is enough, whatever else is given. */
  lemma TokenSuffices(id: string, token: string, email: Option<string>, password: Option<string>)
    ensures CheckAuth(id, Auth(Some(token), email, password)) == Ok(TokenLogin(token))
  {
  }

  // ---------------------------------------------------------------------------
  // The socket object

  /** `DiscordSocket`: the maps of users and channels the client reported,
      the objects, and the resolver they are registered with. The client's
      events arrive as method calls carrying what the client reports. */
  class DiscordSocket {
    const id: string
    const login: Login
    const resolver: Resolver
    var self: Option<Ref>
    var users: map<string, Ref>
    var userOrder: seq<string>
    var channels: map<string, Ref>
    var channelOrder: seq<string>
    var userObjs: map<Ref, UserObj>
    var channelObjs: map<Ref, ChannelObj>
    var next: nat
    var events: seq<Event>
    var outbox: seq<Sent>

    ghost function Snapshot(): State
      reads this, resolver
    {
      State(id, self, users, userOrder, channels, channelOrder, userObjs, channelObjs, next, events, outbox, resolver.cache)
    }

    /** The constructor, once `CheckAuth` accepted the options. */
    constructor (id: string, login: Login)
      ensures Snapshot() == Initial(id) && this.login == login
      ensures Valid(Snapshot()) && fresh(resolver)
    {
      this.id := id;
      this.login := login;
      resolver := new Resolver();
      self := None;
      users, userOrder, channels, channelOrder := map[], [], map[], [];
      userObjs, channelObjs := map[], map[];
      next, events, outbox := 0, [], [];
    }

    /** `resolve(resolveStr)`: the type and the matches. */
    method Resolve(resolveStr: string) returns (kind: Option<string>, matches: seq<Ref>)
      ensures kind == Type(resolveStr) && matches == Lookup(resolver.cache, resolveStr)
    {
      kind := Type(resolveStr);
      matches := resolver.Resolve(resolveStr);
    }

    /** `_getUser(id, create)`, with the username the client reports. */
    method GetUser(userId: string, username: string, create: bool) returns (user: Option<Ref>)
      modifies this, resolver
      ensures !create ==> user == FindUser(old(Snapshot()), userId) && Snapshot() == old(Snapshot())
      ensures create ==> user == Some(CreateUser(old(Snapshot()), userId, username).0)
                         && Snapshot() == CreateUser(old(Snapshot()), userId, username).1
    {
      if userId in users {
        user := Some(users[userId]);
      } else if !create {
        user := None;
      } else {
        var u := MakeUser(userId, username);
        user := Some(u);
      }
    }

    /** The creating branch of `_getUser`: a new user object, stored,
        announced with `newUser` and handed to the resolver. */
    method MakeUser(userId: string, username: string) returns (u: Ref)
      requires userId !in users
      modifies this, resolver
      ensures (u, Snapshot()) == CreateUser(old(Snapshot()), userId, username)
    {
      u := Ref(id, next);
      var obj := UserObj(userId, username);
      resolver.New(u, UserResolves(obj));
      users, userOrder, userObjs, next, events :=
        users[userId := u], userOrder + [userId], userObjs[u := obj], next + 1, events + [NewUser(u)];
    }

    /** `_getChannel(id, create)`, with what the client reports about it. */
    method GetChannel(channelId: string, info: ChannelInfo, create: bool) returns (channel: Option<Ref>)
      modifies this, resolver
      ensures !create ==> channel == FindChannel(old(Snapshot()), channelId) && Snapshot() == old(Snapshot())
      ensures create ==> channel == CreateChannel(old(Snapshot()), channelId, info).0
                         && Snapshot() == CreateChannel(old(Snapshot()), channelId, info).1
    {
      if channelId in channels {
        channel := Some(channels[channelId]);
      } else if !create || info.kind != "text" {
        channel := None;
      } else {
        var c := MakeChannel(channelId, info);
        channel := Some(c);
      }
    }

    /** The creating branch of `_getChannel` for a text channel. */
    method MakeChannel(channelId: string, info: ChannelInfo) returns (c: Ref)
      requires channelId !in channels && info.kind == "text"
      modifies this, resolver
      ensures (Some(c), Snapshot()) == CreateChannel(old(Snapshot()), channelId, info)
    {
      c := Ref(id, next);
      var obj := ChannelObj(channelId, info.name, info.guild);
      resolver.New(c, ChannelResolves(obj));
      channels, channelOrder, channelObjs, next, events :=
        channels[channelId := c], channelOrder + [channelId], channelObjs[c := obj], next + 1, events + [NewChannel(c)];
    }

    /** The `ready` listener. */
    method Ready(bot: UserInfo, userList: seq<UserInfo>, channelList: seq<ChannelEntry>)
      modifies this, resolver
      ensures Snapshot() == AfterReady(old(Snapshot()), bot, userList, channelList)
    {
      ghost var s := Snapshot();
      ghost var (bu, t0) := CreateUser(s, bot.id, bot.username);
      var u := GetUser(bot.id, bot.username, true);
      events := events + [Connected(u.value)];
      self := u;
      ghost var t1 := t0.(events := t0.events + [Connected(bu)], self := Some(bu));
      assert Snapshot() == t1;
      AddUsers(userList);
      AddChannels(channelList);
    }

    /** The loop of `ready` over the users the client knows. */
    method AddUsers(userList: seq<UserInfo>)
      modifies this, resolver
      ensures Snapshot() == CreateUsers(old(Snapshot()), userList)
    {
      ghost var s := Snapshot();
      var i := 0;
      while i < |userList|
        invariant 0 <= i <= |userList|
        invariant Snapshot() == CreateUsers(s, userList[..i])
      {
        var ignored := GetUser(userList[i].id, userList[i].username, true);
        assert userList[..i + 1][..i] == userList[..i];
        i := i + 1;
      }
      assert userList[..i] == userList;
    }

    /** The loop of `ready` over the channels the client knows. */
    method AddChannels(channelList: seq<ChannelEntry>)
      modifies this, resolver
      ensures Snapshot() == CreateChannels(old(Snapshot()), channelList)
    {
      ghost var s := Snapshot();
      var j := 0;
      while j < |channelList|
        invariant 0 <= j <= |channelList|
        invariant Snapshot() == CreateChannels(s, channelList[..j])
      {
        var ignored := GetChannel(channelList[j].id, channelList[j].info, true);
        assert channelList[..j + 1][..j] == channelList[..j];
        j := j + 1;
      }
      assert channelList[..j] == channelList;
    }

    /** The `guildMemberAdd` listener. */
    method MemberAdd(user: UserInfo)
      modifies this, resolver
      ensures Snapshot() == CreateUser(old(Snapshot()), user.id, user.username).1
    {
      var ignored := GetUser(user.id, user.username, true);
    }

    /** The `guildMemberRemove` listener; `visible` is whether the client
        still sees a user of that id. */
    method MemberRemove(userId: string, visible: bool) returns (err: Option<JsError>)
      requires UserTable(Snapshot())
      modifies this, resolver
      ensures var r := AfterMemberRemove(old(Snapshot()), userId, visible);
        if r.Ok? then err.None? && Snapshot() == r.value else err == Some(r.error) && Snapshot() == old(Snapshot())
    {
      if visible {
        err := None;
        return;
      }
      if userId !in users {
        err := Some(TypeError("Cannot read properties of undefined (reading '_id')"));
        return;
      }
      ghost var s := Snapshot();
      var u := users[userId];
      assert LiveUser(s, u);
      users := users - {userId};
      userOrder := JsSet.Delete(userOrder, userId);
      events := events + [Removed(u)];
      resolver.OnRemoved(u, UserResolves(userObjs[u]));
      err := None;
    }

    /** The `presenceUpdate` listener, with the names the client reports. */
    method PresenceUpdate(userId: string, oldName: string, newName: string) returns (err: Option<JsError>)
      requires UserTable(Snapshot())
      modifies this, resolver
      ensures var r := AfterPresence(old(Snapshot()), userId, oldName, newName);
        if r.Ok? then err.None? && Snapshot() == r.value else err == Some(r.error) && Snapshot() == old(Snapshot())
    {
      if oldName == newName {
        err := None;
        return;
      }
      if userId !in users {
        err := Some(TypeError("Cannot read properties of undefined (reading 'resolveStrings')"));
        return;
      }
      var u := users[userId];
      var obj := userObjs[u];
      var renamed := obj.(name := newName);
      userObjs := userObjs[u := renamed];
      events := events + [Renamed(u, oldName, newName, UserResolves(obj))];
      resolver.OnRenamed(u, UserResolves(obj), UserResolves(renamed));
      err := None;
    }

    /** The `channelCreate` listener. */
    method ChannelCreate(channel: ChannelEntry)
      modifies this, resolver
      ensures Snapshot() == CreateChannel(old(Snapshot()), channel.id, channel.info).1
    {
      var ignored := GetChannel(channel.id, channel.info, true);
    }

    /** The `channelUpdate` listener, with the names the client reports. */
    method ChannelUpdate(channelId: string, oldName: string, newName: string)
      requires ChannelTable(Snapshot())
      modifies this, resolver
      ensures Snapshot() == AfterChannelUpdate(old(Snapshot()), channelId, oldName, newName)
    {
      if channelId in channels && oldName != newName {
        var c := channels[channelId];
        var obj := channelObjs[c];
        var renamed := obj.(name := newName);
        channelObjs := channelObjs[c := renamed];
        events := events + [Renamed(c, oldName, newName, ChannelResolves(obj))];
        resolver.OnRenamed(c, ChannelResolves(obj), ChannelResolves(renamed));
      }
    }

    /** The deletion listener under the event name the client emits. */
    method ChannelDelete(channelId: string) returns (err: Option<JsError>)
      requires ChannelTable(Snapshot())
      modifies this, resolver
      ensures var r := AfterChannelDelete(old(Snapshot()), channelId);
        if r.Ok? then err.None? && Snapshot() == r.value else err == Some(r.error) && Snapshot() == old(Snapshot())
    {
      if channelId !in channels {
        err := Some(TypeError("Cannot read properties of undefined (reading '_id')"));
        return;
      }
      ghost var s := Snapshot();
      var c := channels[channelId];
      assert LiveChannel(s, c) && !LiveUser(s, c);
      channels := channels - {channelId};
      channelOrder := JsSet.Delete(channelOrder, channelId);
      events := events + [Removed(c)];
      resolver.OnRemoved(c, ChannelResolves(channelObjs[c]));
      err := None;
    }

    /** The `disconnected` listener: every user and then every channel
        emits `removed`, the maps are cleared, and `disconnected` is
        emitted. */
    method Disconnected()
      requires UserTable(Snapshot()) && ChannelTable(Snapshot())
      modifies this, resolver
      ensures Snapshot() == Disconnect(old(Snapshot()))
    {
      var farewells := SayFarewells(Snapshot());
      Forget(farewells);
    }

    /** The end of `disconnected`: the maps are cleared and `disconnected`
        is emitted after the farewells. */
    method Forget(farewells: seq<Event>)
      modifies this
      ensures var reason := if IsConnected(old(self)) then "Disconnected" else "Unable to connect / login";
        Snapshot() == old(Snapshot()).(users := map[], userOrder := [], channels := map[], channelOrder := [],
                                       events := old(events) + farewells + [Event.Disconnected(reason)], self := None)
    {
      var reason := if self.Some? then "Disconnected" else "Unable to connect / login";
      users, userOrder, channels, channelOrder, self, events :=
        map[], [], map[], [], None, events + farewells + [Event.Disconnected(reason)];
    }

    /** The `removed` events of all users and then all channels. */
    method SayFarewells(ghost s: State) returns (emitted: seq<Event>)
      requires UserTable(s) && ChannelTable(s) && s.users == users && s.channels == channels
      requires s.userObjs == userObjs && s.channelObjs == channelObjs
      requires s.userOrder == userOrder && s.channelOrder == channelOrder && s.cache == resolver.cache
      modifies resolver
      ensures emitted == Farewells(s) && resolver.cache == FarewellCache(s)
    {
      var userFarewells := UserFarewells(s);
      var channelFarewells := ChannelFarewells(s);
      emitted := userFarewells + channelFarewells;
    }

    /** `for (let user of this._users.values()) user.emit("removed")`: the
        events, in order, and the resolver taking each user off the resolve
        strings it has in `s`. */
    method UserFarewells(ghost s: State) returns (emitted: seq<Event>)
      requires UserTable(s) && s.users == users && s.userObjs == userObjs
      modifies resolver
      ensures emitted == RemovedEvents(OrderRefs(userOrder, users))
      ensures resolver.cache == Dropped(old(resolver.cache), s, OrderRefs(userOrder, users))
    {
      emitted := [];
      var i := 0;
      assert userOrder[..0] == [];
      while i < |userOrder|
        invariant 0 <= i <= |userOrder|
        invariant emitted == RemovedEvents(OrderRefs(userOrder[..i], users))
        invariant resolver.cache == Dropped(old(resolver.cache), s, OrderRefs(userOrder[..i], users))
      {
        var key := userOrder[i];
        assert userOrder[..i + 1][..i] == userOrder[..i];
        ghost var done := OrderRefs(userOrder[..i], users);
        if key in users {
          var u := users[key];
          assert LiveUser(s, u);
          assert OrderRefs(userOrder[..i + 1], users) == done + [u];
          assert (done + [u])[..|done|] == done;
          emitted := emitted + [Removed(u)];
          resolver.OnRemoved(u, UserResolves(userObjs[u]));
        } else {
          assert OrderRefs(userOrder[..i + 1], users) == done;
        }
        i := i + 1;
      }
      assert userOrder[..i] == userOrder;
    }

    /** `for (let channel of this._channels.values()) channel.emit("removed")`. */
    method ChannelFarewells(ghost s: State) returns (emitted: seq<Event>)
      requires ChannelTable(s) && s.channels == channels && s.channelObjs == channelObjs && s.userObjs == userObjs
      modifies resolver
      ensures emitted == RemovedEvents(OrderRefs(channelOrder, channels))
      ensures resolver.cache == Dropped(old(resolver.cache), s, OrderRefs(channelOrder, channels))
    {
      emitted := [];
      var j := 0;
      assert channelOrder[..0] == [];
      while j < |channelOrder|
        invariant 0 <= j <= |channelOrder|
        invariant emitted == RemovedEvents(OrderRefs(channelOrder[..j], channels))
        invariant resolver.cache == Dropped(old(resolver.cache), s, OrderRefs(channelOrder[..j], channels))
      {
        var key := channelOrder[j];
        assert channelOrder[..j + 1][..j] == channelOrder[..j];
        ghost var done := OrderRefs(channelOrder[..j], channels);
        if key in channels {
          var c := channels[key];
          assert LiveChannel(s, c) && !LiveUser(s, c);
          assert OrderRefs(channelOrder[..j + 1], channels) == done + [c];
          assert (done + [c])[..|done|] == done;
          emitted := emitted + [Removed(c)];
          resolver.OnRemoved(c, ChannelResolves(channelObjs[c]));
        } else {
          assert OrderRefs(channelOrder[..j + 1], channels) == done;
        }
        j := j + 1;
      }
      assert channelOrder[..j] == channelOrder;
    }

    /** `_message(discordMsg, sent)`, with the bot account's id and
        whether a `preMessage` listener aborts the message. */
    method IncomingMessage(m: Incoming, botId: string, sent: bool, abort: bool)
      modifies this, resolver
      ensures Snapshot() == AfterMessage(old(Snapshot()), m, botId, sent, abort)
    {
      if !sent && m.author.id == botId {
        return;
      }
      var sender := GetUser(m.author.id, m.author.username, true);
      var target := GetChannel(m.channel.id, m.channel.info, true);
      if target.None? {
        return;
      }
      var parts := MessageParts(m);
      var message := Message(id, Channel(target.value), User(sender.value, m.nickname), parts);
      if !sent {
        events := events + [PreMessage(message)];
        if abort {
          return;
        }
      }
      events := events + [MessageEvent(message)];
    }

    /** The parts of an incoming message: its text after the action
        rewrite, then a space and an attachment for each attachment. */
    static method MessageParts(m: Incoming) returns (parts: seq<Part>)
      ensures parts == IncomingParts(m)
    {
      parts := ActionRewrite(m.content);
      var i := 0;
      assert m.attachments[..0] == [];
      while i < |m.attachments|
        invariant 0 <= i <= |m.attachments|
        invariant parts == ActionRewrite(m.content) + AttachmentParts(m.attachments[..i])
      {
        assert m.attachments[..i + 1][..i] == m.attachments[..i];
        parts := parts + [Text(" "), Attachment(m.attachments[i].url)];
        i := i + 1;
      }
      assert m.attachments[..i] == m.attachments;
    }

    /** `_send(parts, silent)` on one of this socket's channels, with
        whether a `preMessage` listener aborts it and the names parties
        print under. */
    method Send(c: Ref, parts: seq<Part>, silent: bool, abort: bool, names: Names)
      requires c in channelObjs
      modifies this
      ensures Snapshot() == AfterSend(old(Snapshot()), c, parts, silent, abort, names)
    {
      var sender := if self.Some? then User(self.value, None) else Nobody;
      var message := Message(id, Channel(c), sender, parts);
      if !silent {
        events := events + [PreMessage(message)];
        if abort {
          return;
        }
      }
      var content, isAction := Render(parts, names);
      SendContentSameObjects(old(Snapshot()), Snapshot(), parts, names);
      if isAction {
        content := "_" + content + "_";
      }
      outbox := outbox + [Sent(channelObjs[c].id, content, !silent)];
    }

    /** The `augmentClone(...).join("")` of `_send`: the text of each part
        in turn, noting whether an `Action` marker was among them. */
    method Render(parts: seq<Part>, names: Names) returns (content: string, isAction: bool)
      ensures content == SendContent(Snapshot(), parts, names)
      ensures isAction <==> HasAction(parts, false)
    {
      ghost var s := Snapshot();
      content, isAction := "", false;
      var i := 0;
      while i < |parts|
        invariant 0 <= i <= |parts|
        invariant content == SendContent(s, parts[..i], names)
        invariant isAction <==> HasAction(parts[..i], false)
      {
        var part := parts[i];
        var text := PartSendText(part, names);
        if part == Action {
          isAction := true;
        }
        assert parts[..i + 1] == parts[..i] + [part];
        SendContentSnoc(s, parts[..i], part, names);
        HasActionSnoc(parts[..i], part);
        content := content + text;
        i := i + 1;
      }
      assert parts[..i] == parts;
    }

    /** The text `_send` writes for one part. */
    method PartSendText(part: Part, names: Names) returns (text: string)
      ensures text == SendText(Snapshot(), part, names)
    {
      match part {
        case Action =>
          text := "";
        case NewLine =>
          text := "\n";
        case Mention(p) =>
          text := MentionText(p, names);
        case Named(p) =>
          text := "**" + Name(p, names) + "**";
        case _ =>
          text := PartText(part, names);
      }
    }

    /** A mention as `_send` writes it: the native mention of this socket's
        own users and channels, anything else in bold. */
    method MentionText(p: Party, names: Names) returns (text: string)
      ensures text == SendText(Snapshot(), Mention(p), names)
    {
      match p {
        case User(r, _) =>
          text := if r in userObjs then "<@" + userObjs[r].id + ">" else "**" + MentionStr(p, names) + "**";
        case Channel(r) =>
          text := if r in channelObjs then "<#" + channelObjs[r].id + ">" else "**" + MentionStr(p, names) + "**";
        case _ =>
          text := "**" + MentionStr(p, names) + "**";
      }
    }
  }
}
