/** The protocol-neutral part of a socket (`sockets/Socket.js`): entity
    handles, the parts a message is made of, the message value with its
    `reply` and `toString`, the events a socket emits, and the `Resolver`
    that keeps resolve strings pointing at the users and channels that
    carry them. */
module Socket {
  import opened Wrappers
  import JsSet
  import Iterable
  import opened Extensions

  /** A user or channel object: the socket it belongs to and a handle that
      tells objects apart (two objects for the same name are different
      handles). */
  datatype Ref = Ref(socket: string, handle: nat)

  /** What a message's sender or target is. A `User` may carry a nickname
      that overrides its name (the Discord socket wraps the sender in such
      an object); `Nobody` is `null`. */
  datatype Party =
    | User(ref: Ref, nick: Option<string>)
    | Channel(ref: Ref)
    | PrivateChannel(ref: Ref, user: Ref)
    | Nobody

  /** The parts a message is made of: strings, and the marker objects and
      wrappers of `Socket.js` (plus the IRC `Notice` marker). `Named` is a
      user or channel object used as a part. */
  datatype Part =
    | Text(text: string)
    | Action
    | NewLine
    | Notice
    | Mention(mentionable: Party)
    | Named(entity: Party)
    | Attachment(url: string)

  /** A message: the socket id, target, sender and parts (the time stamp is
      left out). */
  datatype Message = Message(socket: string, target: Party, sender: Party, parts: seq<Part>)

  /** The events a socket emits, in the order it emits them. */
  datatype Event =
    | Connected(self: Ref)
    | Disconnected(reason: string)
    | NewUser(user: Ref)
    | NewChannel(channel: Ref)
    | PreMessage(premessage: Message)
    | MessageEvent(message: Message)
    | Renamed(thing: Ref, oldName: string, newName: string, oldResolves: seq<string>)
    | Removed(removed: Ref)

  /** How a socket names its objects: the current `name` of each object and
      the text its users' `mentionStr` puts before the name. */
  datatype Names = Names(name: Ref -> string, userMention: string)

  /** `String.prototype.toLowerCase` on the ASCII letters. */
  function LowerChar(c: char): (r: char)
    ensures 'A' <= c <= 'Z' ==> r as int == c as int + 32
    ensures !('A' <= c <= 'Z') ==> r == c
  {
    if 'A' <= c <= 'Z' then (c as int + 32) as char else c
  }

  function LowerCase(s: string): (r: string)
    ensures |r| == |s|
    ensures forall i :: 0 <= i < |s| ==> r[i] == LowerChar(s[i])
  {
    if s == [] then [] else [LowerChar(s[0])] + LowerCase(s[1..])
  }

  /** Lower-casing twice changes nothing more. */
  lemma LowerCaseIdempotent(s: string)
    ensures LowerCase(LowerCase(s)) == LowerCase(s)
  {
    assert forall i :: 0 <= i < |s| ==> LowerChar(LowerChar(s[i])) == LowerChar(s[i]);
  }

  // ---------------------------------------------------------------------------
  // Names, mentions and the socket's own user

  predicate IsUser(p: Party) { p.User? }

  /** `instanceof Socket.Channel`: private channels are channels too. */
  predicate IsChannel(p: Party) { p.Channel? || p.PrivateChannel? }

  /** `toString()` of a party: its name; a private channel is "@" and the
      name of its user. */
  function Name(p: Party, names: Names): string
  {
    match p
    case User(r, nick) => if nick.Some? then nick.value else names.name(r)
    case Channel(r) => names.name(r)
    case PrivateChannel(_, u) => "@" + names.name(u)
    case Nobody => "null"
  }

  /** `mentionStr`: the name, with the socket's user prefix for users. */
  function MentionStr(p: Party, names: Names): string
  {
    if p.User? then names.userMention + Name(p, names) else Name(p, names)
  }

  /** The string a part turns into. */
  function PartText(part: Part, names: Names): string
  {
    match part
    case Text(s) => s
    case Action => "(action) "
    case NewLine => " "
    case Notice => "(notice) "
    case Mention(p) => MentionStr(p, names)
    case Named(p) => Name(p, names)
    case Attachment(url) => url
  }

  /** `isConnected`: the socket knows its own user. */
  function IsConnected(self: Option<Ref>): (b: bool)
    ensures b <==> self != None
  {
    self.Some?
  }

  /** The socket's own user after one of its events: `connected` sets it,
      `disconnected` clears it, everything else leaves it. */
  function SelfAfter(self: Option<Ref>, e: Event): (r: Option<Ref>)
    ensures e.Connected? ==> r == Some(e.self) && IsConnected(r)
    ensures e.Disconnected? ==> !IsConnected(r)
    ensures !e.Connected? && !e.Disconnected? ==> r == self
  {
    match e
    case Connected(u) => Some(u)
    case Disconnected(_) => None
    case _ => self
  }

  /** `isSelf`: the very object the socket holds as its own user. A
      nickname wrapper is a different object, so it is never the socket's
      own user. */
  function IsSelf(self: Option<Ref>, p: Party): (b: bool)
    ensures b ==> IsConnected(self) && p.User?
    ensures b <==> self.Some? && p == User(self.value, None)
  {
    p.User? && p.nick.None? && self == Some(p.ref)
  }

  // ---------------------------------------------------------------------------
  // Message.reply / Message.toString

  /** `message.reply(...parts)`: the parts sent to the target, `None` when
      nothing is sent, or the error thrown for a target that is not a
      channel. */
  function Reply(m: Message, parts: seq<Part>, names: Names): (r: Result<Option<seq<Part>>, JsError>)
    ensures r.Err? <==> !IsChannel(m.target)
    ensures r.Err? ==> r.error == Error("Can't send messages to non-channel '" + Name(m.target, names) + "'")
    ensures m.target.PrivateChannel? ==> r == Ok(Some(parts))
    ensures m.target.Channel? && m.sender.User? ==> r == Ok(Some([Mention(m.sender), Text(": ")] + parts))
    ensures m.target.Channel? && !m.sender.User? ==> r == Ok(None)
  {
    if !IsChannel(m.target) then Err(Error("Can't send messages to non-channel '" + Name(m.target, names) + "'"))
    else if m.target.PrivateChannel? then Ok(Some(parts))
    else if m.sender.User? then Ok(Some(Iterable.Prepend(parts, [Mention(m.sender), Text(": ")])))
    else Ok(None)
  }

  /** The strings of parts, where a part counting as an action marker
      contributes nothing. `loose` is the `==` of `toString`, under which
      the text "(action) " equals the marker too; otherwise only the
      marker itself (`===`) counts. */
  predicate IsActionPart(part: Part, loose: bool)
  {
    part == Action || (loose && part == Text("(action) "))
  }

  function Rendered(parts: seq<Part>, names: Names, loose: bool): (r: seq<string>)
    ensures |r| == |parts|
    ensures forall i :: 0 <= i < |parts| ==>
      r[i] == if IsActionPart(parts[i], loose) then "" else PartText(parts[i], names)
  {
    if parts == [] then []
    else [if IsActionPart(parts[0], loose) then "" else PartText(parts[0], names)] + Rendered(parts[1..], names, loose)
  }

  predicate HasAction(parts: seq<Part>, loose: bool)
  {
    exists i :: 0 <= i < |parts| && IsActionPart(parts[i], loose)
  }

  /** `join(map(parts, …), "")`: "undefined" for no parts at all. */
  function Content(parts: seq<Part>, names: Names, loose: bool): string
  {
    Iterable.Join(Rendered(parts, names, loose), "")
  }

  /** `message.toString()`: `[target] <sender> content`, or
      `[target] * sender content` when some part is an action marker. */
  function ToString(m: Message, names: Names): string
  {
    var who := if HasAction(m.parts, true) then "* " + Name(m.sender, names) else "<" + Name(m.sender, names) + ">";
    "[" + Name(m.target, names) + "] " + who + " " + Content(m.parts, names, true)
  }

  lemma {:induction false} RenderedAppend(a: seq<Part>, b: seq<Part>, names: Names, loose: bool)
    ensures Rendered(a + b, names, loose) == Rendered(a, names, loose) + Rendered(b, names, loose)
  {
  }

  /** Without parts the content reads "undefined"; otherwise it is the
      parts' strings one after the other, action markers dropped. */
  lemma ContentShape(parts: seq<Part>, names: Names, loose: bool)
    ensures parts == [] ==> Content(parts, names, loose) == "undefined"
    ensures parts != [] ==> Content(parts, names, loose) == Iterable.Concat(Rendered(parts, names, loose))
  {
    if parts == [] {
      Iterable.JoinShape([], "", "");
    } else {
      Iterable.JoinEmptySeparator(Rendered(parts, names, loose));
    }
  }

  lemma RenderedInsert(parts: seq<Part>, i: nat, names: Names, loose: bool)
    requires i <= |parts|
    ensures Rendered(parts[..i] + [Action] + parts[i..], names, loose)
         == Rendered(parts[..i], names, loose) + [""] + Rendered(parts[i..], names, loose)
    ensures Rendered(parts, names, loose) == Rendered(parts[..i], names, loose) + Rendered(parts[i..], names, loose)
  {
    RenderedAppend(parts[..i] + [Action], parts[i..], names, loose);
    RenderedAppend(parts[..i], [Action], names, loose);
    assert Rendered([Action], names, loose) == [""];
    RenderedAppend(parts[..i], parts[i..], names, loose);
    assert parts[..i] + parts[i..] == parts;
  }

  lemma ConcatEmptyTail(a: seq<string>)
    ensures Iterable.Concat(a + [""]) == Iterable.Concat(a)
  {
    var e: seq<string> := [""];
    assert Iterable.Concat(e) == "" by { assert e[1..] == []; }
    Iterable.ConcatAppend(a, e);
  }

  lemma ConcatWithEmpty(a: seq<string>, b: seq<string>)
    ensures Iterable.Concat(a + [""] + b) == Iterable.Concat(a + b)
  {
    Iterable.ConcatAppend(a + [""], b);
    ConcatEmptyTail(a);
    Iterable.ConcatAppend(a, b);
  }

  /** An action marker contributes nothing to the content. */
  lemma ContentWithAction(parts: seq<Part>, i: nat, names: Names, loose: bool)
    requires parts != [] && i <= |parts|
    ensures Content(parts[..i] + [Action] + parts[i..], names, loose) == Content(parts, names, loose)
  {
    var ps := parts[..i] + [Action] + parts[i..];
    RenderedInsert(parts, i, names, loose);
    ConcatWithEmpty(Rendered(parts[..i], names, loose), Rendered(parts[i..], names, loose));
    ContentShape(ps, names, loose);
    ContentShape(parts, names, loose);
  }

  /** Putting an action marker anywhere into a message leaves its content
      as it was and switches the sender to the `* sender` form. */
  lemma ToStringWithAction(m: Message, i: nat, names: Names)
    requires m.parts != [] && i <= |m.parts|
    ensures var m' := m.(parts := m.parts[..i] + [Action] + m.parts[i..]);
      ToString(m', names) ==
        "[" + Name(m.target, names) + "] * " + Name(m.sender, names) + " " + Content(m.parts, names, true)
  {
    var ps := m.parts[..i] + [Action] + m.parts[i..];
    assert IsActionPart(ps[i], true);
    assert HasAction(ps, true);
    ContentWithAction(m.parts, i, names, true);
  }

  /** A message without action markers prints its sender in angle brackets. */
  lemma ToStringPlain(m: Message, names: Names)
    requires forall i :: 0 <= i < |m.parts| ==> !IsActionPart(m.parts[i], true)
    ensures ToString(m, names) ==
      "[" + Name(m.target, names) + "] <" + Name(m.sender, names) + "> " + Content(m.parts, names, true)
  {
  }

  /** A reply to a user in a public channel reads as the user's mention,
      ": " and then the parts. */
  lemma ReplyMentionsSender(m: Message, parts: seq<Part>, names: Names)
    requires m.target.Channel? && m.sender.User?
    ensures var r := Reply(m, parts, names);
      r.Ok? && r.value.Some? &&
      Content(r.value.value, names, false) ==
        MentionStr(m.sender, names) + ": " + (if parts == [] then "" else Content(parts, names, false))
  {
    var sent := [Mention(m.sender), Text(": ")] + parts;
    RenderedAppend([Mention(m.sender), Text(": ")], parts, names, false);
    var head := Rendered([Mention(m.sender), Text(": ")], names, false);
    assert head == [MentionStr(m.sender, names), ": "];
    ContentShape(sent, names, false);
    ContentShape(parts, names, false);
    Iterable.ConcatAppend(head, Rendered(parts, names, false));
    assert Iterable.Concat(head) == MentionStr(m.sender, names) + ": " by {
      assert head[1..][1..] == [];
    }
  }

  // ---------------------------------------------------------------------------
  // Resolver

  /** The resolve cache: each resolve string maps to the objects carrying
      it, as an insertion-ordered set. */
  type Cache = map<string, seq<Ref>>

  /** No resolve string maps to an empty set, and no set holds an object twice. */
  ghost predicate CacheValid(c: Cache)
  {
    forall k :: k in c ==> c[k] != [] && JsSet.NoDup(c[k])
  }

  /** `resolve(str)`: a new array of the objects under `str`, empty when
      there are none. */
  function Lookup(c: Cache, key: string): (r: seq<Ref>)
    ensures key !in c ==> r == []
    ensures CacheValid(c) ==> (r == [] <==> key !in c)
  {
    if key in c then c[key] else []
  }

  /** `_add(map, key, value)`: the set under `key` (created when missing)
      gains `value`. */
  function AddTo(c: Cache, key: string, value: Ref): Cache
  {
    c[key := JsSet.Add(Lookup(c, key), value)]
  }

  /** `_remove(map, key, value)`: the set under `key` loses `value`, and a
      set that becomes empty is deleted. */
  function RemoveFrom(c: Cache, key: string, value: Ref): Cache
  {
    if key !in c then c
    else
      var rest := JsSet.Delete(c[key], value);
      if |rest| == 0 then c - {key} else c[key := rest]
  }

  /** `_addThing`: `_add` under each resolve string in turn. */
  function AddAll(c: Cache, keys: seq<string>, value: Ref): Cache
  {
    if keys == [] then c else AddTo(AddAll(c, keys[..|keys| - 1], value), keys[|keys| - 1], value)
  }

  /** `_removeThing`: `_remove` under each resolve string in turn. */
  function RemoveAll(c: Cache, keys: seq<string>, value: Ref): Cache
  {
    if keys == [] then c else RemoveFrom(RemoveAll(c, keys[..|keys| - 1], value), keys[|keys| - 1], value)
  }

  /** One `_add` or `_remove` changes only the set under its key, and only
      by the one object; the cache keeps having no empty set. */
  lemma AddRemoveOne(c: Cache, key: string, value: Ref)
    ensures forall k, w :: w in Lookup(AddTo(c, key, value), k) <==> w in Lookup(c, k) || (k == key && w == value)
    ensures forall k, w :: w in Lookup(RemoveFrom(c, key, value), k) <==> w in Lookup(c, k) && !(k == key && w == value)
    ensures CacheValid(c) ==> CacheValid(AddTo(c, key, value)) && CacheValid(RemoveFrom(c, key, value))
  {
    if key in c {
      var rest := JsSet.Delete(c[key], value);
    }
  }

  /** After `_addThing(value)` under `keys`: an object is under a string
      exactly when it was before or it is `value` and the string is one of
      `keys`. The cache keeps having no empty set. */
  lemma {:induction false} AddAllMembers(c: Cache, keys: seq<string>, value: Ref)
    ensures forall k, w :: w in Lookup(AddAll(c, keys, value), k) <==> w in Lookup(c, k) || (k in keys && w == value)
    ensures CacheValid(c) ==> CacheValid(AddAll(c, keys, value))
  {
    if keys != [] {
      var init := keys[..|keys| - 1];
      AddAllMembers(c, init, value);
      AddRemoveOne(AddAll(c, init, value), keys[|keys| - 1], value);
      assert forall k :: k in keys <==> k in init || k == keys[|keys| - 1] by {
        assert keys == init + [keys[|keys| - 1]];
      }
    }
  }

  /** After `_removeThing(value)` under `keys`: an object is under a string
      exactly when it was before, unless it is `value` and the string is
      one of `keys`. Other objects sharing those strings stay. */
  lemma {:induction false} RemoveAllMembers(c: Cache, keys: seq<string>, value: Ref)
    ensures forall k, w :: w in Lookup(RemoveAll(c, keys, value), k) <==> w in Lookup(c, k) && !(k in keys && w == value)
    ensures CacheValid(c) ==> CacheValid(RemoveAll(c, keys, value))
  {
    if keys != [] {
      var init := keys[..|keys| - 1];
      RemoveAllMembers(c, init, value);
      AddRemoveOne(RemoveAll(c, init, value), keys[|keys| - 1], value);
      assert forall k :: k in keys <==> k in init || k == keys[|keys| - 1] by {
        assert keys == init + [keys[|keys| - 1]];
      }
    }
  }

  /** The cache after a `renamed` event: the object is taken off its old
      resolve strings and put under its current ones. */
  function RenamedCache(c: Cache, thing: Ref, oldResolves: seq<string>, resolves: seq<string>): Cache
  {
    AddAll(RemoveAll(c, oldResolves, thing), resolves, thing)
  }

  /** After a rename the object is found exactly under its current resolve
      strings; every other object stays where it was. */
  lemma RenamedMembers(c: Cache, thing: Ref, oldResolves: seq<string>, resolves: seq<string>)
    ensures forall k :: k in resolves ==> thing in Lookup(RenamedCache(c, thing, oldResolves, resolves), k)
    ensures forall k :: k in oldResolves && k !in resolves ==> thing !in Lookup(RenamedCache(c, thing, oldResolves, resolves), k)
    ensures forall k, w :: w != thing ==> (w in Lookup(RenamedCache(c, thing, oldResolves, resolves), k) <==> w in Lookup(c, k))
    ensures CacheValid(c) ==> CacheValid(RenamedCache(c, thing, oldResolves, resolves))
  {
    RemoveAllMembers(c, oldResolves, thing);
    AddAllMembers(RemoveAll(c, oldResolves, thing), resolves, thing);
  }

  /** The resolver of one socket. It learns of objects through the
      socket's `newUser`/`newChannel` events and of their changes through
      their `renamed`/`removed` events; the socket calls the matching
      method as it emits them. */
  class Resolver {
    var cache: Cache

    constructor ()
      ensures cache == map[]
    {
      cache := map[];
    }

    /** `resolve(resolveStr)`. */
    method Resolve(key: string) returns (r: seq<Ref>)
      ensures r == Lookup(cache, key)
    {
      if key in cache {
        r := cache[key];
      } else {
        r := [];
      }
    }

    /** `_add(this._resolveCache, key, value)`. */
    method Add(key: string, value: Ref)
      modifies this
      ensures cache == AddTo(old(cache), key, value)
    {
      var bucket: seq<Ref>;
      if key in cache {
        bucket := cache[key];
      } else {
        bucket := [];
        cache := cache[key := bucket];
      }
      if value !in bucket {
        bucket := bucket + [value];
      }
      cache := cache[key := bucket];
    }

    /** `_remove(this._resolveCache, key, value)`. */
    method Remove(key: string, value: Ref)
      modifies this
      ensures cache == RemoveFrom(old(cache), key, value)
    {
      if key !in cache {
        return;
      }
      var bucket := JsSet.Delete(cache[key], value);
      cache := cache[key := bucket];
      if |bucket| == 0 {
        cache := cache - {key};
      }
    }

    /** `_addThing(thing)` with the thing's resolve strings. */
    method AddThing(thing: Ref, resolves: seq<string>)
      modifies this
      ensures cache == AddAll(old(cache), resolves, thing)
    {
      var i := 0;
      while i < |resolves|
        invariant 0 <= i <= |resolves|
        invariant cache == AddAll(old(cache), resolves[..i], thing)
      {
        assert resolves[..i + 1][..i] == resolves[..i];
        Add(resolves[i], thing);
        i := i + 1;
      }
      assert resolves[..i] == resolves;
    }

    /** `_removeThing(thing, resolves)`. */
    method RemoveThing(thing: Ref, resolves: seq<string>)
      modifies this
      ensures cache == RemoveAll(old(cache), resolves, thing)
    {
      var i := 0;
      while i < |resolves|
        invariant 0 <= i <= |resolves|
        invariant cache == RemoveAll(old(cache), resolves[..i], thing)
      {
        assert resolves[..i + 1][..i] == resolves[..i];
        Remove(resolves[i], thing);
        i := i + 1;
      }
      assert resolves[..i] == resolves;
    }

    /** `_new(thing)` on `newUser`/`newChannel`. */
    method New(thing: Ref, resolves: seq<string>)
      modifies this
      ensures cache == AddAll(old(cache), resolves, thing)
    {
      AddThing(thing, resolves);
    }

    /** The thing's `removed` listener: off its current resolve strings. */
    method OnRemoved(thing: Ref, resolves: seq<string>)
      modifies this
      ensures cache == RemoveAll(old(cache), resolves, thing)
    {
      RemoveThing(thing, resolves);
    }

    /** The thing's `renamed` listener. */
    method OnRenamed(thing: Ref, oldResolves: seq<string>, resolves: seq<string>)
      modifies this
      ensures cache == RenamedCache(old(cache), thing, oldResolves, resolves)
    {
      RemoveThing(thing, oldResolves);
      AddThing(thing, resolves);
    }
  }
}
