/** The IRC socket's bookkeeping (`sockets/IRC.js`): users and channels
    keyed by their lower-cased name, each user's set of channels and each
    channel's set of users kept in step, the cascades of leaving and
    quitting, nick changes, the choice of a message's target and the
    sending of messages. The IRC client itself is left out: its events
    arrive as method calls and what is said to it is recorded in `outbox`. */
module Irc {
  import opened Wrappers
  import JsSet
  import opened Socket
  import opened Extensions

  /** A call into the IRC client: `say` or `action` with target and text. */
  datatype Command = Say(target: string, text: string) | Act(target: string, text: string)

  /** Everything the socket holds: its id, its own user, the user and
      channel tables by lower-cased name, the `_name` of every object, the
      `_channels` set of every user and the `_users` set of every channel,
      the next free handle, the events emitted, the client calls made and
      the resolver's cache. */
  datatype State = State(
    id: string,
    self: Option<Ref>,
    users: map<string, Ref>,
    channels: map<string, Ref>,
    names: map<Ref, string>,
    userChannels: map<Ref, seq<Ref>>,
    channelUsers: map<Ref, seq<Ref>>,
    next: nat,
    events: seq<Event>,
    outbox: seq<Command>,
    cache: Cache)

  // ---------------------------------------------------------------------------
  // Invariants

  /** Each user's channels and each channel's users are sets, users and
      channels are different objects, and the two directions agree:
      `u` is in `c._users` exactly when `c` is in `u._channels`. */
  ghost predicate Membership(uc: map<Ref, seq<Ref>>, cu: map<Ref, seq<Ref>>)
  {
    Distinct(uc, cu) && Linked(uc, cu)
  }

  ghost predicate Distinct(uc: map<Ref, seq<Ref>>, cu: map<Ref, seq<Ref>>)
  {
    uc.Keys !! cu.Keys && Sets(uc) && Sets(cu)
  }

  /** Every value of the table holds no element twice. */
  ghost predicate Sets(m: map<Ref, seq<Ref>>)
  {
    forall k :: k in m ==> JsSet.NoDup(m[k])
  }

  lemma SetsDelete(m: map<Ref, seq<Ref>>, k: Ref, x: Ref)
    requires Sets(m) && k in m
    ensures Sets(m[k := JsSet.Delete(m[k], x)])
  {
    var m' := m[k := JsSet.Delete(m[k], x)];
    forall j | j in m' ensures JsSet.NoDup(m'[j]) {
      if j != k { assert m'[j] == m[j]; }
    }
  }

  ghost predicate Linked(uc: map<Ref, seq<Ref>>, cu: map<Ref, seq<Ref>>)
  {
    LinkedForward(uc, cu) && LinkedBackward(uc, cu)
  }

  ghost predicate LinkedForward(uc: map<Ref, seq<Ref>>, cu: map<Ref, seq<Ref>>)
  {
    forall u, c :: u in uc && c in uc[u] ==> c in cu && u in cu[c]
  }

  ghost predicate LinkedBackward(uc: map<Ref, seq<Ref>>, cu: map<Ref, seq<Ref>>)
  {
    forall c, u :: c in cu && u in cu[c] ==> u in uc && c in uc[u]
  }

  /** Every table entry is a known object stored under its lower-cased
      name; every object has a name and a handle below `next`; the socket's
      own user is a known user. */
  ghost predicate Tables(s: State)
  {
    UsersFiled(s) && ChannelsFiled(s) && ObjectsNamed(s) && HandlesBelow(s)
    && (s.self.Some? ==> s.self.value in s.userChannels)
  }

  ghost predicate UsersFiled(s: State)
  {
    forall k :: k in s.users ==> s.users[k] in s.userChannels && s.users[k] in s.names
                                 && LowerCase(s.names[s.users[k]]) == k
  }

  ghost predicate ChannelsFiled(s: State)
  {
    forall k :: k in s.channels ==> s.channels[k] in s.channelUsers && s.channels[k] in s.names
                                    && LowerCase(s.names[s.channels[k]]) == k
  }

  ghost predicate ObjectsNamed(s: State)
  {
    (forall r :: r in s.userChannels ==> r in s.names) && (forall r :: r in s.channelUsers ==> r in s.names)
  }

  ghost predicate HandlesBelow(s: State)
  {
    forall r :: r in s.names ==> r.handle < s.next
  }

  ghost predicate Valid(s: State)
  {
    Closed(s) && Membership(s.userChannels, s.channelUsers) && Tables(s) && CacheValid(s.cache)
  }

  /** The event log takes no part in the invariant. */
  lemma ValidIgnoresLog(s: State, events: seq<Event>)
    requires Valid(s)
    ensures Valid(s.(events := events))
  {
  }

  /** A new object with no members keeps the two directions in step. */
  lemma MembershipNew(uc: map<Ref, seq<Ref>>, cu: map<Ref, seq<Ref>>, r: Ref)
    requires Membership(uc, cu) && r !in uc && r !in cu
    ensures Membership(uc[r := []], cu) && Membership(uc, cu[r := []])
  {
  }

  /** Adding one pair to both directions keeps them in step and adds
      exactly that pair. */
  lemma MembershipLink(uc: map<Ref, seq<Ref>>, cu: map<Ref, seq<Ref>>, c: Ref, u: Ref)
    requires Membership(uc, cu) && c in cu && u in uc
    ensures var uc' := uc[u := JsSet.Add(uc[u], c)];
      var cu' := cu[c := JsSet.Add(cu[c], u)];
      && Membership(uc', cu')
      && (forall x, y :: x in uc' && y in cu' ==> (y in uc'[x] <==> y in uc[x] || (x == u && y == c)))
  {
  }

  /** Removing one pair from both directions keeps them in step and
      removes exactly that pair. */
  lemma MembershipUnlink(uc: map<Ref, seq<Ref>>, cu: map<Ref, seq<Ref>>, c: Ref, u: Ref)
    requires Membership(uc, cu) && c in cu && u in uc
    ensures Membership(uc[u := JsSet.Delete(uc[u], c)], cu[c := JsSet.Delete(cu[c], u)])
  {
    UnlinkedNoDup(uc, cu, c, u);
    UnlinkedLinks(uc, cu, c, u);
  }

  lemma UnlinkedLinks(uc: map<Ref, seq<Ref>>, cu: map<Ref, seq<Ref>>, c: Ref, u: Ref)
    requires Membership(uc, cu) && c in cu && u in uc
    ensures Linked(uc[u := JsSet.Delete(uc[u], c)], cu[c := JsSet.Delete(cu[c], u)])
  {
    UnlinkedForward(uc, cu, c, u, uc[u := JsSet.Delete(uc[u], c)], cu[c := JsSet.Delete(cu[c], u)]);
    UnlinkedBackward(uc, cu, c, u, uc[u := JsSet.Delete(uc[u], c)], cu[c := JsSet.Delete(cu[c], u)]);
  }

  lemma UnlinkedForward(uc: map<Ref, seq<Ref>>, cu: map<Ref, seq<Ref>>, c: Ref, u: Ref,
                        uc': map<Ref, seq<Ref>>, cu': map<Ref, seq<Ref>>)
    requires Membership(uc, cu) && c in cu && u in uc
    requires uc' == uc[u := JsSet.Delete(uc[u], c)] && cu' == cu[c := JsSet.Delete(cu[c], u)]
    ensures LinkedForward(uc', cu')
  {
    forall x, y | x in uc' && y in uc'[x] ensures y in cu' && x in cu'[y] {
      UnlinkedPair(uc, cu, c, u, x, y);
    }
  }

  lemma UnlinkedBackward(uc: map<Ref, seq<Ref>>, cu: map<Ref, seq<Ref>>, c: Ref, u: Ref,
                         uc': map<Ref, seq<Ref>>, cu': map<Ref, seq<Ref>>)
    requires Membership(uc, cu) && c in cu && u in uc
    requires uc' == uc[u := JsSet.Delete(uc[u], c)] && cu' == cu[c := JsSet.Delete(cu[c], u)]
    ensures LinkedBackward(uc', cu')
  {
    forall y, x | y in cu' && x in cu'[y] ensures x in uc' && y in uc'[x] {
      UnlinkedPair(uc, cu, c, u, x, y);
    }
  }

  lemma UnlinkedNoDup(uc: map<Ref, seq<Ref>>, cu: map<Ref, seq<Ref>>, c: Ref, u: Ref)
    requires Membership(uc, cu) && c in cu && u in uc
    ensures Distinct(uc[u := JsSet.Delete(uc[u], c)], cu[c := JsSet.Delete(cu[c], u)])
  {
    SetsDelete(uc, u, c);
    SetsDelete(cu, c, u);
  }

  /** One pair other than `(u, c)` is on both sides before and after. */
  lemma UnlinkedPair(uc: map<Ref, seq<Ref>>, cu: map<Ref, seq<Ref>>, c: Ref, u: Ref, x: Ref, y: Ref)
    requires Membership(uc, cu) && c in cu && u in uc
    ensures var uc' := uc[u := JsSet.Delete(uc[u], c)];
      var cu' := cu[c := JsSet.Delete(cu[c], u)];
      && (x in uc' && y in uc'[x] ==> y in cu' && x in cu'[y])
      && (y in cu' && x in cu'[y] ==> x in uc' && y in uc'[x])
  {
  }

  /** The tables stay well formed when entries are only taken out of them
      and the objects stay the same. */
  lemma TablesKeep(s: State, t: State)
    requires Tables(s)
    requires forall k :: k in t.users ==> k in s.users && t.users[k] == s.users[k]
    requires forall k :: k in t.channels ==> k in s.channels && t.channels[k] == s.channels[k]
    requires t.names == s.names && t.next == s.next && (t.self == s.self || t.self == None)
    requires t.userChannels.Keys == s.userChannels.Keys && t.channelUsers.Keys == s.channelUsers.Keys
    ensures Tables(t)
  {
  }

  /** The names the socket's objects print as; a user's mention is its name. */
  function NamesOf(names: map<Ref, string>): Names
  {
    Socket.Names((r: Ref) => if r in names then names[r] else "undefined", "")
  }

  // ---------------------------------------------------------------------------
  // _getUser / _getChannel

  /** `_getUser(name)` without `create`: a lookup that changes nothing. */
  function FindUser(s: State, name: string): Option<Ref>
  {
    if LowerCase(name) in s.users then Some(s.users[LowerCase(name)]) else None
  }

  function FindChannel(s: State, name: string): Option<Ref>
  {
    if LowerCase(name) in s.channels then Some(s.channels[LowerCase(name)]) else None
  }

  /** `_getUser(name, true)`: the user under the lower-cased name, or a new
      one stored there, announced with `newUser` and handed to the resolver. */
  function CreateUser(s: State, name: string): (Ref, State)
  {
    var key := LowerCase(name);
    if key in s.users then (s.users[key], s)
    else
      var u := Ref(s.id, s.next);
      (u, s.(users := s.users[key := u], names := s.names[u := name],
             userChannels := s.userChannels[u := []], next := s.next + 1,
             events := s.events + [NewUser(u)], cache := AddAll(s.cache, [name], u)))
  }

  /** `_getChannel(name, true)`. */
  function CreateChannel(s: State, name: string): (Ref, State)
  {
    var key := LowerCase(name);
    if key in s.channels then (s.channels[key], s)
    else
      var c := Ref(s.id, s.next);
      (c, s.(channels := s.channels[key := c], names := s.names[c := name],
             channelUsers := s.channelUsers[c := []], next := s.next + 1,
             events := s.events + [NewChannel(c)], cache := AddAll(s.cache, [name], c)))
  }

  lemma TablesNewUser(s: State, name: string)
    requires Tables(s) && LowerCase(name) !in s.users
    ensures Tables(CreateUser(s, name).1)
  {
    NewUserFiled(s, name);
    NewUserChannelsFiled(s, name);
  }

  lemma NewUserFiled(s: State, name: string)
    requires Tables(s) && LowerCase(name) !in s.users
    ensures UsersFiled(CreateUser(s, name).1)
  {
  }

  lemma NewUserChannelsFiled(s: State, name: string)
    requires Tables(s) && LowerCase(name) !in s.users
    ensures ChannelsFiled(CreateUser(s, name).1)
  {
  }

  lemma TablesNewChannel(s: State, name: string)
    requires Tables(s) && LowerCase(name) !in s.channels
    ensures Tables(CreateChannel(s, name).1)
  {
    NewChannelFiled(s, name);
    NewChannelUsersFiled(s, name);
  }

  lemma NewChannelFiled(s: State, name: string)
    requires Tables(s) && LowerCase(name) !in s.channels
    ensures ChannelsFiled(CreateChannel(s, name).1)
  {
  }

  lemma NewChannelUsersFiled(s: State, name: string)
    requires Tables(s) && LowerCase(name) !in s.channels
    ensures UsersFiled(CreateChannel(s, name).1)
  {
  }

  lemma CreateUserValid(s: State, name: string)
    requires Valid(s)
    ensures var (u, t) := CreateUser(s, name);
      && Valid(t) && u in t.userChannels && t.users[LowerCase(name)] == u
      && (LowerCase(name) in s.users ==> u == s.users[LowerCase(name)] && t == s)
      && (LowerCase(name) !in s.users ==>
            u !in s.userChannels && u !in s.channelUsers && t.userChannels[u] == []
            && t.events == s.events + [NewUser(u)] && t.names[u] == name
            && t.channels == s.channels && t.channelUsers == s.channelUsers && t.self == s.self
            && (forall r :: r in s.userChannels ==> t.userChannels[r] == s.userChannels[r])
            && (forall r :: r in s.names ==> t.names[r] == s.names[r]))
  {
    CreateUserKeepsValid(s, name);
  }

  lemma CreateUserKeepsValid(s: State, name: string)
    requires Valid(s)
    ensures Valid(CreateUser(s, name).1)
  {
    var key := LowerCase(name);
    if key !in s.users {
      var u := Ref(s.id, s.next);
      AddAllMembers(s.cache, [name], u);
      MembershipNew(s.userChannels, s.channelUsers, u);
      TablesNewUser(s, name);
    }
  }

  lemma CreateChannelValid(s: State, name: string)
    requires Valid(s)
    ensures var (c, t) := CreateChannel(s, name);
      && Valid(t) && c in t.channelUsers && t.channels[LowerCase(name)] == c
      && (LowerCase(name) in s.channels ==> c == s.channels[LowerCase(name)] && t == s)
      && (LowerCase(name) !in s.channels ==>
            c !in s.userChannels && c !in s.channelUsers && t.channelUsers[c] == []
            && t.events == s.events + [NewChannel(c)] && t.names[c] == name
            && t.users == s.users && t.userChannels == s.userChannels && t.self == s.self
            && (forall r :: r in s.channelUsers ==> t.channelUsers[r] == s.channelUsers[r])
            && (forall r :: r in s.names ==> t.names[r] == s.names[r]))
  {
    CreateChannelKeepsValid(s, name);
  }

  lemma CreateChannelKeepsValid(s: State, name: string)
    requires Valid(s)
    ensures Valid(CreateChannel(s, name).1)
  {
    var key := LowerCase(name);
    if key !in s.channels {
      var c := Ref(s.id, s.next);
      AddAllMembers(s.cache, [name], c);
      MembershipNew(s.userChannels, s.channelUsers, c);
      TablesNewChannel(s, name);
    }
  }

  /** A lookup with `create` inserts at most once: asking again for the
      same name, in any case, returns the same object and changes nothing. */
  lemma CreateUserOnce(s: State, name: string, again: string)
    requires Valid(s) && LowerCase(again) == LowerCase(name)
    ensures var (u, t) := CreateUser(s, name);
      CreateUser(t, again) == (u, t) && FindUser(t, again) == Some(u)
    ensures |CreateUser(s, name).1.events| <= |s.events| + 1
  {
    CreateUserValid(s, name);
  }

  lemma CreateChannelOnce(s: State, name: string, again: string)
    requires Valid(s) && LowerCase(again) == LowerCase(name)
    ensures var (c, t) := CreateChannel(s, name);
      CreateChannel(t, again) == (c, t) && FindChannel(t, again) == Some(c)
    ensures |CreateChannel(s, name).1.events| <= |s.events| + 1
  {
    CreateChannelValid(s, name);
  }

  // ---------------------------------------------------------------------------
  // _join / _leave / _quit

  /** `channel._users.add(user); user._channels.add(channel)`. */
  function Link(s: State, c: Ref, u: Ref): State
    requires c in s.channelUsers && u in s.userChannels
  {
    s.(channelUsers := s.channelUsers[c := JsSet.Add(s.channelUsers[c], u)],
       userChannels := s.userChannels[u := JsSet.Add(s.userChannels[u], c)])
  }

  /** `channel._users.delete(user); user._channels.delete(channel)`. */
  function Unlink(s: State, c: Ref, u: Ref): (t: State)
    requires c in s.channelUsers && u in s.userChannels
    ensures Closed(s) ==> Closed(t)
  {
    s.(channelUsers := s.channelUsers[c := JsSet.Delete(s.channelUsers[c], u)],
       userChannels := s.userChannels[u := JsSet.Delete(s.userChannels[u], c)])
  }

  /** Linking adds exactly the one pair to both directions. */
  lemma LinkMembers(s: State, c: Ref, u: Ref)
    requires Valid(s) && c in s.channelUsers && u in s.userChannels
    ensures var t := Link(s, c, u);
      && Valid(t) && u in t.channelUsers[c] && c in t.userChannels[u]
      && t.userChannels.Keys == s.userChannels.Keys && t.channelUsers.Keys == s.channelUsers.Keys
      && (forall x, y :: x in t.userChannels && y in t.channelUsers ==>
            (y in t.userChannels[x] <==> y in s.userChannels[x] || (x == u && y == c)))
  {
    MembershipLink(s.userChannels, s.channelUsers, c, u);
    TablesKeep(s, Link(s, c, u));
  }

  /** Unlinking removes exactly the one pair from both directions. */
  lemma UnlinkMembers(s: State, c: Ref, u: Ref)
    requires Valid(s) && c in s.channelUsers && u in s.userChannels
    ensures var t := Unlink(s, c, u);
      && Valid(t) && u !in t.channelUsers[c] && c !in t.userChannels[u]
      && (forall x, y :: x in t.userChannels && y in t.channelUsers ==>
            (y in t.userChannels[x] <==> y in s.userChannels[x] && !(x == u && y == c)))
      && (forall y :: y in t.channelUsers[c] <==> y in s.channelUsers[c] && y != u)
  {
    MembershipUnlink(s.userChannels, s.channelUsers, c, u);
    UnlinkPairs(s, c, u);
    TablesKeep(s, Unlink(s, c, u));
  }

  /** The end of `_leave` for a user other than the socket's own: a user
      left in no channel is deleted from the table under its lower-cased
      name and emits `removed`, which takes it out of the resolver. */
  function DropIfAlone(s: State, u: Ref): (t: State)
    requires u in s.userChannels && u in s.names
    ensures t.userChannels == s.userChannels && t.channelUsers == s.channelUsers
  {
    if s.userChannels[u] != [] then s
    else
      s.(users := s.users - {LowerCase(s.names[u])},
         events := s.events + [Removed(u)],
         cache := RemoveAll(s.cache, [s.names[u]], u))
  }

  lemma DropIfAloneValid(s: State, u: Ref)
    requires Valid(s) && u in s.userChannels
    ensures Valid(DropIfAlone(s, u))
  {
    RemoveAllMembers(s.cache, [s.names[u]], u);
    TablesKeep(s, DropIfAlone(s, u));
  }

  /** What the functions below need to look objects up: every member of a
      channel is a known user, and every object has a name. */
  ghost predicate Closed(s: State)
  {
    && (forall c, w :: c in s.channelUsers && w in s.channelUsers[c] ==> w in s.userChannels)
    && (forall w, c :: w in s.userChannels && c in s.userChannels[w] ==> c in s.channelUsers)
    && s.userChannels.Keys <= s.names.Keys && s.channelUsers.Keys <= s.names.Keys
  }

  /** `_leave(channel, user)` for a user other than the socket's own. */
  function AfterLeaveOther(s: State, c: Ref, u: Ref): (t: State)
    requires Closed(s) && c in s.channelUsers && u in s.userChannels
    ensures Closed(t) && t.names == s.names && t.self == s.self && t.channels == s.channels
    ensures t.userChannels.Keys == s.userChannels.Keys && t.channelUsers.Keys == s.channelUsers.Keys
  {
    DropIfAlone(Unlink(s, c, u), u)
  }

  lemma LeaveOtherValid(s: State, c: Ref, u: Ref)
    requires Valid(s) && c in s.channelUsers && u in s.userChannels
    ensures Valid(AfterLeaveOther(s, c, u))
  {
    UnlinkMembers(s, c, u);
    DropIfAloneValid(Unlink(s, c, u), u);
  }

  /** The loop of `_leave` when the socket's own user leaves: every other
      user of the channel leaves it too, one after the other. */
  function LeaveOthers(s: State, c: Ref, others: seq<Ref>): (t: State)
    requires Closed(s) && c in s.channelUsers
    requires forall w :: w in others ==> w in s.userChannels
    ensures Closed(t) && t.names == s.names && t.self == s.self && t.channels == s.channels
    ensures t.userChannels.Keys == s.userChannels.Keys && t.channelUsers.Keys == s.channelUsers.Keys
  {
    if others == [] then s
    else AfterLeaveOther(LeaveOthers(s, c, others[..|others| - 1]), c, others[|others| - 1])
  }

  lemma {:induction false} LeaveOthersValid(s: State, c: Ref, others: seq<Ref>)
    requires Valid(s) && c in s.channelUsers
    requires forall w :: w in others ==> w in s.userChannels
    ensures Valid(LeaveOthers(s, c, others))
  {
    if others != [] {
      LeaveOthersValid(s, c, others[..|others| - 1]);
      LeaveOtherValid(LeaveOthers(s, c, others[..|others| - 1]), c, others[|others| - 1]);
    }
  }

  /** Unlinking takes exactly the one pair out of both directions. */
  lemma UnlinkPairs(s: State, c: Ref, u: Ref)
    requires c in s.channelUsers && u in s.userChannels
    ensures var t := Unlink(s, c, u);
      && (forall x, y :: x in t.userChannels ==>
            (y in t.userChannels[x] <==> y in s.userChannels[x] && !(x == u && y == c)))
      && (forall y :: y in t.channelUsers[c] <==> y in s.channelUsers[c] && y != u)
  {
  }

  /** One other user leaving changes the membership by exactly that pair. */
  lemma LeaveOtherPairs(s: State, c: Ref, u: Ref)
    requires Closed(s) && c in s.channelUsers && u in s.userChannels
    ensures var t := AfterLeaveOther(s, c, u);
      && (forall x, y :: x in t.userChannels ==>
            (y in t.userChannels[x] <==> y in s.userChannels[x] && !(x == u && y == c)))
      && (forall y :: y in t.channelUsers[c] <==> y in s.channelUsers[c] && y != u)
  {
    UnlinkPairs(s, c, u);
  }

  /** After the others have left, none of them is in the channel, and each
      of them has lost exactly that channel. */
  lemma {:induction false} LeaveOthersMembers(s: State, c: Ref, others: seq<Ref>)
    requires Closed(s) && c in s.channelUsers
    requires forall w :: w in others ==> w in s.userChannels
    ensures var t := LeaveOthers(s, c, others);
      && (forall x, y :: x in t.userChannels ==>
            (y in t.userChannels[x] <==> y in s.userChannels[x] && !(x in others && y == c)))
      && (forall y :: y in t.channelUsers[c] <==> y in s.channelUsers[c] && y !in others)
  {
    if others != [] {
      var init := others[..|others| - 1];
      var w := others[|others| - 1];
      assert forall x :: x in others <==> x in init || x == w by { assert others == init + [w]; }
      LeaveOthersMembers(s, c, init);
      var prev := LeaveOthers(s, c, init);
      LeaveOtherPairs(prev, c, w);
      var t := AfterLeaveOther(prev, c, w);
      assert t == LeaveOthers(s, c, others);
      forall x, y | x in t.userChannels
        ensures y in t.userChannels[x] <==> y in s.userChannels[x] && !(x in others && y == c)
      {
        assert x in prev.userChannels;
      }
      forall y ensures y in t.channelUsers[c] <==> y in s.channelUsers[c] && y !in others {
        assert y in t.channelUsers[c] <==> y in prev.channelUsers[c] && y != w;
      }
    }
  }

  /** The end of `_leave` for the socket's own user: after the others have
      left, the channel is deleted from the table under its lower-cased
      name and emits `removed`. */
  function SelfLeave(s: State, c: Ref): (t: State)
    requires Closed(s) && c in s.channelUsers
    ensures Closed(t) && t.names == s.names && t.self == s.self
    ensures t.userChannels.Keys == s.userChannels.Keys && t.channelUsers.Keys == s.channelUsers.Keys
  {
    var l := LeaveOthers(s, c, s.channelUsers[c]);
    l.(channels := l.channels - {LowerCase(l.names[c])},
       events := l.events + [Removed(c)],
       cache := RemoveAll(l.cache, [l.names[c]], c))
  }

  lemma SelfLeaveValid(s: State, c: Ref)
    requires Valid(s) && c in s.channelUsers
    ensures Valid(SelfLeave(s, c))
  {
    LeaveOthersValid(s, c, s.channelUsers[c]);
    var l := LeaveOthers(s, c, s.channelUsers[c]);
    RemoveAllMembers(l.cache, [l.names[c]], c);
    TablesKeep(l, SelfLeave(s, c));
  }

  /** `_leave(channel, user)` on the objects. */
  function AfterLeaveRefs(s: State, c: Ref, u: Ref): (t: State)
    requires Closed(s) && c in s.channelUsers && u in s.userChannels
    ensures Closed(t) && t.names == s.names && t.self == s.self
    ensures t.userChannels.Keys == s.userChannels.Keys && t.channelUsers.Keys == s.channelUsers.Keys
  {
    if IsSelf(s.self, User(u, None)) then SelfLeave(Unlink(s, c, u), c) else DropIfAlone(Unlink(s, c, u), u)
  }

  lemma LeaveRefsValid(s: State, c: Ref, u: Ref)
    requires Valid(s) && c in s.channelUsers && u in s.userChannels
    ensures Valid(AfterLeaveRefs(s, c, u))
  {
    UnlinkMembers(s, c, u);
    if IsSelf(s.self, User(u, None)) {
      SelfLeaveValid(Unlink(s, c, u), c);
    } else {
      DropIfAloneValid(Unlink(s, c, u), u);
    }
  }

  /** A user other than the socket's own that leaves a channel loses
      exactly that pair; when it was its last channel, the user is dropped
      from the table with `removed`. */
  lemma LeaveRefsOther(s: State, c: Ref, u: Ref)
    requires Valid(s) && c in s.channelUsers && u in s.userChannels
    requires !IsSelf(s.self, User(u, None))
    ensures var t := AfterLeaveRefs(s, c, u);
      && t.channels == s.channels
      && (forall x, y :: x in t.userChannels ==>
            (y in t.userChannels[x] <==> y in s.userChannels[x] && !(x == u && y == c)))
      && (s.userChannels[u] == [c] ==>
            LowerCase(s.names[u]) !in t.users && t.events == s.events + [Removed(u)])
  {
    UnlinkPairs(s, c, u);
    var m := Unlink(s, c, u);
    if s.userChannels[u] == [c] {
      assert m.userChannels[u] == [] by {
        assert forall y :: y !in m.userChannels[u];
        assert |m.userChannels[u]| <= 1;
      }
    }
  }

  /** Once the others have left, every user has lost the channel and kept
      every other one. */
  lemma SelfLeavePairs(s: State, c: Ref)
    requires Closed(s) && c in s.channelUsers
    requires forall x :: x in s.userChannels && c in s.userChannels[x] ==> x in s.channelUsers[c]
    ensures var t := SelfLeave(s, c);
      && (forall y :: y !in t.channelUsers[c])
      && t.channels == s.channels - {LowerCase(s.names[c])}
      && t.events[|t.events| - 1] == Removed(c)
      && (forall x, y :: x in t.userChannels ==>
            (y in t.userChannels[x] <==> y in s.userChannels[x] && y != c))
  {
    var others := s.channelUsers[c];
    LeaveOthersMembers(s, c, others);
    var l := LeaveOthers(s, c, others);
    forall x, y | x in l.userChannels
      ensures y in l.userChannels[x] <==> y in s.userChannels[x] && y != c
    {
      if y == c && y in s.userChannels[x] {
        assert x in others;
      }
    }
  }

  /** When the socket's own user leaves a channel, every user loses that
      channel and keeps every other, the channel has no users left, and it
      is dropped from the table with `removed`. */
  lemma LeaveRefsSelf(s: State, c: Ref, u: Ref)
    requires Closed(s) && Membership(s.userChannels, s.channelUsers)
    requires c in s.channelUsers && u in s.userChannels
    requires IsSelf(s.self, User(u, None))
    ensures var t := AfterLeaveRefs(s, c, u);
      && (forall y :: y !in t.channelUsers[c])
      && t.channels == s.channels - {LowerCase(s.names[c])}
      && t.events[|t.events| - 1] == Removed(c)
      && (forall x, y :: x in t.userChannels ==>
            (y in t.userChannels[x] <==> y in s.userChannels[x] && y != c))
  {
    UnlinkPairs(s, c, u);
    var m := Unlink(s, c, u);
    forall x | x in m.userChannels && c in m.userChannels[x] ensures x in m.channelUsers[c] {
      assert c in s.userChannels[x] && x != u;
    }
    SelfLeavePairs(m, c);
  }

  /** After anyone leaves a channel, the tables are still well formed, the
      pair is gone from both directions, and the user's channels are a
      subset of what they were. */
  lemma LeaveRefsMembers(s: State, c: Ref, u: Ref)
    requires Valid(s) && c in s.channelUsers && u in s.userChannels
    ensures var t := AfterLeaveRefs(s, c, u);
      && Valid(t) && u !in t.channelUsers[c] && c !in t.userChannels[u]
      && (forall y :: y in t.userChannels[u] ==> y in s.userChannels[u])
  {
    LeaveRefsValid(s, c, u);
    var t := AfterLeaveRefs(s, c, u);
    if IsSelf(s.self, User(u, None)) {
      LeaveRefsSelf(s, c, u);
    } else {
      LeaveRefsOther(s, c, u);
    }
    forall y | y in t.userChannels[u] ensures y in s.userChannels[u] {
      assert y in t.channelUsers;
    }
  }

  /** Fold of `_leave(channel, user)` over the channels of `user`, as
      `_quit` runs it (the set is iterated while each step deletes the
      channel being visited, so every channel is visited once). */
  function LeaveChannels(s: State, u: Ref, cs: seq<Ref>): (t: State)
    requires Closed(s) && u in s.userChannels
    requires forall c :: c in cs ==> c in s.channelUsers
    ensures Closed(t) && t.names == s.names && t.self == s.self
    ensures t.userChannels.Keys == s.userChannels.Keys && t.channelUsers.Keys == s.channelUsers.Keys
  {
    if cs == [] then s
    else AfterLeaveRefs(LeaveChannels(s, u, cs[..|cs| - 1]), cs[|cs| - 1], u)
  }

  /** Leaving every channel of a list keeps the tables well formed, leaves
      the user in none of them, and adds no channel. */
  lemma {:induction false} LeaveChannelsMembers(s: State, u: Ref, cs: seq<Ref>)
    requires Valid(s) && u in s.userChannels
    requires forall c :: c in cs ==> c in s.channelUsers
    ensures var t := LeaveChannels(s, u, cs);
      && Valid(t)
      && (forall c :: c in cs ==> c !in t.userChannels[u])
      && (forall c :: c in t.userChannels[u] ==> c in s.userChannels[u])
  {
    if cs != [] {
      var init := cs[..|cs| - 1];
      var c := cs[|cs| - 1];
      assert forall x :: x in cs <==> x in init || x == c by { assert cs == init + [c]; }
      LeaveChannelsMembers(s, u, init);
      LeaveRefsMembers(LeaveChannels(s, u, init), c, u);
    }
  }

  /** The `disconnected` listeners: the own user is forgotten and both
      tables are emptied (the objects themselves, and the resolver's
      entries for them, stay as they are). */
  function Disconnect(s: State, reason: string): State
  {
    s.(events := s.events + [Disconnected(reason)], self := None, users := map[], channels := map[])
  }

  /** `_quit(user, reason)` once the user object is known. */
  function QuitRef(s: State, u: Ref, reason: string): State
    requires Closed(s) && u in s.userChannels
  {
    var t := LeaveChannels(s, u, s.userChannels[u]);
    if IsSelf(t.self, User(u, None)) then Disconnect(t, reason) else t
  }

  /** A quitting user is in no channel afterwards; when it is the socket's
      own user, the socket reports `disconnected` and forgets its tables. */
  lemma QuitRefLeavesAll(s: State, u: Ref, reason: string)
    requires Valid(s) && u in s.userChannels
    ensures var t := QuitRef(s, u, reason);
      && Valid(t) && (forall c :: c !in t.userChannels[u])
      && (IsSelf(s.self, User(u, None)) ==>
            t.self == None && t.users == map[] && t.channels == map[]
            && t.events[|t.events| - 1] == Disconnected(reason))
      && (!IsSelf(s.self, User(u, None)) ==> t.self == s.self)
  {
    LeaveChannelsMembers(s, u, s.userChannels[u]);
    var t := LeaveChannels(s, u, s.userChannels[u]);
    TablesKeep(t, Disconnect(t, reason));
  }

  // ---------------------------------------------------------------------------
  // The IRC client's events

  /** `registered`: the socket's own user is found or created and
      `connected` is emitted, which sets `self`. */
  function AfterRegistered(s: State, nick: string): State
  {
    var (u, t) := CreateUser(s, nick);
    t.(events := t.events + [Connected(u)], self := Some(u))
  }

  /** `join(channel, nick)`: `_join` on the names, creating what is unknown. */
  function AfterJoin(s: State, channel: string, nick: string): State
    requires Valid(s)
  {
    var (c, s1) := CreateChannel(s, channel);
    CreateChannelValid(s, channel);
    var (u, s2) := CreateUser(s1, nick);
    CreateUserValid(s1, nick);
    assert c in s2.channelUsers;
    Link(s2, c, u)
  }

  /** After a join the user is among the channel's users and the channel
      among the user's channels. */
  lemma JoinLinks(s: State, channel: string, nick: string)
    requires Valid(s)
    ensures var t := AfterJoin(s, channel, nick);
      && Valid(t) && LowerCase(channel) in t.channels && LowerCase(nick) in t.users
      && var c := t.channels[LowerCase(channel)];
         var u := t.users[LowerCase(nick)];
         u in t.channelUsers[c] && c in t.userChannels[u]
  {
    var (c, s1) := CreateChannel(s, channel);
    CreateChannelValid(s, channel);
    var (u, s2) := CreateUser(s1, nick);
    CreateUserValid(s1, nick);
    LinkMembers(s2, c, u);
  }

  /** `part`/`kick`: `_leave` on the names, creating what is unknown. */
  function AfterLeave(s: State, channel: string, nick: string): State
    requires Valid(s)
  {
    var (c, s1) := CreateChannel(s, channel);
    CreateChannelValid(s, channel);
    var (u, s2) := CreateUser(s1, nick);
    CreateUserValid(s1, nick);
    AfterLeaveRefs(s2, c, u)
  }

  /** `quit`/`kill`: `_quit` on the name, creating an unknown user. */
  function AfterQuit(s: State, nick: string, reason: string): State
    requires Valid(s)
  {
    var (u, s1) := CreateUser(s, nick);
    CreateUserValid(s, nick);
    QuitRef(s1, u, reason)
  }

  /** `names(channel, nicks)`: the channel is found or created and every
      nick joins it. */
  function AfterNames(s: State, channel: string, nicks: seq<string>): (t: State)
    requires Valid(s)
    ensures Valid(t)
  {
    if nicks == [] then
      CreateChannelValid(s, channel);
      CreateChannel(s, channel).1
    else
      var prev := AfterNames(s, channel, nicks[..|nicks| - 1]);
      JoinLinks(prev, channel, nicks[|nicks| - 1]);
      AfterJoin(prev, channel, nicks[|nicks| - 1])
  }

  /** A join keeps the channel's object, every known user's object and
      every earlier member of the channel. */
  lemma JoinGrows(s: State, channel: string, nick: string)
    requires Valid(s) && LowerCase(channel) in s.channels && s.channels[LowerCase(channel)] in s.channelUsers
    ensures var t := AfterJoin(s, channel, nick);
      var c := s.channels[LowerCase(channel)];
      && LowerCase(channel) in t.channels && t.channels[LowerCase(channel)] == c && c in t.channelUsers
      && (forall k :: k in s.users ==> k in t.users && t.users[k] == s.users[k])
      && (forall x :: x in s.channelUsers[c] ==> x in t.channelUsers[c])
  {
    var (c, s1) := CreateChannel(s, channel);
    CreateChannelValid(s, channel);
    var (u, s2) := CreateUser(s1, nick);
    CreateUserValid(s1, nick);
    CreateUserKeepsUsers(s1, nick);
    LinkMembers(s2, c, u);
  }

  /** Creating a user leaves the known users, the channels and the
      channels' members as they were. */
  lemma CreateUserKeepsUsers(s: State, name: string)
    ensures var t := CreateUser(s, name).1;
      && (forall k :: k in s.users ==> k in t.users && t.users[k] == s.users[k])
      && t.channels == s.channels && t.channelUsers == s.channelUsers
  {
  }

  /** After `names` the channel is known, and every nick of the list is a
      known user among its users: later nicks do not undo earlier ones. */
  lemma {:induction false} AfterNamesLinks(s: State, channel: string, nicks: seq<string>)
    requires Valid(s)
    ensures var t := AfterNames(s, channel, nicks);
      && LowerCase(channel) in t.channels && t.channels[LowerCase(channel)] == CreateChannel(s, channel).0
      && t.channels[LowerCase(channel)] in t.channelUsers
      && NamesJoined(t, channel, nicks)
  {
    if nicks == [] {
      CreateChannelValid(s, channel);
    } else {
      var prev := AfterNames(s, channel, nicks[..|nicks| - 1]);
      AfterNamesLinks(s, channel, nicks[..|nicks| - 1]);
      NamesStep(prev, channel, nicks);
    }
  }

  /** Every nick of the list is a known user among the channel's users. */
  ghost predicate NamesJoined(t: State, channel: string, nicks: seq<string>)
    requires LowerCase(channel) in t.channels && t.channels[LowerCase(channel)] in t.channelUsers
  {
    forall i :: 0 <= i < |nicks| ==>
      LowerCase(nicks[i]) in t.users && t.users[LowerCase(nicks[i])] in t.channelUsers[t.channels[LowerCase(channel)]]
  }

  lemma NamesStep(prev: State, channel: string, nicks: seq<string>)
    requires nicks != []
    requires Valid(prev) && LowerCase(channel) in prev.channels && prev.channels[LowerCase(channel)] in prev.channelUsers
    requires NamesJoined(prev, channel, nicks[..|nicks| - 1])
    ensures var t := AfterJoin(prev, channel, nicks[|nicks| - 1]);
      && LowerCase(channel) in t.channels && t.channels[LowerCase(channel)] == prev.channels[LowerCase(channel)]
      && t.channels[LowerCase(channel)] in t.channelUsers
      && NamesJoined(t, channel, nicks)
  {
    var last := nicks[|nicks| - 1];
    JoinLinks(prev, channel, last);
    JoinGrows(prev, channel, last);
    NamesJoinedGrow(prev, AfterJoin(prev, channel, last), channel, nicks);
  }

  /** A state that keeps the channel, the known users and the channel's
      members, and adds the last nick to them, extends `NamesJoined` to the
      whole list. */
  lemma NamesJoinedGrow(prev: State, t: State, channel: string, nicks: seq<string>)
    requires nicks != []
    requires LowerCase(channel) in prev.channels && prev.channels[LowerCase(channel)] in prev.channelUsers
    requires LowerCase(channel) in t.channels && t.channels[LowerCase(channel)] == prev.channels[LowerCase(channel)]
    requires t.channels[LowerCase(channel)] in t.channelUsers
    requires forall k :: k in prev.users ==> k in t.users && t.users[k] == prev.users[k]
    requires forall x :: x in prev.channelUsers[prev.channels[LowerCase(channel)]] ==> x in t.channelUsers[t.channels[LowerCase(channel)]]
    requires var key := LowerCase(nicks[|nicks| - 1]);
      key in t.users && t.users[key] in t.channelUsers[t.channels[LowerCase(channel)]]
    requires NamesJoined(prev, channel, nicks[..|nicks| - 1])
    ensures NamesJoined(t, channel, nicks)
  {
  }

  /** `nick(oldName, newName)`: the very user object moves from the old
      lower-cased key to the new one (replacing whatever was there), takes
      the new name and emits `renamed` with its old resolve strings. An
      unknown old name makes `user.resolveStrings` throw. */
  function AfterNick(s: State, oldName: string, newName: string): Result<State, JsError>
  {
    var key := LowerCase(oldName);
    if key !in s.users then Err(TypeError("Cannot read properties of undefined (reading 'resolveStrings')"))
    else
      var u := s.users[key];
      var resolves := [if u in s.names then s.names[u] else ""];
      Ok(s.(names := s.names[u := newName],
            users := (s.users - {key})[LowerCase(newName) := u],
            events := s.events + [Renamed(u, oldName, newName, resolves)],
            cache := RenamedCache(s.cache, u, resolves, [newName])))
  }

  /** A rename keeps the socket's tables well formed. */
  lemma NickValid(s: State, oldName: string, newName: string)
    requires Valid(s) && LowerCase(oldName) in s.users
    ensures Valid(AfterNick(s, oldName, newName).value)
  {
    var u := s.users[LowerCase(oldName)];
    RenamedMembers(s.cache, u, [s.names[u]], [newName]);
    NickUsers(s, oldName, newName);
    NickChannels(s, oldName, newName);
  }

  /** After a rename every user is still filed under its lower-cased name. */
  lemma NickUsers(s: State, oldName: string, newName: string)
    requires Tables(s) && LowerCase(oldName) in s.users
    ensures var t := AfterNick(s, oldName, newName).value;
      forall k :: k in t.users ==> t.users[k] in t.userChannels && t.users[k] in t.names
                                   && LowerCase(t.names[t.users[k]]) == k
  {
  }

  /** A rename touches no channel: channels stay filed under their names. */
  lemma NickChannels(s: State, oldName: string, newName: string)
    requires Valid(s) && LowerCase(oldName) in s.users
    ensures var t := AfterNick(s, oldName, newName).value;
      forall k :: k in t.channels ==> LowerCase(t.names[t.channels[k]]) == k
  {
    var u := s.users[LowerCase(oldName)];
    assert u !in s.channelUsers;
    var t := AfterNick(s, oldName, newName).value;
    forall k | k in t.channels ensures LowerCase(t.names[t.channels[k]]) == k {
      assert t.channels[k] != u;
    }
  }

  /** `nick` fails exactly for an unknown old name; otherwise the same user
      object is found under the new name, and only under it, with the new
      name in the resolver and the memberships unchanged. */
  lemma NickRekeys(s: State, oldName: string, newName: string)
    requires Valid(s)
    ensures AfterNick(s, oldName, newName).Err? <==> LowerCase(oldName) !in s.users
    ensures AfterNick(s, oldName, newName).Ok? ==>
      var u := s.users[LowerCase(oldName)];
      var t := AfterNick(s, oldName, newName).value;
      && Valid(t) && t.users[LowerCase(newName)] == u && t.names[u] == newName
      && (LowerCase(oldName) != LowerCase(newName) ==> LowerCase(oldName) !in t.users)
      && t.events == s.events + [Renamed(u, oldName, newName, [s.names[u]])]
      && u in Lookup(t.cache, newName)
      && (newName != s.names[u] ==> u !in Lookup(t.cache, s.names[u]))
      && t.userChannels == s.userChannels && t.channelUsers == s.channelUsers
  {
    if LowerCase(oldName) in s.users {
      var u := s.users[LowerCase(oldName)];
      RenamedMembers(s.cache, u, [s.names[u]], [newName]);
      NickValid(s, oldName, newName);
    }
  }

  /** `message`/`action`/`notice`: the parts the client's text becomes. */
  datatype Incoming = Said | Acted | Noticed

  function IncomingParts(kind: Incoming, text: string): (r: seq<Part>)
    ensures |r| > 0 && r[|r| - 1] == Text(text)
    ensures kind == Acted <==> HasAction(r, false)
  {
    match kind
    case Said => [Text(text)]
    case Acted => var r := [Action, Text(text)]; assert IsActionPart(r[0], false); r
    case Noticed => [Notice, Text(text)]
  }

  /** The target of an incoming message: the known channel of that name,
      else the socket's own user (a private message), else `null`. */
  function MessageTarget(s: State, to: string): (p: Party)
    ensures FindChannel(s, to).Some? ==> p == Channel(FindChannel(s, to).value)
    ensures FindChannel(s, to).None? && s.self.Some? ==> p == User(s.self.value, None)
    ensures FindChannel(s, to).None? && s.self.None? ==> p == Nobody
  {
    match FindChannel(s, to)
    case Some(c) => Channel(c)
    case None => if s.self.Some? then User(s.self.value, None) else Nobody
  }

  /** `_message(from, to, parts)`: a server message (no sender) is dropped;
      otherwise the sender is found or created and a `message` is emitted. */
  function AfterMessage(s: State, from: Option<string>, to: string, parts: seq<Part>): State
  {
    if from.None? then s
    else
      var (u, t) := CreateUser(s, from.value);
      t.(events := t.events + [MessageEvent(Message(s.id, MessageTarget(t, to), User(u, None), parts))])
  }

  /** A message from a user always reaches the event log with that user as
      its sender; an unknown channel never becomes the target. */
  lemma IncomingMessageEmits(s: State, from: Option<string>, to: string, parts: seq<Part>)
    requires Valid(s)
    ensures from.None? ==> AfterMessage(s, from, to, parts) == s
    ensures from.Some? ==>
      var t := AfterMessage(s, from, to, parts);
      && Valid(t) && t.channels == s.channels
      && var e := t.events[|t.events| - 1];
         && e.MessageEvent? && e.message.sender == User(t.users[LowerCase(from.value)], None)
         && e.message.parts == parts
         && (LowerCase(to) !in s.channels ==> !e.message.target.Channel?)
  {
    if from.Some? {
      var t0 := CreateUser(s, from.value).1;
      CreateUserValid(s, from.value);
      ValidIgnoresLog(t0, AfterMessage(s, from, to, parts).events);
    }
  }

  /** `abort(retries)`: the socket reports that it gave up reconnecting. */
  function Abort(s: State, retries: nat): State
  {
    Disconnect(s, "Aborted after " + NatText(retries) + " retries")
  }

  /** Decimal digits of a number. */
  function NatText(n: nat): (r: string)
    ensures r != []
    ensures forall i :: 0 <= i < |r| ==> '0' <= r[i] <= '9'
  {
    if n < 10 then ["0123456789"[n]] else NatText(n / 10) + ["0123456789"[n % 10]]
  }

  /** `type(resolveStr)`: "channel" for a string starting with `#`, else
      "user" (the empty string included). */
  function Type(resolveStr: string): (r: string)
    ensures r == "channel" <==> |resolveStr| > 0 && resolveStr[0] == '#'
    ensures r == "user" <==> !(|resolveStr| > 0 && resolveStr[0] == '#')
  {
    if |resolveStr| > 0 && resolveStr[0] == '#' then "channel" else "user"
  }

  /** Lower-casing never touches a leading `#`, so an object filed under
      its lower-cased name classifies as its own resolve string (its name)
      does, and the object `_getUser`/`_getChannel` hand back for a name,
      whether known or made afresh, classifies as that name does: a
      channel reached through a `#` name is a "channel", a user reached
      through a nick without one a "user". */
  lemma TypeOfResolveStrings(s: State, name: string)
    requires Valid(s)
    ensures forall k :: k in s.channels ==> Type(k) == Type(s.names[s.channels[k]])
    ensures forall k :: k in s.users ==> Type(k) == Type(s.names[s.users[k]])
    ensures CreateChannel(s, name).0 in CreateChannel(s, name).1.names
            && Type(CreateChannel(s, name).1.names[CreateChannel(s, name).0]) == Type(name)
    ensures CreateUser(s, name).0 in CreateUser(s, name).1.names
            && Type(CreateUser(s, name).1.names[CreateUser(s, name).0]) == Type(name)
  {
    forall k | k in s.channels ensures Type(k) == Type(s.names[s.channels[k]]) {
      TypeOfLowerCase(s.names[s.channels[k]]);
    }
    forall k | k in s.users ensures Type(k) == Type(s.names[s.users[k]]) {
      TypeOfLowerCase(s.names[s.users[k]]);
    }
    TypeOfLowerCase(name);
  }

  lemma TypeOfLowerCase(x: string)
    ensures Type(LowerCase(x)) == Type(x)
  {
    if |x| > 0 { assert LowerCase(x)[0] == LowerChar(x[0]); }
  }


  /** `_send(parts, fireEvent)`: the parts' strings joined, with `Action`
      markers dropped and turning the call into `action`; the message event
      is emitted only when asked for. */
  function AfterSend(s: State, c: Ref, parts: seq<Part>, fireEvent: bool): State
  {
    var sender := if s.self.Some? then User(s.self.value, None) else Nobody;
    var content := Content(parts, NamesOf(s.names), false);
    var name := NamesOf(s.names).name(c);
    var call := if HasAction(parts, false) then Act(name, content) else Say(name, content);
    s.(outbox := s.outbox + [call],
       events := s.events + (if fireEvent then [MessageEvent(Message(s.id, Channel(c), sender, parts))] else []))
  }

  /** `send` is `_send(parts, true)` and `sendSilent` is `_send(parts, false)`:
      both make exactly one client call, whose text does not depend on the
      action marker, and only `send` emits the message. */
  lemma SendEmits(s: State, c: Ref, parts: seq<Part>, i: nat)
    requires parts != [] && i <= |parts|
    ensures var t := AfterSend(s, c, parts, true);
      var u := AfterSend(s, c, parts, false);
      && |t.outbox| == |s.outbox| + 1 && t.outbox == u.outbox
      && |t.events| == |s.events| + 1 && t.events[|s.events|].MessageEvent?
      && u.events == s.events
    ensures var acted := AfterSend(s, c, parts[..i] + [Action] + parts[i..], true);
      acted.outbox[|s.outbox|] == Act(NamesOf(s.names).name(c), Content(parts, NamesOf(s.names), false))
  {
    var ps := parts[..i] + [Action] + parts[i..];
    assert IsActionPart(ps[i], false);
    ContentWithAction(parts, i, NamesOf(s.names), false);
  }

  // ---------------------------------------------------------------------------
  // The socket object

  class IrcSocket {
    const id: string
    const resolver: Resolver
    var self: Option<Ref>
    var users: map<string, Ref>
    var channels: map<string, Ref>
    var names: map<Ref, string>
    var userChannels: map<Ref, seq<Ref>>
    var channelUsers: map<Ref, seq<Ref>>
    var next: nat
    var events: seq<Event>
    var outbox: seq<Command>

    ghost function Snapshot(): State
      reads this, resolver
    {
      State(id, self, users, channels, names, userChannels, channelUsers, next, events, outbox, resolver.cache)
    }

    constructor (id: string)
      ensures Snapshot() == State(id, None, map[], map[], map[], map[], map[], 0, [], [], map[])
      ensures Valid(Snapshot()) && fresh(resolver)
    {
      this.id := id;
      resolver := new Resolver();
      self := None;
      users, channels, names := map[], map[], map[];
      userChannels, channelUsers := map[], map[];
      next, events, outbox := 0, [], [];
    }

    /** `resolve(resolveStr)`: the type and a new array of the matches. */
    method Resolve(resolveStr: string) returns (kind: string, matches: seq<Ref>)
      ensures kind == Type(resolveStr) && matches == Lookup(resolver.cache, resolveStr)
    {
      kind := Type(resolveStr);
      matches := resolver.Resolve(resolveStr);
    }

    /** `_getUser(name, create)`. */
    method GetUser(name: string, create: bool) returns (user: Option<Ref>)
      modifies this, resolver
      ensures !create ==> user == FindUser(old(Snapshot()), name) && Snapshot() == old(Snapshot())
      ensures create ==> user == Some(CreateUser(old(Snapshot()), name).0)
                         && Snapshot() == CreateUser(old(Snapshot()), name).1
    {
      var key := LowerCase(name);
      if key in users {
        user := Some(users[key]);
      } else if !create {
        user := None;
      } else {
        var u := MakeUser(name);
        user := Some(u);
      }
    }

    /** The creating branch of `_getUser`: a new user object, stored under
        the lower-cased name, announced and handed to the resolver. */
    method MakeUser(name: string) returns (u: Ref)
      requires LowerCase(name) !in users
      modifies this, resolver
      ensures (u, Snapshot()) == CreateUser(old(Snapshot()), name)
    {
      u := Ref(id, next);
      resolver.New(u, [name]);
      users, names, userChannels, next, events :=
        users[LowerCase(name) := u], names[u := name], userChannels[u := []], next + 1, events + [NewUser(u)];
    }

    /** `_getChannel(name, create)`. */
    method GetChannel(name: string, create: bool) returns (channel: Option<Ref>)
      modifies this, resolver
      ensures !create ==> channel == FindChannel(old(Snapshot()), name) && Snapshot() == old(Snapshot())
      ensures create ==> channel == Some(CreateChannel(old(Snapshot()), name).0)
                         && Snapshot() == CreateChannel(old(Snapshot()), name).1
    {
      var key := LowerCase(name);
      if key in channels {
        channel := Some(channels[key]);
      } else if !create {
        channel := None;
      } else {
        var c := MakeChannel(name);
        channel := Some(c);
      }
    }

    /** The creating branch of `_getChannel`. */
    method MakeChannel(name: string) returns (c: Ref)
      requires LowerCase(name) !in channels
      modifies this, resolver
      ensures (c, Snapshot()) == CreateChannel(old(Snapshot()), name)
    {
      c := Ref(id, next);
      resolver.New(c, [name]);
      channels, names, channelUsers, next, events :=
        channels[LowerCase(name) := c], names[c := name], channelUsers[c := []], next + 1, events + [NewChannel(c)];
    }

    /** `_join(channel, user)` on names. */
    method Join(channel: string, nick: string)
      requires Valid(Snapshot())
      modifies this, resolver
      ensures Snapshot() == AfterJoin(old(Snapshot()), channel, nick)
    {
      CreateChannelValid(Snapshot(), channel);
      var c := GetChannel(channel, true);
      CreateUserValid(Snapshot(), nick);
      var u := GetUser(nick, true);
      LinkRefs(c.value, u.value);
    }

    /** `_join(channel, user)` on the objects. */
    method LinkRefs(c: Ref, u: Ref)
      requires c in channelUsers && u in userChannels
      modifies this
      ensures Snapshot() == Link(old(Snapshot()), c, u)
    {
      channelUsers := channelUsers[c := JsSet.Add(channelUsers[c], u)];
      userChannels := userChannels[u := JsSet.Add(userChannels[u], c)];
    }

    /** `_leave(channel, user)` for a user other than the socket's own. */
    method LeaveOther(c: Ref, u: Ref)
      requires Closed(Snapshot()) && c in channelUsers && u in userChannels
      modifies this, resolver
      ensures Snapshot() == AfterLeaveOther(old(Snapshot()), c, u)
    {
      UnlinkRefs(c, u);
      ghost var m := Snapshot();
      if userChannels[u] == [] {
        users := users - {LowerCase(names[u])};
        events := events + [Removed(u)];
        resolver.OnRemoved(u, [names[u]]);
      }
      assert Snapshot() == DropIfAlone(m, u);
    }

    /** `channel._users.delete(user); user._channels.delete(channel)`. */
    method UnlinkRefs(c: Ref, u: Ref)
      requires c in channelUsers && u in userChannels
      modifies this
      ensures Snapshot() == Unlink(old(Snapshot()), c, u)
    {
      channelUsers := channelUsers[c := JsSet.Delete(channelUsers[c], u)];
      userChannels := userChannels[u := JsSet.Delete(userChannels[u], c)];
    }

    /** The loop of `_leave` when the socket's own user has left: each of
        `others` leaves the channel ("Stopped watching"). The recursive
        `_leave` takes its other branch, as the own user has already left. */
    method StopWatching(c: Ref, others: seq<Ref>)
      requires Closed(Snapshot()) && c in channelUsers
      requires forall w :: w in others ==> w in userChannels
      modifies this, resolver
      ensures Snapshot() == LeaveOthers(old(Snapshot()), c, others)
    {
      ghost var s0 := Snapshot();
      var i := 0;
      while i < |others|
        invariant 0 <= i <= |others|
        invariant Snapshot() == LeaveOthers(s0, c, others[..i])
        invariant Closed(Snapshot()) && c in channelUsers
        invariant forall w :: w in others ==> w in userChannels
      {
        assert others[..i + 1][..i] == others[..i];
        LeaveOther(c, others[i]);
        i := i + 1;
      }
      assert others[..i] == others;
    }

    /** The end of `_leave` for the socket's own user, once the pair is
        unlinked: the others stop watching and the channel is dropped. */
    method LeaveAsSelf(c: Ref)
      requires Closed(Snapshot()) && c in channelUsers
      modifies this, resolver
      ensures Snapshot() == SelfLeave(old(Snapshot()), c)
    {
      StopWatching(c, channelUsers[c]);
      channels := channels - {LowerCase(names[c])};
      events := events + [Removed(c)];
      resolver.OnRemoved(c, [names[c]]);
    }

    /** `_leave(channel, user)` on the objects. */
    method LeaveRefs(c: Ref, u: Ref)
      requires Closed(Snapshot()) && c in channelUsers && u in userChannels
      modifies this, resolver
      ensures Snapshot() == AfterLeaveRefs(old(Snapshot()), c, u)
    {
      if IsSelf(self, User(u, None)) {
        UnlinkRefs(c, u);
        LeaveAsSelf(c);
      } else {
        LeaveOther(c, u);
      }
    }

    /** `part`/`kick`: `_leave` on names. */
    method Leave(channel: string, nick: string)
      requires Valid(Snapshot())
      modifies this, resolver
      ensures Snapshot() == AfterLeave(old(Snapshot()), channel, nick)
    {
      CreateChannelValid(Snapshot(), channel);
      var c := GetChannel(channel, true);
      CreateUserValid(Snapshot(), nick);
      var u := GetUser(nick, true);
      LeaveRefs(c.value, u.value);
    }

    /** The loop of `_quit` over the user's channels. */
    method LeaveAll(u: Ref, cs: seq<Ref>)
      requires Closed(Snapshot()) && u in userChannels
      requires forall c :: c in cs ==> c in channelUsers
      modifies this, resolver
      ensures Snapshot() == LeaveChannels(old(Snapshot()), u, cs)
    {
      ghost var s0 := Snapshot();
      var i := 0;
      while i < |cs|
        invariant 0 <= i <= |cs|
        invariant Snapshot() == LeaveChannels(s0, u, cs[..i])
      {
        assert cs[..i + 1][..i] == cs[..i];
        LeaveRefs(cs[i], u);
        i := i + 1;
      }
      assert cs[..i] == cs;
    }

    /** `quit`/`kill`: `_quit` on a name. */
    method Quit(nick: string, reason: string)
      requires Valid(Snapshot())
      modifies this, resolver
      ensures Snapshot() == AfterQuit(old(Snapshot()), nick, reason)
    {
      CreateUserValid(Snapshot(), nick);
      var u := GetUser(nick, true);
      ghost var s1 := Snapshot();
      LeaveAll(u.value, userChannels[u.value]);
      if IsSelf(self, User(u.value, None)) {
        OnDisconnected(reason);
      }
      QuitRefLeavesAll(s1, u.value, reason);
    }

    /** The `disconnected` listeners of `Socket` and `IRCSocket`. */
    method OnDisconnected(reason: string)
      modifies this
      ensures Snapshot() == Disconnect(old(Snapshot()), reason)
    {
      events := events + [Disconnected(reason)];
      self := None;
      users := map[];
      channels := map[];
    }

    /** `registered`: `connected` with the own user. */
    method Registered(nick: string)
      modifies this, resolver
      ensures Snapshot() == AfterRegistered(old(Snapshot()), nick)
    {
      var u := GetUser(nick, true);
      events := events + [Connected(u.value)];
      self := u;
    }

    /** `nick(oldName, newName)`. */
    method Nick(oldName: string, newName: string) returns (r: Result<(), JsError>)
      modifies this, resolver
      ensures var spec := AfterNick(old(Snapshot()), oldName, newName);
        && (r.Err? <==> spec.Err?)
        && (spec.Err? ==> r.error == spec.error && Snapshot() == old(Snapshot()))
        && (spec.Ok? ==> Snapshot() == spec.value)
    {
      var key := LowerCase(oldName);
      if key !in users {
        return Err(TypeError("Cannot read properties of undefined (reading 'resolveStrings')"));
      }
      var u := users[key];
      var resolves := [if u in names then names[u] else ""];
      names := names[u := newName];
      users := users - {key};
      users := users[LowerCase(newName) := u];
      events := events + [Renamed(u, oldName, newName, resolves)];
      resolver.OnRenamed(u, resolves, [newName]);
      r := Ok(());
    }

    /** `_message(from, to, parts)`. */
    method IncomingMessage(from: Option<string>, to: string, parts: seq<Part>)
      modifies this, resolver
      ensures Snapshot() == AfterMessage(old(Snapshot()), from, to, parts)
    {
      if from.None? {
        return;
      }
      var u := GetUser(from.value, true);
      var c := GetChannel(to, false);
      var target := if c.Some? then Channel(c.value) else if self.Some? then User(self.value, None) else Nobody;
      events := events + [MessageEvent(Message(id, target, User(u.value, None), parts))];
    }

    /** `IRCChannel._send(parts, fireEvent)`. */
    method Send(c: Ref, parts: seq<Part>, fireEvent: bool)
      modifies this
      ensures Snapshot() == AfterSend(old(Snapshot()), c, parts, fireEvent)
    {
      var isAction := false;
      var i := 0;
      while i < |parts|
        invariant 0 <= i <= |parts|
        invariant isAction <==> HasAction(parts[..i], false)
      {
        if parts[i] == Action {
          isAction := true;
        }
        i := i + 1;
      }
      assert parts[..i] == parts;
      var sender := if self.Some? then User(self.value, None) else Nobody;
      var content := Content(parts, NamesOf(names), false);
      var name := NamesOf(names).name(c);
      outbox := outbox + [if isAction then Act(name, content) else Say(name, content)];
      if fireEvent {
        events := events + [MessageEvent(Message(id, Channel(c), sender, parts))];
      }
    }
  }
}
