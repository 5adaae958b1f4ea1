# cord, modelled in Dafny

cord is a chat relay bot. It connects to IRC and Discord through
"sockets". Each socket knows its own user and keeps the users and channels
it has seen. A resolver finds those objects again from "resolve strings"
such as `#general` or `@1234…`. Plugs react to the messages the sockets
emit:

- the `React` plug turns chat lines into calls of "comms", the bot's
  commands;
- the `Bridge` plug relays every message of a bridged channel to the other
  channels of its bridge.

This project models:

- the protocol-neutral core of those sockets and plugs;
- the utility library they rest on;
- the dice comm of the roleplay module.

It proves what each part promises.

The modules follow the source files:

| module | source file | form |
|---|---|---|
| `Wrappers`, `JsSet` | shared `Option`/`Result`, and JS `Set` as an insertion-ordered sequence without repeats | values |
| `Iterable` | `utility/iterable.js` | functions over `seq` |
| `Extensions` | `utility/extensions.js` | `splice` as a function; `JsArray` and `JsMap` classes whose methods change their contents |
| `Utility` | `utility/index.js` | `type`/`rangeCheck` functions; `extend` and `flatten` as methods on a `JsObject`/`JsArray`; the `UnexpectedTypeError` message loop |
| `Reflect` | `utility/reflect.js` | the three fixed regular expressions as functions on single-line sources |
| `Socket` | `sockets/Socket.js` | `Message.reply`/`toString` as functions; the `Resolver` class over a map of sets |
| `Irc` | `sockets/IRC.js` | the `IrcSocket` class: name tables, two-way membership, events as a log |
| `Discord` | `sockets/Discord.js` | the `DiscordSocket` class: id caches, the `type` classifier, message and send gating |
| `CommArgs` | `plugs/React.js` (`getCommArgs`) | the argument expression as a function, and the `exec` loop as a method |
| `Transforms` | `plugs/React.js` (`transforms`, `findResolveable`) | functions |
| `Signature` | `plugs/React.js` (parameter checks and usage) | functions |
| `Registry` | `plugs/React.js` (constructor) | the `React` class with its command tables |
| `Dispatch` | `plugs/React.js` (`comm.use`, `activate`, built-in comms) | functions, with the loops as methods |
| `Bridge` | `plugs/Bridge.js` | the `BridgePlug` class |
| `Roleplay` | `comms/roleplay.js` | the dice comm; the random draws are a parameter |

How events and objects are modelled:

- An event is a value appended to the emitting socket's event log.
- A listener of another object is a method called with that value: the
  resolver's `_new`, `removed` and `renamed`, and the bridge's `newChannel`
  and `removed`.
- Users and channels are handles into the socket's own maps, so the
  per-object fields of the source (`_channels`, `_users`, `_name`) are
  entries of those maps.
- Where a user regular expression or a foreign client is consulted, the
  model takes it as a parameter: the `exec` of a regex comm, what the
  Discord client reports, and the random draws of a die.

## Model

| member | source | states |
|---|---|---|
| JsSet.Add | sockets/Socket.js:209-212 | `set.add(x)`: the set gains exactly `x`; nothing changes when `x` was there; a new `x` goes at the end; no repeats appear |
| JsSet.Delete | sockets/Socket.js:213-219 | `set.delete(x)`: the set loses exactly `x` and nothing else, an absent `x` changes nothing, no repeats appear, and its size drops by one exactly when `x` was there |
| JsSet.DeleteKeepsOrder | sockets/Socket.js:213-219 | deleting a member cuts out its one position: the elements before and after it keep their order |
| Extensions.SliceIndex | utility/extensions.js:6 | how `str.slice` reads a position: negative positions count from the end, and every position is clamped to the string |
| Extensions.SpliceInRange | utility/extensions.js:3-7 | the intended `splice`: for an in-range index, exactly `count` characters at `index` are replaced by the joined arguments; the length changes accordingly |
| Extensions.SpliceOne | utility/extensions.js:3-7 | splicing in one argument is prefix + argument + suffix |
| Extensions.SpliceUndo | utility/extensions.js:3-7 | splicing text in and then splicing the removed text back restores the string |
| Extensions.SpliceAsWrittenFails | utility/extensions.js:5-7 | the method as written reads an undeclared `str`, so it never returns the documented result |
| Extensions.IndexOf | utility/extensions.js:21 | `indexOf`: -1 exactly when the value is absent; otherwise the first position holding it |
| Extensions.JsArray.Clear | utility/extensions.js:11-13 | `clear()` leaves the array empty |
| Extensions.JsArray.Delete | utility/extensions.js:18-27 | `delete(...values)` leaves the array and count of the function `DeleteEach` on the old contents |
| Extensions.JsArray.Push | utility/index.js:48 | `push` appends the value at the end |
| Extensions.DeleteOne | utility/extensions.js:15-27 | deleting one value removes only its first occurrence and counts 1; an absent value changes nothing and counts 0 |
| Extensions.DeleteOneOfThree | utility/extensions.js:16 | `[1, 1, 1].delete(1)` leaves `[1, 1]` and returns 1 |
| Extensions.DeleteEachCounts | utility/extensions.js:18-27 | every counted value is one entry fewer: new length + count = old length; count ≤ number of values; the result is a sub-multiset of the input |
| Extensions.JsMap.GetOrAdd | utility/extensions.js:34-42 | `getOrAdd` returns and stores what the function `GetOrAddSpec` gives on the old map |
| Extensions.JsMap.DeleteGet | utility/extensions.js:46-51 | `deleteGet` returns and stores what `DeleteGetSpec` gives on the old map |
| Extensions.GetOrAddStable | utility/extensions.js:30-42 | a present key returns its value and leaves the map alone; an absent key stores the default (or the factory's value); a second call returns that same value without using its default |
| Extensions.DeleteGetUndoesGetOrAdd | utility/extensions.js:44-51 | after `deleteGet` the key is absent and its old value is returned; an absent key gives the default and no change; `deleteGet` after a `getOrAdd` that inserted restores the map |
| Iterable.Range | utility/iterable.js:33-36 | `range(start, count, by)` has max(count, 0) elements, the i-th being start + i·by |
| Iterable.All | utility/iterable.js:40-44 | `all` holds exactly when every element satisfies the function |
| Iterable.Any | utility/iterable.js:47-51 | `any` without a function means "non-empty"; with one it holds exactly when some element satisfies it |
| Iterable.AllAnyDual | utility/iterable.js:40-51 | `all(p)` is `!any(!p)`; on an empty input `all` is true and `any` is false |
| Iterable.Map | utility/iterable.js:56-59 | `map` keeps the length and applies the function at every position |
| Iterable.Filter | utility/iterable.js:63-67 | `filter` yields only elements that satisfy the function, all of them, and nothing from outside the input |
| Iterable.FilterAppend | utility/iterable.js:63-67 | `filter` keeps the order: filtering a concatenation filters each part |
| Iterable.FilterNone | utility/iterable.js:63-67 | a filter that no element passes yields nothing |
| Iterable.First | utility/iterable.js:71-80 | `first` with a non-function second argument gives the first element, or that argument as the default on an empty input; with a function it gives the default when nothing matches and otherwise the first match |
| Iterable.Concat | utility/iterable.js:84-87 | `concat` of no iterables is empty, of one iterable is that iterable, and is never shorter than any of its iterables; with ConcatAppend this determines it |
| Iterable.ConcatAppend | utility/iterable.js:84-87 | concatenation distributes over joining the lists of iterables |
| Iterable.Prepend | utility/iterable.js:91 | `prepend(it, ...v)` is `v` followed by `it` |
| Iterable.Append | utility/iterable.js:95 | `append(it, ...v)` is `it` followed by `v` |
| Iterable.Take | utility/iterable.js:100-106 | `take` yields nothing for count ≤ 0 and otherwise the first min(count, n) elements |
| Iterable.Skip | utility/iterable.js:110-114 | `skip` drops the first max(count, 0) elements, at most all of them |
| Iterable.TakeSkip | utility/iterable.js:100-114 | `take` and `skip` with the same count split the input in two |
| Iterable.Zip | utility/iterable.js:119-128 | `zip` yields min(\|a\|, \|b\|) results, each being the function on the pair at that position |
| Iterable.AggregateNoSeed | utility/iterable.js:134-148 | without a seed the first element seeds the fold; the result is `undefined` exactly for an empty input |
| Iterable.AggregateSnoc | utility/iterable.js:144-146 | folding one more element applies `func` once more: a left fold |
| Iterable.AggregateAppend | utility/iterable.js:144-147 | folding a concatenation folds the second part from the first part's result |
| Iterable.SumIsTotal | utility/iterable.js:151 | `sum` is a fold from 0 and agrees with an independent right-recursive sum |
| Iterable.MaxIsLargest | utility/iterable.js:153-154 | `max` is an element of the input no smaller than any other, and `undefined` only for an empty input (the doc comment says "smallest") |
| Iterable.MinIsSmallest | utility/iterable.js:156-157 | `min` is an element no larger than any other, and `undefined` only for an empty input (the doc comment says "largest") |
| Iterable.JoinShape | utility/iterable.js:159-161 | `join` of nothing is "undefined", of one element that element, and one more element adds the separator and it |
| Iterable.JoinEmptySeparator | utility/iterable.js:161 | with the empty separator, `join` of a non-empty input is plain concatenation |
| Utility.TypeNameSeparatesKinds | utility/index.js:54-58 | two built-in values get the same type name exactly when they are of the same kind |
| Utility.RangeCheck | utility/index.js:61-63 | only numbers pass `rangeCheck` |
| Utility.RangeCheckBounds | utility/index.js:61-63 | `rangeCheck` holds exactly for a number with min ≤ v ≤ max; an empty range passes nothing; widening the range keeps every value that passed |
| Utility.JsObject.CopyProperties | utility/index.js:16-28 | the inner loop of `extend` assigns every own property of one source onto the target |
| Utility.JsObject.Extend | utility/index.js:14-31 | `extend` copies the sources in turn; it succeeds exactly when no source is null/undefined; otherwise it throws the `TypeError` of `getOwnPropertyNames` after copying the sources before the first null one |
| Utility.ExtendAllProperties | utility/index.js:14-31 | after `extend` a key is present exactly when the target or some source had it; a later source wins; a key no source has keeps its old value |
| Utility.FlattenInto | utility/index.js:44-50 | `flatten(obj, array)` as intended appends the leaves of `obj` to the array from left to right |
| Utility.FlattenLeaves | utility/index.js:44-50 | nothing in a flattened value is an array, and a non-iterable value flattens to itself alone |
| Utility.FlattenAgrees | utility/index.js:44-50 | on values without strings, the `flatten` as written gives the intended result when given a stack as deep as the nesting |
| Utility.FlattenAsWrittenDiverges | utility/index.js:44-50 | as written, `flatten` of a non-empty string recurses for ever, since each character is again an iterable string |
| Utility.Entry | utility/index.js:70-74 | one entry of the error message as intended: a name, a string verbatim, or "Null"; an entry with none of these is an error |
| Utility.Message | utility/index.js:66-79 | the intended message: "Expected " followed by the entries' names as an or-list, or the nested error when some entry has no name |
| Utility.ListedIsOrList | utility/index.js:75-76 | the separators of the loop (", " between, " or " before the last) make an or-list |
| Utility.ListedAll | utility/index.js:68-77 | once every entry is listed, the loop's text is the or-list of the names |
| Utility.MessageExample | utility/index.js:66-79 | (String, Array, Function) gives "Expected String, Array or Function", as written and as intended |
| Utility.MessageNullDiffers | utility/index.js:70-74 | as written, a null entry throws at `exp.name`, where the intended message is "Expected Null" |
| Reflect.ParseParameter | utility/reflect.js:25-27 | `parameterRegex` fails exactly on an empty piece; a parameter keeps its index and has a non-empty name |
| Reflect.ParseParameterDefault | utility/reflect.js:5 | only a piece holding `=` has a default, and a default that is not all spaces has no surrounding spaces |
| Reflect.DefaultTrimmed | utility/reflect.js:5 | a default follows an `=` and is trimmed unless it is all spaces |
| Reflect.ParseSimple | utility/reflect.js:25-27 | a piece written as spaces, an optional `...`, a name and an optional `= default` reads back as exactly that name, default and spread flag |
| Reflect.Split | utility/reflect.js:23 | `split(",")` gives at least one piece, none holding a comma |
| Reflect.SplitJoin | utility/reflect.js:23 | joining the pieces with commas gives the text back |
| Reflect.SplitCount | utility/reflect.js:23 | there is one piece more than there are commas |
| Reflect.SplitFirst | utility/reflect.js:23 | the first piece runs up to the first comma |
| Reflect.CommaInDefault | utility/reflect.js:7-9 | as the doc comment warns, a default holding a comma is cut there, and the rest becomes a parameter of its own |
| Reflect.ParseParameters | utility/reflect.js:23-28 | reading the pieces succeeds exactly when none is empty (else the destructuring `TypeError`), giving one parameter per piece |
| Reflect.ParseParametersEach | utility/reflect.js:23-28 | each parameter is its own piece read on its own at its position |
| Reflect.MatchFunctionForm | utility/reflect.js:15-17 | `funcRegex` gives a non-arrow, non-spread result |
| Reflect.MatchArrowForm | utility/reflect.js:18-20 | `arrowFuncRegex` gives an arrow with no name that is not a generator |
| Reflect.Form | utility/reflect.js:15-21 | a source the `function` form reads is never read as an arrow function; the arrow reading is taken exactly when the `function` form fails and the arrow form matches; nothing is read exactly when both fail |
| Reflect.InspectFunction | utility/reflect.js:10-31 | "Not a function" for a non-function; "Unable to inspect function" when neither form matches; otherwise one parameter per piece, `spread` exactly when some parameter is spread |
| Reflect.InspectedFromPieces | utility/reflect.js:23-30 | a successful inspection carries exactly what the parameter reader read from the split parameter text |
| Reflect.ParsedFromZero | utility/reflect.js:23-28 | indices count from zero, in source order |
| Reflect.InspectFunctionParameters | utility/reflect.js:23-30 | the inspected parameters are the split pieces, each read at its position |
| Socket.LowerCase | sockets/IRC.js:104 | `toLowerCase` on ASCII letters: keeps the length and lower-cases each of `A`–`Z` |
| Socket.LowerCaseIdempotent | sockets/IRC.js:104 | lower-casing twice changes nothing more |
| Socket.SelfAfter | sockets/Socket.js:19-31 | `connected` sets `self`, so `isConnected` holds; `disconnected` clears it, so `isConnected` fails; other events leave it |
| Socket.IsSelf | sockets/Socket.js:96 | `isSelf` holds exactly for the very object held as `self`, never for a nickname wrapper, and only on a connected socket |
| Socket.Reply | sockets/Socket.js:145-152 | `reply` throws exactly for a non-channel target; a private channel gets the parts unchanged; a user sender is mentioned with ": " in front; any other sender sends nothing |
| Socket.ReplyMentionsSender | sockets/Socket.js:150-151 | a reply to a user in a public channel reads as the user's mention, ": " and then the parts |
| Socket.ContentShape | sockets/Socket.js:154-160 | without parts the content reads "undefined"; otherwise it is the parts' strings in order, action markers dropped |
| Socket.ContentWithAction | sockets/Socket.js:155-157 | an action marker contributes nothing to the content |
| Socket.ToStringWithAction | sockets/Socket.js:154-160 | an action marker anywhere switches the sender to the `* sender` form and leaves the content as it was |
| Socket.ToStringPlain | sockets/Socket.js:154-160 | without action markers the message prints as `[target] <sender> content` |
| Socket.Lookup | sockets/Socket.js:204-206 | `resolve` of an unknown string is empty, never null; on a cache without empty sets it is empty exactly for an unknown string |
| Socket.AddRemoveOne | sockets/Socket.js:209-219 | one `_add`/`_remove` changes only the set under its key, by the one object; no key is ever left holding an empty set |
| Socket.AddAllMembers | sockets/Socket.js:221-224 | after `_addThing` an object is under a string exactly when it was before, or it is the thing and the string is one of its resolve strings |
| Socket.RemoveAllMembers | sockets/Socket.js:225-228 | after `_removeThing` the thing is gone from exactly those strings; other objects sharing them stay |
| Socket.RenamedMembers | sockets/Socket.js:233-236 | after a rename the thing is under each current resolve string, gone from each old one not among them, and every other object stays where it was |
| Socket.Resolver.Resolve | sockets/Socket.js:204-206 | `resolve(str)` returns the lookup of the current cache |
| Socket.Resolver.Add | sockets/Socket.js:209-212 | the cache becomes `AddTo` of the old one |
| Socket.Resolver.Remove | sockets/Socket.js:213-219 | the cache becomes `RemoveFrom` of the old one |
| Socket.Resolver.AddThing | sockets/Socket.js:221-224 | the cache gains the thing under each of its resolve strings |
| Socket.Resolver.RemoveThing | sockets/Socket.js:225-228 | the cache loses the thing under each of the given strings |
| Socket.Resolver.New | sockets/Socket.js:230-232 | a new user or channel is added under its resolve strings |
| Socket.Resolver.OnRemoved | sockets/Socket.js:232 | on `removed` the thing leaves its current resolve strings |
| Socket.Resolver.OnRenamed | sockets/Socket.js:233-236 | on `renamed` the thing leaves the old strings and is added under its current ones |
| Irc.MembershipLink | sockets/IRC.js:126-127 | adding one pair to both directions keeps them in step and adds exactly that pair |
| Irc.MembershipUnlink | sockets/IRC.js:133-134 | removing one pair from both directions keeps them in step |
| Irc.CreateUserValid | sockets/IRC.js:103-111 | `_getUser(name, true)` keeps the socket valid and returns the user filed under the lower-cased name |
| Irc.CreateChannelValid | sockets/IRC.js:113-121 | the same for `_getChannel(name, true)` |
| Irc.CreateUserOnce | sockets/IRC.js:103-111 | a create inserts at most once and emits at most one event; asking again in any letter case returns the same user and changes nothing |
| Irc.CreateChannelOnce | sockets/IRC.js:113-121 | the same for channels |
| Irc.LinkMembers | sockets/IRC.js:123-128 | `_join` adds exactly the one pair to both directions |
| Irc.UnlinkMembers | sockets/IRC.js:133-134 | unlinking removes exactly the one pair from both directions |
| Irc.UnlinkPairs | sockets/IRC.js:133-134 | unlinking takes exactly the one pair out and keeps every other pair |
| Irc.DropIfAloneValid | sockets/IRC.js:140-143 | dropping a user in no channel keeps the socket valid |
| Irc.LeaveOtherValid | sockets/IRC.js:130-143 | another user's `_leave` keeps the socket valid |
| Irc.LeaveOtherPairs | sockets/IRC.js:133-143 | another user leaving changes the membership by exactly that pair |
| Irc.LeaveOthersValid | sockets/IRC.js:135-137 | the "Stopped watching" loop keeps the socket valid |
| Irc.LeaveOthersMembers | sockets/IRC.js:135-137 | after the loop none of the others is in the channel, and each has lost exactly that channel |
| Irc.SelfLeaveValid | sockets/IRC.js:135-139 | the socket's own leave keeps the socket valid |
| Irc.SelfLeavePairs | sockets/IRC.js:135-139 | once the others have left, every user has lost the channel and kept every other one |
| Irc.AfterLeaveRefs | sockets/IRC.js:130-144 | `_leave` keeps the tables closed and changes no name, no own user and no set of objects |
| Irc.LeaveRefsValid | sockets/IRC.js:130-144 | `_leave` keeps the socket valid |
| Irc.LeaveRefsOther | sockets/IRC.js:130-143 | another user loses exactly that pair; when it was its last channel it is dropped from the table with `removed` |
| Irc.LeaveRefsSelf | sockets/IRC.js:130-139 | when the own user leaves, every user loses that channel and keeps every other, the channel is left empty and is dropped with `removed` |
| Irc.LeaveRefsMembers | sockets/IRC.js:130-144 | after anyone leaves, the tables are well formed, the pair is gone both ways, and the user's channels only shrink |
| Irc.LeaveChannels | sockets/IRC.js:148-149 | the `_quit` loop keeps the tables closed and changes no name, no own user and no set of objects |
| Irc.LeaveChannelsMembers | sockets/IRC.js:146-149 | leaving every listed channel keeps the tables well formed, leaves the user in none of them, and adds no channel |
| Irc.QuitRefLeavesAll | sockets/IRC.js:146-152 | a quitting user is in no channel afterwards; for the own user the socket emits `disconnected` and forgets its tables |
| Irc.JoinLinks | sockets/IRC.js:123-128 | after a join the user is among the channel's users and the channel among the user's channels |
| Irc.AfterNames | sockets/IRC.js:54-58 | `names` keeps the socket valid |
| Irc.AfterNamesLinks | sockets/IRC.js:54-58 | after `names` the channel is known under its lower-cased name, as the object the channel lookup gives, and every nick of the list is a known user among that channel's users, later nicks not undoing earlier ones |
| Irc.JoinGrows | sockets/IRC.js:123-128 | a join keeps the channel's object, every known user's object and every earlier member of the channel |
| Irc.CreateUserKeepsUsers | sockets/IRC.js:103-111 | creating a user changes no known user, no channel and no channel's members |
| Irc.NickValid | sockets/IRC.js:84-91 | a rename keeps the socket valid |
| Irc.NickUsers | sockets/IRC.js:84-91 | after a rename every user is still filed under its lower-cased name |
| Irc.NickChannels | sockets/IRC.js:84-91 | a rename touches no channel |
| Irc.NickRekeys | sockets/IRC.js:84-91 | `nick` fails exactly for an unknown old name; otherwise the same object is found under the new name only, the resolver has it under the new name, and memberships are unchanged |
| Irc.IncomingParts | sockets/IRC.js:77-82 | the parts of a message, action or notice end with the text, and carry the action marker exactly for an action |
| Irc.MessageTarget | sockets/IRC.js:160 | the target is the known channel of that name, else the own user, else null |
| Irc.IncomingMessageEmits | sockets/IRC.js:154-164 | a server message (no sender) changes nothing; a user's message is logged with that user as sender, and an unknown channel is never the target |
| Irc.TypeOfResolveStrings | sockets/IRC.js:205-208 | in a valid socket every table key classifies as the name of the object filed under it; the user or channel `_getUser`/`_getChannel` return for a name, known or new, classifies as that name: "channel" exactly for a leading `#` |
| Irc.SendEmits | sockets/IRC.js:242-254 | `send` and `sendSilent` make exactly one client call, `action` exactly when an action marker is present; the text does not depend on the marker; only `send` emits `message` |
| Irc.IrcSocket.constructor | sockets/IRC.js:33-46 | a new socket has empty tables, no own user and an empty resolver, and is valid |
| Irc.IrcSocket.Resolve | sockets/Socket.js:53 | `resolve` returns `type` and the resolver's lookup |
| Irc.IrcSocket.GetUser | sockets/IRC.js:103-111 | without `create` a lookup that changes nothing; with it the user `CreateUser` gives |
| Irc.IrcSocket.MakeUser | sockets/IRC.js:106-109 | the new user is stored, announced with `newUser` and added to the resolver, as `CreateUser` says |
| Irc.IrcSocket.GetChannel | sockets/IRC.js:113-121 | the same for channels |
| Irc.IrcSocket.MakeChannel | sockets/IRC.js:116-119 | the new channel is stored, announced with `newChannel` and added to the resolver |
| Irc.IrcSocket.Join | sockets/IRC.js:123-128 | the new state is `AfterJoin` of the old one |
| Irc.IrcSocket.LinkRefs | sockets/IRC.js:126-127 | the new state is `Link` of the old one |
| Irc.IrcSocket.UnlinkRefs | sockets/IRC.js:133-134 | the new state is `Unlink` of the old one |
| Irc.IrcSocket.LeaveOther | sockets/IRC.js:133-143 | the new state is `AfterLeaveOther` of the old one |
| Irc.IrcSocket.StopWatching | sockets/IRC.js:136-137 | the new state is `LeaveOthers` of the old one |
| Irc.IrcSocket.LeaveAsSelf | sockets/IRC.js:135-139 | the new state is `SelfLeave` of the old one |
| Irc.IrcSocket.LeaveRefs | sockets/IRC.js:130-144 | the new state is `AfterLeaveRefs` of the old one |
| Irc.IrcSocket.Leave | sockets/IRC.js:67-70 | `part`/`kick`: the new state is `AfterLeave` of the old one |
| Irc.IrcSocket.LeaveAll | sockets/IRC.js:148-149 | the new state is `LeaveChannels` of the old one |
| Irc.IrcSocket.Quit | sockets/IRC.js:146-152 | `quit`/`kill`: the new state is `AfterQuit` of the old one |
| Irc.IrcSocket.OnDisconnected | sockets/IRC.js:96-99 | the new state is `Disconnect` of the old one: no own user, tables cleared |
| Irc.IrcSocket.Registered | sockets/IRC.js:51-52 | the new state is `AfterRegistered` of the old one |
| Irc.IrcSocket.Nick | sockets/IRC.js:84-91 | an error for an unknown old name, otherwise the new state of `AfterNick` |
| Irc.IrcSocket.IncomingMessage | sockets/IRC.js:154-164 | the new state is `AfterMessage` of the old one |
| Irc.IrcSocket.Send | sockets/IRC.js:245-254 | the new state is `AfterSend` of the old one |
| Discord.Type | sockets/Discord.js:204-209 | "user" exactly when the `@`/`@!` id alternative matches; "channel" exactly when a `#id` or `[guild/]#name` alternative matches; null otherwise |
| Discord.TypeAlternativesDisjoint | sockets/Discord.js:206-208 | a string matching the user alternative matches no channel alternative |
| Discord.TypeExamplesUser | sockets/Discord.js:206 | an 18-digit `@id` is a user; a 4-digit one is not classified |
| Discord.TypeExamplesBang | sockets/Discord.js:206 | `@!` with a 17-digit id is a user |
| Discord.TypeExamplesChannel | sockets/Discord.js:206 | `#general` and an 18-digit `#id` are channels; `#1234` and the one-letter `#g` are not classified |
| Discord.MentionStrings | sockets/Discord.js:224-245 | a user's `mentionStr` is `@` and its `name`, and resolves it exactly when the name is the id; a channel's `name` is one of its resolve strings; native mentions are never resolve strings |
| Discord.TypeOfResolveStrings | sockets/Discord.js:204-245 | every resolve string of a user with a proper id classifies as a user; a channel's `#id` as a channel, and its name strings exactly when the name is one the classifier accepts; a native mention never classifies |
| Discord.Initial | sockets/Discord.js:20-32 | a socket before `ready` is valid |
| Discord.CreateUserValid | sockets/Discord.js:99-108 | `_getUser(id, true)` keeps the socket valid and returns the user held under `id`; a cached user comes back with nothing changed; a new one is announced once and resolvable under `@id` |
| Discord.CreateChannelValid | sockets/Discord.js:110-122 | the same for text channels; a non-text channel gives null and nothing is cached |
| Discord.CreateUserOnce | sockets/Discord.js:99-108 | asking again for the same id returns the same object and changes nothing |
| Discord.CreateChannelOnce | sockets/Discord.js:110-122 | the same for channels |
| Discord.RemoveUserValid | sockets/Discord.js:47-52 | a removed user leaves the map and every resolve string; the socket stays valid and every other object resolves as before |
| Discord.RemoveChannelValid | sockets/Discord.js:65-69 | the same for a removed channel |
| Discord.RenameUserValid | sockets/Discord.js:53-60 | after a rename the socket stays valid, the user has the new name and resolves exactly under its new strings, and others are unaffected |
| Discord.RenameChannelValid | sockets/Discord.js:70-77 | the same for a channel |
| Discord.CreateUsersValid | sockets/Discord.js:38-39 | creating the client's users keeps the socket valid |
| Discord.CreateUsersKeys | sockets/Discord.js:38-39 | afterwards exactly the users known before and the listed ones are in the map, the known ones unchanged |
| Discord.CreateChannelsValid | sockets/Discord.js:40-41 | creating the client's channels keeps the socket valid |
| Discord.CreateChannelsKeys | sockets/Discord.js:40-41 | afterwards exactly the channels known before and the listed text channels are in the map |
| Discord.ConnectedValid | sockets/Discord.js:35 | `connected` only sets the own user, to a user object |
| Discord.ReadyKnowsAll | sockets/Discord.js:34-42 | after `ready` the socket is connected as the bot's user, knows every user and every text channel of the client, and no other channel than before |
| Discord.MemberRemoveValid | sockets/Discord.js:47-52 | a user the client still sees is kept; otherwise it is removed; the socket stays valid |
| Discord.PresenceKeepsResolves | sockets/Discord.js:53-60 | a user resolves by id, so a rename leaves it resolvable exactly where it was |
| Discord.ChannelUpdateMoves | sockets/Discord.js:70-77 | after a rename the channel resolves exactly under `#id` and the two strings of its new name |
| Discord.OldNameStringsGone | sockets/Discord.js:70-77 | the old name's strings no longer resolve to it, when the old name is not its id and the guild is a proper id |
| Discord.ChannelDeleteFinding | sockets/Discord.js:65-69 | as written the deleted channel stays cached and resolvable under `#id`; under the event name the client emits it is gone |
| Discord.ChannelDeleteUnknown | sockets/Discord.js:65-69 | deleting a channel the socket never cached throws (the `_id` of `undefined`) |
| Discord.RemovedEventsInOrder | sockets/Discord.js:84-85 | the farewells are exactly one `removed` per object, in order |
| Discord.DroppedAll | sockets/Discord.js:84-85 | after the farewells of all users and channels the resolver holds nothing |
| Discord.DisconnectForgets | sockets/Discord.js:83-95 | disconnect reports whether the socket had been connected, and leaves it valid with no own user, empty maps and an empty resolver, every user and then every channel having said `removed` first |
| Discord.ActionRewrite | sockets/Discord.js:145 | the rewritten parts carry the action marker exactly when the text has the `_…_` form |
| Discord.AttachmentParts | sockets/Discord.js:163-164 | the intended attachment parts: a space and an attachment with the attachment's url, two parts per attachment |
| Discord.AttachmentFinding | sockets/Discord.js:164 | as written the attachment is built with the file name where the url belongs |
| Discord.MessageValid | sockets/Discord.js:125-175 | `_message` keeps the socket valid, and a skipped message changes nothing |
| Discord.MessageGating | sockets/Discord.js:125-175 | the bot's own incoming message or a null target emits nothing; otherwise `preMessage` is emitted exactly when not sent, and `message` exactly when sent or not aborted |
| Discord.DeliveredEvents | sockets/Discord.js:130-173 | a delivered message's events: the announcements of author and channel, then what the gating lets through |
| Discord.SendGating | sockets/Discord.js:251-297 | a silent send emits nothing and always reaches the client without echo; a non-silent one emits `preMessage` and reaches the client, echoed back, exactly when not aborted |
| Discord.SendEchoRoundTrip | sockets/Discord.js:294-297 | an action sent by the socket comes back as an action with the same text when the text has no underscore; plain text comes back unchanged unless it looks like an action |
| Discord.SendMentions | sockets/Discord.js:288-292 | mentions of this socket's own users and channels are sent as native mentions; any other mention in bold |
| Discord.CheckAuth | sockets/Discord.js:22-24 | the constructor throws exactly when there is no token and not both email and password; `connect` logs in with the token when there is one |
| Discord.TokenSuffices | sockets/Discord.js:23 | a token alone is enough |
| Discord.DiscordSocket.constructor | sockets/Discord.js:20-32 | a new socket is the valid initial state |
| Discord.DiscordSocket.Resolve | sockets/Socket.js:53 | `resolve` returns `type` and the resolver's lookup |
| Discord.DiscordSocket.GetUser | sockets/Discord.js:99-108 | without `create` a lookup that changes nothing; with it the user `CreateUser` gives |
| Discord.DiscordSocket.MakeUser | sockets/Discord.js:102-106 | the new user is stored, announced and added to the resolver, as `CreateUser` says |
| Discord.DiscordSocket.GetChannel | sockets/Discord.js:110-122 | the same for channels |
| Discord.DiscordSocket.MakeChannel | sockets/Discord.js:113-120 | the new text channel is stored, announced and added to the resolver |
| Discord.DiscordSocket.Ready | sockets/Discord.js:34-42 | the new state is `AfterReady` of the old one |
| Discord.DiscordSocket.AddUsers | sockets/Discord.js:38-39 | the new state creates every listed user in turn |
| Discord.DiscordSocket.AddChannels | sockets/Discord.js:40-41 | the new state creates every listed channel in turn |
| Discord.DiscordSocket.MemberAdd | sockets/Discord.js:45-46 | the new state is that of `_getUser(user, true)` |
| Discord.DiscordSocket.MemberRemove | sockets/Discord.js:47-52 | the new state is `AfterMemberRemove` of the old one |
| Discord.DiscordSocket.PresenceUpdate | sockets/Discord.js:53-60 | the new state is `AfterPresence` of the old one |
| Discord.DiscordSocket.ChannelCreate | sockets/Discord.js:63-64 | the new state is that of `_getChannel(channel, true)` |
| Discord.DiscordSocket.ChannelUpdate | sockets/Discord.js:70-77 | the new state is `AfterChannelUpdate` of the old one |
| Discord.DiscordSocket.ChannelDelete | sockets/Discord.js:65-69 | the deletion listener under the client's event name: the new state is `AfterChannelDelete` of the old one |
| Discord.DiscordSocket.Disconnected | sockets/Discord.js:83-95 | the new state is `Disconnect` of the old one |
| Discord.DiscordSocket.Forget | sockets/Discord.js:86-94 | the maps are cleared and `disconnected` is emitted after the farewells |
| Discord.DiscordSocket.SayFarewells | sockets/Discord.js:84-85 | the `removed` events of all users and then all channels |
| Discord.DiscordSocket.UserFarewells | sockets/Discord.js:84 | one `removed` per user, in order, each taking the user off its resolve strings |
| Discord.DiscordSocket.ChannelFarewells | sockets/Discord.js:85 | one `removed` per channel, in order |
| Discord.DiscordSocket.IncomingMessage | sockets/Discord.js:125-175 | the new state is `AfterMessage` of the old one |
| Discord.DiscordSocket.MessageParts | sockets/Discord.js:133-164 | the parts are the action-rewritten text followed by the attachment parts |
| Discord.DiscordSocket.Send | sockets/Discord.js:251-297 | the new state is `AfterSend` of the old one |
| Discord.DiscordSocket.Render | sockets/Discord.js:259-293 | the text written for the parts, and whether an action marker was among them |
| Discord.DiscordSocket.PartSendText | sockets/Discord.js:284-292 | the text `_send` writes for one part |
| Discord.DiscordSocket.MentionText | sockets/Discord.js:291-292 | a native mention for this socket's own objects, bold for anything else |
| Bridge.SetOfSpec | plugs/Bridge.js:112 | `new Set(config.channels)` holds each listed channel once and nothing else |
| Bridge.Defaults | plugs/Bridge.js:14-18 | a bridge without `enabled` is enabled, without `channels` lists none, without `ignore` ignores nobody; given fields are kept |
| Bridge.RegisterSpec | plugs/Bridge.js:35-42 | entering a bridge's resolve strings fails exactly when one is taken, naming it and its bridge; otherwise each maps to the new bridge and every other key keeps its bridge |
| Bridge.RegisterErrSticks | plugs/Bridge.js:35-39 | once a resolve string is found taken, the rest of the loop changes nothing |
| Bridge.RegisterOkFree | plugs/Bridge.js:35-42 | when the loop completes, none of the bridge's channels was taken before |
| Bridge.ConstructSpec | plugs/Bridge.js:23-45 | construction succeeds exactly when no channel is in two bridges; then every configured channel maps to its bridge, nothing else is mapped, and every bridge is stored with no channels attached; otherwise the error names a channel and both bridges, the earlier first |
| Bridge.ConstructStep | plugs/Bridge.js:31-44 | when the earlier bridges were built without conflict, adding the last succeeds exactly when all the bridges are disjoint, building the state of all of them, and otherwise reports the conflict |
| Bridge.ConstructErrSticks | plugs/Bridge.js:31-44 | once a bridge has thrown, the later bridges change nothing |
| Bridge.StepConflict | plugs/Bridge.js:36-39 | a channel of the last bridge that an earlier bridge holds is reported with both bridge ids, and the bridges are not disjoint |
| Bridge.ConstructValid | plugs/Bridge.js:23-45 | a freshly constructed plug is valid: every mapped and attached bridge is stored, sets hold no repeats, `channels` and the bridge sets agree, and each attached channel carries its bridge's listener |
| Bridge.OneBridgePerChannel | plugs/Bridge.js:54-62 | in a valid plug a channel is attached to at most one bridge |
| Bridge.FirstBridged | plugs/Bridge.js:49-52 | the position of the first of a channel's resolve strings that a bridge lists as `socket:resolve`, or none when no bridge lists any |
| Bridge.AttachValid | plugs/Bridge.js:60-62 | attaching an unattached channel to a stored bridge keeps the plug valid |
| Bridge.NewChannelAttaches | plugs/Bridge.js:48-73 | a channel no bridge lists changes nothing; otherwise `newChannel` throws exactly when the channel is attached already, and else attaches it to the bridge of its first listed resolve string only, keeping every other bridge's channels and the plug valid |
| Bridge.DetachSpec | plugs/Bridge.js:64-69 | the `removed` listeners take the channel out of exactly their bridges' sets and keep the sets free of repeats |
| Bridge.RemovedDetaches | plugs/Bridge.js:64-69 | after `removed` the channel is in no bridge and not in `channels`, every other channel stays where it was, and the plug stays valid |
| Bridge.StripActionsMembers | plugs/Bridge.js:91 | a part is kept exactly when it was there and is not an action marker |
| Bridge.StripActionsUnmarked | plugs/Bridge.js:91 | parts without a marker are kept as they are |
| Bridge.StripActionsCounts | plugs/Bridge.js:91 | every part other than a marker is kept as often as it occurs, and no marker is kept |
| Bridge.StripActionsAppend | plugs/Bridge.js:91 | stripping works piece by piece, so the kept parts stay in their order |
| Bridge.DeliveriesReach | plugs/Bridge.js:96-98 | exactly the bridge's channels other than the origin get a `sendSilent` |
| Bridge.DeliveriesOnce | plugs/Bridge.js:96-98 | with a set that holds no channel twice, no channel gets two sends |
| Bridge.RelayRules | plugs/Bridge.js:75-99 | nothing is relayed from a non-user, to a non-channel, from an unbridged or disabled channel, or from an ignored sender; otherwise every other channel of the bridge gets the relayed parts exactly once |
| Bridge.RelayPartsShape | plugs/Bridge.js:88-94 | the socket's own messages go out unchanged; someone else's action as `* sender ` and its parts without the marker; anything else as `<sender> ` and its parts |
| Bridge.DisabledRelaysNothing | plugs/Bridge.js:115-116 | switching a bridge off keeps the plug valid, and a switched-off bridge relays nothing |
| Bridge.BridgePlug.Empty | plugs/Bridge.js:24-29 | a plug before its bridges are read: the global ignore list or none, and empty tables |
| Bridge.BridgePlug.Create | plugs/Bridge.js:23-45 | construction succeeds exactly when `Construct` does, with its state, or fails with its error |
| Bridge.BridgePlug.AddBridge | plugs/Bridge.js:31-44 | one round of the loop gives the state or the error of `AfterAddBridge` |
| Bridge.BridgePlug.NewChannel | plugs/Bridge.js:48-73 | the listener gives the state or the error of `AfterNewChannel`; a throw changes nothing |
| Bridge.BridgePlug.ChannelRemoved | plugs/Bridge.js:64-69 | the new state is `AfterRemoved` of the old one |
| Bridge.BridgePlug.Message | plugs/Bridge.js:75-99 | the `sendSilent` calls are those of `Relay` |
| Bridge.BridgePlug.SetEnabled | plugs/Bridge.js:116 | only the bridge's `enabled` flag changes |
| CommArgs.MatchHere | plugs/React.js:22 | the match at the start of the text tries the three alternatives in order; it fails exactly on empty text, a leading space, or an unclosed leading quote |
| CommArgs.Exec | plugs/React.js:22-25 | `exec` finds the match at the first position where there is one |
| CommArgs.GetCommArgs | plugs/React.js:23-28 | the `exec` loop returns exactly `Args(str)`, the picked group of each match in turn |
| CommArgs.ArgsNonEmpty | plugs/React.js:26 | no argument is ever empty: an empty quoted pair comes back with its quotes |
| CommArgs.LeadingSpace | plugs/React.js:22-27 | leading white space changes nothing |
| CommArgs.UnclosedQuote | plugs/React.js:22-27 | a quote that is never closed is skipped, and the rest is read as if it were not there |
| CommArgs.WordThenQuoted | plugs/React.js:22-26 | a word immediately followed by a closed quotation is one argument, quotes included |
| CommArgs.EmptyQuotes | plugs/React.js:22-26 | an empty quoted pair is returned with its quotes |
| CommArgs.ReadsBack | plugs/React.js:22-26 | an argument written at the front of a line (plain, or double-quoted) is the first match and ends where its writing ends |
| CommArgs.ArgsOfLine | plugs/React.js:22-27 | `getCommArgs` reads a line written from arguments back as exactly those arguments |
| Transforms.ParseNumber | plugs/React.js:52-53 | the `Number` transform only ever gives a safe integer |
| Transforms.ParseShown | plugs/React.js:52-53 | every safe integer written in decimal parses back to itself |
| Transforms.ParsedIsShown | plugs/React.js:52-53 | only the canonical decimal text of a safe integer parses |
| Transforms.Refused | plugs/React.js:52-53 | `-0`, `007`, `+1`, `1.0` and the empty text are refused |
| Transforms.RefusedBeyondSafe | plugs/React.js:53 | a canonical integer beyond the safe range is refused |
| Transforms.ShortNames | plugs/React.js:60-63 | adding short names keeps every name and adds exactly the `Socket.`-less forms, each meaning what its long form means |
| Transforms.TableNames | plugs/React.js:50-63 | the table knows exactly the declared names and their short forms |
| Transforms.TableUser | plugs/React.js:56-63 | `User` resolves restricted to users |
| Transforms.TableChannel | plugs/React.js:57-63 | `Channel` resolves restricted to channels |
| Transforms.SocketNamed | plugs/React.js:54 | `sockets[id]` is the socket of that id, or nothing when none has it |
| Transforms.FindResolveable | plugs/React.js:30-48 | the method's search returns what the specification `Resolved` gives |
| Transforms.ResolveIn | plugs/React.js:39-40 | one socket's `resolve` gives its first object exactly when it resolves something of the allowed type |
| Transforms.SearchOthers | plugs/React.js:41-46 | the loop over the other sockets, the origin skipped, gives what `FirstResolved` gives on them |
| Transforms.FirstResolvedSpec | plugs/React.js:38-47 | nothing exactly when no candidate qualifies; otherwise the first object of the first qualifying candidate |
| Transforms.PrefixedLooksInOneSocket | plugs/React.js:31-37 | a prefixed string is looked up only in the socket it names, and never resolves when there is no such socket |
| Transforms.Apply | plugs/React.js:51-57 | `None` passes the text through; `Number` succeeds exactly when the text parses; `Socket` exactly when a socket has that id; the resolveable transforms exactly when the search finds something |
| Transforms.PrefixedAsWrittenMisses | plugs/React.js:35 | as written, `irc:#chan` resolves nothing even though the socket `irc` knows `#chan`; resolving the text after the prefix finds it |
| Signature.DigitsAreNumeric | plugs/React.js:117 | plain decimal digits are numeric to `isNaN` |
| Signature.NotNumericByStart | plugs/React.js:117 | a text starting with anything but space, digit, sign, point or `I` is not numeric |
| Signature.Classify | plugs/React.js:116-124 | classification keeps the name and spread flag, and a parameter is optional exactly when its default is `null`, numeric, quoted or bracketed |
| Signature.ClassifyNumber | plugs/React.js:117-120 | a numeric default makes an optional `Number` parameter |
| Signature.ClassifyBracket | plugs/React.js:115-123 | `[T]` makes an optional parameter with transform `T` that falls back to null |
| Signature.ClassifyLiteral | plugs/React.js:117-122 | `null` and quoted defaults make an optional parameter without a transform |
| Signature.ClassifyNamed | plugs/React.js:116-124 | any other default makes a required parameter transformed by that name |
| Signature.ClassifyPlain | plugs/React.js:116-124 | without a default a parameter is required and has no transform |
| Signature.CheckParameters | plugs/React.js:104-176 | the loop classifies and checks every parameter in order and returns what `Signature` gives |
| Signature.CheckSlots | plugs/React.js:104-176 | the loop over the classified parameters returns what `Signature` gives |
| Signature.SignatureErrSticks | plugs/React.js:104-176 | the first error stops the check |
| Signature.SignatureCounts | plugs/React.js:139-168 | on success the minimum counts the required ordinary parameters and the maximum the ordinary ones, infinite after a spread or `content` |
| Signature.CheckAllowed | plugs/React.js:126-174 | one step succeeds exactly when `Allowed` holds on the counts so far: the reserved-name, spread, ordering, regex and transform rules |
| Signature.SignatureAccepts | plugs/React.js:104-176 | a comm is accepted exactly when every parameter is allowed after the ones before it |
| Signature.OrdinaryRefused | plugs/React.js:162-165 | an ordinary parameter is refused on a global regex comm and after a parameter that takes the rest |
| Signature.Shown | plugs/React.js:182-187 | a visible parameter is shown as `[name...]`, `[name]` or `<name>` |
| Signature.Usage | plugs/React.js:178-192 | the usage starts with prefix and trigger, and has the usage text after a space exactly when there is one |
| Signature.AliasUsage | plugs/React.js:257-259 | splicing an alias in place of the trigger gives the usage the alias would have had |
| Signature.UsageRawPrefix | plugs/React.js:190-191 | with a configured prefix the written usage and the intended one agree; without one the written usage starts with `u` of "undefined" where commands are read with `~` |
| Registry.RegexTest | plugs/React.js:84-85 | the first position where `/(.+)/(g)?` matches, with its closing slash |
| Registry.KeywordKey | plugs/React.js:84 | a key without a slash is a keyword |
| Registry.PatternKey | plugs/React.js:84-85 | reading a regular expression's text back gives it again |
| Registry.Prepare | plugs/React.js:84-176 | a prepared comm is a regex comm exactly when its trigger is a pattern, and has no alias; a keyword comm gets the usage of `Signature.Usage`; an alias is set aside exactly when given; an action that is not a string, array or function is refused |
| Registry.PrepareComm | plugs/React.js:96-176 | the method's parameter loop gives what `Prepare` gives |
| Registry.AliasStep | plugs/React.js:252-262 | an alias fails with "not found" for an unknown target, with "is a regex comm" for a regex target, and succeeds otherwise |
| Registry.AliasAsWrittenThrows | plugs/React.js:259 | as written, a resolvable alias throws the `ReferenceError` of `splice` |
| Registry.AliasDispatchesAsTarget | plugs/React.js:251-263 | an alias is stored under its trigger as written (not lower-cased), dispatches as its target, is recorded as its alias with its help, and has the target's usage with its own trigger |
| Registry.Step | plugs/React.js:83-247 | one comm only ever adds: the regex list and the aliases only grow |
| Registry.DisabledSkipped | plugs/React.js:79 | a category switched off adds nothing |
| Registry.BuildValid | plugs/React.js:68-264 | whatever the constructor builds keeps the invariant: lookup keys listed once, every keyword comm's usage starts with prefix and trigger, regex comms have regex triggers, aliases are never regex comms |
| Registry.React.Init | plugs/React.js:71-76 | the plug starts with empty tables and its prefix and `replyOnUnknown` |
| Registry.React.Register | plugs/React.js:242-246 | the tables become `Store` of the old ones |
| Registry.React.AddAlias | plugs/React.js:252-262 | the tables become `AliasStep` of the old ones when it succeeds |
| Registry.React.AddModule | plugs/React.js:83-247 | the tables become `StepAll` of the old ones, aliases set aside |
| Registry.React.AddAliases | plugs/React.js:251-263 | the tables become `AliasAll` of the old ones |
| Registry.React.Create | plugs/React.js:68-264 | construction succeeds exactly when `Build` does, with `Build`'s tables and the configured prefix, or fails with `Build`'s error |
| Dispatch.PluralFinite | plugs/React.js:196-200 | "argument" stays singular exactly for `1` and `0 to 1` |
| Dispatch.PluralInfinite | plugs/React.js:196-200 | with no upper bound only `1 or more` stays singular |
| Dispatch.BindOne | plugs/React.js:204-231 | one parameter takes the next argument exactly when it consumes one; a missing argument binds null for `[T]` defaults and undefined otherwise |
| Dispatch.HeadDrop | plugs/React.js:212-220 | the k-th argument-taking parameter gets argument k, or undefined past the end |
| Dispatch.BindIsPositional | plugs/React.js:202-232 | the `shift` queue equals the positional reading: parameter i gets the arguments from the number consumed before it |
| Dispatch.Deliver | plugs/React.js:234-239 | a null result sends nothing, an array is sent to the target, anything else is replied |
| Dispatch.Respond | plugs/React.js:195-240 | a keyword call with a count outside [min, max] gets the count message; when the action runs, its arguments are the binding and its effect the delivery of its result |
| Dispatch.RefusedNeverRuns | plugs/React.js:196-226 | a refused count or value replies before the action runs, whatever the action would return |
| Dispatch.Use | plugs/React.js:195-240 | the closure's loop gives what `Respond` gives |
| Dispatch.FirstRegex | plugs/React.js:289-302 | the first regex comm, in registration order, whose trigger matches; none when none matches |
| Dispatch.Command | plugs/React.js:275 | the command is a prefix of the text, holds no space and is followed by a space when shorter |
| Dispatch.CommandOf | plugs/React.js:275 | the command of `word rest` is `word` |
| Dispatch.RouteIgnores | plugs/React.js:268-270 | a message from a non-user, to a non-channel or from the bot itself is ignored |
| Dispatch.PrefixedNeverFallsThrough | plugs/React.js:274-287 | a prefixed message's outcome does not depend on the regex comms |
| Dispatch.UnknownCommand | plugs/React.js:276-281 | an unknown command is answered "Unknown command '…'." exactly when `replyOnUnknown` is set |
| Dispatch.KeywordDispatch | plugs/React.js:274-286 | a keyword in any letter case reaches the comm stored under its lower-cased form, with the rest of the line as content and its words as arguments |
| Dispatch.FirstRegexWins | plugs/React.js:289-302 | an unprefixed message goes to the first matching regex comm; a global one gets all of its matches |
| Dispatch.FirstRegexAt | plugs/React.js:289-302 | a regex that matches, with none before it matching, is the one chosen |
| Dispatch.Activate | plugs/React.js:266-305 | the listener gives what `Route` gives on the plug's tables |
| Dispatch.RunCommand | plugs/React.js:274-287 | the prefixed branch gives what `Prefixed` gives |
| Dispatch.Scan | plugs/React.js:289-302 | the loop over the regex comms gives what `Unprefixed` gives |
| Dispatch.Collect | plugs/React.js:294-299 | a global regex's arguments are the groups of each of its matches, in order |
| Dispatch.HelpUnknown | plugs/React.js:314-318 | an unknown name gets "No help available." |
| Dispatch.HelpNamesTarget | plugs/React.js:314-320 | an alias's help says which comm it stands for |
| Dispatch.CommsListShows | plugs/React.js:329-334 | `comms` answers "Available comms: " and the names of exactly the entries that are not aliases, in key order, keyword comms behind the prefix, joined by ", "; that list is empty exactly when every key is an alias or unknown |
| Dispatch.ListedNamesEmpty | plugs/React.js:331-333 | the listed names are empty exactly when no key holds an entry that is not an alias |
| Dispatch.CommsListOfAliases | plugs/React.js:331-333 | with nothing but aliases the list reads "Available comms: undefined" |
| Dispatch.HelpIntroNamesCommands | plugs/React.js:322-324 | the intended introduction names the `comms` and `help` commands behind the plug's own prefix, as they must be typed |
| Dispatch.HelpIntroRawPrefix | plugs/React.js:322-324 | with a configured prefix the written introduction and the intended one agree; without one it differs from the introduction for `~` |
| Roleplay.ReadIsNumeric | comms/roleplay.js:25-29 | the `isNaN` checks never refuse a match: its counts are digit runs |
| Roleplay.Validate | comms/roleplay.js:22-32 | the loop succeeds exactly when every expression has at most 20 dice and 1000 sides; then each is read with defaults 1 and 0, and `totalDice` is `TotalDice` |
| Roleplay.TotalDiceBound | comms/roleplay.js:30 | no expression weighs more than 8, so the total is at most 8 per expression |
| Roleplay.DieRange | comms/roleplay.js:38-39 | a die shows 1 to `sides` (1 for a die of no sides) |
| Roleplay.Values | comms/roleplay.js:38-39 | an expression rolls as many dice as it asks for |
| Roleplay.ThrowBounds | comms/roleplay.js:38-46 | a roll lies between all ones and all sides, moved by the offset |
| Roleplay.TwoRollsDetailed | comms/roleplay.js:41-44 | with at most two expressions every roll of 2 to 8 dice is detailed |
| Roleplay.LabelOfMatch | comms/roleplay.js:59 | the label of a match written without leading zeros reads back as the match |
| Roleplay.Throws | comms/roleplay.js:35-53 | one throw per expression |
| Roleplay.Answers | comms/roleplay.js:19-64 | the comm answers exactly when there are at most six expressions and none asks for over 20 dice or over 1000 sides |
| Roleplay.SingleRoll | comms/roleplay.js:63 | a single expression is answered with its own line, without " [=] " |
| Roleplay.TotalBounds | comms/roleplay.js:56-63 | with the offset added to each roll (corrected as under Findings), the total of several rolls lies between all ones and all sides, moved by the offsets |
| Roleplay.Dice | comms/roleplay.js:19-64 | the handler gives what `Reply` gives, whose rolls add the offset (corrected as under Findings) |
| Roleplay.Assemble | comms/roleplay.js:56-63 | the assembled text is `Summary`: lines joined with " [+] ", and " [=] total" for several expressions, each roll with its offset added (corrected as under Findings) |
| Roleplay.Lines | comms/roleplay.js:56-62 | the loop builds each roll's line and the running `totalResult` |
| Roleplay.ThrowAsWrittenAgrees | comms/roleplay.js:46-58 | the roll as written and the corrected roll differ by exactly the offset, and agree exactly when no offset was written |
| Roleplay.OffsetIgnoredAsWritten | comms/roleplay.js:46-58 | as written `1d1+1` shows `= 1`: the offset is printed in the label but never added |

## Left out

- Wire protocols and client libraries are not modelled: the IRC client, discord.js, logging in, `say`/`action`/`sendMessage`. A client call is recorded in an outbox; what the client reports is a parameter.
- Listener registration on `EventEmitter` is not modelled. Emitted events are appended to a log, and the listeners the core registers are methods the caller invokes.
- `Message.augment` and `augmentClone` are not defined in the source. Only the concrete rewrites are modelled: the action rewrite, the attachment parts, the `_send` rendering of markers, resolveables and mentions, and the `Action` strip of the bridge. The Discord mention rewrite `<#id>`/`<@id>` of incoming text, the `@name`/`#name` rewrite of outgoing text and newline handling are left out. The `@name` rewrite depends on guild member enumeration.
- `connect`, `disconnect`, `motd`, `topic`, `abort` and the socket `close`/`error` handlers of `IRC.js` are left out: they are promises and client callbacks. So are `connect`/`disconnect` and `_reduceSilentCount` of `Discord.js`. `_reduceSilentCount` uses fields that are never initialised.
- `cord.js`, `Plug.js`, `Housekeeping.js`, `Respawn.js` and `Logging.js` are not part of this model. They handle bootstrapping, timers, reconnection and console output.
- `comms/basic.js` and `comms/test.js` are not part of this model. Array actions call `.random()`, which is not defined anywhere in the source. They are modelled as a constant "random pick" action whose result is a parameter.
- `isClass`, `implement`, `isIterable`, `values`, `entries` and `repeat` of `utility` are left out. `repeat` never terminates for a positive count because it increments `times` instead of `i`.
- The roleplay comm has a multi-line action. The registry model reads only single-line action sources, so the comm is modelled on its own rather than registered. Its `~ average` suffix is left out because it is a floating-point division and rounding. The random draws are reals in [0, 1) supplied as a parameter.
- Numbers are unbounded integers. Dice offsets beyond 2^53 are exact in the model, where JavaScript would round them.
- Regular expressions supplied by comms are not interpreted. A regex comm's `exec` is a parameter returning its matches.
- Reflect.InspectFunction: the three fixed expressions of `reflect.js` are modelled only on single-line sources. Function sources that span lines are outside the model.
- Extensions.GetOrAddStable: a value stored as `undefined` counts as absent in the source. The model's maps hold no `undefined` values.
- Iterable.JoinShape: the model joins strings. The `"" + aggregate(...)` conversion of non-string elements is left out.
- Discord.TypeOfResolveStrings: ids are taken to be digit strings of 17 or 18 characters when the statement needs them to be.
- Irc.AfterNames: the `nicks` object is taken as the list of its keys, in order.
- Bridge.ConstructSpec, Bridge.ConstructValid: the bridges come as a list of (id, config) pairs, and these lemmas require the ids to be distinct, as the keys of the `bridges` object are.
- Bridge.BridgePlug.Message: requires the plug's invariant (`Valid`). Construction establishes it (Bridge.ConstructValid), and `newChannel`, `removed` and the `enabled` setter keep it (Bridge.NewChannelAttaches, Bridge.RemovedDetaches, Bridge.DisabledRelaysNothing).
- The `debug` logging of the bridge plug is left out.
- Signature.UsageText, Dispatch.CommsList, Roleplay.Line, Roleplay.Summary: `plugs/React.js:6-7` and `comms/roleplay.js:3` destructure `Iterable` and `inspectFunction` from `utility/index.js`, whose export list (`utility/index.js:83`) does not include them; the model reads them as the library's own `iterable.js` and `reflect.js`. The source also chains methods on the generator objects those functions return (`map(...).join(" ")` at `plugs/React.js:188`, `values(...).filter(...).map(...).join(", ")` at `plugs/React.js:332-333`, and `comms/roleplay.js:38`, `:44` and `:57-62`); the model reads each link as a direct call of the `iterable.js` function of that name. As written these chains throw TypeErrors.
- Discord.Native, Discord.DiscordSocket.MentionText: a mention renders natively only for users and channels of this socket. The source (`sockets/Discord.js:291`) tests `"_discordMention" in part.mentionable`, so objects of any Discord socket render natively; the model's mentionable of another socket is shown in bold.
- Registry.Record, Dispatch.CommsList: keys keep the order they were first recorded. In JavaScript an object lists integer-like keys (such as a comm named `42`) first, in numeric order, before the other keys; the model does not reorder them.
- Socket.LowerCase: folds only the ASCII letters `A`–`Z`. JavaScript's `toLowerCase` folds every Unicode letter, and some letters (such as `İ`) become two code units. So in the source `Äbc` and `äbc` name one IRC user or one comm; in the model they name two. Everything keyed by a lower-cased name inherits this: the IRC tables (Irc.CreateUserOnce, Irc.CreateChannelOnce, Irc.NickRekeys) and the command table (Dispatch.KeywordDispatch).
- Dispatch.UnknownCommand, Dispatch.Prefixed, Transforms.SocketNamed, Signature.Check: the command table, the transform table and the socket table of the source are plain objects, so they also answer the keys inherited from `Object.prototype`. The model's maps hold only what was stored. In the source `~constructor` (any letter case) finds `Object`, calls it and replies nothing; the model answers "Unknown command 'constructor'." when `replyOnUnknown` is set. `~__proto__` finds `Object.prototype` and throws a TypeError in the listener; the model replies or stays silent. A parameter default such as `constructor` or `toString` passes the transform check in the source and is refused in the model. A `constructor:` socket prefix finds `Object` in the source and no socket in the model.

## Findings

| source | as written | input that shows it | evidently intended | confidence | as-written member | corrected member |
|---|---|---|---|---|---|---|
| utility/extensions.js:5-7 | `splice` reads an undeclared `str` and throws a `ReferenceError` | `"abc".splice(1, 1, "x")` | `this.slice(0, index) + args.join("") + this.slice(index + count)` | high, not executed | Extensions.SpliceAsWrittenFails | Extensions.SpliceInRange |
| plugs/React.js:259 | every resolvable alias throws at construction, through the broken `splice` | an alias comm naming an existing keyword comm | the target's usage with the alias's trigger in place of the target's | high, not executed | Registry.AliasAsWrittenThrows | Registry.AliasDispatchesAsTarget |
| plugs/React.js:35 | the named socket resolves the whole `socket:str` text | `irc:#chan` where socket `irc` knows `#chan` | resolve the text after the colon | medium, not executed | Transforms.PrefixedAsWrittenMisses | Transforms.PrefixedLooksInOneSocket |
| plugs/React.js:190 | the usage reads `prefix` from the raw constructor argument, undefined when not configured | a config without `prefix` | the merged `this.config.prefix`, `~` by default | medium, not executed | Signature.UsageRawPrefix | Signature.Usage |
| plugs/React.js:322 | the help introduction reads `cord.config.React.prefix`, undefined when not configured | `help` with no argument and no configured prefix | the plug's own prefix | medium, not executed | Dispatch.HelpIntroRawPrefix | Dispatch.HelpIntroNamesCommands |
| sockets/Discord.js:164 | `Attachment` takes one argument, so the file name becomes the url | an attachment whose file name differs from its url | `new Socket.Attachment(attachment.url)` | high, not executed | Discord.AttachmentFinding | Discord.AttachmentParts |
| sockets/Discord.js:65 | the deletion listener is registered under the misspelt event `channelDeletd` | a deleted channel | the event the client emits, removing the channel | high, not executed | Discord.ChannelDeleteFinding | Discord.DiscordSocket.ChannelDelete |
| utility/index.js:70-74 | a null entry throws at `exp.name` before the "Null" branch | `new UnexpectedTypeError(v, null)` | "Expected Null" | high, not executed | Utility.MessageNullDiffers | Utility.Message |
| utility/index.js:44-50 | `flatten` of a non-empty string recurses for ever, each character being an iterable string | `flatten("a")` | a string is a leaf | high, not executed | Utility.FlattenAsWrittenDiverges | Utility.FlattenInto |
| comms/roleplay.js:46-58 | the offset is printed in the label but never added to the result | `1d1+1` answers `= 1` | `result + offset`, so `1d1+1 = 2` | high, not executed | Roleplay.OffsetIgnoredAsWritten | Roleplay.ThrowBounds |
