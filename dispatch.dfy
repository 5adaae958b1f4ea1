/** What happens when a comm is used and how `React.activate` routes a
    message to one (`plugs/React.js`), plus the `help` and `comms` builtins.
    Calling an action runs code the model cannot see, so what the action
    returns is an input, as are the successive matches `RegExp.exec`
    finds. What a comm does is an `Outcome`: the reply or the parts sent. */
module Dispatch {
  import opened Wrappers
  import Extensions
  import Iterable
  import Socket
  import Transforms
  import Signature
  import Registry
  import CommArgs

  type Value = Transforms.Value

  // ---------------------------------------------------------------------------
  // The argument count (lines 196-200)

  /** `ToInt32` of a count, as `|` reads it; `Infinity` reads as 0. */
  function Bits(n: nat): bv32
  {
    (n % 0x1_0000_0000) as bv32
  }

  function BoundBits(b: Signature.Bound): bv32
  {
    if b.Finite? then Bits(b.n) else 0
  }

  /** `(minParams | maxParams) != 1`. */
  predicate Plural(c: Signature.Counts)
  {
    Bits(c.min) | BoundBits(c.max) != 1
  }

  lemma OrIsOne(a: bv32, b: bv32)
    ensures a | b == 1 <==> a <= 1 && b <= 1 && (a == 1 || b == 1)
  {
  }

  lemma SmallBits(n: nat)
    requires n < 0x1_0000_0000
    ensures Bits(n) <= 1 <==> n <= 1
    ensures Bits(n) == 1 <==> n == 1
  {
    assert Bits(n) as int == n;
  }

  /** "argument" stays singular exactly for one required argument and at
      most one in all: `1` and `0 to 1`. */
  lemma PluralFinite(c: Signature.Counts)
    requires c.max.Finite? && c.min < 0x1_0000_0000 && c.max.n < 0x1_0000_0000
    ensures !Plural(c) <==> c.min <= 1 && c.max.n <= 1 && c.min + c.max.n >= 1
  {
    var a, b := Bits(c.min), Bits(c.max.n);
    assert Plural(c) <==> a | b != 1;
    OrIsOne(a, b);
    SmallBits(c.min);
    SmallBits(c.max.n);
  }

  /** With no upper bound only `1 or more` stays singular. */
  lemma PluralInfinite(c: Signature.Counts)
    requires c.max.Infinite? && c.min < 0x1_0000_0000
    ensures !Plural(c) <==> c.min == 1
  {
    var a := Bits(c.min);
    assert Plural(c) <==> a | 0 != 1;
    OrIsOne(a, 0);
    SmallBits(c.min);
  }

  /** `${ comm.name }`: a comm without a name shows as `null`. */
  function NameText(name: Option<string>): string
  {
    if name.Some? then name.value else "null"
  }

  predicate OutOfRange(n: nat, c: Signature.Counts)
  {
    n < c.min || (c.max.Finite? && n > c.max.n)
  }

  /** The reply to a keyword comm used with the wrong number of arguments. */
  function CountMismatch(name: Option<string>, c: Signature.Counts, got: nat): string
  {
    NameText(name) + ": Expected " + Transforms.ShowNat(c.min) +
    (if c.max != Signature.Finite(c.min) then
       (if c.max.Finite? then " to " + Transforms.ShowNat(c.max.n) else " or more")
     else "") +
    " argument" + (if Plural(c) then "s" else "") + ", but got " + Transforms.ShowNat(got) + "."
  }

  // ---------------------------------------------------------------------------
  // Binding the parameters (lines 202-232)

  /** What the transforms look at: the socket the message came from and all
      sockets of the bot. */
  datatype Context = Context(origin: Transforms.SocketView, sockets: seq<Transforms.SocketView>)

  /** `args.shift()`: the first argument, `undefined` when there is none. */
  function Head(args: seq<Value>): Value
  {
    if args == [] then Transforms.Undefined else args[0]
  }

  function Tail(args: seq<Value>): seq<Value>
  {
    if args == [] then [] else args[1..]
  }

  /** The string a value is handed to a transform as. */
  function TextOf(v: Value): string
  {
    match v
    case Str(t) => t
    case Num(n) => Transforms.ShowInt(n)
    case Groups(gs) => Iterable.Join(Iterable.Map(gs, (g: Option<string>) => if g.Some? then g.value else ""), ",")
    case _ => "[object Object]"
  }

  /** The reply for an argument its transform refuses. */
  function NotValid(name: Option<string>, text: string, transform: string): string
  {
    NameText(name) + ": '" + text + "' is not a valid " + transform + "."
  }

  /** The error of calling a transform that is not in the table. */
  const NotATransform := Extensions.TypeError("transforms[param.defaultValue] is not a function")

  /** How binding stops: a reply in place of the action, or an error. */
  datatype Stop = Invalid(reply: string) | Thrown(error: Extensions.JsError)

  /** A parameter that takes one argument off the front. */
  predicate Consumes(s: Signature.Slot)
  {
    s.name == "match" || (Signature.Ordinary(s.name) && !s.spread)
  }

  /** One parameter: the values it pushes and the arguments left. */
  function BindOne(s: Signature.Slot, u: Registry.Use, ctx: Context, content: string, args: seq<Value>)
    : (r: Result<(seq<Value>, seq<Value>), Stop>)
    ensures r.Ok? ==> r.value.1 == if Consumes(s) then Tail(args) else args
    ensures Consumes(s) && args == [] ==>
      r == Ok(([if s.name != "match" && s.optionalIsArray then Transforms.Null else Transforms.Undefined], []))
  {
    if s.name == "cord" then Ok(([Transforms.CordObject], args))
    else if s.name == "message" then Ok(([Transforms.MessageObject], args))
    else if s.name == "target" then Ok(([Transforms.TargetObject], args))
    else if s.name == "sender" then Ok(([Transforms.SenderObject], args))
    else if s.name == "config" then Ok(([Transforms.CommConfig(u.category)], args))
    else if s.name == "content" then Ok(([Transforms.Str(content)], args))
    else if s.name == "match" then Ok(([Head(args)], Tail(args)))
    else if s.name == "matches" || s.spread then Ok((args, args))
    else
      var value := Head(args);
      if value.Undefined? || value.Null? then
        Ok(([if s.optionalIsArray then Transforms.Null else Transforms.Undefined], Tail(args)))
      else if s.transform.None? then Ok(([value], Tail(args)))
      else if s.transform.value !in Transforms.Table() then Err(Thrown(NotATransform))
      else
        match Transforms.Apply(Transforms.Table()[s.transform.value], ctx.origin, ctx.sockets, TextOf(value))
        case None => Err(Invalid(NotValid(u.name, TextOf(value), s.transform.value)))
        case Some(v) => Ok(([v], Tail(args)))
  }

  /** The parameters in order, each taking from what the ones before left. */
  function Bind(slots: seq<Signature.Slot>, u: Registry.Use, ctx: Context, content: string,
                args: seq<Value>, acc: seq<Value>): Result<seq<Value>, Stop>
  {
    if slots == [] then Ok(acc)
    else match BindOne(slots[0], u, ctx, content, args)
      case Err(stop) => Err(stop)
      case Ok((vals, rest)) => Bind(slots[1..], u, ctx, content, rest, acc + vals)
  }

  // ---------------------------------------------------------------------------
  // Positions: an independent reading of the binding

  /** How many parameters before these take one argument each. */
  function Consumed(slots: seq<Signature.Slot>): nat
  {
    if slots == [] then 0
    else Consumed(slots[..|slots| - 1]) + (if Consumes(slots[|slots| - 1]) then 1 else 0)
  }

  /** The arguments from position `k` on. */
  function Drop(args: seq<Value>, k: nat): seq<Value>
  {
    if k <= |args| then args[k..] else []
  }

  /** Parameter `i` sees the arguments from the number of argument-taking
      parameters before it: the values are the parameters' own contributions
      in order. */
  function Positional(slots: seq<Signature.Slot>, u: Registry.Use, ctx: Context, content: string, args: seq<Value>)
    : Result<seq<Value>, Stop>
  {
    if slots == [] then Ok([])
    else
      var n := |slots| - 1;
      match Positional(slots[..n], u, ctx, content, args)
      case Err(stop) => Err(stop)
      case Ok(vals) =>
        match BindOne(slots[n], u, ctx, content, Drop(args, Consumed(slots[..n])))
        case Err(stop) => Err(stop)
        case Ok((more, _)) => Ok(vals + more)
  }

  lemma TailDrop(args: seq<Value>, k: nat)
    ensures Tail(Drop(args, k)) == Drop(args, k + 1)
  {
  }

  /** The `k`-th argument-taking parameter is handed argument `k`, or
      `undefined` past the end. */
  lemma HeadDrop(args: seq<Value>, k: nat)
    ensures Head(Drop(args, k)) == if k < |args| then args[k] else Transforms.Undefined
  {
  }

  lemma PositionalSnoc(slots: seq<Signature.Slot>, s: Signature.Slot, u: Registry.Use, ctx: Context, content: string, args: seq<Value>)
    ensures Positional(slots + [s], u, ctx, content, args) ==
      match Positional(slots, u, ctx, content, args)
      case Err(stop) => Err(stop)
      case Ok(vals) =>
        match BindOne(s, u, ctx, content, Drop(args, Consumed(slots)))
        case Err(stop) => Err(stop)
        case Ok((more, _)) => Ok(vals + more)
  {
    assert (slots + [s])[..|slots|] == slots;
  }

  lemma ConsumedSnoc(slots: seq<Signature.Slot>, s: Signature.Slot)
    ensures Consumed(slots + [s]) == Consumed(slots) + (if Consumes(s) then 1 else 0)
  {
    assert (slots + [s])[..|slots|] == slots;
  }

  /** Once a parameter stops the positional reading, the longer ones stop
      with it. */
  lemma {:induction false} PositionalErrSticks(slots: seq<Signature.Slot>, m: nat, u: Registry.Use, ctx: Context, content: string, args: seq<Value>)
    requires m <= |slots| && Positional(slots[..m], u, ctx, content, args).Err?
    ensures Positional(slots, u, ctx, content, args) == Positional(slots[..m], u, ctx, content, args)
    decreases |slots| - m
  {
    if m == |slots| {
      assert slots[..m] == slots;
    } else {
      PositionalSnoc(slots[..m], slots[m], u, ctx, content, args);
      assert slots[..m + 1] == slots[..m] + [slots[m]];
      PositionalErrSticks(slots, m + 1, u, ctx, content, args);
    }
  }

  /** Binding the rest of the parameters from where the first `j` left off
      gives the positional reading. */
  lemma {:induction false} BindFrom(slots: seq<Signature.Slot>, j: nat, u: Registry.Use, ctx: Context, content: string, args: seq<Value>)
    requires j <= |slots| && Positional(slots[..j], u, ctx, content, args).Ok?
    ensures Bind(slots[j..], u, ctx, content, Drop(args, Consumed(slots[..j])), Positional(slots[..j], u, ctx, content, args).value)
         == Positional(slots, u, ctx, content, args)
    decreases |slots| - j
  {
    if j == |slots| {
      assert slots[..j] == slots;
      assert slots[j..] == [];
    } else {
      var pre := slots[..j];
      var s := slots[j];
      var q := Drop(args, Consumed(pre));
      var acc := Positional(pre, u, ctx, content, args).value;
      var r1 := BindOne(s, u, ctx, content, q);
      assert slots[j..][0] == s && slots[j..][1..] == slots[j + 1..];
      assert Bind(slots[j..], u, ctx, content, q, acc) ==
        if r1.Err? then Err(r1.error) else Bind(slots[j + 1..], u, ctx, content, r1.value.1, acc + r1.value.0);
      assert slots[..j + 1] == pre + [s];
      PositionalSnoc(pre, s, u, ctx, content, args);
      assert Positional(slots[..j + 1], u, ctx, content, args) ==
        if r1.Err? then Err(r1.error) else Ok(acc + r1.value.0);
      if r1.Err? {
        PositionalErrSticks(slots, j + 1, u, ctx, content, args);
      } else {
        ConsumedSnoc(pre, s);
        if Consumes(s) { TailDrop(args, Consumed(pre)); }
        assert r1.value.1 == Drop(args, Consumed(slots[..j + 1]));
        BindFrom(slots, j + 1, u, ctx, content, args);
      }
    }
  }

  /** The queue the source shifts from is the positional reading: parameter
      `i` is handed the arguments from `Consumed(slots[..i])` on. */
  lemma BindIsPositional(slots: seq<Signature.Slot>, u: Registry.Use, ctx: Context, content: string, args: seq<Value>)
    ensures Bind(slots, u, ctx, content, args, []) == Positional(slots, u, ctx, content, args)
  {
    assert slots[..0] == [] && slots[0..] == slots;
    assert Drop(args, 0) == args;
    BindFrom(slots, 0, u, ctx, content, args);
  }

  // ---------------------------------------------------------------------------
  // Using a comm (lines 195-240)

  /** What calling the action returns: `null`/`undefined`, an array of
      parts, or any other value, which is replied. */
  datatype ActionResult = NoResult | PartsResult(parts: seq<Socket.Part>) | ValueResult(part: Socket.Part)

  /** The action's effect: nothing, `message.target.send(...result)`, or
      `message.reply(result)`. */
  datatype Effect = Silent | Send(parts: seq<Socket.Part>) | Reply(part: Socket.Part)

  /** What a message leads to: nothing, a reply in place of the action, the
      action run on its arguments with its effect, or an error. */
  datatype Outcome = Ignored | Replied(text: string) | Ran(arguments: seq<Value>, effect: Effect) | Failed(error: Extensions.JsError)

  function Deliver(r: ActionResult): (e: Effect)
    ensures r.NoResult? <==> e.Silent?
    ensures r.PartsResult? ==> e == Send(r.parts)
    ensures r.ValueResult? ==> e == Reply(r.part)
  {
    match r
    case NoResult => Silent
    case PartsResult(parts) => Send(parts)
    case ValueResult(part) => Reply(part)
  }

  /** A string action returns itself; any other action returns what it is
      given to return. */
  function Perform(a: Registry.Action, returned: ActionResult): ActionResult
  {
    if a.Constant? then ValueResult(Socket.Text(a.text)) else returned
  }

  /** `comm.use(message, content, args)`. */
  function Respond(u: Registry.Use, ctx: Context, content: string, args: seq<Value>, returned: ActionResult): (o: Outcome)
    ensures !u.regex && OutOfRange(|args|, u.counts) ==> o == Replied(CountMismatch(u.name, u.counts, |args|))
    ensures o.Ran? ==> Bind(u.slots, u, ctx, content, args, []) == Ok(o.arguments)
    ensures o.Ran? ==> o.effect == Deliver(Perform(u.action, returned))
  {
    if !u.regex && OutOfRange(|args|, u.counts) then Replied(CountMismatch(u.name, u.counts, |args|))
    else match Bind(u.slots, u, ctx, content, args, [])
      case Err(Invalid(reply)) => Replied(reply)
      case Err(Thrown(e)) => Failed(e)
      case Ok(values) => Ran(values, Deliver(Perform(u.action, returned)))
  }

  /** A refused value stops the comm with its reply before the action runs,
      whatever the action would return. */
  lemma RefusedNeverRuns(u: Registry.Use, ctx: Context, content: string, args: seq<Value>, r1: ActionResult, r2: ActionResult)
    requires !(!u.regex && OutOfRange(|args|, u.counts))
    requires Bind(u.slots, u, ctx, content, args, []).Err?
    ensures Respond(u, ctx, content, args, r1) == Respond(u, ctx, content, args, r2)
    ensures !Respond(u, ctx, content, args, r1).Ran?
  {
  }

  /** The comm as the closure runs it: the count check, then the loop over
      the parameters that shifts arguments off and pushes values. */
  method Use(u: Registry.Use, ctx: Context, content: string, args: seq<Value>, returned: ActionResult) returns (o: Outcome)
    ensures o == Respond(u, ctx, content, args, returned)
  {
    if !u.regex && (|args| < u.counts.min || (u.counts.max.Finite? && |args| > u.counts.max.n)) {
      return Replied(CountMismatch(u.name, u.counts, |args|));
    }
    var queue := args;
    var origArgs: seq<Value> := [];
    var slots := u.slots;
    var i := 0;
    while i < |slots|
      invariant 0 <= i <= |slots|
      invariant Bind(slots[i..], u, ctx, content, queue, origArgs) == Bind(slots, u, ctx, content, args, [])
    {
      var s := slots[i];
      assert slots[i..][0] == s && slots[i..][1..] == slots[i + 1..];
      if s.name == "cord" {
        origArgs := origArgs + [Transforms.CordObject];
      } else if s.name == "message" {
        origArgs := origArgs + [Transforms.MessageObject];
      } else if s.name == "target" {
        origArgs := origArgs + [Transforms.TargetObject];
      } else if s.name == "sender" {
        origArgs := origArgs + [Transforms.SenderObject];
      } else if s.name == "config" {
        origArgs := origArgs + [Transforms.CommConfig(u.category)];
      } else if s.name == "content" {
        origArgs := origArgs + [Transforms.Str(content)];
      } else if s.name == "match" {
        origArgs := origArgs + [Head(queue)];
        queue := Tail(queue);
      } else if s.name == "matches" || s.spread {
        origArgs := origArgs + queue;
      } else {
        var value := Head(queue);
        queue := Tail(queue);
        if value.Undefined? || value.Null? {
          value := if s.optionalIsArray then Transforms.Null else Transforms.Undefined;
        } else if s.transform.Some? {
          var name := s.transform.value;
          if name !in Transforms.Table() {
            return Failed(NotATransform);
          }
          var transformed := Transforms.Apply(Transforms.Table()[name], ctx.origin, ctx.sockets, TextOf(value));
          if transformed.None? {
            return Replied(NotValid(u.name, TextOf(value), name));
          }
          value := transformed.value;
        }
        origArgs := origArgs + [value];
      }
      i := i + 1;
    }
    assert slots[i..] == [];
    return Ran(origArgs, Deliver(Perform(u.action, returned)));
  }

  // ---------------------------------------------------------------------------
  // Routing a message (lines 266-305)

  /** One match: the whole match and the groups, `undefined` for a group
      that took no part. */
  type Match = seq<Option<string>>

  /** The successive matches `regex.exec(content)` finds for a regex
      comm's trigger; a non-global regex only ever yields its first. */
  type Exec = (Registry.Trigger, string) -> seq<Match>

  function GroupValue(g: Option<string>): Value
  {
    if g.Some? then Transforms.Str(g.value) else Transforms.Undefined
  }

  /** The arguments a regex comm is used with: the match array, or for a
      global regex the array of all matches. */
  function MatchArgs(t: Registry.Trigger, ms: seq<Match>): seq<Value>
    requires ms != []
  {
    if t.Pattern? && t.global then Iterable.Map(ms, (m: Match) => Transforms.Groups(m))
    else Iterable.Map(ms[0], GroupValue)
  }

  /** The first regex comm, in registration order, whose trigger matches. */
  function FirstRegex(regexes: seq<(Registry.Trigger, Registry.Use)>, content: string, exec: Exec): (r: Option<nat>)
    ensures r.Some? ==> r.value < |regexes| && exec(regexes[r.value].0, content) != []
    ensures r.Some? ==> forall j :: 0 <= j < r.value ==> exec(regexes[j].0, content) == []
    ensures r.None? ==> forall j :: 0 <= j < |regexes| ==> exec(regexes[j].0, content) == []
  {
    if regexes == [] then None
    else if exec(regexes[0].0, content) != [] then Some(0)
    else
      var rest := FirstRegex(regexes[1..], content, exec);
      if rest.None? then
        assert forall j :: 1 <= j < |regexes| ==> regexes[j] == regexes[1..][j - 1];
        None
      else
        assert forall j :: 1 <= j < rest.value + 1 ==> regexes[j] == regexes[1..][j - 1];
        Some(rest.value + 1)
  }

  /** `message.parts.join("")`. */
  function ContentOf(parts: seq<Socket.Part>, names: Socket.Names): string
  {
    Iterable.Concat(Iterable.Map(parts, (p: Socket.Part) => Socket.PartText(p, names)))
  }

  /** The text up to the first space: `split(" ", 2)[0]`. */
  function Command(s: string): (c: string)
    ensures c <= s && ' ' !in c
    ensures |c| < |s| ==> s[|c|] == ' '
  {
    if s == [] || s[0] == ' ' then "" else [s[0]] + Command(s[1..])
  }

  /** What the plug reads when a message arrives. */
  datatype View = View(prefix: string, replyOnUnknown: bool, tables: Registry.Tables)

  /** Whether the plug answers a message at all. */
  predicate Heard(m: Socket.Message, self: Option<Socket.Ref>)
  {
    Socket.IsUser(m.sender) && Socket.IsChannel(m.target) && !Socket.IsSelf(self, m.sender)
  }

  /** A prefixed message: the command is looked up lower-cased; the rest
      after the command and one more character is split into arguments. */
  function Prefixed(prefix: string, replyOnUnknown: bool, commands: map<string, Registry.Use>,
                    content: string, ctx: Context, returned: ActionResult): Outcome
    requires |prefix| <= |content|
  {
    var command := Command(content[|prefix|..]);
    var key := Socket.LowerCase(command);
    if key !in commands then
      if replyOnUnknown then Replied("Unknown command '" + command + "'.") else Ignored
    else
      var rest := Rest(prefix, content);
      Respond(commands[key], ctx, rest, Words(CommArgs.Args(rest)), returned)
  }

  /** What follows the command and its space: `content.slice(prefix.length
      + command.length + 1)`. */
  function Rest(prefix: string, content: string): string
    requires |prefix| <= |content|
  {
    Extensions.Slice(content, |prefix| + |Command(content[|prefix|..])| + 1, |content|)
  }

  /** The words of a command line, passed to the comm as plain strings. */
  function Words(words: seq<string>): (vs: seq<Value>)
    ensures |vs| == |words|
    ensures forall i :: 0 <= i < |words| ==> vs[i] == Transforms.Str(words[i])
  {
    Iterable.Map(words, (a: string) => Transforms.Str(a))
  }

  /** An unprefixed message: the first regex comm that matches gets the
      whole content and its match or matches. */
  function Unprefixed(regexes: seq<(Registry.Trigger, Registry.Use)>, content: string, ctx: Context,
                      exec: Exec, returned: ActionResult): Outcome
  {
    match FirstRegex(regexes, content, exec)
    case None => Ignored
    case Some(i) =>
      var (t, u) := regexes[i];
      Respond(u, ctx, content, MatchArgs(t, exec(t, content)), returned)
  }

  /** The `message` listener. */
  function Route(v: View, m: Socket.Message, self: Option<Socket.Ref>, names: Socket.Names, ctx: Context,
                 exec: Exec, returned: ActionResult): Outcome
  {
    if !Heard(m, self) then Ignored
    else
      var content := ContentOf(m.parts, names);
      if |v.prefix| <= |content| && content[..|v.prefix|] == v.prefix then
        Prefixed(v.prefix, v.replyOnUnknown, v.tables.commands, content, ctx, returned)
      else Unprefixed(v.tables.regexes, content, ctx, exec, returned)
  }


  /** Messages from anything but a user, to anything but a channel, or from
      the bot itself are ignored. */
  lemma RouteIgnores(v: View, m: Socket.Message, self: Option<Socket.Ref>, names: Socket.Names, ctx: Context, exec: Exec, returned: ActionResult)
    requires !Socket.IsUser(m.sender) || !Socket.IsChannel(m.target) || Socket.IsSelf(self, m.sender)
    ensures Route(v, m, self, names, ctx, exec, returned) == Ignored
  {
  }

  /** A prefixed message never reaches the regex comms: the outcome is the
      same whatever regexes there are and whatever they match. */
  lemma PrefixedNeverFallsThrough(v: View, regexes: seq<(Registry.Trigger, Registry.Use)>, m: Socket.Message,
                                  self: Option<Socket.Ref>, names: Socket.Names, ctx: Context,
                                  exec1: Exec, exec2: Exec, returned: ActionResult)
    requires var content := ContentOf(m.parts, names);
      |v.prefix| <= |content| && content[..|v.prefix|] == v.prefix
    ensures Route(v, m, self, names, ctx, exec1, returned) ==
            Route(v.(tables := v.tables.(regexes := regexes)), m, self, names, ctx, exec2, returned)
  {
  }

  /** An unknown command is answered only when `replyOnUnknown` is set. */
  lemma UnknownCommand(prefix: string, replyOnUnknown: bool, commands: map<string, Registry.Use>,
                       content: string, ctx: Context, returned: ActionResult)
    requires |prefix| <= |content|
    requires Socket.LowerCase(Command(content[|prefix|..])) !in commands
    ensures Prefixed(prefix, replyOnUnknown, commands, content, ctx, returned) ==
      if replyOnUnknown then Replied("Unknown command '" + Command(content[|prefix|..]) + "'.") else Ignored
  {
  }

  /** A keyword typed in any case after the prefix reaches the comm stored
      under its lower-cased form, with the rest of the line as content and
      its words as arguments. */
  lemma KeywordDispatch(prefix: string, replyOnUnknown: bool, commands: map<string, Registry.Use>,
                        word: string, rest: string, ctx: Context, returned: ActionResult)
    requires word != [] && ' ' !in word
    requires Socket.LowerCase(word) in commands
    ensures Prefixed(prefix, replyOnUnknown, commands, prefix + word + " " + rest, ctx, returned) ==
      Respond(commands[Socket.LowerCase(word)], ctx, rest,
              Words(CommArgs.Args(rest)), returned)
  {
    var content := prefix + word + " " + rest;
    var after := content[|prefix|..];
    assert after == word + " " + rest;
    CommandOf(word, rest);
    assert Command(after) == word;
    var start := |prefix| + |word| + 1;
    assert content[start..] == rest;
    assert Rest(prefix, content) == Extensions.Slice(content, start, |content|) == rest;
    PrefixedFound(prefix, replyOnUnknown, commands, content, ctx, returned);
  }

  lemma PrefixedFound(prefix: string, replyOnUnknown: bool, commands: map<string, Registry.Use>,
                      content: string, ctx: Context, returned: ActionResult)
    requires |prefix| <= |content|
    requires Socket.LowerCase(Command(content[|prefix|..])) in commands
    ensures Prefixed(prefix, replyOnUnknown, commands, content, ctx, returned) ==
      Respond(commands[Socket.LowerCase(Command(content[|prefix|..]))], ctx, Rest(prefix, content),
              Words(CommArgs.Args(Rest(prefix, content))), returned)
  {
  }

  lemma {:induction false} CommandOf(word: string, rest: string)
    requires ' ' !in word
    ensures Command(word + " " + rest) == word
  {
    if word != [] {
      assert (word + " " + rest)[1..] == word[1..] + " " + rest;
      CommandOf(word[1..], rest);
      assert [word[0]] + word[1..] == word;
    } else {
      assert (word + " " + rest)[0] == ' ';
    }
  }

  /** An unprefixed message goes to the first regex comm, in registration
      order, that matches; a global one gets all of its matches. */
  lemma FirstRegexWins(v: View, m: Socket.Message, self: Option<Socket.Ref>, names: Socket.Names, ctx: Context,
                       exec: Exec, returned: ActionResult, i: nat)
    requires Heard(m, self)
    requires var content := ContentOf(m.parts, names);
      !(|v.prefix| <= |content| && content[..|v.prefix|] == v.prefix)
    requires i < |v.tables.regexes|
    requires exec(v.tables.regexes[i].0, ContentOf(m.parts, names)) != []
    requires forall j :: 0 <= j < i ==> exec(v.tables.regexes[j].0, ContentOf(m.parts, names)) == []
    ensures var content := ContentOf(m.parts, names);
      var (t, u) := v.tables.regexes[i];
      Route(v, m, self, names, ctx, exec, returned) == Respond(u, ctx, content, MatchArgs(t, exec(t, content)), returned)
  {
    FirstRegexAt(v.tables.regexes, ContentOf(m.parts, names), exec, i);
  }

  /** The listener as written: the prefix check, then the command lookup
      or the scan of the regex comms. */
  method Activate(react: Registry.React, m: Socket.Message, self: Option<Socket.Ref>, names: Socket.Names,
                  ctx: Context, exec: Exec, returned: ActionResult) returns (o: Outcome)
    ensures o == Route(View(react.prefix, react.replyOnUnknown, react.State()), m, self, names, ctx, exec, returned)
  {
    if !Socket.IsUser(m.sender) || !Socket.IsChannel(m.target) || Socket.IsSelf(self, m.sender) {
      return Ignored;
    }
    var content := ContentOf(m.parts, names);
    if |react.prefix| <= |content| && content[..|react.prefix|] == react.prefix {
      o := RunCommand(react.prefix, react.replyOnUnknown, react.commands, content, ctx, returned);
    } else {
      o := Scan(react.regexes, content, ctx, exec, returned);
    }
  }

  /** A prefixed message: look the command up, split the rest into
      arguments and use the comm. */
  method RunCommand(prefix: string, replyOnUnknown: bool, commands: map<string, Registry.Use>,
                    content: string, ctx: Context, returned: ActionResult) returns (o: Outcome)
    requires |prefix| <= |content|
    ensures o == Prefixed(prefix, replyOnUnknown, commands, content, ctx, returned)
  {
    var command := Command(content[|prefix|..]);
    var key := Socket.LowerCase(command);
    if key !in commands {
      return if replyOnUnknown then Replied("Unknown command '" + command + "'.") else Ignored;
    }
    var rest := Rest(prefix, content);
    var words := CommArgs.GetCommArgs(rest);
    o := Use(commands[key], ctx, rest, Words(words), returned);
  }

  /** The loop over the regex comms: the first whose regex finds a match is
      used, with all of its matches when the regex is global. */
  method Scan(regexes: seq<(Registry.Trigger, Registry.Use)>, content: string, ctx: Context,
              exec: Exec, returned: ActionResult) returns (o: Outcome)
    ensures o == Unprefixed(regexes, content, ctx, exec, returned)
  {
    var i := 0;
    while i < |regexes|
      invariant 0 <= i <= |regexes|
      invariant forall j :: 0 <= j < i ==> exec(regexes[j].0, content) == []
    {
      var (t, u) := regexes[i];
      var ms := exec(t, content);
      if ms != [] {
        var args: seq<Value>;
        if t.Pattern? && t.global {
          args := Collect(ms);
        } else {
          args := Iterable.Map(ms[0], GroupValue);
        }
        FirstRegexAt(regexes, content, exec, i);
        o := Use(u, ctx, content, args, returned);
        return;
      }
      i := i + 1;
    }
    return Ignored;
  }

  /** A global regex's matches: the first, then each further one pushed
      as `exec` finds it. */
  method Collect(ms: seq<Match>) returns (args: seq<Value>)
    requires ms != []
    ensures args == Iterable.Map(ms, (mt: Match) => Transforms.Groups(mt))
  {
    args := [Transforms.Groups(ms[0])];
    var k := 1;
    while k < |ms|
      invariant 1 <= k <= |ms|
      invariant |args| == k
      invariant forall j :: 0 <= j < k ==> args[j] == Transforms.Groups(ms[j])
    {
      args := args + [Transforms.Groups(ms[k])];
      k := k + 1;
    }
  }

  lemma FirstRegexAt(regexes: seq<(Registry.Trigger, Registry.Use)>, content: string, exec: Exec, i: nat)
    requires i < |regexes| && exec(regexes[i].0, content) != []
    requires forall j :: 0 <= j < i ==> exec(regexes[j].0, content) == []
    ensures FirstRegex(regexes, content, exec) == Some(i)
  {
    var r := FirstRegex(regexes, content, exec);
    if r.None? {
    } else if r.value < i {
    } else if r.value > i {
    }
  }

  // ---------------------------------------------------------------------------
  // The builtins (lines 309-336)

  /** JavaScript truthiness of an optional string. */
  predicate Truthy(s: Option<string>) { s.Some? && s.value != "" }

  /** What `help <comm>` says about a comm: its name for a regex comm, its
      usage, its help or "No help available.", and what it is an alias of.
      A name that is not in the table reads as an empty object. */
  function HelpFor(lookup: map<string, Registry.Entry>, name: string): string
  {
    if name !in lookup then "No help available."
    else
      var e := lookup[name];
      (if e.regex then NameText(e.name) + ": " else "") +
      (if e.usage.Some? then "'" + e.usage.value + "' - " else "") +
      (if Truthy(e.help) then e.help.value else "No help available.") +
      (if Truthy(e.alias) then " (alias for '" + e.alias.value + "')" else "")
  }

  /** `help` without an argument. */
  function HelpIntro(prefix: string): string
  {
    "Use '" + prefix + "comms' to show all comms and '" + prefix + "help <comm>'" + " to display help for a specific comm."
  }

  /** The introduction names the `comms` and `help` commands as they are
      typed to this plug: behind its own prefix. */
  lemma HelpIntroNamesCommands(prefix: string)
    ensures var s := HelpIntro(prefix);
      && s[5..5 + |prefix|] == prefix && s[5 + |prefix|..10 + |prefix|] == "comms"
      && s[35 + |prefix|..35 + 2 * |prefix|] == prefix && s[35 + 2 * |prefix|..39 + 2 * |prefix|] == "help"
  {
    var c1 := "comms' to show all comms and '";
    var c2 := "help <comm>'";
    var c3 := " to display help for a specific comm.";
    var x1 := "Use '" + prefix;
    var x2 := x1 + c1;
    var x3 := x2 + prefix;
    var x4 := x3 + c2;
    assert HelpIntro(prefix) == x4 + c3;
    SliceLeft(x4, c3, 5, 5 + |prefix|);
    SliceLeft(x4, c3, 5 + |prefix|, 10 + |prefix|);
    SliceLeft(x4, c3, 35 + |prefix|, 35 + 2 * |prefix|);
    SliceLeft(x4, c3, 35 + 2 * |prefix|, 39 + 2 * |prefix|);
    SliceRight("Use '", prefix, 0, |prefix|);
    SliceLeft(x1, c1, 5, 5 + |prefix|);
    SliceLeft(x2, prefix, 5, 5 + |prefix|);
    SliceLeft(x3, c2, 5, 5 + |prefix|);
    SliceRight(x1, c1, 0, 5);
    SliceLeft(x2, prefix, 5 + |prefix|, 10 + |prefix|);
    SliceLeft(x3, c2, 5 + |prefix|, 10 + |prefix|);
    SliceRight(x2, prefix, 0, |prefix|);
    SliceLeft(x3, c2, 35 + |prefix|, 35 + 2 * |prefix|);
    SliceRight(x3, c2, 0, 4);
    IntroWords(c1, c2);
  }

  lemma IntroWords(c1: string, c2: string)
    requires c1 == "comms' to show all comms and '"
    requires c2 == "help <comm>'"
    ensures |c1| == 30 && c1[0..5] == "comms" && c2[0..4] == "help"
  {
  }

  lemma SliceLeft(x: string, y: string, i: nat, j: nat)
    requires i <= j <= |x|
    ensures (x + y)[i..j] == x[i..j]
  {
  }

  lemma SliceRight(x: string, y: string, i: nat, j: nat)
    requires i <= j <= |y|
    ensures (x + y)[|x| + i..|x| + j] == y[i..j]
  {
  }

  /** Whether `comms` lists the entry recorded under `k`: it is not an alias. */
  predicate Shown(lookup: map<string, Registry.Entry>, k: string)
  {
    k in lookup && !Truthy(lookup[k].alias)
  }

  /** How `comms` names an entry: keyword comms behind the prefix. */
  function ShownName(lookup: map<string, Registry.Entry>, prefix: string, k: string): string
  {
    if k in lookup then (if !lookup[k].regex then prefix else "") + NameText(lookup[k].name) else ""
  }

  /** `comms`: the comms that are not aliases, in the order they were
      first recorded, keyword comms with the prefix. */
  function CommsList(keys: seq<string>, lookup: map<string, Registry.Entry>, prefix: string): string
  {
    var shown := Iterable.Filter(keys, (k: string) => Shown(lookup, k));
    "Available comms: " + Iterable.Join(Iterable.Map(shown, (k: string) => ShownName(lookup, prefix, k)), ", ")
  }

  /** The names `comms` lists, key by key: an independent reading of the
      filter and the map. */
  function ListedNames(keys: seq<string>, lookup: map<string, Registry.Entry>, prefix: string): seq<string>
  {
    if keys == [] then []
    else (if Shown(lookup, keys[0]) then [ShownName(lookup, prefix, keys[0])] else []) + ListedNames(keys[1..], lookup, prefix)
  }

  lemma {:induction false} MapFilterListed(keys: seq<string>, lookup: map<string, Registry.Entry>, prefix: string,
                                           p: string -> bool, f: string -> string)
    requires forall k :: p(k) == Shown(lookup, k)
    requires forall k :: f(k) == ShownName(lookup, prefix, k)
    ensures Iterable.Map(Iterable.Filter(keys, p), f) == ListedNames(keys, lookup, prefix)
  {
    if keys != [] {
      MapFilterListed(keys[1..], lookup, prefix, p, f);
      var rest := Iterable.Filter(keys[1..], p);
      if p(keys[0]) {
        assert Iterable.Filter(keys, p) == [keys[0]] + rest;
        assert ([keys[0]] + rest)[1..] == rest;
      }
    }
  }

  /** `comms` answers "Available comms: " and the names of exactly the
      entries that are not aliases, in key order, each keyword comm behind
      the prefix, joined by ", "; when there is at least one such entry the
      list is not the library's "undefined" for nothing. */
  lemma CommsListShows(keys: seq<string>, lookup: map<string, Registry.Entry>, prefix: string)
    ensures CommsList(keys, lookup, prefix) == "Available comms: " + Iterable.Join(ListedNames(keys, lookup, prefix), ", ")
    ensures (exists i :: 0 <= i < |keys| && Shown(lookup, keys[i])) <==> ListedNames(keys, lookup, prefix) != []
  {
    MapFilterListed(keys, lookup, prefix, (k: string) => Shown(lookup, k), (k: string) => ShownName(lookup, prefix, k));
    ListedNamesEmpty(keys, lookup, prefix);
  }

  lemma {:induction false} ListedNamesEmpty(keys: seq<string>, lookup: map<string, Registry.Entry>, prefix: string)
    ensures (exists i :: 0 <= i < |keys| && Shown(lookup, keys[i])) <==> ListedNames(keys, lookup, prefix) != []
  {
    if keys != [] {
      ListedNamesEmpty(keys[1..], lookup, prefix);
      if exists i :: 1 <= i < |keys| && Shown(lookup, keys[i]) {
        var i :| 1 <= i < |keys| && Shown(lookup, keys[i]);
        assert keys[1..][i - 1] == keys[i];
      }
      if exists i :: 0 <= i < |keys[1..]| && Shown(lookup, keys[1..][i]) {
        var i :| 0 <= i < |keys[1..]| && Shown(lookup, keys[1..][i]);
        assert keys[i + 1] == keys[1..][i];
      }
    }
  }


  /** An unknown name has no help. */
  lemma HelpUnknown(lookup: map<string, Registry.Entry>, name: string)
    requires name !in lookup
    ensures HelpFor(lookup, name) == "No help available."
  {
  }

  /** An alias says what it stands for. */
  lemma HelpNamesTarget(lookup: map<string, Registry.Entry>, name: string)
    requires name in lookup && Truthy(lookup[name].alias)
    ensures var a := " (alias for '" + lookup[name].alias.value + "')";
      |HelpFor(lookup, name)| >= |a| && HelpFor(lookup, name)[|HelpFor(lookup, name)| - |a|..] == a
  {
  }

  /** With nothing but aliases, the list reads "undefined", since the
      library's `join` of nothing is `undefined`. */
  lemma CommsListOfAliases(keys: seq<string>, lookup: map<string, Registry.Entry>, prefix: string)
    requires forall k :: k in keys ==> k in lookup && Truthy(lookup[k].alias)
    ensures CommsList(keys, lookup, prefix) == "Available comms: undefined"
  {
    var p := (k: string) => Shown(lookup, k);
    assert forall i :: 0 <= i < |keys| ==> keys[i] in keys && !p(keys[i]);
    Iterable.FilterNone(keys, p);
  }

  /** Lines 322 and 333 as written read the prefix from the configuration
      handed in, so an unset prefix reads `undefined`. */
  function HelpIntroAsWritten(rawPrefix: Option<string>): string
  {
    HelpIntro(if rawPrefix.Some? then rawPrefix.value else "undefined")
  }

  /** With the prefix left at its default `~`, the introduction as written
      names `undefinedcomms`, a command the plug never answers; read from
      the plug's own prefix it names `~comms`. */
  lemma HelpIntroRawPrefix(prefix: string)
    ensures HelpIntroAsWritten(Some(prefix)) == HelpIntro(prefix)
    ensures HelpIntroAsWritten(None) != HelpIntro("~")
  {
    assert HelpIntro("undefined")[5] == 'u';
    assert HelpIntro("~")[5] == '~';
  }
}
