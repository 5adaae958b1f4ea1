/** The `React` plug's constructor (`plugs/React.js`): every enabled comm
    module is read, each comm is turned into a `use` closure checked against
    its parameters, keyword comms are stored under their lower-cased
    trigger, regex comms in order, named comms in a lookup table, and alias
    comms are resolved last. The closure is the `Use` record of what it
    captured; `Dispatch` gives its behaviour. */
module Registry {
  import opened Wrappers
  import JsSet
  import Extensions
  import Reflect
  import Iterable
  import Utility
  import Socket
  import Signature

  // ---------------------------------------------------------------------------
  // Triggers: `/\/(.+)\/(g)?/.exec(trigger)` (lines 84-85)

  /** A key of a comm module: a keyword, or a regular expression given by its
      source and whether it is global. */
  datatype Trigger = Keyword(word: string) | Pattern(source: string, global: bool)

  /** Where the line starting at `i` ends (`.` does not match a line
      terminator). */
  function LineEnd(s: string, i: nat): (e: nat)
    requires i <= |s|
    ensures i <= e <= |s|
    ensures forall k :: i <= k < e ==> !Reflect.IsLineTerminator(s[k])
    ensures e < |s| ==> Reflect.IsLineTerminator(s[e])
    decreases |s| - i
  {
    if i == |s| || Reflect.IsLineTerminator(s[i]) then i else LineEnd(s, i + 1)
  }

  /** The last `/` in `s[lo..hi]`, if any. */
  function LastSlash(s: string, lo: nat, hi: nat): (r: Option<nat>)
    requires lo <= hi <= |s|
    ensures r.Some? ==> lo <= r.value < hi && s[r.value] == '/'
    ensures r.Some? ==> forall k :: r.value < k < hi ==> s[k] != '/'
    ensures r.None? ==> forall k :: lo <= k < hi ==> s[k] != '/'
    decreases hi - lo
  {
    if hi == lo then None else if s[hi - 1] == '/' then Some(hi - 1) else LastSlash(s, lo, hi - 1)
  }

  /** The closing slash for an opening slash at `a`: the greedy `(.+)` runs
      to the last `/` on the line, at least one character on. */
  function Closing(s: string, a: nat): (r: Option<nat>)
    requires a < |s|
  {
    var e := LineEnd(s, a + 1);
    if s[a] == '/' && a + 2 <= e then LastSlash(s, a + 2, e) else None
  }

  /** The first position at or after `a` where the expression matches: the
      opening and the closing slash. */
  function RegexTest(s: string, a: nat): (r: Option<(nat, nat)>)
    requires a <= |s|
    ensures r.Some? ==> a <= r.value.0 && r.value.0 + 2 <= r.value.1 < |s|
    ensures r.Some? ==> Closing(s, r.value.0) == Some(r.value.1)
    ensures r.Some? ==> forall k :: a <= k < r.value.0 ==> Closing(s, k).None?
    ensures r.None? ==> forall k :: a <= k < |s| ==> Closing(s, k).None?
    decreases |s| - a
  {
    if a == |s| then None
    else if Closing(s, a).Some? then Some((a, Closing(s, a).value))
    else RegexTest(s, a + 1)
  }

  /** `new RegExp(regexTest[1], regexTest[2])` when the key matches, the key
      itself otherwise. */
  function ParseTrigger(key: string): Trigger
  {
    match RegexTest(key, 0)
    case None => Keyword(key)
    case Some((a, b)) => Pattern(key[a + 1..b], b + 1 < |key| && key[b + 1] == 'g')
  }

  /** `${ trigger }`: the keyword, or `/source/flags`. */
  function TriggerText(t: Trigger): string
  {
    match t
    case Keyword(word) => word
    case Pattern(source, global) => "/" + source + "/" + (if global then "g" else "")
  }

  /** A key without a slash is a keyword. */
  lemma KeywordKey(key: string)
    requires forall k :: 0 <= k < |key| ==> key[k] != '/'
    ensures ParseTrigger(key) == Keyword(key)
  {
    assert forall k :: 0 <= k < |key| ==> Closing(key, k).None?;
  }

  /** Reading the text of a regular expression back gives it again: the
      source is the text between the first and the last slash. */
  lemma PatternKey(source: string, global: bool)
    requires source != [] && Reflect.SingleLine(source)
    ensures ParseTrigger(TriggerText(Pattern(source, global))) == Pattern(source, global)
  {
    var key := TriggerText(Pattern(source, global));
    var b := |source| + 1;
    PatternText(source, global);
    assert LineEnd(key, 1) == |key|;
    assert LastSlash(key, 2, |key|) == Some(b);
    assert Closing(key, 0) == Some(b);
    assert RegexTest(key, 0) == Some((0, b));
  }

  /** The text `/source/flags`: slashes at both ends of the source, no slash
      after it, and no line terminator anywhere. */
  lemma PatternText(source: string, global: bool)
    requires Reflect.SingleLine(source)
    ensures var key := TriggerText(Pattern(source, global));
      var b := |source| + 1;
      && b < |key| && key[0] == '/' && key[b] == '/' && key[1..b] == source
      && (forall k :: b < k < |key| ==> key[k] != '/')
      && Reflect.SingleLine(key)
  {
    var key := TriggerText(Pattern(source, global));
    var b := |source| + 1;
    assert key == "/" + source + "/" + (if global then "g" else "");
    forall k | 0 <= k < |key| ensures !Reflect.IsLineTerminator(key[k]) {
      if 1 <= k < b { assert key[k] == source[k - 1]; }
    }
  }

  // ---------------------------------------------------------------------------
  // Comm definitions (lines 87-100)

  /** What a comm module exports under a key: a string, an array of strings,
      a function with its source text, or any other value. */
  datatype ActionValue = Text(text: string) | Choices(options: seq<string>) | Function(source: string) | OtherValue

  /** A bare action, or an object with an `action` or `alias` property and
      optional `name`, `help` and `usage` properties. */
  datatype CommDef =
    | Bare(value: ActionValue)
    | Described(action: Option<ActionValue>, alias: Option<string>, name: Option<string>,
                help: Option<string>, usage: Option<string>)

  /** The properties a comm ends up with: an object with neither `action`
      nor `alias` is itself taken as the action. */
  datatype Definition = Definition(action: ActionValue, alias: Option<string>, name: Option<string>,
                                   help: Option<string>, usage: Option<string>)

  function Effective(def: CommDef): Definition
  {
    match def
    case Bare(v) => Definition(v, None, None, None, None)
    case Described(action, alias, name, help, usage) =>
      if action.None? && alias.None? then Definition(OtherValue, None, None, None, None)
      else Definition(if action.Some? then action.value else OtherValue, alias, name, help, usage)
  }

  /** The action once wrapped: a string is returned as it is, an array gives
      one of its elements, a function is called. */
  datatype Action = Constant(text: string) | Pick(options: seq<string>) | Call(source: string)

  function ToAction(v: ActionValue): (r: Option<Action>)
    ensures r.None? <==> v.OtherValue?
  {
    match v
    case Text(t) => Some(Constant(t))
    case Choices(options) => Some(Pick(options))
    case Function(source) => Some(Call(source))
    case OtherValue => None
  }

  /** `${ comm.action }`: the source text of the wrapped action. */
  function ActionSource(a: Action): string
  {
    match a
    case Constant(_) => "() => origAction"
    case Pick(_) => "() => origAction.random()"
    case Call(source) => source
  }

  /** Function sources are read on a single line. */
  predicate SingleLineDef(def: CommDef)
  {
    Effective(def).action.Function? ==> Reflect.SingleLine(Effective(def).action.source)
  }

  predicate SingleLineItems(items: seq<(string, CommDef)>)
  {
    forall i :: 0 <= i < |items| ==> SingleLineDef(items[i].1)
  }

  predicate SingleLineModules(modules: map<string, seq<(string, CommDef)>>)
  {
    forall name :: name in modules ==> SingleLineItems(modules[name])
  }

  /** The inspected parameters of the wrapped action; the wrappers of strings
      and arrays take none. */
  function Parameters(a: Action): Result<seq<Reflect.Parameter>, Extensions.JsError>
    requires a.Call? ==> Reflect.SingleLine(a.source)
  {
    match a
    case Call(source) =>
      (match Reflect.InspectFunction(Reflect.Function(source))
       case Err(e) => Err(e)
       case Ok(inspect) => Ok(inspect.parameters))
    case _ => Ok([])
  }

  /** `new UnexpectedTypeError(comm, String, Array, Function)`. */
  function UnexpectedType(): Extensions.JsError
  {
    Extensions.Error("Expected " + Utility.OrList(["String", "Array", "Function"]))
  }

  // ---------------------------------------------------------------------------
  // Prepared comms

  /** What the `use` closure captured: the comm's name, its kind, its
      classified parameters and argument counts, the action and the name of
      the category whose configuration it is handed. */
  datatype Use = Use(name: Option<string>, regex: bool, global: bool, slots: seq<Signature.Slot>,
                     counts: Signature.Counts, action: Action, category: string)

  /** The comm object stored in `lookup`. */
  datatype Entry = Entry(category: string, name: Option<string>, trigger: Trigger, regex: bool,
                         help: Option<string>, usage: Option<string>, alias: Option<string>, use: Use)

  /** An alias comm held back until all others are processed. */
  datatype AliasDef = AliasDef(trigger: Trigger, name: Option<string>, target: string)

  datatype Prepared = Aliased(def: AliasDef) | Ready(entry: Entry)

  /** One comm of a module, up to the closure (lines 84-240). */
  function Prepare(category: string, key: string, def: CommDef, prefix: string): (r: Result<Prepared, Extensions.JsError>)
    requires SingleLineDef(def)
    ensures r.Ok? && r.value.Ready? ==> r.value.entry.regex == r.value.entry.trigger.Pattern?
    ensures r.Ok? && r.value.Ready? ==> r.value.entry.alias.None?
    ensures r.Ok? && r.value.Ready? && r.value.entry.trigger.Keyword? ==>
      exists text :: r.value.entry.usage == Some(Signature.Usage(prefix, r.value.entry.trigger.word, text))
    ensures Effective(def).alias.Some? <==> r.Ok? && r.value.Aliased?
    ensures Effective(def).alias.None? && Effective(def).action.OtherValue? ==> r == Err(UnexpectedType())
  {
    var trigger := ParseTrigger(key);
    var d := Effective(def);
    var name := if d.name.Some? then d.name else if trigger.Keyword? then Some(key) else None;
    if d.alias.Some? then Ok(Aliased(AliasDef(trigger, name, d.alias.value)))
    else match ToAction(d.action)
      case None => Err(UnexpectedType())
      case Some(action) =>
        match Parameters(action)
        case Err(e) => Err(e)
        case Ok(params) =>
          var comm := Signature.Comm(TriggerText(trigger), trigger.Pattern?, trigger.Pattern? && trigger.global,
                                     ActionSource(action));
          var slots := Iterable.Map(params, Signature.Classify);
          match Signature.Signature(slots, comm)
          case Err(e) => Err(e)
          case Ok(counts) =>
            var usage := if trigger.Keyword? then Some(Signature.Usage(prefix, trigger.word, Signature.UsageText(slots, d.usage)))
                         else d.usage;
            Ok(Ready(Entry(category, name, trigger, trigger.Pattern?, d.help, usage, None,
                           Use(name, trigger.Pattern?, trigger.Pattern? && trigger.global, slots, counts, action, category))))
  }

  /** Prepares one comm, running the parameter loop. */
  method PrepareComm(category: string, key: string, def: CommDef, prefix: string) returns (r: Result<Prepared, Extensions.JsError>)
    requires SingleLineDef(def)
    ensures r == Prepare(category, key, def, prefix)
  {
    var trigger := ParseTrigger(key);
    var d := Effective(def);
    var name := if d.name.Some? then d.name else if trigger.Keyword? then Some(key) else None;
    if d.alias.Some? {
      return Ok(Aliased(AliasDef(trigger, name, d.alias.value)));
    }
    var action := ToAction(d.action);
    if action.None? {
      return Err(UnexpectedType());
    }
    var params := Parameters(action.value);
    if params.Err? {
      return Err(params.error);
    }
    var comm := Signature.Comm(TriggerText(trigger), trigger.Pattern?, trigger.Pattern? && trigger.global,
                               ActionSource(action.value));
    var slots, counts := Signature.CheckParameters(params.value, comm);
    if counts.Err? {
      return Err(counts.error);
    }
    var usage := if trigger.Keyword? then Some(Signature.Usage(prefix, trigger.word, Signature.UsageText(slots, d.usage)))
                 else d.usage;
    return Ok(Ready(Entry(category, name, trigger, trigger.Pattern?, d.help, usage, None,
                          Use(name, trigger.Pattern?, trigger.Pattern? && trigger.global, slots, counts.value,
                              action.value, category))));
  }

  // ---------------------------------------------------------------------------
  // The tables

  /** `this.commands`, `this.regexes` and `this.lookup`, whose keys are kept
      in the order they were first set (the iteration order of an object's
      string keys). */
  datatype Tables = Tables(commands: map<string, Use>, regexes: seq<(Trigger, Use)>,
                               keys: seq<string>, lookup: map<string, Entry>)

  const Empty := Tables(map[], [], [], map[])

  /** `this.lookup[k] = e`. */
  function Record(r: Tables, k: string, e: Entry): Tables
  {
    r.(keys := if k in r.lookup then r.keys else r.keys + [k], lookup := r.lookup[k := e])
  }

  /** Lines 242-246: a regex comm is appended to the regexes, a keyword comm
      stored under its lower-cased trigger, and a named comm recorded. */
  function Store(r: Tables, e: Entry): Tables
  {
    var r1 := if e.trigger.Pattern? then r.(regexes := r.regexes + [(e.trigger, e.use)])
              else r.(commands := r.commands[Socket.LowerCase(e.trigger.word) := e.use]);
    if e.name.Some? then Record(r1, e.name.value, e) else r1
  }

  function AliasNotFound(a: AliasDef): Extensions.JsError
  {
    Extensions.Error("Aliased comm '" + a.target + "' not found for comm '" + TriggerText(a.trigger) + "'")
  }

  function AliasOfRegex(a: AliasDef): Extensions.JsError
  {
    Extensions.Error("Aliased comm '" + a.target + "' for comm '" + TriggerText(a.trigger) + "' is a regex comm")
  }

  /** Whether an alias can be resolved against the table. */
  predicate Resolvable(r: Tables, a: AliasDef)
  {
    a.target in r.lookup && !r.lookup[a.target].regex && r.lookup[a.target].usage.Some?
  }

  /** The comm an alias becomes: its target with the alias's trigger, name
      and usage. */
  function Aliasing(orig: Entry, a: AliasDef, prefix: string): Entry
    requires orig.usage.Some?
  {
    var usage := Extensions.Splice(orig.usage.value, |prefix|, |TriggerText(orig.trigger)|, [TriggerText(a.trigger)]);
    orig.(trigger := a.trigger, name := a.name, alias := Some(a.target), usage := Some(usage))
  }

  /** Lines 252-262, with `String.prototype.splice` as intended. A comm
      without a usage (one that is not a keyword comm) has no `splice`. */
  function AliasStep(r: Tables, a: AliasDef, prefix: string): (s: Result<Tables, Extensions.JsError>)
    ensures a.target !in r.lookup ==> s == Err(AliasNotFound(a))
    ensures a.target in r.lookup && r.lookup[a.target].regex ==> s == Err(AliasOfRegex(a))
    ensures s.Ok? <==> Resolvable(r, a)
  {
    if a.target !in r.lookup then Err(AliasNotFound(a))
    else
      var orig := r.lookup[a.target];
      if orig.regex then Err(AliasOfRegex(a))
      else if orig.usage.None? then Err(Extensions.TypeError("Cannot read properties of null (reading 'splice')"))
      else
        var text := TriggerText(a.trigger);
        Ok(Record(r.(commands := r.commands[text := orig.use]), text, Aliasing(orig, a, prefix)))
  }

  /** Line 259 as written: `splice` always throws, so every alias that gets
      that far fails the constructor. */
  function AliasStepAsWritten(r: Tables, a: AliasDef, prefix: string): Result<Tables, Extensions.JsError>
  {
    if a.target !in r.lookup then Err(AliasNotFound(a))
    else
      var orig := r.lookup[a.target];
      if orig.regex then Err(AliasOfRegex(a))
      else if orig.usage.None? then Err(Extensions.TypeError("Cannot read properties of null (reading 'splice')"))
      else
        match Extensions.SpliceAsWritten(orig.usage.value, |prefix|, |TriggerText(orig.trigger)|, [TriggerText(a.trigger)])
        case Err(e) => Err(e)
        case Ok(usage) =>
          var text := TriggerText(a.trigger);
          Ok(Record(r.(commands := r.commands[text := orig.use]), text,
                    orig.(trigger := a.trigger, name := a.name, alias := Some(a.target), usage := Some(usage))))
  }

  /** As written, an alias that would resolve throws a `ReferenceError`
      instead. */
  lemma AliasAsWrittenThrows(r: Tables, a: AliasDef, prefix: string)
    requires AliasStep(r, a, prefix).Ok?
    ensures AliasStepAsWritten(r, a, prefix) == Err(Extensions.ReferenceError("str is not defined"))
  {
  }

  /** An alias dispatches exactly as the comm it names, is recorded as an
      alias of it, and its usage is the target's usage with the alias's
      trigger in place of the target's; nothing else changes. */
  lemma AliasDispatchesAsTarget(r: Tables, a: AliasDef, prefix: string, text: Option<string>)
    requires AliasStep(r, a, prefix).Ok?
    requires r.lookup[a.target].usage == Some(Signature.Usage(prefix, TriggerText(r.lookup[a.target].trigger), text))
    ensures var s := AliasStep(r, a, prefix).value;
      var t := TriggerText(a.trigger);
      var orig := r.lookup[a.target];
      && t in s.commands && s.commands[t] == orig.use
      && t in s.lookup && s.lookup[t].alias == Some(a.target) && s.lookup[t].help == orig.help
      && s.lookup[t].usage == Some(Signature.Usage(prefix, t, text))
      && s.regexes == r.regexes
      && (forall k :: k != t ==> (k in s.commands <==> k in r.commands))
      && (forall k :: k != t && k in r.commands ==> s.commands[k] == r.commands[k])
  {
    var orig := r.lookup[a.target];
    Signature.AliasUsage(prefix, TriggerText(orig.trigger), TriggerText(a.trigger), text);
  }

  // ---------------------------------------------------------------------------
  // The constructor as a function of its inputs

  /** The React part of the configuration: the prefix, the per-category
      configuration (`enabled: false` turns a category off) and
      `replyOnUnknown`. */
  datatype Category = Category(enabled: Option<bool>)
  datatype Config = Config(prefix: Option<string>, comms: seq<(string, Category)>, replyOnUnknown: Option<bool>)

  /** `extend({ }, defaults, config)`. */
  function Prefix(c: Config): string { if c.prefix.Some? then c.prefix.value else "~" }
  function ReplyOnUnknown(c: Config): bool { if c.replyOnUnknown.Some? then c.replyOnUnknown.value else true }

  /** `require` of a module that is not there. */
  function MissingModule(name: string): Extensions.JsError
  {
    Extensions.Error("Cannot find module '../comms/" + name + "'")
  }

  /** The tables so far and the aliases held back. */
  datatype Phase = Phase(reg: Tables, aliases: seq<AliasDef>)

  /** One comm of a module; regex comms keep their order and aliases wait. */
  function Step(p: Phase, category: string, key: string, def: CommDef, prefix: string): (r: Result<Phase, Extensions.JsError>)
    requires SingleLineDef(def)
    ensures r.Ok? ==> p.reg.regexes <= r.value.reg.regexes && p.aliases <= r.value.aliases
  {
    match Prepare(category, key, def, prefix)
    case Err(e) => Err(e)
    case Ok(Aliased(a)) => Ok(Phase(p.reg, p.aliases + [a]))
    case Ok(Ready(e)) => Ok(Phase(Store(p.reg, e), p.aliases))
  }

  /** The comms of one module in order, stopping at the first error. */
  function StepAll(p: Phase, category: string, items: seq<(string, CommDef)>, prefix: string): Result<Phase, Extensions.JsError>
    requires SingleLineItems(items)
  {
    if items == [] then Ok(p)
    else
      var n := |items| - 1;
      match StepAll(p, category, items[..n], prefix)
      case Err(e) => Err(e)
      case Ok(q) => Step(q, category, items[n].0, items[n].1, prefix)
  }

  /** The enabled categories in order (lines 78-248). */
  function Collect(cats: seq<(string, Category)>, modules: map<string, seq<(string, CommDef)>>, prefix: string): Result<Phase, Extensions.JsError>
    requires SingleLineModules(modules)
  {
    if cats == [] then Ok(Phase(Empty, []))
    else
      var n := |cats| - 1;
      match Collect(cats[..n], modules, prefix)
      case Err(e) => Err(e)
      case Ok(p) =>
        var (name, cat) := cats[n];
        if cat.enabled == Some(false) then Ok(p)
        else if name !in modules then Err(MissingModule(name))
        else StepAll(p, name, modules[name], prefix)
  }

  /** The aliases in the order they were met (lines 251-263). */
  function AliasAll(r: Tables, aliases: seq<AliasDef>, prefix: string): Result<Tables, Extensions.JsError>
  {
    if aliases == [] then Ok(r)
    else
      var n := |aliases| - 1;
      match AliasAll(r, aliases[..n], prefix)
      case Err(e) => Err(e)
      case Ok(s) => AliasStep(s, aliases[n], prefix)
  }

  /** The tables the constructor builds, or the error it throws. */
  function Build(c: Config, modules: map<string, seq<(string, CommDef)>>): Result<Tables, Extensions.JsError>
    requires SingleLineModules(modules)
  {
    match Collect(c.comms, modules, Prefix(c))
    case Err(e) => Err(e)
    case Ok(p) => AliasAll(p.reg, p.aliases, Prefix(c))
  }

  /** A category switched off adds nothing. */
  lemma DisabledSkipped(cats: seq<(string, Category)>, name: string, modules: map<string, seq<(string, CommDef)>>, prefix: string)
    requires SingleLineModules(modules)
    ensures Collect(cats + [(name, Category(Some(false)))], modules, prefix) == Collect(cats, modules, prefix)
  {
    assert (cats + [(name, Category(Some(false)))])[..|cats|] == cats;
  }

  // ---------------------------------------------------------------------------
  // Errors stop the constructor

  lemma {:induction false} StepAllErrSticks(p: Phase, category: string, items: seq<(string, CommDef)>, j: nat, prefix: string)
    requires SingleLineItems(items) && j <= |items|
    requires StepAll(p, category, items[..j], prefix).Err?
    ensures StepAll(p, category, items, prefix) == StepAll(p, category, items[..j], prefix)
    decreases |items| - j
  {
    if j < |items| {
      assert items[..j + 1][..j] == items[..j];
      StepAllErrSticks(p, category, items, j + 1, prefix);
    } else {
      assert items[..j] == items;
    }
  }

  lemma {:induction false} CollectErrSticks(cats: seq<(string, Category)>, modules: map<string, seq<(string, CommDef)>>, i: nat, prefix: string)
    requires SingleLineModules(modules) && i <= |cats|
    requires Collect(cats[..i], modules, prefix).Err?
    ensures Collect(cats, modules, prefix) == Collect(cats[..i], modules, prefix)
    decreases |cats| - i
  {
    if i < |cats| {
      assert cats[..i + 1][..i] == cats[..i];
      CollectErrSticks(cats, modules, i + 1, prefix);
    } else {
      assert cats[..i] == cats;
    }
  }

  lemma {:induction false} AliasAllErrSticks(r: Tables, aliases: seq<AliasDef>, k: nat, prefix: string)
    requires k <= |aliases|
    requires AliasAll(r, aliases[..k], prefix).Err?
    ensures AliasAll(r, aliases, prefix) == AliasAll(r, aliases[..k], prefix)
    decreases |aliases| - k
  {
    if k < |aliases| {
      assert aliases[..k + 1][..k] == aliases[..k];
      AliasAllErrSticks(r, aliases, k + 1, prefix);
    } else {
      assert aliases[..k] == aliases;
    }
  }

  // ---------------------------------------------------------------------------
  // What the tables keep

  /** The usage of a comm starts with the prefix and its trigger. */
  predicate UsageFits(prefix: string, e: Entry)
  {
    var n := |prefix| + |TriggerText(e.trigger)|;
    e.usage.Some? && |e.usage.value| >= n && e.usage.value[..n] == prefix + TriggerText(e.trigger)
  }

  /** The lookup keys are listed once each, in order; every comm that is not
      a regex comm has a usage starting with the prefix and its trigger;
      regex comms have a regex trigger and aliases are never regex comms. */
  ghost predicate Valid(prefix: string, r: Tables)
  {
    && JsSet.NoDup(r.keys)
    && (forall k :: k in r.lookup <==> k in r.keys)
    && (forall k :: k in r.lookup && !r.lookup[k].regex ==> UsageFits(prefix, r.lookup[k]))
    && (forall k :: k in r.lookup && r.lookup[k].regex ==> r.lookup[k].trigger.Pattern? && r.lookup[k].alias.None?)
  }

  lemma RecordValid(prefix: string, r: Tables, k: string, e: Entry)
    requires Valid(prefix, r)
    requires e.regex ==> e.trigger.Pattern? && e.alias.None?
    requires !e.regex ==> UsageFits(prefix, e)
    ensures Valid(prefix, Record(r, k, e))
  {
  }

  lemma RegisterValid(prefix: string, r: Tables, category: string, key: string, def: CommDef)
    requires SingleLineDef(def) && Valid(prefix, r)
    requires Prepare(category, key, def, prefix).Ok? && Prepare(category, key, def, prefix).value.Ready?
    ensures Valid(prefix, Store(r, Prepare(category, key, def, prefix).value.entry))
  {
    var e := Prepare(category, key, def, prefix).value.entry;
    if !e.regex {
      var text :| e.usage == Some(Signature.Usage(prefix, e.trigger.word, text));
      assert UsageFits(prefix, e);
    }
    var r1 := if e.trigger.Pattern? then r.(regexes := r.regexes + [(e.trigger, e.use)])
              else r.(commands := r.commands[Socket.LowerCase(e.trigger.word) := e.use]);
    assert Valid(prefix, r1);
    if e.name.Some? {
      RecordValid(prefix, r1, e.name.value, e);
    }
  }

  lemma AliasStepValid(prefix: string, r: Tables, a: AliasDef)
    requires Valid(prefix, r) && AliasStep(r, a, prefix).Ok?
    ensures Valid(prefix, AliasStep(r, a, prefix).value)
  {
    var orig := r.lookup[a.target];
    var u := orig.usage.value;
    var n := |TriggerText(orig.trigger)|;
    var t := TriggerText(a.trigger);
    Extensions.SpliceOne(u, |prefix|, n, t);
    var e := Aliasing(orig, a, prefix);
    assert e.usage.value == u[..|prefix|] + t + u[|prefix| + n..];
    assert u[..|prefix|] == prefix;
    assert e.usage.value[..|prefix| + |t|] == prefix + t;
    RecordValid(prefix, r.(commands := r.commands[t := orig.use]), t, e);
  }

  lemma {:induction false} StepAllValid(prefix: string, p: Phase, category: string, items: seq<(string, CommDef)>)
    requires SingleLineItems(items) && Valid(prefix, p.reg)
    requires StepAll(p, category, items, prefix).Ok?
    ensures Valid(prefix, StepAll(p, category, items, prefix).value.reg)
  {
    if items != [] {
      var n := |items| - 1;
      StepAllValid(prefix, p, category, items[..n]);
      var q := StepAll(p, category, items[..n], prefix).value;
      if Prepare(category, items[n].0, items[n].1, prefix).value.Ready? {
        RegisterValid(prefix, q.reg, category, items[n].0, items[n].1);
      }
    }
  }

  lemma {:induction false} CollectValid(cats: seq<(string, Category)>, modules: map<string, seq<(string, CommDef)>>, prefix: string)
    requires SingleLineModules(modules)
    requires Collect(cats, modules, prefix).Ok?
    ensures Valid(prefix, Collect(cats, modules, prefix).value.reg)
  {
    if cats != [] {
      var n := |cats| - 1;
      CollectValid(cats[..n], modules, prefix);
      var (name, cat) := cats[n];
      if cat.enabled != Some(false) {
        StepAllValid(prefix, Collect(cats[..n], modules, prefix).value, name, modules[name]);
      }
    }
  }

  lemma {:induction false} AliasAllValid(prefix: string, r: Tables, aliases: seq<AliasDef>)
    requires Valid(prefix, r) && AliasAll(r, aliases, prefix).Ok?
    ensures Valid(prefix, AliasAll(r, aliases, prefix).value)
  {
    if aliases != [] {
      var n := |aliases| - 1;
      AliasAllValid(prefix, r, aliases[..n]);
      AliasStepValid(prefix, AliasAll(r, aliases[..n], prefix).value, aliases[n]);
    }
  }

  /** Whatever the constructor builds keeps the invariant. */
  lemma BuildValid(c: Config, modules: map<string, seq<(string, CommDef)>>)
    requires SingleLineModules(modules)
    requires Build(c, modules).Ok?
    ensures Valid(Prefix(c), Build(c, modules).value)
  {
    CollectValid(c.comms, modules, Prefix(c));
    var p := Collect(c.comms, modules, Prefix(c)).value;
    AliasAllValid(Prefix(c), p.reg, p.aliases);
  }

  // ---------------------------------------------------------------------------
  // The plug object

  class React {
    const prefix: string
    const replyOnUnknown: bool
    var commands: map<string, Use>
    var regexes: seq<(Trigger, Use)>
    var keys: seq<string>
    var lookup: map<string, Entry>

    ghost function State(): Tables
      reads this
    {
      Tables(commands, regexes, keys, lookup)
    }

    /** The plug before its comms are read. */
    constructor Init(prefix: string, replyOnUnknown: bool)
      ensures State() == Empty && this.prefix == prefix && this.replyOnUnknown == replyOnUnknown
    {
      this.prefix := prefix;
      this.replyOnUnknown := replyOnUnknown;
      commands, regexes, keys, lookup := map[], [], [], map[];
    }

    /** Lines 242-246 for a prepared comm. */
    method Register(e: Entry)
      modifies this
      ensures State() == Store(old(State()), e)
    {
      if e.trigger.Pattern? {
        regexes := regexes + [(e.trigger, e.use)];
      } else {
        commands := commands[Socket.LowerCase(e.trigger.word) := e.use];
      }
      if e.name.Some? {
        if e.name.value !in lookup {
          keys := keys + [e.name.value];
        }
        lookup := lookup[e.name.value := e];
      }
    }

    /** Lines 252-262 for one alias; on an error the object is abandoned, so
        its state is left unstated. */
    method AddAlias(a: AliasDef) returns (err: Option<Extensions.JsError>)
      modifies this
      ensures var r := AliasStep(old(State()), a, prefix);
        && (r.Ok? ==> err.None? && State() == r.value)
        && (r.Err? ==> err == Some(r.error))
    {
      if a.target !in lookup {
        return Some(AliasNotFound(a));
      }
      var orig := lookup[a.target];
      if orig.regex {
        return Some(AliasOfRegex(a));
      }
      if orig.usage.None? {
        return Some(Extensions.TypeError("Cannot read properties of null (reading 'splice')"));
      }
      var text := TriggerText(a.trigger);
      commands := commands[text := orig.use];
      if text !in lookup {
        keys := keys + [text];
      }
      lookup := lookup[text := Aliasing(orig, a, prefix)];
      return None;
    }

    /** The comms of one module (lines 83-247): prepared comms are stored,
        aliases are handed back to be resolved later. */
    method AddModule(category: string, items: seq<(string, CommDef)>, aliases: seq<AliasDef>)
      returns (held: seq<AliasDef>, err: Option<Extensions.JsError>)
      requires SingleLineItems(items)
      modifies this
      ensures var r := StepAll(Phase(old(State()), aliases), category, items, prefix);
        && (r.Ok? ==> err.None? && r.value == Phase(State(), held))
        && (r.Err? ==> err == Some(r.error))
    {
      ghost var p0 := Phase(State(), aliases);
      held := aliases;
      var j := 0;
      while j < |items|
        invariant 0 <= j <= |items|
        invariant StepAll(p0, category, items[..j], prefix) == Ok(Phase(State(), held))
      {
        assert items[..j + 1][..j] == items[..j];
        var prepared := PrepareComm(category, items[j].0, items[j].1, prefix);
        if prepared.Err? {
          StepAllErrSticks(p0, category, items, j + 1, prefix);
          return held, Some(prepared.error);
        }
        if prepared.value.Aliased? {
          held := held + [prepared.value.def];
        } else {
          Register(prepared.value.entry);
        }
        j := j + 1;
      }
      assert items[..j] == items;
      return held, None;
    }

    /** The alias comms in the order they were met (lines 251-263). */
    method AddAliases(aliases: seq<AliasDef>) returns (err: Option<Extensions.JsError>)
      modifies this
      ensures var r := AliasAll(old(State()), aliases, prefix);
        && (r.Ok? ==> err.None? && State() == r.value)
        && (r.Err? ==> err == Some(r.error))
    {
      ghost var reg := State();
      var k := 0;
      while k < |aliases|
        invariant 0 <= k <= |aliases|
        invariant AliasAll(reg, aliases[..k], prefix) == Ok(State())
      {
        assert aliases[..k + 1][..k] == aliases[..k];
        err := AddAlias(aliases[k]);
        if err.Some? {
          AliasAllErrSticks(reg, aliases, k + 1, prefix);
          return;
        }
        k := k + 1;
      }
      assert aliases[..k] == aliases;
      return None;
    }

    /** The constructor: every enabled category's comms in order, then the
        aliases, or the first error thrown. */
    static method Create(c: Config, modules: map<string, seq<(string, CommDef)>>) returns (r: Result<React, Extensions.JsError>)
      requires SingleLineModules(modules)
      ensures r.Ok? <==> Build(c, modules).Ok?
      ensures r.Ok? ==> fresh(r.value) && r.value.State() == Build(c, modules).value
      ensures r.Ok? ==> r.value.prefix == Prefix(c) && r.value.replyOnUnknown == ReplyOnUnknown(c)
      ensures r.Err? ==> r.error == Build(c, modules).error
    {
      var prefix := Prefix(c);
      var react := new React.Init(prefix, ReplyOnUnknown(c));
      var aliases: seq<AliasDef> := [];
      var cats := c.comms;
      var i := 0;
      while i < |cats|
        invariant 0 <= i <= |cats| && fresh(react)
        invariant react.prefix == prefix && react.replyOnUnknown == ReplyOnUnknown(c)
        invariant Collect(cats[..i], modules, prefix) == Ok(Phase(react.State(), aliases))
      {
        assert cats[..i + 1][..i] == cats[..i];
        var (name, cat) := cats[i];
        if cat.enabled != Some(false) {
          if name !in modules {
            CollectErrSticks(cats, modules, i + 1, prefix);
            return Err(MissingModule(name));
          }
          var err;
          aliases, err := react.AddModule(name, modules[name], aliases);
          if err.Some? {
            CollectErrSticks(cats, modules, i + 1, prefix);
            return Err(err.value);
          }
        }
        i := i + 1;
      }
      assert cats[..i] == cats;
      var err := react.AddAliases(aliases);
      if err.Some? {
        return Err(err.value);
      }
      return Ok(react);
    }
  }
}
