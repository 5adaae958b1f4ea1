/** The per-parameter part of the `React` constructor (`plugs/React.js`):
    how a comm's parameters are classified by their default values, how
    they are checked against the kind of comm, the argument counts they
    add up to, and the usage text generated from them. */
module Signature {
  import opened Wrappers
  import Extensions
  import Reflect
  import Iterable
  import Transforms

  // ---------------------------------------------------------------------------
  // `!isNaN(def)` on a string: the StringNumericLiteral grammar of section
  // 7.1.4.1.1 of ECMA-262, read after trimming white space.

  predicate IsDecimalDigit(c: char) { '0' <= c <= '9' }
  predicate IsBinaryDigit(c: char) { c == '0' || c == '1' }
  predicate IsOctalDigit(c: char) { '0' <= c <= '7' }
  predicate IsHexDigit(c: char) { IsDecimalDigit(c) || 'a' <= c <= 'f' || 'A' <= c <= 'F' }

  /** A non-empty run of characters of one class. */
  predicate DigitsOf(s: string, p: char -> bool)
  {
    s != [] && forall k :: 0 <= k < |s| ==> p(s[k])
  }

  predicate Digits(s: string) { DigitsOf(s, IsDecimalDigit) }

  predicate IsSign(c: char) { c == '+' || c == '-' }

  predicate SignedDigits(s: string)
  {
    Digits(s) || (s != [] && IsSign(s[0]) && Digits(s[1..]))
  }

  /** The first `e` or `E` at or after `i`, or `|s|`. */
  function ExponentAt(s: string, i: nat): (k: nat)
    requires i <= |s|
    ensures i <= k <= |s|
    ensures k < |s| ==> s[k] == 'e' || s[k] == 'E'
    ensures forall j :: i <= j < k ==> s[j] != 'e' && s[j] != 'E'
    decreases |s| - i
  {
    if i == |s| || s[i] == 'e' || s[i] == 'E' then i else ExponentAt(s, i + 1)
  }

  /** `DecimalDigits . DecimalDigits?`, `. DecimalDigits` or `DecimalDigits`. */
  predicate Mantissa(m: string)
  {
    var d := Reflect.Find(m, 0, '.');
    if d == |m| then Digits(m)
    else (Digits(m[..d]) && (d + 1 == |m| || Digits(m[d + 1..]))) || (d == 0 && Digits(m[1..]))
  }

  /** `Infinity`, or a mantissa with an optional exponent part. */
  predicate UnsignedDecimal(u: string)
  {
    u == "Infinity" ||
    (var e := ExponentAt(u, 0); Mantissa(u[..e]) && (e == |u| || SignedDigits(u[e + 1..])))
  }

  predicate DecimalLiteral(t: string)
  {
    UnsignedDecimal(t) || (t != [] && IsSign(t[0]) && UnsignedDecimal(t[1..]))
  }

  /** `0b`, `0o` or `0x` followed by digits of that base. */
  predicate NonDecimalLiteral(t: string)
  {
    |t| >= 3 && t[0] == '0' &&
    (((t[1] == 'b' || t[1] == 'B') && DigitsOf(t[2..], IsBinaryDigit)) ||
     ((t[1] == 'o' || t[1] == 'O') && DigitsOf(t[2..], IsOctalDigit)) ||
     ((t[1] == 'x' || t[1] == 'X') && DigitsOf(t[2..], IsHexDigit)))
  }

  /** `!isNaN(s)`: the string converts to a number. White space alone
      converts to 0. */
  predicate IsNumeric(s: string)
  {
    var t := Reflect.Trim(s);
    t == "" || DecimalLiteral(t) || NonDecimalLiteral(t)
  }

  /** A character no numeric text can start with once white space is trimmed. */
  predicate NeverNumericStart(c: char)
  {
    !IsDecimalDigit(c) && !IsSign(c) && c != '.' && c != 'I' && !Reflect.IsSpace(c)
  }

  lemma TrimKeepsFirst(s: string)
    requires s != [] && !Reflect.IsSpace(s[0])
    ensures Reflect.Trim(s) != [] && Reflect.Trim(s)[0] == s[0]
  {
    assert Reflect.SkipSpaces(s, 0) == 0;
    assert Reflect.TrimEnd(s, |s|) > 0;
  }

  lemma TrimDigits(s: string)
    requires Digits(s)
    ensures Reflect.Trim(s) == s
  {
    assert forall k :: 0 <= k < |s| ==> !Reflect.IsSpace(s[k]);
    assert Reflect.SkipSpaces(s, 0) == 0;
    assert Reflect.TrimEnd(s, |s|) == |s|;
    assert s[0..|s|] == s;
  }

  /** Plain decimal digits are numeric. */
  lemma DigitsAreNumeric(s: string)
    requires Digits(s)
    ensures IsNumeric(s)
  {
    TrimDigits(s);
    assert forall k :: 0 <= k < |s| ==> s[k] != 'e' && s[k] != 'E' && s[k] != '.';
    var e := ExponentAt(s, 0);
    assert e == |s|;
    assert s[..e] == s;
    assert Reflect.Find(s, 0, '.') == |s|;
    assert UnsignedDecimal(s);
  }

  lemma EmptyMantissa()
    ensures !Mantissa("")
  {
    assert Reflect.Find("", 0, '.') == 0;
  }

  lemma MantissaStart(m: string)
    requires m != [] && NeverNumericStart(m[0])
    ensures !Mantissa(m)
  {
    var d := Reflect.Find(m, 0, '.');
    assert d > 0;
    if d < |m| {
      assert m[..d][0] == m[0];
    }
  }

  /** A text starting with anything but white space, a digit, a sign, a
      point or the `I` of `Infinity` is not numeric. */
  lemma NotNumericByStart(s: string)
    requires s != [] && NeverNumericStart(s[0])
    ensures !IsNumeric(s)
  {
    TrimKeepsFirst(s);
    var t := Reflect.Trim(s);
    assert t != "Infinity";
    var e := ExponentAt(t, 0);
    if e == 0 {
      assert t[..e] == "";
      EmptyMantissa();
    } else {
      assert t[..e][0] == t[0];
      MantissaStart(t[..e]);
    }
    assert !UnsignedDecimal(t);
  }

  // ---------------------------------------------------------------------------
  // Classification by default value (lines 114-124)

  /** A parameter once classified: its default text has been replaced by the
      name of its transform, if any. */
  datatype Slot = Slot(name: string, spread: bool, optional: bool, transform: Option<string>, optionalIsArray: bool)

  /** `null`, a number, a string literal or a bracketed type make a
      parameter optional. */
  predicate OptionalDefault(def: Option<string>)
  {
    def.Some? &&
    (def.value == "null" || IsNumeric(def.value) ||
     (def.value != "" && (def.value[0] == '"' || def.value[0] == '[')))
  }

  function Classify(p: Reflect.Parameter): (s: Slot)
    ensures s.name == p.name && s.spread == p.spread
    ensures s.optional <==> OptionalDefault(p.defaultValue)
  {
    if OptionalDefault(p.defaultValue) then
      var def := p.defaultValue.value;
      var transform :=
        if IsNumeric(def) then Some("Number")
        else if def != "" && def[0] == '[' && |def| > 2 then Some(def[1..|def| - 1])
        else None;
      Slot(p.name, p.spread, true, transform, def != "" && def[0] == '[')
    else Slot(p.name, p.spread, false, p.defaultValue, false)
  }

  /** A number makes an optional `Number` parameter (line 120). */
  lemma ClassifyNumber(name: string, index: nat, spread: bool, def: string)
    requires IsNumeric(def)
    ensures var s := Classify(Reflect.Parameter(name, index, Some(def), spread));
      s.optional && s.transform == Some("Number")
  {
  }

  /** A bracketed type such as `[Channel]` makes an optional parameter of
      that type which falls back to `null` (lines 115 and 121-123). */
  lemma ClassifyBracket(name: string, index: nat, spread: bool, def: string)
    requires |def| > 2 && def[0] == '['
    ensures var s := Classify(Reflect.Parameter(name, index, Some(def), spread));
      s.optional && s.optionalIsArray && s.transform == Some(def[1..|def| - 1])
  {
    NotNumericByStart(def);
  }

  /** `null` and string literals make an optional parameter without a
      transform. */
  lemma ClassifyLiteral(name: string, index: nat, spread: bool, def: string)
    requires def == "null" || (def != "" && def[0] == '"')
    ensures var s := Classify(Reflect.Parameter(name, index, Some(def), spread));
      s.optional && !s.optionalIsArray && s.transform.None?
  {
    assert NeverNumericStart(def[0]);
    NotNumericByStart(def);
  }

  /** Any other name makes a required parameter transformed by that name. */
  lemma ClassifyNamed(name: string, index: nat, spread: bool, def: string)
    requires def != "" && NeverNumericStart(def[0]) && def[0] != '"' && def[0] != '[' && def != "null"
    ensures var s := Classify(Reflect.Parameter(name, index, Some(def), spread));
      !s.optional && s.transform == Some(def)
  {
    NotNumericByStart(def);
  }

  /** Without a default, a parameter is required and has no transform. */
  lemma ClassifyPlain(name: string, index: nat, spread: bool)
    ensures var s := Classify(Reflect.Parameter(name, index, None, spread));
      !s.optional && s.transform.None? && !s.optionalIsArray
  {
  }

  // ---------------------------------------------------------------------------
  // Checking each parameter (lines 126-174)

  /** The argument counts: `maxParams` becomes infinite after a spread
      parameter or `content`. */
  datatype Bound = Finite(n: nat) | Infinite
  datatype Counts = Counts(min: nat, max: Bound)

  /** What the error messages show of the comm: its trigger as text and the
      source of its action; and whether it is a (global) regex comm. */
  datatype Comm = Comm(trigger: string, regex: bool, global: bool, action: string)

  /** The names bound to the context of a message; they are hidden from usage. */
  predicate Hidden(name: string)
  {
    name == "cord" || name == "message" || name == "target" || name == "sender" || name == "config"
  }

  /** A parameter bound to a command argument. */
  predicate Ordinary(name: string)
  {
    !Hidden(name) && name != "content" && name != "match" && name != "matches"
  }

  /** JavaScript truthiness of the transform name. */
  predicate Truthy(t: Option<string>)
  {
    t.Some? && t.value != ""
  }

  /** The transform looked up for a parameter: `defaultValue || "None"`. */
  function TransformKey(s: Slot): string
  {
    if Truthy(s.transform) then s.transform.value else "None"
  }

  function InvalidParameter(s: Slot, c: Comm): Extensions.JsError
  {
    Extensions.Error("Invalid parameter '" + s.name + "' for comm '" + c.trigger + "':\n" + c.action)
  }

  function InvalidType(s: Slot, c: Comm): Extensions.JsError
  {
    Extensions.Error("Invalid type on parameter '" + s.name + "' in comm '" + c.trigger + "':\n" + c.action)
  }

  function InvalidSpread(s: Slot, c: Comm, needed: bool): Extensions.JsError
  {
    Extensions.Error((if needed then "Missing" else "Invalid") + " spread operator on parameter '" +
                     s.name + "' in comm '" + c.trigger + "':\n" + c.action)
  }

  function MatchNotFirst(s: Slot, c: Comm): Extensions.JsError
  {
    Extensions.Error("Parameter '" + s.name + "' for comm '" + c.trigger + "' must before group parameters:\n" + c.action)
  }

  function UnknownTransform(s: Slot, c: Comm): Extensions.JsError
  {
    Extensions.Error("Unknown transform '" + TransformKey(s) + "' on parameter '" + s.name +
                     "' in comm '" + c.trigger + "':\n" + c.action)
  }

  /** The `switch` on the parameter's name, before the transform lookup. */
  function CheckName(s: Slot, c: Comm, n: Counts): Result<Counts, Extensions.JsError>
  {
    if Hidden(s.name) then
      if s.spread then Err(InvalidSpread(s, c, false))
      else if Truthy(s.transform) then Err(InvalidType(s, c))
      else Ok(n)
    else if s.name == "content" then
      if s.spread then Err(InvalidSpread(s, c, false))
      else if Truthy(s.transform) then Err(InvalidType(s, c))
      else if n.min > 0 then Err(InvalidParameter(s, c))
      else Ok(Counts(n.min, Infinite))
    else if s.name == "match" then
      if !c.regex || c.global then Err(InvalidParameter(s, c))
      else if s.spread then Err(InvalidSpread(s, c, false))
      else if Truthy(s.transform) then Err(InvalidType(s, c))
      else if n.min > 0 then Err(MatchNotFirst(s, c))
      else Ok(n)
    else if s.name == "matches" then
      if !c.regex || !c.global then Err(InvalidParameter(s, c))
      else if !s.spread then Err(InvalidSpread(s, c, true))
      else if Truthy(s.transform) then Err(InvalidType(s, c))
      else Ok(n)
    else if s.spread then
      if c.regex then Err(InvalidParameter(s, c))
      else if Truthy(s.transform) then Err(InvalidType(s, c))
      else Ok(Counts(n.min, Infinite))
    else
      if c.regex && c.global then Err(InvalidParameter(s, c))
      else if n.max.Infinite? then Err(InvalidParameter(s, c))
      else Ok(Counts(if s.optional then n.min else n.min + 1, Finite(n.max.n + 1)))
  }

  /** One pass of the loop: the name check, then the transform lookup. */
  function Check(s: Slot, c: Comm, n: Counts): Result<Counts, Extensions.JsError>
  {
    var r := CheckName(s, c, n);
    if r.Err? then r
    else if TransformKey(s) !in Transforms.Table() then Err(UnknownTransform(s, c))
    else r
  }

  /** The parameters checked in order, from counts of zero; the first
      failing check is the error. */
  function Signature(slots: seq<Slot>, c: Comm): Result<Counts, Extensions.JsError>
  {
    if slots == [] then Ok(Counts(0, Finite(0)))
    else match Signature(slots[..|slots| - 1], c)
      case Err(e) => Err(e)
      case Ok(n) => Check(slots[|slots| - 1], c, n)
  }

  lemma SignatureSnoc(slots: seq<Slot>, s: Slot, c: Comm)
    ensures Signature(slots, c).Err? ==> Signature(slots + [s], c) == Signature(slots, c)
    ensures Signature(slots, c).Ok? ==> Signature(slots + [s], c) == Check(s, c, Signature(slots, c).value)
  {
    assert (slots + [s])[..|slots|] == slots;
  }

  /** Classifies and checks every inspected parameter in order, as the loop
      of the constructor does, stopping at the first error. */
  method CheckParameters(params: seq<Reflect.Parameter>, c: Comm) returns (slots: seq<Slot>, r: Result<Counts, Extensions.JsError>)
    ensures slots == Iterable.Map(params, Classify)
    ensures r == Signature(slots, c)
  {
    slots := Iterable.Map(params, Classify);
    r := CheckSlots(slots, c);
  }

  /** The loop of the constructor over the classified parameters. */
  method CheckSlots(slots: seq<Slot>, c: Comm) returns (r: Result<Counts, Extensions.JsError>)
    ensures r == Signature(slots, c)
  {
    var n := Counts(0, Finite(0));
    var i := 0;
    while i < |slots|
      invariant 0 <= i <= |slots|
      invariant Signature(slots[..i], c) == Ok(n)
    {
      var s := slots[i];
      assert slots[..i + 1] == slots[..i] + [s];
      SignatureSnoc(slots[..i], s, c);
      var checked := Check(s, c, n);
      if checked.Err? {
        SignatureErrSticks(slots[..i + 1], slots[i + 1..], c);
        assert slots[..i + 1] + slots[i + 1..] == slots;
        return checked;
      }
      n := checked.value;
      i := i + 1;
    }
    assert slots[..i] == slots;
    r := Ok(n);
  }

  lemma {:induction false} SignatureErrSticks(a: seq<Slot>, b: seq<Slot>, c: Comm)
    requires Signature(a, c).Err?
    ensures Signature(a + b, c) == Signature(a, c)
    decreases |b|
  {
    if b == [] {
      assert a + b == a;
    } else {
      var init := b[..|b| - 1];
      SignatureErrSticks(a, init, c);
      assert a + b == (a + init) + [b[|b| - 1]];
      SignatureSnoc(a + init, b[|b| - 1], c);
    }
  }

  // ---------------------------------------------------------------------------
  // What the checks amount to

  /** Parameters that an argument must be given for. */
  function Required(slots: seq<Slot>): nat
  {
    if slots == [] then 0
    else
      var s := slots[|slots| - 1];
      Required(slots[..|slots| - 1]) + (if Ordinary(s.name) && !s.spread && !s.optional then 1 else 0)
  }

  /** Parameters that take one argument each. */
  function Positional(slots: seq<Slot>): nat
  {
    if slots == [] then 0
    else
      var s := slots[|slots| - 1];
      Positional(slots[..|slots| - 1]) + (if Ordinary(s.name) && !s.spread then 1 else 0)
  }

  /** Whether a spread parameter or `content` takes the rest. */
  function Unbounded(slots: seq<Slot>): bool
  {
    if slots == [] then false
    else
      var s := slots[|slots| - 1];
      Unbounded(slots[..|slots| - 1]) || (Ordinary(s.name) && s.spread) || s.name == "content"
  }

  /** Whether a parameter is accepted after parameters that require `req`
      arguments and (if `unb`) already take all the rest. */
  predicate Allowed(s: Slot, c: Comm, req: nat, unb: bool)
  {
    && Transforms.Table().Keys >= {TransformKey(s)}
    && (Hidden(s.name) ==> !s.spread && !Truthy(s.transform))
    && (s.name == "content" ==> !s.spread && !Truthy(s.transform) && req == 0)
    && (s.name == "match" ==> c.regex && !c.global && !s.spread && !Truthy(s.transform) && req == 0)
    && (s.name == "matches" ==> c.regex && c.global && s.spread && !Truthy(s.transform))
    && (Ordinary(s.name) && s.spread ==> !c.regex && !Truthy(s.transform))
    && (Ordinary(s.name) && !s.spread ==> !(c.regex && c.global) && !unb)
  }

  /** Parameter `i` is accepted after the ones before it. */
  predicate AllowedAt(slots: seq<Slot>, c: Comm, i: nat)
    requires i < |slots|
  {
    Allowed(slots[i], c, Required(slots[..i]), Unbounded(slots[..i]))
  }

  /** A successful check counts the required parameters as the minimum and
      the positional ones as the maximum, unless something takes the rest. */
  lemma {:induction false} SignatureCounts(slots: seq<Slot>, c: Comm)
    requires Signature(slots, c).Ok?
    ensures Signature(slots, c).value.min == Required(slots)
    ensures Signature(slots, c).value.max == if Unbounded(slots) then Infinite else Finite(Positional(slots))
  {
    if slots != [] {
      SignatureCounts(slots[..|slots| - 1], c);
    }
  }

  /** The checks of one step are exactly `Allowed` on the counts so far. */
  lemma CheckAllowed(s: Slot, c: Comm, n: Counts, req: nat, unb: bool)
    requires n.min == req && (n.max.Infinite? <==> unb)
    ensures Check(s, c, n).Ok? <==> Allowed(s, c, req, unb)
  {
    assert TransformKey(s) in Transforms.Table() <==> Transforms.Table().Keys >= {TransformKey(s)};
  }

  /** A comm is accepted exactly when every parameter is allowed after the
      ones before it. */
  lemma {:induction false} SignatureAccepts(slots: seq<Slot>, c: Comm)
    ensures Signature(slots, c).Ok? <==> forall i :: 0 <= i < |slots| ==> AllowedAt(slots, c, i)
  {
    if slots != [] {
      var init := slots[..|slots| - 1];
      var last := |slots| - 1;
      SignatureAccepts(init, c);
      assert forall i :: 0 <= i < |init| ==> (AllowedAt(slots, c, i) <==> AllowedAt(init, c, i)) by {
        forall i | 0 <= i < |init| ensures AllowedAt(slots, c, i) <==> AllowedAt(init, c, i) {
          assert slots[..i] == init[..i];
        }
      }
      assert slots[..last] == init;
      assert slots == init + [slots[last]];
      SignatureSnoc(init, slots[last], c);
      if Signature(init, c).Ok? {
        SignatureCounts(init, c);
        CheckAllowed(slots[last], c, Signature(init, c).value, Required(init), Unbounded(init));
        assert AllowedAt(slots, c, last) <==> Allowed(slots[last], c, Required(init), Unbounded(init));
        assert (forall i :: 0 <= i < |slots| ==> AllowedAt(slots, c, i)) <==>
               (forall i :: 0 <= i < |init| ==> AllowedAt(init, c, i)) && AllowedAt(slots, c, last);
      }
    }
  }

  /** An ordinary parameter is refused on a global regex comm and after a
      parameter that takes the rest. */
  lemma OrdinaryRefused(slots: seq<Slot>, c: Comm, i: nat)
    requires i < |slots| && Ordinary(slots[i].name) && !slots[i].spread
    requires (c.regex && c.global) || Unbounded(slots[..i])
    ensures Signature(slots, c).Err?
  {
    SignatureAccepts(slots, c);
    assert !AllowedAt(slots, c, i);
  }

  // ---------------------------------------------------------------------------
  // Usage text (lines 178-192)

  /** How a visible parameter is shown. */
  function Shown(s: Slot): (r: string)
    ensures |r| == |s.name| + (if s.spread then 5 else 2)
  {
    if s.spread then "[" + s.name + "...]"
    else if s.optional then "[" + s.name + "]"
    else "<" + s.name + ">"
  }

  function Visible(slots: seq<Slot>): seq<Slot>
  {
    Iterable.Filter(slots, (s: Slot) => !Hidden(s.name))
  }

  /** The usage given by the comm, or one generated from its visible
      parameters. */
  function UsageText(slots: seq<Slot>, given: Option<string>): Option<string>
  {
    if given.None? && Visible(slots) != [] then Some(Iterable.Join(Iterable.Map(Visible(slots), Shown), " "))
    else given
  }

  /** The full usage of a keyword comm: the prefix and the trigger, then the
      usage text after a space when there is any. */
  function Usage(prefix: string, word: string, text: Option<string>): (r: string)
    ensures |r| >= |prefix| + |word| && r[..|prefix| + |word|] == prefix + word
    ensures |r| == |prefix| + |word| || (text.Some? && r == prefix + word + " " + text.value)
  {
    prefix + word + (if text.Some? && |text.value| > 0 then " " + text.value else "")
  }

  /** Replacing the trigger in a usage by an alias gives the usage the alias
      would have had: this is how an alias comm gets its own usage. */
  lemma AliasUsage(prefix: string, word: string, alias: string, text: Option<string>)
    ensures Extensions.Splice(Usage(prefix, word, text), |prefix|, |word|, [alias]) == Usage(prefix, alias, text)
  {
    var u := Usage(prefix, word, text);
    var tail := if text.Some? && |text.value| > 0 then " " + text.value else "";
    Extensions.SpliceOne(u, |prefix|, |word|, alias);
    assert u[..|prefix|] == prefix;
    assert u[|prefix| + |word|..] == tail;
  }

  /** Line 190 as written reads the prefix from the configuration handed
      in, not the merged one, so a missing prefix is shown as `undefined`. */
  function UsageAsWritten(rawPrefix: Option<string>, word: string, text: Option<string>): string
  {
    (if rawPrefix.Some? then rawPrefix.value else "undefined") + word +
    (if text.Some? && |text.value| > 0 then " " + text.value else "")
  }

  /** With a configured prefix the two agree; without one, the usage as
      written does not start with the default prefix `~` that commands are
      read with. */
  lemma UsageRawPrefix(word: string, text: Option<string>, prefix: string)
    ensures UsageAsWritten(Some(prefix), word, text) == Usage(prefix, word, text)
    ensures UsageAsWritten(None, word, text)[0] == 'u'
    ensures Usage("~", word, text)[0] == '~'
  {
  }
}
