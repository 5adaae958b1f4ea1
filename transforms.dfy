/** The argument transforms of `plugs/React.js`: the strict integer parse,
    the socket lookup and the cross-socket resolve-string lookup
    (`findResolveable`), the names they are registered under, and the
    values a bound argument can take. */
module Transforms {
  import opened Wrappers
  import Socket

  // ---------------------------------------------------------------------------
  // The Number transform: /^(0|-?[1-9][0-9]*)$/ and Number.isSafeInteger

  predicate IsDigit(c: char) { '0' <= c <= '9' }

  predicate AllDigits(d: string)
  {
    forall k :: 0 <= k < |d| ==> IsDigit(d[k])
  }

  /** `[1-9][0-9]*`: digits without a leading zero. */
  predicate Canonical(d: string)
  {
    d != [] && '1' <= d[0] <= '9' && AllDigits(d)
  }

  /** The text the expression accepts: `0`, or digits without a leading
      zero, optionally after a minus sign. */
  predicate IntegerText(v: string)
  {
    v == "0" || Canonical(v) || (v != [] && v[0] == '-' && Canonical(v[1..]))
  }

  function DigitValue(c: char): nat
    requires IsDigit(c)
  {
    c as int - '0' as int
  }

  /** The value of a run of decimal digits. */
  function DigitsValue(d: string): nat
    requires AllDigits(d)
  {
    if d == [] then 0 else DigitsValue(d[..|d| - 1]) * 10 + DigitValue(d[|d| - 1])
  }

  /** `+v` on text the expression accepted. */
  function TextValue(v: string): int
    requires IntegerText(v)
  {
    if v[0] == '-' then 0 - DigitsValue(v[1..]) as int else DigitsValue(v)
  }

  /** `Number.MAX_SAFE_INTEGER`, 2^53 - 1. A decimal integer converts to a
      safe integer exactly when its magnitude is at most this: below it the
      conversion is exact, and from 2^53 on it rounds to 2^53 or more. */
  const MaxSafe: int := 0x1F_FFFF_FFFF_FFFF

  /** The `Number` transform: the integer, or `None` for `null`. */
  function ParseNumber(v: string): (r: Option<int>)
    ensures r.Some? ==> -MaxSafe <= r.value <= MaxSafe
  {
    if IntegerText(v) && -MaxSafe <= TextValue(v) <= MaxSafe then Some(TextValue(v)) else None
  }

  /** The decimal text of a natural number. */
  function ShowNat(n: nat): (d: string)
    ensures AllDigits(d) && d != []
  {
    if n < 10 then ['0' + n as char] else ShowNat(n / 10) + ['0' + (n % 10) as char]
  }

  /** The decimal text of an integer, with a minus sign when negative. */
  function ShowInt(n: int): string
  {
    if n < 0 then "-" + ShowNat(-n) else ShowNat(n)
  }

  lemma {:induction false} ShowNatValue(n: nat)
    ensures DigitsValue(ShowNat(n)) == n
    ensures n == 0 ==> ShowNat(n) == "0"
    ensures n > 0 ==> Canonical(ShowNat(n))
  {
    var d := ShowNat(n);
    if n >= 10 {
      ShowNatValue(n / 10);
      assert d[..|d| - 1] == ShowNat(n / 10);
      assert d[0] == ShowNat(n / 10)[0];
    }
  }

  lemma {:induction false} CanonicalPositive(d: string)
    requires Canonical(d)
    ensures DigitsValue(d) >= 1
  {
    if |d| > 1 {
      assert Canonical(d[..|d| - 1]);
      CanonicalPositive(d[..|d| - 1]);
    }
  }

  lemma {:induction false} ValueShowNat(d: string)
    requires Canonical(d)
    ensures ShowNat(DigitsValue(d)) == d
  {
    var n := DigitsValue(d);
    if |d| == 1 {
      assert d == [d[0]];
    } else {
      var p := d[..|d| - 1];
      assert Canonical(p);
      CanonicalPositive(p);
      ValueShowNat(p);
      assert n / 10 == DigitsValue(p) && n % 10 == DigitValue(d[|d| - 1]);
      assert d == p + [d[|d| - 1]];
    }
  }

  /** Every safe integer written in decimal parses back to itself. */
  lemma ParseShown(n: int)
    requires -MaxSafe <= n <= MaxSafe
    ensures ParseNumber(ShowInt(n)) == Some(n)
  {
    if n < 0 {
      ShowNatValue(-n);
      var v := ShowInt(n);
      assert v[1..] == ShowNat(-n);
    } else {
      ShowNatValue(n);
    }
  }

  /** Only the canonical decimal text of a safe integer parses: no sign
      other than a leading minus, no leading zero, no `-0`. */
  lemma ParsedIsShown(v: string)
    requires ParseNumber(v).Some?
    ensures v == ShowInt(ParseNumber(v).value)
  {
    var n := ParseNumber(v).value;
    if v == "0" {
      ShowNatValue(0);
    } else if v[0] == '-' {
      CanonicalPositive(v[1..]);
      ValueShowNat(v[1..]);
      assert v == "-" + v[1..];
    } else {
      ValueShowNat(v);
    }
  }

  /** Texts that look like numbers but are refused. */
  lemma Refused()
    ensures ParseNumber("-0").None? && ParseNumber("007").None?
    ensures ParseNumber("+1").None? && ParseNumber("1.0").None? && ParseNumber("").None?
  {
    assert !Canonical("1.0") by { assert "1.0"[1] == '.'; }
    assert !Canonical("0") by { assert "0"[0] == '0'; }
    assert !Canonical("007") by { assert "007"[0] == '0'; }
    assert !Canonical("+1") by { assert "+1"[0] == '+'; }
    assert "-0"[1..] == "0";
  }

  /** An integer beyond the safe range is refused even when written
      canonically. */
  lemma RefusedBeyondSafe(n: int)
    requires n < -MaxSafe || MaxSafe < n
    ensures ParseNumber(ShowInt(n)).None?
  {
    var v := ShowInt(n);
    if n < 0 {
      ShowNatValue(-n);
      assert v[1..] == ShowNat(-n);
      assert IntegerText(v) && TextValue(v) == n;
    } else {
      ShowNatValue(n);
      assert IntegerText(v) && TextValue(v) == n;
    }
  }

  // ---------------------------------------------------------------------------
  // The transform table

  /** What a transform does with the argument text. */
  datatype Transform = Identity | Number | SocketById | Resolveable(restrict: Option<string>)

  /** The transforms the object literal declares. */
  const Declared: map<string, Transform> := map[
    "None" := Identity,
    "Number" := Number,
    "Socket" := SocketById,
    "Socket.Resolveable" := Resolveable(None),
    "Socket.User" := Resolveable(Some("user")),
    "Socket.Channel" := Resolveable(Some("channel"))]

  /** The order the literal declares them in. */
  const DeclaredOrder: seq<string> :=
    ["None", "Number", "Socket", "Socket.Resolveable", "Socket.User", "Socket.Channel"]

  const ShortPrefix := "Socket."

  predicate HasShortPrefix(name: string)
  {
    |name| >= 7 && name[..7] == ShortPrefix
  }

  /** The loop after the table: every name starting with `Socket.` is
      registered a second time without that prefix. */
  function WithShortNames(t: map<string, Transform>, names: seq<string>): map<string, Transform>
  {
    if names == [] then t
    else
      var t' := WithShortNames(t, names[..|names| - 1]);
      var name := names[|names| - 1];
      if HasShortPrefix(name) && name in t' then t'[name[7..] := t'[name]] else t'
  }

  /** The table the transforms are looked up in. */
  function Table(): map<string, Transform>
  {
    WithShortNames(Declared, DeclaredOrder)
  }

  /** Adding the short names keeps every name and adds exactly the names
      whose `Socket.` form is in the loop, each meaning what its long form
      means (no name carries the prefix twice). */
  lemma {:induction false} ShortNames(t: map<string, Transform>, names: seq<string>, k: string)
    requires forall i :: 0 <= i < |names| ==> names[i] in t
    requires forall i :: 0 <= i < |names| && HasShortPrefix(names[i]) ==> !HasShortPrefix(names[i][7..])
    ensures k in WithShortNames(t, names) <==> k in t || ShortPrefix + k in names
    ensures k in WithShortNames(t, names) && ShortPrefix + k !in names ==> WithShortNames(t, names)[k] == t[k]
    ensures ShortPrefix + k in names ==> WithShortNames(t, names)[k] == t[ShortPrefix + k]
  {
    if names != [] {
      var init := names[..|names| - 1];
      var name := names[|names| - 1];
      assert names == init + [name];
      assert forall i :: 0 <= i < |init| ==> init[i] == names[i];
      ShortNames(t, init, k);
      assert HasShortPrefix(ShortPrefix + k) && (ShortPrefix + k)[7..] == k;
      if HasShortPrefix(name) {
        assert name == ShortPrefix + name[7..];
        ShortNames(t, init, name);
        forall i | 0 <= i < |init| ensures init[i] != ShortPrefix + name {
          assert HasShortPrefix(ShortPrefix + name) && (ShortPrefix + name)[7..] == name;
        }
      }
    }
  }

  /** The table knows the declared names and their short forms. */
  lemma TableNames(k: string)
    ensures k in Table() <==> k in Declared || ShortPrefix + k in DeclaredOrder
  {
    DeclaredOnce();
    ShortNames(Declared, DeclaredOrder, k);
  }

  /** `User` means what `Socket.User` means. */
  lemma TableUser()
    ensures "User" in Table() && Table()["User"] == Resolveable(Some("user"))
  {
    DeclaredOnce();
    ShortNames(Declared, DeclaredOrder, "User");
    assert ShortPrefix + "User" == DeclaredOrder[4];
  }

  /** `Channel` means what `Socket.Channel` means. */
  lemma TableChannel()
    ensures "Channel" in Table() && Table()["Channel"] == Resolveable(Some("channel"))
  {
    DeclaredOnce();
    ShortNames(Declared, DeclaredOrder, "Channel");
    assert ShortPrefix + "Channel" == DeclaredOrder[5];
  }

  lemma DeclaredOnce()
    ensures forall i :: 0 <= i < |DeclaredOrder| ==> DeclaredOrder[i] in Declared
    ensures forall i :: 0 <= i < |DeclaredOrder| && HasShortPrefix(DeclaredOrder[i]) ==>
      !HasShortPrefix(DeclaredOrder[i][7..])
  {
    assert DeclaredOrder[3][7..] == "Resolveable" && DeclaredOrder[4][7..] == "User";
    assert DeclaredOrder[5][7..] == "Channel";
    assert !HasShortPrefix("Resolveable") by { assert "Resolveable"[..7][0] == 'R'; }
    assert !HasShortPrefix("User") && !HasShortPrefix("Channel");
  }

  // ---------------------------------------------------------------------------
  // findResolveable

  /** What a transform sees of a socket: its id, its `type(resolveStr)` and
      its resolver's cache. */
  datatype SocketView = SocketView(id: string, typeOf: string -> Option<string>, cache: Socket.Cache)

  /** `cord.sockets[id]`: the socket registered under `id`. */
  function SocketNamed(sockets: seq<SocketView>, id: string): (r: Option<SocketView>)
    ensures r.Some? ==> r.value.id == id && r.value in sockets
    ensures r.None? ==> forall i :: 0 <= i < |sockets| ==> sockets[i].id != id
  {
    if sockets == [] then None
    else if sockets[0].id == id then Some(sockets[0])
    else SocketNamed(sockets[1..], id)
  }

  /** `restrict && (type != restrict)`: a restriction the resolved type does not meet. */
  predicate Rejects(restrict: Option<string>, kind: Option<string>)
  {
    restrict.Some? && restrict.value != "" && kind != Some(restrict.value)
  }

  /** A socket that resolves `v` to at least one object of the wanted type. */
  predicate Qualifies(s: SocketView, v: string, restrict: Option<string>)
  {
    Socket.Lookup(s.cache, v) != [] && !Rejects(restrict, s.typeOf(v))
  }

  /** `resolve[0]` of a socket that qualifies, `undefined` otherwise. */
  function FirstOf(s: SocketView, v: string, restrict: Option<string>): Option<Socket.Ref>
  {
    if Qualifies(s, v, restrict) then Some(Socket.Lookup(s.cache, v)[0]) else None
  }

  /** `v.split(':', 2)`: the text before the first colon, and the text
      between it and the next colon (or the end). */
  function Before(v: string): string
  {
    if v == [] || v[0] == ':' then [] else [v[0]] + Before(v[1..])
  }

  function After(v: string): string
    requires ':' in v
  {
    BeforeColon(v);
    var rest := v[|Before(v)| + 1..];
    Before(rest)
  }

  lemma BeforeColon(v: string)
    ensures |Before(v)| <= |v|
    ensures Before(v) == v[..|Before(v)|]
    ensures ':' !in Before(v)
    ensures ':' in v ==> |Before(v)| < |v| && v[|Before(v)|] == ':'
    ensures ':' !in v ==> Before(v) == v
  {
    if v != [] && v[0] != ':' {
      BeforeColon(v[1..]);
      assert ':' in v ==> ':' in v[1..] by {
        if ':' in v {
          var k :| 0 <= k < |v| && v[k] == ':';
          assert v[1..][k - 1] == ':';
        }
      }
    }
  }

  /** The sockets searched for an unprefixed resolve string: the message's
      own socket, then every other socket in order. */
  function Candidates(origin: SocketView, sockets: seq<SocketView>): seq<SocketView>
  {
    [origin] + Others(origin, sockets)
  }

  function Others(origin: SocketView, sockets: seq<SocketView>): seq<SocketView>
  {
    if sockets == [] then []
    else (if sockets[0].id == origin.id then [] else [sockets[0]]) + Others(origin, sockets[1..])
  }

  /** The first object resolved by the first candidate that qualifies. */
  function FirstResolved(cands: seq<SocketView>, v: string, restrict: Option<string>): Option<Socket.Ref>
  {
    if cands == [] then None
    else if Qualifies(cands[0], v, restrict) then FirstOf(cands[0], v, restrict)
    else FirstResolved(cands[1..], v, restrict)
  }

  /** `findResolveable(msg, v, restrict)` as written: for `socket:string` it
      hands the whole of `v`, prefix included, to the named socket's
      `resolve`. */
  function ResolveableAsWritten(origin: SocketView, sockets: seq<SocketView>, v: string,
                                restrict: Option<string>): Option<Socket.Ref>
  {
    if ':' in v then
      match SocketNamed(sockets, Before(v))
      case None => None
      case Some(s) => FirstOf(s, v, restrict)
    else FirstResolved(Candidates(origin, sockets), v, restrict)
  }

  /** `findResolveable` resolving the text after the socket prefix, as
      `cord.resolve` does. */
  function Resolved(origin: SocketView, sockets: seq<SocketView>, v: string,
                    restrict: Option<string>): Option<Socket.Ref>
  {
    if ':' in v then
      match SocketNamed(sockets, Before(v))
      case None => None
      case Some(s) => FirstOf(s, After(v), restrict)
    else FirstResolved(Candidates(origin, sockets), v, restrict)
  }

  /** The search of `findResolveable` over the sockets, with its early
      returns. */
  method FindResolveable(origin: SocketView, sockets: seq<SocketView>, v: string, restrict: Option<string>)
    returns (r: Option<Socket.Ref>)
    ensures r == Resolved(origin, sockets, v, restrict)
  {
    if ':' in v {
      var socket := SocketNamed(sockets, Before(v));
      if socket.None? { return None; }
      r := ResolveIn(socket.value, After(v), restrict);
      return;
    }
    r := ResolveIn(origin, v, restrict);
    if r.Some? { return; }
    assert Candidates(origin, sockets)[1..] == Others(origin, sockets);
    r := SearchOthers(origin, sockets, v, restrict);
  }

  /** One socket's `resolve`, and its first object when it qualifies. */
  method ResolveIn(s: SocketView, str: string, restrict: Option<string>) returns (r: Option<Socket.Ref>)
    ensures r == FirstOf(s, str, restrict)
  {
    var kind, resolve := s.typeOf(str), Socket.Lookup(s.cache, str);
    if |resolve| > 0 && !Rejects(restrict, kind) { return Some(resolve[0]); }
    return None;
  }

  /** The loop over the other sockets, skipping the origin. */
  method SearchOthers(origin: SocketView, sockets: seq<SocketView>, v: string, restrict: Option<string>)
    returns (r: Option<Socket.Ref>)
    ensures r == FirstResolved(Others(origin, sockets), v, restrict)
  {
    assert sockets[0..] == sockets;
    var i := 0;
    while i < |sockets|
      invariant i <= |sockets|
      invariant FirstResolved(Others(origin, sockets), v, restrict) ==
                FirstResolved(Others(origin, sockets[i..]), v, restrict)
    {
      assert sockets[i..][0] == sockets[i] && sockets[i..][1..] == sockets[i + 1..];
      ghost var rest := Others(origin, sockets[i + 1..]);
      if sockets[i].id != origin.id {
        assert Others(origin, sockets[i..]) == [sockets[i]] + rest;
        assert ([sockets[i]] + rest)[1..] == rest;
        r := ResolveIn(sockets[i], v, restrict);
        if r.Some? { return; }
      } else {
        assert Others(origin, sockets[i..]) == [] + rest;
        assert [] + rest == rest;
      }
      i := i + 1;
    }
    return None;
  }

  /** The search returns nothing exactly when no candidate qualifies, and
      otherwise the first object of the first candidate that qualifies. */
  lemma {:induction false} FirstResolvedSpec(cands: seq<SocketView>, v: string, restrict: Option<string>)
    ensures FirstResolved(cands, v, restrict).None? <==>
      forall i :: 0 <= i < |cands| ==> !Qualifies(cands[i], v, restrict)
    ensures forall i :: (0 <= i < |cands| && Qualifies(cands[i], v, restrict) &&
        (forall j :: 0 <= j < i ==> !Qualifies(cands[j], v, restrict))) ==>
      FirstResolved(cands, v, restrict) == Some(Socket.Lookup(cands[i].cache, v)[0])
  {
    if cands != [] {
      FirstResolvedSpec(cands[1..], v, restrict);
      assert forall i :: 1 <= i < |cands| ==> cands[1..][i - 1] == cands[i];
      forall i | 0 < i < |cands| && Qualifies(cands[i], v, restrict) &&
          (forall j :: 0 <= j < i ==> !Qualifies(cands[j], v, restrict))
        ensures FirstResolved(cands, v, restrict) == Some(Socket.Lookup(cands[i].cache, v)[0])
      {
        assert forall j :: 0 <= j < i - 1 ==> cands[1..][j] == cands[j + 1];
      }
    }
  }

  /** A prefixed resolve string is looked up only in the socket it names,
      and never resolves when no socket has that id. */
  lemma PrefixedLooksInOneSocket(origin: SocketView, sockets: seq<SocketView>, v: string, restrict: Option<string>)
    requires ':' in v
    ensures SocketNamed(sockets, Before(v)).None? ==> Resolved(origin, sockets, v, restrict).None?
    ensures SocketNamed(sockets, Before(v)).Some? ==>
      Resolved(origin, sockets, v, restrict) == FirstOf(SocketNamed(sockets, Before(v)).value, After(v), restrict)
  {
  }

  // ---------------------------------------------------------------------------
  // Bound values and applying a transform

  /** A value a parameter is bound to. `Groups` is a regular expression
      match (its capture groups), and the last five are what the reserved
      parameters receive. */
  datatype Value =
    | Undefined
    | Null
    | Str(text: string)
    | Num(number: int)
    | Entity(entity: Socket.Ref)
    | SocketObject(socket: string)
    | Groups(groups: seq<Option<string>>)
    | CordObject
    | MessageObject
    | TargetObject
    | SenderObject
    | CommConfig(category: string)

  /** `transforms[name](msg, v)`: the value, or `None` for `null` and
      `undefined`. */
  function Apply(t: Transform, origin: SocketView, sockets: seq<SocketView>, v: string): (r: Option<Value>)
    ensures t == Identity ==> r == Some(Str(v))
    ensures t == Number ==> (r.Some? <==> ParseNumber(v).Some?)
    ensures t == SocketById ==> (r.Some? <==> exists i :: 0 <= i < |sockets| && sockets[i].id == v)
    ensures t.Resolveable? ==> (r.Some? <==> Resolved(origin, sockets, v, t.restrict).Some?)
  {
    match t
    case Identity => Some(Str(v))
    case Number => if ParseNumber(v).Some? then Some(Num(ParseNumber(v).value)) else None
    case SocketById =>
      var s := SocketNamed(sockets, v);
      if s.Some? then Some(SocketObject(s.value.id)) else None
    case Resolveable(restrict) =>
      var e := Resolved(origin, sockets, v, restrict);
      if e.Some? then Some(Entity(e.value)) else None
  }

  // ---------------------------------------------------------------------------
  // The socket prefix, as written and as intended

  /** An IRC-like socket `irc` that knows the channel `#chan`. */
  function IrcType(s: string): Option<string>
  {
    if s != [] && s[0] == '#' then Some("channel") else Some("user")
  }

  lemma SplitIrcChan()
    ensures ':' in "irc:#chan" && Before("irc:#chan") == "irc" && After("irc:#chan") == "#chan"
  {
    var v := "irc:#chan";
    assert v[3] == ':';
    assert v == "irc" + v[3..];
    assert Before(v) == "irc";
    assert v[4..] == "#chan";
    BeforeColon("#chan");
  }

  /** As written, `irc:#chan` resolves nothing even though the socket `irc`
      knows `#chan`; resolving the text after the prefix finds it. */
  lemma PrefixedAsWrittenMisses()
    ensures var irc := SocketView("irc", IrcType, map["#chan" := [Socket.Ref("irc", 1)]]);
      ResolveableAsWritten(irc, [irc], "irc:#chan", Some("channel")).None? &&
      Resolved(irc, [irc], "irc:#chan", Some("channel")) == Some(Socket.Ref("irc", 1))
  {
    SplitIrcChan();
    var irc := SocketView("irc", IrcType, map["#chan" := [Socket.Ref("irc", 1)]]);
    assert SocketNamed([irc], "irc") == Some(irc);
    assert |"irc:#chan"| != |"#chan"|;
    assert Socket.Lookup(irc.cache, "irc:#chan") == [];
    assert IrcType("#chan") == Some("channel");
  }
}
