/** `utility/reflect.js`: `inspectFunction` reads a function's source text
    with two regular expressions (the `function` form, then the arrow form)
    and splits the parameter text on commas, reading each piece with a
    third one. The match each regular expression finds is written out here
    as the search its greedy and lazy parts perform, for source text on a
    single line. */
module Reflect {
  import opened Wrappers
  import Extensions

  /** The characters of JavaScript's `\s`. */
  const Spaces: set<char> := {' ', '\t', '\n', '\U{000B}', '\U{000C}', '\r', '\U{00A0}', '\U{1680}',
    '\U{2000}', '\U{2001}', '\U{2002}', '\U{2003}', '\U{2004}', '\U{2005}', '\U{2006}', '\U{2007}',
    '\U{2008}', '\U{2009}', '\U{200A}', '\U{2028}', '\U{2029}', '\U{202F}', '\U{205F}', '\U{3000}',
    '\U{FEFF}'}

  /** JavaScript's `\s`. */
  predicate IsSpace(c: char)
  {
    c in Spaces
  }

  predicate IsLineTerminator(c: char)
  {
    c == '\n' || c == '\r' || c == '\U{2028}' || c == '\U{2029}'
  }

  predicate SingleLine(s: string)
  {
    forall k :: 0 <= k < |s| ==> !IsLineTerminator(s[k])
  }

  predicate AllSpaces(s: string)
  {
    forall k :: 0 <= k < |s| ==> IsSpace(s[k])
  }

  /** Where a greedy `\s*` starting at `i` stops. */
  function SkipSpaces(s: string, i: nat): (j: nat)
    requires i <= |s|
    ensures i <= j <= |s|
    ensures forall k :: i <= k < j ==> IsSpace(s[k])
    ensures j < |s| ==> !IsSpace(s[j])
    decreases |s| - i
  {
    if i < |s| && IsSpace(s[i]) then SkipSpaces(s, i + 1) else i
  }

  /** The end of `s[..j]` once trailing spaces are dropped. */
  function TrimEnd(s: string, j: nat): (e: nat)
    requires j <= |s|
    ensures e <= j
    ensures forall k :: e <= k < j ==> IsSpace(s[k])
    ensures e > 0 ==> !IsSpace(s[e - 1])
  {
    if j > 0 && IsSpace(s[j - 1]) then TrimEnd(s, j - 1) else j
  }

  /** `s` without leading and trailing spaces. */
  function Trim(s: string): (r: string)
    ensures |r| <= |s|
    ensures r != [] ==> !IsSpace(r[0]) && !IsSpace(r[|r| - 1])
  {
    var a := SkipSpaces(s, 0);
    var e := TrimEnd(s, |s|);
    if a < e then s[a..e] else ""
  }

  /** The first position at or after `i` holding `c`, or `|s|`. */
  function Find(s: string, i: nat, c: char): (k: nat)
    requires i <= |s|
    ensures i <= k <= |s|
    ensures k < |s| ==> s[k] == c
    ensures forall j :: i <= j < k ==> s[j] != c
    decreases |s| - i
  {
    if i == |s| || s[i] == c then i else Find(s, i + 1, c)
  }

  predicate StartsWithAt(s: string, i: nat, t: string)
  {
    i + |t| <= |s| && s[i..i + |t|] == t
  }

  // ---------------------------------------------------------------------------
  // The parameter regular expression: ^\s*(\.\.\.)?(.+?)(?:\s*=\s*(.+?))?\s*$

  /** What `{ name, index, defaultValue, spread }` holds for one parameter. */
  datatype Parameter = Parameter(name: string, index: nat, defaultValue: Option<string>, spread: bool)

  /** Whether the optional `\s*=\s*(.+?)` group can match from `e`: spaces,
      an `=`, and at least one more character. */
  predicate DefaultAt(s: string, e: nat)
    requires e <= |s|
  {
    var m := SkipSpaces(s, e);
    m + 1 < |s| && s[m] == '='
  }

  /** Whether the text after a name ending at `e` matches the rest of the
      expression: the default group, or nothing but spaces. */
  predicate NameEndsAt(s: string, e: nat)
    requires e <= |s|
  {
    DefaultAt(s, e) || SkipSpaces(s, e) == |s|
  }

  /** The lazy name: the first end after `start` at which the rest matches. */
  function NameEnd(s: string, start: nat, e: nat): (r: nat)
    requires start < e <= |s|
    ensures e <= r <= |s| && NameEndsAt(s, r)
    decreases |s| - e
  {
    if NameEndsAt(s, e) then e else NameEnd(s, start, e + 1)
  }

  /** The default value the group captures from `e`: the text after `=`
      without surrounding spaces, or, when only spaces follow `=`, the last
      of them (the lazy group needs one character). */
  function DefaultFrom(s: string, e: nat): (d: string)
    requires e <= |s| && DefaultAt(s, e)
    ensures d != []
  {
    var m := SkipSpaces(s, e);
    var d0 := SkipSpaces(s, m + 1);
    if d0 < |s| then
      var t := TrimEnd(s, |s|);
      assert d0 < t;
      s[d0..t]
    else
      [s[|s| - 1]]
  }

  /** A default comes after an `=`, and unless it is all spaces it neither
      starts nor ends with one. */
  lemma DefaultTrimmed(s: string, e: nat)
    requires e <= |s|
    ensures DefaultAt(s, e) ==>
      var d := DefaultFrom(s, e);
      '=' in s && (!AllSpaces(d) ==> !IsSpace(d[0]) && !IsSpace(d[|d| - 1]))
  {
    if DefaultAt(s, e) {
      var m := SkipSpaces(s, e);
      assert s[m] == '=';
    }
  }

  /** Where the name starts once the leading spaces and a `...` are skipped,
      and whether the `...` was taken: it is given back when nothing would
      be left for the name. */
  function NameStart(piece: string): (r: (nat, bool))
    requires SkipSpaces(piece, 0) < |piece|
    ensures r.0 < |piece|
  {
    var a := SkipSpaces(piece, 0);
    var spread := StartsWithAt(piece, a, "...") && a + 3 < |piece|;
    (if spread then a + 3 else a, spread)
  }

  /** `parameterRegex.exec(piece)` read into a parameter at `index`, or
      `None` when the expression does not match (an empty piece). A default
      value is trimmed, except for the single space captured when nothing
      but spaces follows `=`; a piece without `=` has none. */
  function ParseParameter(piece: string, index: nat): (r: Option<Parameter>)
    ensures r.None? <==> piece == ""
    ensures r.Some? ==> r.value.index == index && r.value.name != []
  {
    if SkipSpaces(piece, 0) == |piece| then
      if piece == [] then None else Some(Parameter([piece[|piece| - 1]], index, None, false))
    else
      var (start, spread) := NameStart(piece);
      var e := NameEnd(piece, start, start + 1);
      var defaultValue := if DefaultAt(piece, e) then Some(DefaultFrom(piece, e)) else None;
      Some(Parameter(piece[start..e], index, defaultValue, spread))
  }

  /** Only a piece holding `=` has a default, and a default that is not all
      spaces neither starts nor ends with a space. */
  lemma ParseParameterDefault(piece: string, index: nat)
    ensures var r := ParseParameter(piece, index);
      r.Some? && r.value.defaultValue.Some? ==>
        var d := r.value.defaultValue.value;
        '=' in piece && (!AllSpaces(d) ==> !IsSpace(d[0]) && !IsSpace(d[|d| - 1]))
  {
    if SkipSpaces(piece, 0) < |piece| {
      var (start, spread) := NameStart(piece);
      DefaultTrimmed(piece, NameEnd(piece, start, start + 1));
    }
  }

  /** The text of a parameter written with `...` (when `dots`), a name, and
      ` = default` (when there is one), using the spaces `w` around each
      part. */
  function Written(w: string, dots: bool, name: string, default: Option<string>): string
  {
    w + (if dots then "..." else "") + name + (if default.Some? then w + "=" + w + default.value else "") + w
  }

  /** A piece written as a name and an optional default, with spaces around
      the parts, reads as that name and default; a leading `...` marks it
      spread. */
  lemma ParseSimple(w: string, dots: bool, name: string, default: Option<string>, index: nat)
    requires AllSpaces(w)
    requires name != [] && forall k :: 0 <= k < |name| ==> !IsSpace(name[k]) && name[k] != '='
    requires dots || name[0] != '.'
    requires default.Some? ==> default.value != [] && !IsSpace(default.value[0]) &&
                               !IsSpace(default.value[|default.value| - 1])
    ensures ParseParameter(Written(w, dots, name, default), index) == Some(Parameter(name, index, default, dots))
  {
    var piece := Written(w, dots, name, default);
    var start := |w| + (if dots then 3 else 0);
    WrittenHead(w, dots, name, default);
    NameStartSimple(piece, w, dots);
    WrittenName(w, dots, name, default);
    NameEndSimple(piece, start, name);
    assert NameRead(piece, start, name, dots);
    if default.Some? {
      ParseWithDefault(w, dots, name, default.value, index);
    } else {
      ParseWithoutDefault(w, dots, name, index);
    }
  }

  lemma ParseWithDefault(w: string, dots: bool, name: string, d: string, index: nat)
    requires AllSpaces(w) && d != [] && !IsSpace(d[0]) && !IsSpace(d[|d| - 1])
    requires NameRead(Written(w, dots, name, Some(d)), |w| + (if dots then 3 else 0), name, dots)
    ensures ParseParameter(Written(w, dots, name, Some(d)), index) == Some(Parameter(name, index, Some(d), dots))
  {
    var piece := Written(w, dots, name, Some(d));
    var start := |w| + (if dots then 3 else 0);
    var e := start + |name|;
    WrittenDefault(w, dots, name, d);
    DefaultSimple(piece, e, w, d);
    ParseCore(piece, start, e, name, dots, Some(d), index);
  }

  lemma ParseWithoutDefault(w: string, dots: bool, name: string, index: nat)
    requires AllSpaces(w)
    requires NameRead(Written(w, dots, name, None), |w| + (if dots then 3 else 0), name, dots)
    ensures ParseParameter(Written(w, dots, name, None), index) == Some(Parameter(name, index, None, dots))
  {
    var piece := Written(w, dots, name, None);
    var start := |w| + (if dots then 3 else 0);
    var e := start + |name|;
    WrittenTail(w, dots, name);
    SkipSpacesOver(piece, e, w);
    ParseCore(piece, start, e, name, dots, None, index);
  }

  lemma WrittenHead(w: string, dots: bool, name: string, default: Option<string>)
    requires name != [] && (dots || name[0] != '.')
    ensures var piece := Written(w, dots, name, default);
            |w| < |piece| && piece[..|w|] == w && piece[|w|] == (if dots then '.' else name[0]) &&
            (dots ==> StartsWithAt(piece, |w|, "...") && |w| + 3 < |piece|)
  {
    var piece := Written(w, dots, name, default);
    var tail := (if dots then "..." else "") + name + (if default.Some? then w + "=" + w + default.value else "") + w;
    assert piece == w + tail;
    if dots {
      assert tail[..3] == "...";
      assert piece[|w|..|w| + 3] == tail[..3];
    }
  }

  lemma WrittenName(w: string, dots: bool, name: string, default: Option<string>)
    ensures var start := |w| + (if dots then 3 else 0);
            var piece := Written(w, dots, name, default);
            start + |name| <= |piece| && piece[start..start + |name|] == name
  {
    var pre := w + (if dots then "..." else "");
    var rest := (if default.Some? then w + "=" + w + default.value else "") + w;
    assert Written(w, dots, name, default) == pre + name + rest;
  }

  lemma WrittenDefault(w: string, dots: bool, name: string, d: string)
    ensures var e := |w| + (if dots then 3 else 0) + |name|;
            var piece := Written(w, dots, name, Some(d));
            e + 2 * |w| + 1 + |d| + |w| == |piece| && piece[e..] == w + "=" + w + d + w
  {
    var pre := w + (if dots then "..." else "") + name;
    assert Written(w, dots, name, Some(d)) == pre + (w + "=" + w + d + w);
  }

  lemma WrittenTail(w: string, dots: bool, name: string)
    ensures var e := |w| + (if dots then 3 else 0) + |name|;
            var piece := Written(w, dots, name, None);
            e + |w| == |piece| && piece[e..e + |w|] == w
  {
    var pre := w + (if dots then "..." else "") + name;
    assert Written(w, dots, name, None) == pre + w;
  }

  /** The name of a parameter is read from `start` to the end of `name`:
      the leading spaces and the `...` end at `start`, and the lazy name
      cannot end any earlier. */
  predicate NameRead(piece: string, start: nat, name: string, dots: bool)
  {
    && SkipSpaces(piece, 0) < |piece| && NameStart(piece) == (start, dots)
    && start < start + |name| <= |piece| && piece[start..start + |name|] == name
    && forall k :: start < k < start + |name| ==> !NameEndsAt(piece, k)
  }

  lemma ParseCore(piece: string, start: nat, e: nat, name: string, dots: bool, default: Option<string>, index: nat)
    requires NameRead(piece, start, name, dots) && e == start + |name| && NameEndsAt(piece, e)
    requires default.Some? ==> DefaultAt(piece, e) && DefaultFrom(piece, e) == default.value
    requires default.None? ==> !DefaultAt(piece, e)
    ensures ParseParameter(piece, index) == Some(Parameter(name, index, default, dots))
  {
    NameEndFirst(piece, start, start + 1, e);
  }

  lemma NameStartSimple(piece: string, w1: string, dots: bool)
    requires AllSpaces(w1) && |w1| < |piece| && piece[..|w1|] == w1 && !IsSpace(piece[|w1|])
    requires dots ==> StartsWithAt(piece, |w1|, "...") && |w1| + 3 < |piece|
    requires !dots ==> piece[|w1|] != '.'
    ensures SkipSpaces(piece, 0) == |w1|
    ensures NameStart(piece) == (|w1| + (if dots then 3 else 0), dots)
  {
    SkipSpacesOver(piece, 0, w1);
  }

  /** The name's own characters are neither spaces nor `=`, so the lazy name
      cannot stop inside it. */
  lemma NameEndSimple(piece: string, start: nat, name: string)
    requires start + |name| <= |piece| && piece[start..start + |name|] == name
    requires forall k :: 0 <= k < |name| ==> !IsSpace(name[k]) && name[k] != '='
    ensures forall k :: start < k < start + |name| ==> !NameEndsAt(piece, k)
  {
    forall k | start < k < start + |name|
      ensures !NameEndsAt(piece, k)
    {
      assert piece[k] == name[k - start];
    }
  }

  /** Where the parts of `w2 + "=" + w2 + d + w2` sit inside the parameter. */
  lemma DefaultPieces(piece: string, e: nat, w2: string, d: string)
    requires e + 2 * |w2| + 1 + |d| == |piece| - |w2|
    requires piece[e..] == w2 + "=" + w2 + d + w2
    ensures piece[e..e + |w2|] == w2 && piece[e + |w2|] == '='
    ensures piece[e + |w2| + 1..e + 2 * |w2| + 1] == w2
    ensures piece[e + 2 * |w2| + 1..e + 2 * |w2| + 1 + |d|] == d
    ensures piece[e + 2 * |w2| + 1 + |d|..] == w2
  {
    var tail := piece[e..];
    assert tail[..|w2|] == w2;
    assert tail[|w2|] == '=';
    assert tail[|w2| + 1..2 * |w2| + 1] == w2;
    assert tail[2 * |w2| + 1..2 * |w2| + 1 + |d|] == d;
    assert tail[2 * |w2| + 1 + |d|..] == w2;
  }

  lemma DefaultSimple(piece: string, e: nat, w2: string, d: string)
    requires AllSpaces(w2) && d != [] && !IsSpace(d[0]) && !IsSpace(d[|d| - 1])
    requires e + 2 * |w2| + 1 + |d| + |w2| == |piece|
    requires piece[e..] == w2 + "=" + w2 + d + w2
    ensures DefaultAt(piece, e) && NameEndsAt(piece, e)
    ensures DefaultFrom(piece, e) == d
  {
    DefaultPieces(piece, e, w2, d);
    DefaultSpans(piece, e, w2, d);
  }

  /** The same, from where the parts sit. */
  lemma DefaultSpans(piece: string, e: nat, w2: string, d: string)
    requires AllSpaces(w2) && d != [] && !IsSpace(d[0]) && !IsSpace(d[|d| - 1])
    requires e + 2 * |w2| + 1 + |d| + |w2| == |piece|
    requires piece[e..e + |w2|] == w2 && piece[e + |w2|] == '='
    requires piece[e + |w2| + 1..e + 2 * |w2| + 1] == w2
    requires piece[e + 2 * |w2| + 1..e + 2 * |w2| + 1 + |d|] == d
    requires piece[e + 2 * |w2| + 1 + |d|..] == w2
    ensures DefaultAt(piece, e) && NameEndsAt(piece, e)
    ensures DefaultFrom(piece, e) == d
  {
    var m := e + |w2|;
    var d0 := m + 1 + |w2|;
    assert piece[d0] == d[0];
    SkipSpacesOver(piece, e, w2);
    SkipSpacesOver(piece, m + 1, w2);
    assert piece[d0 + |d| - 1] == d[|d| - 1];
    TrimEndOver(piece, d0 + |d|, w2);
    DefaultBetween(piece, e, m, d0, d0 + |d|);
  }

  /** The default read from the positions the three `\s*` stop at. */
  lemma DefaultBetween(piece: string, e: nat, m: nat, d0: nat, t: nat)
    requires e <= m < d0 < t <= |piece| && piece[m] == '='
    requires SkipSpaces(piece, e) == m && SkipSpaces(piece, m + 1) == d0
    requires TrimEnd(piece, |piece|) == t
    ensures DefaultAt(piece, e) && NameEndsAt(piece, e)
    ensures DefaultFrom(piece, e) == piece[d0..t]
  {
  }

  lemma SkipSpacesOver(s: string, i: nat, w: string)
    requires i + |w| <= |s| && s[i..i + |w|] == w && AllSpaces(w)
    requires i + |w| < |s| ==> !IsSpace(s[i + |w|])
    ensures SkipSpaces(s, i) == i + |w|
    decreases |w|
  {
    if w != [] {
      assert s[i] == w[0];
      SkipSpacesOver(s, i + 1, w[1..]);
    }
  }

  lemma TrimEndOver(s: string, j: nat, w: string)
    requires j + |w| == |s| && s[j..] == w && AllSpaces(w) && j > 0 && !IsSpace(s[j - 1])
    ensures TrimEnd(s, |s|) == j
    decreases |w|
  {
    if w != [] {
      assert s[|s| - 1] == w[|w| - 1];
      TrimEndOver(s[..|s| - 1], j, w[..|w| - 1]);
      TrimEndPrefix(s, |s| - 1);
    }
  }

  lemma TrimEndPrefix(s: string, j: nat)
    requires j <= |s|
    ensures TrimEnd(s, j) == TrimEnd(s[..j], j)
    decreases j
  {
    if j > 0 && IsSpace(s[j - 1]) {
      TrimEndPrefix(s, j - 1);
      TrimEndPrefix(s[..j], j - 1);
      assert s[..j][..j - 1] == s[..j - 1];
    }
  }

  lemma NameEndFirst(s: string, start: nat, e0: nat, e: nat)
    requires start < e0 <= e <= |s|
    requires forall k :: start < k < e ==> !NameEndsAt(s, k)
    requires NameEndsAt(s, e)
    ensures NameEnd(s, start, e0) == e
    decreases e - e0
  {
    if e0 < e {
      NameEndFirst(s, start, e0 + 1, e);
    }
  }

  // ---------------------------------------------------------------------------
  // Splitting the parameter text

  /** `str.split(",")`. */
  function Split(s: string): (r: seq<string>)
    ensures |r| >= 1
    ensures forall i :: 0 <= i < |r| ==> ',' !in r[i]
    decreases |s|
  {
    var i := Find(s, 0, ',');
    if i == |s| then [s] else [s[..i]] + Split(s[i + 1..])
  }

  /** Joining the pieces with commas gives the text back. */
  function JoinCommas(pieces: seq<string>): string
  {
    if pieces == [] then "" else if |pieces| == 1 then pieces[0] else pieces[0] + "," + JoinCommas(pieces[1..])
  }

  lemma {:induction false} SplitJoin(s: string)
    ensures JoinCommas(Split(s)) == s
    decreases |s|
  {
    var i := Find(s, 0, ',');
    if i < |s| {
      SplitJoin(s[i + 1..]);
      assert s == s[..i] + "," + s[i + 1..];
    }
  }

  /** The pieces after the first: one more piece per comma. */
  lemma {:induction false} SplitCount(s: string)
    ensures |Split(s)| == 1 + multiset(s)[',']
    decreases |s|
  {
    var i := Find(s, 0, ',');
    if i < |s| {
      SplitCount(s[i + 1..]);
      assert s == s[..i] + [','] + s[i + 1..];
      assert multiset(s[..i])[','] == 0 by { assert ',' !in s[..i]; }
    } else {
      assert ',' !in s;
    }
  }

  /** The first piece runs up to the first comma. */
  lemma SplitFirst(a: string, b: string)
    requires ',' !in a
    ensures Split(a + "," + b) == [a] + Split(b)
  {
    var s := a + "," + b;
    assert forall j :: 0 <= j < |a| ==> s[j] == a[j];
    assert s[|a|] == ',';
    assert Find(s, 0, ',') == |a| by { FindFirst(s, 0, |a|, ','); }
    assert s[..|a|] == a && s[|a| + 1..] == b;
  }

  lemma FindFirst(s: string, i: nat, k: nat, c: char)
    requires i <= k < |s| && s[k] == c && forall j :: i <= j < k ==> s[j] != c
    ensures Find(s, i, c) == k
    decreases k - i
  {
    if i < k { FindFirst(s, i + 1, k, c); }
  }

  /** A default value holding a comma is cut at the comma, as the doc comment
      warns: `name = d1, d2` gives a parameter `name` whose default is only
      `d1`, and the rest becomes a parameter of its own. */
  lemma CommaInDefault(w: string, name: string, d1: string, d2: string)
    requires AllSpaces(w)
    requires name != [] && forall k :: 0 <= k < |name| ==> !IsSpace(name[k]) && name[k] != '=' && name[k] != ','
    requires name[0] != '.' && ',' !in w
    requires d1 != [] && !IsSpace(d1[0]) && !IsSpace(d1[|d1| - 1]) && ',' !in d1
    ensures var pieces := Split(Written(w, false, name, Some(d1)) + "," + d2);
            |pieces| >= 2 &&
            ParseParameter(pieces[0], 0) == Some(Parameter(name, 0, Some(d1), false))
  {
    var first := Written(w, false, name, Some(d1));
    WrittenNoComma(w, name, d1);
    SplitFirst(first, d2);
    ParseSimple(w, false, name, Some(d1), 0);
  }

  lemma WrittenNoComma(w: string, name: string, d: string)
    requires AllSpaces(w) && ',' !in w && ',' !in d
    requires forall k :: 0 <= k < |name| ==> name[k] != ','
    ensures ',' !in Written(w, false, name, Some(d))
  {
    assert Written(w, false, name, Some(d)) == w + name + w + "=" + w + d + w;
  }

  /** The parameters read from the comma-split pieces, with their positions
      as indices, or the `TypeError` of destructuring a failed match. */
  function ParseParameters(pieces: seq<string>, from: nat): (r: Result<seq<Parameter>, Extensions.JsError>)
    ensures r.Ok? <==> forall i :: 0 <= i < |pieces| ==> pieces[i] != ""
    ensures r.Ok? ==> |r.value| == |pieces|
    decreases |pieces|
  {
    if pieces == [] then Ok([])
    else
      var p := ParseParameter(pieces[0], from);
      var rest := ParseParameters(pieces[1..], from + 1);
      if p.None? then Err(Extensions.TypeError("object null is not iterable"))
      else if rest.Err? then rest
      else
        assert forall i :: 1 <= i < |pieces| ==> pieces[i] == pieces[1..][i - 1];
        Ok([p.value] + rest.value)
  }

  /** Each parameter is what its own piece reads as, at its position. */
  lemma ParseParametersEach(pieces: seq<string>, from: nat)
    ensures var r := ParseParameters(pieces, from);
      r.Ok? ==> forall i :: 0 <= i < |pieces| ==> Some(r.value[i]) == ParseParameter(pieces[i], from + i)
  {
    forall i | 0 <= i < |pieces| && ParseParameters(pieces, from).Ok?
      ensures Some(ParseParameters(pieces, from).value[i]) == ParseParameter(pieces[i], from + i)
    {
      ParseParametersAt(pieces, from, i);
    }
  }

  lemma {:induction false} ParseParametersAt(pieces: seq<string>, from: nat, i: nat)
    requires i < |pieces| && ParseParameters(pieces, from).Ok?
    ensures Some(ParseParameters(pieces, from).value[i]) == ParseParameter(pieces[i], from + i)
    decreases i
  {
    var p := ParseParameter(pieces[0], from);
    var rest := ParseParameters(pieces[1..], from + 1);
    var all := ParseParameters(pieces, from).value;
    assert p.Some? && rest.Ok? && all == [p.value] + rest.value;
    if i > 0 {
      ParseParametersAt(pieces[1..], from + 1, i - 1);
      assert all[i] == rest.value[i - 1];
      assert pieces[i] == pieces[1..][i - 1];
    }
  }

  // ---------------------------------------------------------------------------
  // The two function regular expressions

  /** The end of the lazy `(.*?)` before `\)\s*{`, given that the source ends
      in `}` (at `last`): the first `)` from `k` on followed by spaces and a
      `{` before `last`; `|s|` when there is none. */
  function ParamsClose(s: string, k: nat, last: nat): (c: nat)
    requires k <= |s| && last <= |s|
    ensures k <= c <= |s|
    ensures c < |s| ==> s[c] == ')' && SkipSpaces(s, c + 1) < last && s[SkipSpaces(s, c + 1)] == '{'
    decreases |s| - k
  {
    if k == |s| then |s|
    else if s[k] == ')' && SkipSpaces(s, k + 1) < last && s[SkipSpaces(s, k + 1)] == '{' then k
    else ParamsClose(s, k + 1, last)
  }

  /** Whether `\)?\s*=>` matches at `k`. */
  predicate ArrowTail(s: string, k: nat)
    requires k < |s|
  {
    (s[k] == ')' && StartsWithAt(s, SkipSpaces(s, k + 1), "=>")) || StartsWithAt(s, SkipSpaces(s, k), "=>")
  }

  /** The end of the lazy `(.*?)` before `\)?\s*=>`: the first position from
      `k` on where an optional `)`, spaces and `=>` follow; `|s|` when none. */
  function ArrowAt(s: string, k: nat): (c: nat)
    requires k <= |s|
    ensures k <= c <= |s|
    ensures c < |s| ==> ArrowTail(s, c)
    decreases |s| - k
  {
    if k == |s| then |s|
    else if ArrowTail(s, k) then k
    else ArrowAt(s, k + 1)
  }

  datatype Inspection = Inspection(
    name: Option<string>, parameters: string, body: string,
    generator: bool, arrow: bool, spread: bool)

  /** `funcRegex.exec(str)` on a single line. */
  function MatchFunctionForm(s: string): (r: Option<Inspection>)
    ensures r.Some? ==> !r.value.arrow && !r.value.spread
  {
    var a := SkipSpaces(s, 0);
    var last := TrimEnd(s, |s|);
    if !StartsWithAt(s, a, "function") || last == 0 || s[last - 1] != '}' then None
    else
      var p0 := a + 8;
      var generator := p0 < |s| && s[p0] == '*';
      var p := if generator then p0 + 1 else p0;
      var w := SkipSpaces(s, p);
      // Either `(` right after the spaces (no name), or a name after at least
      // one space running up to the first `(`.
      var open := if w < |s| && s[w] == '(' then w else if w > p then Find(s, w, '(') else |s|;
      if open == |s| then None
      else
        var close := ParamsClose(s, open + 1, last - 1);
        if close == |s| then None
        else
          var brace := SkipSpaces(s, close + 1);
          Some(Inspection(
            if open == w then None else Some(s[w..open]),
            s[open + 1..close], Trim(s[brace + 1..last - 1]), generator, false, false))
  }

  /** `arrowFuncRegex.exec(str)` on a single line. */
  function MatchArrowForm(s: string): (r: Option<Inspection>)
    ensures r.Some? ==> r.value.arrow && r.value.name.None? && !r.value.generator
  {
    var a := SkipSpaces(s, 0);
    var q := if a < |s| && s[a] == '(' then a + 1 else a;
    var k := ArrowAt(s, q);
    if k == |s| then None
    else
      var m := ArrowStart(s, k);
      var j0 := SkipSpaces(s, m + 2);
      var j1 := if j0 < |s| && s[j0] == '{' then SkipSpaces(s, j0 + 1) else j0;
      Some(Inspection(None, s[q..k], s[j1..ArrowBodyEnd(s, j1)], false, true, false))
  }

  /** Where the `=>` of an arrow tail found at `k` starts. */
  function ArrowStart(s: string, k: nat): (m: nat)
    requires k < |s| && ArrowTail(s, k)
    ensures k <= m && StartsWithAt(s, m, "=>")
  {
    if s[k] == ')' && StartsWithAt(s, SkipSpaces(s, k + 1), "=>") then SkipSpaces(s, k + 1) else SkipSpaces(s, k)
  }

  /** The end of the arrow body starting at `j1`: the trailing spaces, and a
      closing `}` with the spaces before it, are not part of it. */
  function ArrowBodyEnd(s: string, j1: nat): (e: nat)
    requires j1 <= |s|
    ensures j1 <= e <= |s|
  {
    var last := TrimEnd(s, |s|);
    if last <= j1 then j1
    else if s[last - 1] == '}' then
      var t := TrimEnd(s, last - 1);
      if t < j1 then j1 else t
    else last
  }

  /** A value handed to `inspectFunction`: not a function, or a function with
      its source text. */
  datatype FunctionValue = NotAFunction | Function(source: string)

  /** `inspectFunction(func)`: the result object, with the parameters read
      from the parameter text. */
  datatype Inspected = Inspected(
    name: Option<string>, parameters: seq<Parameter>, body: string,
    generator: bool, arrow: bool, spread: bool)

  /** The first of the two forms that matches: a source the function form
      reads is never read as an arrow, and the arrow reading is taken only
      when the function form fails. */
  function Form(source: string): (r: Option<Inspection>)
    ensures r.Some? && !r.value.arrow <==> MatchFunctionForm(source).Some?
    ensures r.Some? && r.value.arrow <==> MatchFunctionForm(source).None? && MatchArrowForm(source).Some?
    ensures r.None? <==> MatchFunctionForm(source).None? && MatchArrowForm(source).None?
    ensures r.Some? ==> r == if r.value.arrow then MatchArrowForm(source) else MatchFunctionForm(source)
  {
    if MatchFunctionForm(source).Some? then MatchFunctionForm(source) else MatchArrowForm(source)
  }

  /** The comma-split pieces of the parameter text; none for an empty text. */
  function Pieces(parameters: string): (r: seq<string>)
    ensures parameters == "" ==> r == []
    ensures parameters != "" ==> r == Split(parameters)
  {
    if parameters == "" then [] else Split(parameters)
  }

  function InspectFunction(f: FunctionValue): (r: Result<Inspected, Extensions.JsError>)
    requires f.Function? ==> SingleLine(f.source)
    ensures f.NotAFunction? ==> r == Err(Extensions.Error("Not a function"))
    ensures f.Function? && Form(f.source).None? ==>
      r == Err(Extensions.Error("Unable to inspect function:\n" + f.source))
    ensures f.Function? && Form(f.source).Some? ==>
      (r.Ok? <==> forall i :: 0 <= i < |Pieces(Form(f.source).value.parameters)| ==>
                    Pieces(Form(f.source).value.parameters)[i] != "")
    ensures r.Ok? ==> f.Function? && Form(f.source).Some?
    ensures r.Ok? ==>
      var form := Form(f.source).value;
      r.value.name == form.name && r.value.arrow == form.arrow && r.value.generator == form.generator
    ensures r.Ok? ==> |r.value.parameters| == |Pieces(Form(f.source).value.parameters)|
    ensures r.Ok? ==>
      (r.value.spread <==> exists i :: 0 <= i < |r.value.parameters| && r.value.parameters[i].spread)
  {
    match f
    case NotAFunction => Err(Extensions.Error("Not a function"))
    case Function(source) =>
      var form := Form(source);
      if form.None? then Err(Extensions.Error("Unable to inspect function:\n" + source))
      else
        match ParseParameters(Pieces(form.value.parameters), 0)
        case Err(e) => Err(e)
        case Ok(ps) =>
          Ok(Inspected(form.value.name, ps, form.value.body, form.value.generator, form.value.arrow,
                       exists i :: 0 <= i < |ps| && ps[i].spread))
  }

  /** A successful inspection carries exactly what the parameter parser
      read from the comma-split parameter text. */
  lemma InspectedFromPieces(f: FunctionValue)
    requires f.Function? ==> SingleLine(f.source)
    ensures var r := InspectFunction(f);
      r.Ok? ==> (Form(f.source).Some? &&
                 ParseParameters(Pieces(Form(f.source).value.parameters), 0) == Ok(r.value.parameters))
  {
  }

  /** Positions counted from zero: each parsed parameter is its piece read
      on its own at its index. */
  lemma ParsedFromZero(pieces: seq<string>, ps: seq<Parameter>)
    requires ParseParameters(pieces, 0) == Ok(ps)
    ensures |ps| == |pieces|
    ensures forall i :: 0 <= i < |pieces| ==> Some(ps[i]) == ParseParameter(pieces[i], i)
  {
    ParseParametersEach(pieces, 0);
    forall i | 0 <= i < |pieces| ensures Some(ps[i]) == ParseParameter(pieces[i], i) {
      assert Some(ps[i]) == ParseParameter(pieces[i], 0 + i);
    }
  }

  /** The inspected parameters are the comma-split pieces of the parameter
      text, each read on its own at its position. */
  lemma InspectFunctionParameters(f: FunctionValue)
    requires f.Function? ==> SingleLine(f.source)
    ensures var r := InspectFunction(f);
      r.Ok? ==>
        var pieces := Pieces(Form(f.source).value.parameters);
        |r.value.parameters| == |pieces| &&
        forall i :: 0 <= i < |pieces| ==> Some(r.value.parameters[i]) == ParseParameter(pieces[i], i)
  {
    InspectedFromPieces(f);
    var r := InspectFunction(f);
    if r.Ok? {
      ParsedFromZero(Pieces(Form(f.source).value.parameters), r.value.parameters);
    }
  }
}
