/** `getCommArgs` (`plugs/React.js`): the text after a command keyword is cut
    into arguments by repeated `exec` of the global expression
      ([^\s'"]+(['"])([^\2]*?)\2)|[^\s'"]+|(['"])([^\4]*?)\4
    and each match contributes `match[1] || match[5] || match[0]`.
    The search the expression performs is written out here: at each
    position the three alternatives are tried in order, and a position where
    none matches is skipped. */
module CommArgs {
  import opened Wrappers
  import Reflect

  predicate IsQuote(c: char) { c == '\'' || c == '"' }

  /** `[^\s'"]`. */
  predicate IsWordChar(c: char) { !Reflect.IsSpace(c) && !IsQuote(c) }

  /** Inside a character class `\2` and `\4` are octal escapes for U+0002
      and U+0004, not back-references: the lazy run between two quotes may
      not cross that character. */
  const Stop2: char := '\U{0002}'
  const Stop4: char := '\U{0004}'

  /** The length of the greedy `[^\s'"]+` run at the start of `s`. */
  function WordRun(s: string): (n: nat)
    ensures n <= |s|
    ensures forall k :: 0 <= k < n ==> IsWordChar(s[k])
    ensures n < |s| ==> !IsWordChar(s[n])
  {
    if s != [] && IsWordChar(s[0]) then 1 + WordRun(s[1..]) else 0
  }

  /** Where a lazy run that may not cross `stop`, followed by the quote `q`,
      ends in `s`: the first `q`, unless a `stop` comes before it. */
  function Close(s: string, q: char, stop: char): (r: Option<nat>)
    requires q != stop
    ensures r.Some? ==> r.value < |s| && s[r.value] == q
    ensures r.Some? ==> forall k :: 0 <= k < r.value ==> s[k] != q && s[k] != stop
    ensures r.None? ==> forall k :: 0 <= k < |s| && s[k] == q ==> stop in s[..k]
  {
    if s == [] then None
    else if s[0] == q then Some(0)
    else if s[0] == stop then None
    else
      var r := Close(s[1..], q, stop);
      assert forall k :: 1 <= k < |s| ==> s[1..][..k - 1] == s[1..k];
      if r.None? then None else Some(r.value + 1)
  }

  /** One match: the whole matched text, capture groups 1 and 5 (`None` for
      `undefined`) and the position right after the match. */
  datatype Match = Match(whole: string, group1: Option<string>, group5: Option<string>, end: nat)

  /** The match of the expression at the very start of `s`, trying its
      three alternatives in order. A word followed by a quote with no
      closing quote falls back to the second alternative, since a shorter
      word is never followed by a quote. */
  function MatchHere(s: string): (r: Option<Match>)
    ensures r.Some? ==> 1 <= r.value.end <= |s| && r.value.whole == s[..r.value.end]
    ensures r.None? <==> s == [] || Reflect.IsSpace(s[0]) || (IsQuote(s[0]) && Close(s[1..], s[0], Stop4).None?)
  {
    if s == [] then None
    else if IsWordChar(s[0]) then
      var n := WordRun(s);
      if n < |s| && IsQuote(s[n]) && Close(s[n + 1..], s[n], Stop2).Some? then
        var e := n + Close(s[n + 1..], s[n], Stop2).value + 2;
        Some(Match(s[..e], Some(s[..e]), None, e))
      else
        Some(Match(s[..n], None, None, n))
    else if IsQuote(s[0]) && Close(s[1..], s[0], Stop4).Some? then
      var e := Close(s[1..], s[0], Stop4).value + 2;
      Some(Match(s[..e], None, Some(s[1..e - 1]), e))
    else
      None
  }

  /** `exec` with `lastIndex` at the start of `s`: the match at the first
      position where there is one, with `end` counted from the start of `s`. */
  function Exec(s: string): (r: Option<Match>)
    ensures r.Some? ==> 1 <= r.value.end <= |s| && r.value.whole != []
  {
    if s == [] then None
    else
      match MatchHere(s)
      case Some(m) => Some(m)
      case None =>
        var rest := Exec(s[1..]);
        if rest.None? then None else Some(rest.value.(end := rest.value.end + 1))
  }

  /** `match[1] || match[5] || match[0]`: an empty group counts as false. */
  function Pick(m: Match): string
  {
    if m.group1.Some? && m.group1.value != "" then m.group1.value
    else if m.group5.Some? && m.group5.value != "" then m.group5.value
    else m.whole
  }

  /** The arguments `getCommArgs` collects from `s`. */
  function Args(s: string): seq<string>
    decreases |s|
  {
    match Exec(s)
    case None => []
    case Some(m) => [Pick(m)] + Args(s[m.end..])
  }

  lemma ArgsStep(s: string)
    requires Exec(s).Some?
    ensures Args(s) == [Pick(Exec(s).value)] + Args(s[Exec(s).value.end..])
  {
  }

  /** `getCommArgs(str)`: `exec` until it returns `null`, pushing the picked
      group of each match. (The expression object is shared, but its
      `lastIndex` is back at 0 whenever a loop like this one ends.) */
  method GetCommArgs(str: string) returns (args: seq<string>)
    ensures args == Args(str)
  {
    args := [];
    var lastIndex := 0;
    var m := Exec(str);
    while m.Some?
      invariant lastIndex <= |str|
      invariant m == Exec(str[lastIndex..])
      invariant args + Args(str[lastIndex..]) == Args(str)
      decreases |str| - lastIndex
    {
      ghost var rest := str[lastIndex..];
      assert rest[m.value.end..] == str[lastIndex + m.value.end..];
      ArgsStep(rest);
      assert (args + [Pick(m.value)]) + Args(rest[m.value.end..]) == args + Args(rest);
      args := args + [Pick(m.value)];
      lastIndex := lastIndex + m.value.end;
      m := Exec(str[lastIndex..]);
    }
  }

  // ---------------------------------------------------------------------------
  // What the argument list looks like

  /** No argument is ever empty: an empty quoted pair `""` comes back with
      its quotes. */
  lemma {:induction false} ArgsNonEmpty(s: string)
    ensures forall i :: 0 <= i < |Args(s)| ==> Args(s)[i] != ""
    decreases |s|
  {
    match Exec(s)
    case None =>
    case Some(m) =>
      ArgsNonEmpty(s[m.end..]);
      assert Args(s) == [Pick(m)] + Args(s[m.end..]);
  }

  /** White space in front of the text changes nothing. */
  lemma LeadingSpace(c: char, s: string)
    requires Reflect.IsSpace(c)
    ensures Args([c] + s) == Args(s)
  {
    var t := [c] + s;
    assert t[1..] == s;
    assert MatchHere(t).None?;
    match Exec(s)
    case None =>
    case Some(m) =>
      assert t[m.end + 1..] == s[m.end..];
  }

  /** A quote that is never closed is skipped, and the text after it is read
      as if it were not there. */
  lemma UnclosedQuote(s: string)
    requires s != [] && IsQuote(s[0]) && Close(s[1..], s[0], Stop4).None?
    ensures Args(s) == Args(s[1..])
  {
    match Exec(s[1..])
    case None =>
    case Some(m) =>
      assert s[m.end + 1..] == s[1..][m.end..];
  }

  lemma CloseAfter(x: string, q: char, stop: char, t: string)
    requires q != stop && q !in x && stop !in x
    ensures Close(x + [q] + t, q, stop) == Some(|x|)
  {
    if x != [] {
      assert (x + [q] + t)[1..] == x[1..] + [q] + t;
      CloseAfter(x[1..], q, stop, t);
    }
  }

  /** A word immediately followed by a closed quotation is one argument,
      quotes included. */
  lemma WordThenQuoted(w: string, q: char, x: string, rest: string)
    requires w != [] && (forall k :: 0 <= k < |w| ==> IsWordChar(w[k]))
    requires IsQuote(q) && q !in x && Stop2 !in x
    ensures var s := w + [q] + x + [q] + rest;
      Exec(s).Some? && Pick(Exec(s).value) == w + [q] + x + [q] &&
      Exec(s).value.end == |w| + |x| + 2
  {
    var s := w + [q] + x + [q] + rest;
    WordRunOver(w, [q] + x + [q] + rest);
    assert s == w + ([q] + x + [q] + rest);
    assert s[|w|] == q;
    assert s[|w| + 1..] == x + [q] + rest;
    CloseAfter(x, q, Stop2, rest);
    assert s[..|w| + |x| + 2] == w + [q] + x + [q];
  }

  /** An empty quoted pair is returned with its quotes. */
  lemma EmptyQuotes(q: char, rest: string)
    requires IsQuote(q)
    ensures var s := [q, q] + rest;
      Exec(s).Some? && Pick(Exec(s).value) == [q, q] && Exec(s).value.end == 2
  {
    var s := [q, q] + rest;
    assert s[1..] == [q] + rest;
    assert s[1..][0] == q;
    assert s[1..1] == "";
    assert s[..2] == [q, q];
  }

  lemma WordRunOver(w: string, t: string)
    requires forall k :: 0 <= k < |w| ==> IsWordChar(w[k])
    requires t == [] || !IsWordChar(t[0])
    ensures WordRun(w + t) == |w|
  {
    if w != [] {
      assert (w + t)[1..] == w[1..] + t;
      WordRunOver(w[1..], t);
    }
  }

  // ---------------------------------------------------------------------------
  // Round trip: a command line written from arguments reads back as them

  /** A word of `[^\s'"]` characters only. */
  predicate Plain(a: string)
  {
    a != [] && forall k :: 0 <= k < |a| ==> IsWordChar(a[k])
  }

  /** An argument that can be written on a command line: non-empty, and
      free of double quotes and of U+0004. */
  predicate Writable(a: string)
  {
    a != [] && '"' !in a && Stop4 !in a
  }

  /** A plain word as it is; anything else in double quotes. */
  function Quoted(a: string): (r: string)
    ensures Plain(a) ==> r == a
    ensures !Plain(a) ==> r == ['"'] + a + ['"']
  {
    if Plain(a) then a else ['"'] + a + ['"']
  }

  /** Arguments written one after the other, separated by single spaces. */
  function Line(xs: seq<string>): string
  {
    if xs == [] then ""
    else if |xs| == 1 then Quoted(xs[0])
    else Quoted(xs[0]) + " " + Line(xs[1..])
  }

  /** The first argument written at the front of a line is the first match,
      and it ends where its writing ends. */
  lemma ReadsBack(a: string, tail: string)
    requires Writable(a)
    requires tail == [] || tail[0] == ' '
    ensures var s := Quoted(a) + tail;
      Exec(s).Some? && Pick(Exec(s).value) == a && Exec(s).value.end == |Quoted(a)|
  {
    if Plain(a) {
      ReadsBackPlain(a, tail);
    } else {
      ReadsBackQuoted(a, tail);
    }
  }

  lemma ReadsBackPlain(a: string, tail: string)
    requires Plain(a)
    requires tail == [] || tail[0] == ' '
    ensures MatchHere(a + tail) == Some(Match(a, None, None, |a|))
  {
    var s := a + tail;
    WordRunOver(a, tail);
    assert IsWordChar(s[0]);
    assert s[..|a|] == a;
  }

  lemma ReadsBackQuoted(a: string, tail: string)
    requires Writable(a)
    ensures var s := ['"'] + a + ['"'] + tail;
      MatchHere(s) == Some(Match(s[..|a| + 2], None, Some(a), |a| + 2))
  {
    var s := ['"'] + a + ['"'] + tail;
    assert s[0] == '"';
    assert s[1..] == a + ['"'] + tail;
    CloseAfter(a, '"', Stop4, tail);
    assert s[1..|a| + 1] == a;
  }

  /** `getCommArgs` reads a line written from arguments back as exactly
      those arguments. */
  lemma {:induction false} ArgsOfLine(xs: seq<string>)
    requires forall i :: 0 <= i < |xs| ==> Writable(xs[i])
    ensures Args(Line(xs)) == xs
  {
    if xs == [] {
      assert Exec("") == None;
    } else {
      var a := xs[0];
      var tail := if |xs| == 1 then "" else " " + Line(xs[1..]);
      var s := Quoted(a) + tail;
      assert Line(xs) == s;
      ReadsBack(a, tail);
      var m := Exec(s).value;
      assert s[m.end..] == tail;
      if |xs| == 1 {
        assert Exec(tail) == None;
        assert xs == [a];
      } else {
        ArgsOfLine(xs[1..]);
        LeadingSpace(' ', Line(xs[1..]));
        assert tail == [' '] + Line(xs[1..]);
        assert xs == [a] + xs[1..];
      }
    }
  }
}
