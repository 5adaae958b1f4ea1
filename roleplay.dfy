/** The dice comm (`comms/roleplay.js`): a global regex comm that rolls
    every `NdS+K` expression in a message and replies with each roll and,
    for several, their total. `Math.random()` is an input: the `j`-th
    draw for the `i`-th expression. */
module Roleplay {
  import opened Wrappers
  import Iterable
  import Transforms
  import Signature

  const MaxDicePerRoll: nat := 20
  const MaxSidesOnDie: nat := 1000
  const MaxDiceRollsPerMessage: nat := 6
  const DetailMaxDicePerRoll: nat := 8
  const DetailMaxTotalDice: nat := 16

  /** One match of `\b(\d+)?d(\d+)([+-]\d+)?\b`: the whole match and its
      three groups, `undefined` for a group that took no part. */
  type Match = seq<Option<string>>

  /** The `j`-th `Math.random()` while rolling the `i`-th expression. */
  type Random = (nat, nat) -> real

  predicate Unsigned(s: string) { s != [] && Transforms.AllDigits(s) }

  predicate Signed(s: string) { |s| >= 2 && (s[0] == '+' || s[0] == '-') && Transforms.AllDigits(s[1..]) }

  /** What the regex guarantees of a match. */
  predicate DiceShape(m: Match)
  {
    |m| == 4 && m[2].Some? && Unsigned(m[2].value) &&
    (m[1].Some? ==> Unsigned(m[1].value)) && (m[3].Some? ==> Signed(m[3].value))
  }

  predicate Shaped(ms: seq<Match>) { forall i :: 0 <= i < |ms| ==> DiceShape(ms[i]) }

  ghost predicate InRange(random: Random) { forall i, j :: 0.0 <= random(i, j) < 1.0 }

  /** A dice expression: how many dice, how many sides, what to add. */
  datatype Expr = Expr(dice: nat, sides: nat, offset: int)

  /** `Number` of a signed run of digits. */
  function SignedValue(s: string): int
    requires Signed(s)
  {
    var n := Transforms.DigitsValue(s[1..]);
    if s[0] == '-' then 0 - n else n
  }

  /** The numbers of a match: one die and no offset unless written. */
  function Read(m: Match): Expr
    requires DiceShape(m)
  {
    Expr(if m[1].Some? then Transforms.DigitsValue(m[1].value) else 1,
         Transforms.DigitsValue(m[2].value),
         if m[3].Some? then SignedValue(m[3].value) else 0)
  }

  /** The `isNaN` checks never refuse a match: its counts are digit runs. */
  lemma ReadIsNumeric(m: Match)
    requires DiceShape(m)
    ensures Signature.IsNumeric(m[2].value)
    ensures m[1].Some? ==> Signature.IsNumeric(m[1].value)
  {
    Signature.DigitsAreNumeric(m[2].value);
    if m[1].Some? {
      Signature.DigitsAreNumeric(m[1].value);
    }
  }

  /** An expression the comm will roll. */
  predicate Allowed(e: Expr)
  {
    e.dice <= MaxDicePerRoll && e.sides <= MaxSidesOnDie
  }

  /** What an expression adds to `totalDice`. */
  function Weight(e: Expr): nat
  {
    if e.dice <= 8 then e.dice else 1
  }

  function TotalDice(es: seq<Expr>): nat
  {
    if es == [] then 0 else TotalDice(es[..|es| - 1]) + Weight(es[|es| - 1])
  }

  /** No expression weighs more than 8, so the total is at most 8 per expression. */
  lemma {:induction false} TotalDiceBound(es: seq<Expr>)
    ensures TotalDice(es) <= 8 * |es|
  {
    if es != [] {
      TotalDiceBound(es[..|es| - 1]);
    }
  }

  /** The validation loop: every match read and checked, `totalDice`
      summed; it stops at the first refused expression. */
  method Validate(ms: seq<Match>) returns (ok: bool, es: seq<Expr>, totalDice: nat)
    requires Shaped(ms)
    ensures ok <==> forall i :: 0 <= i < |ms| ==> Allowed(Read(ms[i]))
    ensures ok ==> |es| == |ms| && (forall i :: 0 <= i < |ms| ==> es[i] == Read(ms[i]))
    ensures ok ==> totalDice == TotalDice(es)
  {
    es := [];
    totalDice := 0;
    var i := 0;
    while i < |ms|
      invariant 0 <= i <= |ms|
      invariant |es| == i && forall k :: 0 <= k < i ==> es[k] == Read(ms[k]) && Allowed(es[k])
      invariant totalDice == TotalDice(es)
    {
      var m := ms[i];
      var dice := if m[1].Some? then Transforms.DigitsValue(m[1].value) else 1;
      var sides := Transforms.DigitsValue(m[2].value);
      var offset := if m[3].Some? then SignedValue(m[3].value) else 0;
      if dice > MaxDicePerRoll || sides > MaxSidesOnDie {
        return false, es, totalDice;
      }
      totalDice := totalDice + (if dice <= 8 then dice else 1);
      assert (es + [Expr(dice, sides, offset)])[..|es|] == es;
      es := es + [Expr(dice, sides, offset)];
      i := i + 1;
    }
    return true, es, totalDice;
  }

  // ---------------------------------------------------------------------------
  // Rolling

  /** `1 + Math.floor(Math.random() * sides)`. */
  function Die(r: real, sides: nat): int
  {
    1 + (r * sides as real).Floor
  }

  /** A die shows 1 to `sides`; a die of no sides always shows 1. */
  lemma DieRange(r: real, sides: nat)
    requires 0.0 <= r < 1.0
    ensures 1 <= Die(r, sides) <= Iterable.MaxInt(sides, 1)
  {
    var x := r * sides as real;
    assert 0.0 <= x;
    if sides > 0 {
      assert x < sides as real by {
        assert r * sides as real < 1.0 * sides as real;
      }
    } else {
      assert x == 0.0;
    }
  }

  /** The dice of the `i`-th expression. */
  function Values(e: Expr, i: nat, random: Random): (vs: seq<int>)
    ensures |vs| == e.dice
  {
    seq(e.dice, j requires 0 <= j < e.dice => Die(random(i, j), e.sides))
  }

  /** Each die is listed exactly when there are 2 to 8 of them and at most
      16 dice in the message count. */
  predicate Detailed(e: Expr, totalDice: nat)
  {
    1 < e.dice <= DetailMaxDicePerRoll && totalDice <= DetailMaxTotalDice
  }

  /** The object a roll becomes, less its average. */
  datatype Thrown = Thrown(expr: Expr, result: int, results: Option<seq<int>>)

  /** The roll as written: the result is the sum of the dice alone. */
  function ThrowAsWritten(e: Expr, totalDice: nat, values: seq<int>): Thrown
  {
    Thrown(e, Iterable.Sum(values), if Detailed(e, totalDice) then Some(values) else None)
  }

  /** The roll: the sum of the dice plus the offset. */
  function Throw(e: Expr, totalDice: nat, values: seq<int>): Thrown
  {
    Thrown(e, Iterable.Sum(values) + e.offset, if Detailed(e, totalDice) then Some(values) else None)
  }

  lemma {:induction false} SumRightBounds(xs: seq<int>, lo: int, hi: int)
    requires forall k :: 0 <= k < |xs| ==> lo <= xs[k] <= hi
    ensures |xs| * lo <= Iterable.SumRight(xs) <= |xs| * hi
  {
    if xs != [] {
      assert forall k :: 0 <= k < |xs[1..]| ==> xs[1..][k] == xs[k + 1];
      SumRightBounds(xs[1..], lo, hi);
    }
  }

  /** A roll lies between all ones and all sides, moved by the offset. */
  lemma ThrowBounds(e: Expr, i: nat, random: Random, totalDice: nat)
    requires InRange(random)
    ensures var r := Throw(e, totalDice, Values(e, i, random)).result;
      e.dice + e.offset <= r <= e.dice * Iterable.MaxInt(e.sides, 1) + e.offset
  {
    var vs := Values(e, i, random);
    forall k | 0 <= k < |vs| ensures 1 <= vs[k] <= Iterable.MaxInt(e.sides, 1) {
      DieRange(random(i, k), e.sides);
    }
    SumRightBounds(vs, 1, Iterable.MaxInt(e.sides, 1));
    Iterable.SumIsTotal(vs);
  }

  /** With at most two expressions every roll of 2 to 8 dice is detailed. */
  lemma TwoRollsDetailed(es: seq<Expr>, i: nat)
    requires |es| <= 2 && i < |es| && 1 < es[i].dice <= 8
    ensures Detailed(es[i], TotalDice(es))
  {
    TotalDiceBound(es);
  }

  // ---------------------------------------------------------------------------
  // The reply

  /** `NdS`, then the offset with its sign when it is not zero. */
  function Label(e: Expr): string
  {
    Transforms.ShowNat(e.dice) + "d" + Transforms.ShowNat(e.sides) +
    (if e.offset != 0 then (if e.offset > 0 then "+" else "") + Transforms.ShowInt(e.offset) else "")
  }

  /** A match written without leading zeros reads back as itself. */
  lemma LabelOfMatch(m: Match)
    requires DiceShape(m) && m[1].Some? && m[3].Some?
    requires Transforms.Canonical(m[1].value) && Transforms.Canonical(m[2].value) && Transforms.Canonical(m[3].value[1..])
    ensures Label(Read(m)) == m[1].value + "d" + m[2].value + m[3].value
  {
    Transforms.ValueShowNat(m[1].value);
    Transforms.ValueShowNat(m[2].value);
    var o := m[3].value;
    Transforms.ValueShowNat(o[1..]);
    Transforms.CanonicalPositive(o[1..]);
    assert o == [o[0]] + o[1..];
  }

  /** One line of the reply: label, result, and the dice when detailed. */
  function Line(t: Thrown): string
  {
    Label(t.expr) + " = " + Transforms.ShowInt(t.result) +
    (if t.results.Some? then " (" + Iterable.Join(Iterable.Map(t.results.value, Transforms.ShowInt), ", ") + ")" else "")
  }

  function Throws(es: seq<Expr>, totalDice: nat, random: Random): (ts: seq<Thrown>)
    ensures |ts| == |es|
  {
    seq(|es|, i requires 0 <= i < |es| => Throw(es[i], totalDice, Values(es[i], i, random)))
  }

  function LinesOf(ts: seq<Thrown>): seq<string>
  {
    if ts == [] then [] else LinesOf(ts[..|ts| - 1]) + [Line(ts[|ts| - 1])]
  }

  function TotalResult(ts: seq<Thrown>): int
  {
    if ts == [] then 0 else TotalResult(ts[..|ts| - 1]) + ts[|ts| - 1].result
  }

  /** The rolls joined by ` [+] `, and for several the ` [=] ` total. */
  function Summary(es: seq<Expr>, random: Random): string
  {
    var ts := Throws(es, TotalDice(es), random);
    var str := Iterable.Join(LinesOf(ts), " [+] ");
    if |es| > 1 then str + " [=] " + Transforms.ShowInt(TotalResult(ts)) else str
  }

  /** The comm's reply: none for more than six expressions or for any
      refused one. */
  function Reply(ms: seq<Match>, random: Random): Option<string>
    requires Shaped(ms)
  {
    if |ms| > MaxDiceRollsPerMessage then None
    else if forall i :: 0 <= i < |ms| ==> Allowed(Read(ms[i])) then
      Some(Summary(seq(|ms|, i requires 0 <= i < |ms| => Read(ms[i])), random))
    else None
  }

  /** The comm answers exactly when there are at most six expressions and
      none asks for over 20 dice or over 1000 sides. */
  lemma Answers(ms: seq<Match>, random: Random)
    requires Shaped(ms)
    ensures Reply(ms, random).Some? <==>
      |ms| <= 6 && forall i :: 0 <= i < |ms| ==> Read(ms[i]).dice <= 20 && Read(ms[i]).sides <= 1000
  {
  }

  /** A single expression is answered with its own line. */
  lemma SingleRoll(e: Expr, random: Random)
    ensures Summary([e], random) == Line(Throw(e, Weight(e), Values(e, 0, random)))
  {
    assert TotalDice([e]) == Weight(e) by { assert [e][..0] == []; }
    var ts := Throws([e], Weight(e), random);
    assert LinesOf(ts) == [Line(ts[0])] by { assert ts[..0] == []; }
  }

  lemma {:induction false} TotalResultBounds(es: seq<Expr>, random: Random, n: nat)
    requires InRange(random) && n <= |es|
    ensures var ts := Throws(es, TotalDice(es), random);
      Low(es[..n]) <= TotalResult(ts[..n]) <= High(es[..n])
  {
    var ts := Throws(es, TotalDice(es), random);
    if n > 0 {
      TotalResultBounds(es, random, n - 1);
      ThrowBounds(es[n - 1], n - 1, random, TotalDice(es));
      assert ts[..n][..n - 1] == ts[..n - 1];
      assert es[..n][..n - 1] == es[..n - 1];
    }
  }

  /** The least and the most a list of expressions can total. */
  function Low(es: seq<Expr>): int
  {
    if es == [] then 0 else Low(es[..|es| - 1]) + es[|es| - 1].dice + es[|es| - 1].offset
  }

  function High(es: seq<Expr>): int
  {
    if es == [] then 0
    else High(es[..|es| - 1]) + es[|es| - 1].dice * Iterable.MaxInt(es[|es| - 1].sides, 1) + es[|es| - 1].offset
  }

  /** The total of several rolls lies between all ones and all sides. */
  lemma TotalBounds(es: seq<Expr>, random: Random)
    requires InRange(random)
    ensures Low(es) <= TotalResult(Throws(es, TotalDice(es), random)) <= High(es)
  {
    TotalResultBounds(es, random, |es|);
    assert es[..|es|] == es;
    assert Throws(es, TotalDice(es), random)[..|es|] == Throws(es, TotalDice(es), random);
  }

  /** The comm: validate, roll, and assemble the reply while summing the
      results. Each roll is `Throw`, which adds the offset the label
      prints; the source's own roll, which leaves it out, is
      `ThrowAsWritten`. */
  method Dice(ms: seq<Match>, random: Random) returns (reply: Option<string>)
    requires Shaped(ms)
    ensures reply == Reply(ms, random)
  {
    if |ms| > MaxDiceRollsPerMessage {
      return None;
    }
    var ok, es, totalDice := Validate(ms);
    if !ok {
      return None;
    }
    assert es == seq(|ms|, i requires 0 <= i < |ms| => Read(ms[i]));
    var str := Assemble(es, totalDice, random);
    return Some(str);
  }

  /** The reply assembled from the lines of the rolls and their total. */
  method Assemble(es: seq<Expr>, totalDice: nat, random: Random) returns (s: string)
    requires totalDice == TotalDice(es)
    ensures s == Summary(es, random)
  {
    var ts := Throws(es, totalDice, random);
    var lines, totalResult := Lines(ts);
    var str := Iterable.Join(lines, " [+] ");
    s := if |es| > 1 then str + " [=] " + Transforms.ShowInt(totalResult) else str;
  }

  /** Each roll's line and the running `totalResult`. */
  method Lines(ts: seq<Thrown>) returns (lines: seq<string>, totalResult: int)
    ensures lines == LinesOf(ts) && totalResult == TotalResult(ts)
  {
    lines := [];
    totalResult := 0;
    var i := 0;
    while i < |ts|
      invariant 0 <= i <= |ts|
      invariant lines == LinesOf(ts[..i]) && totalResult == TotalResult(ts[..i])
    {
      assert ts[..i + 1][..i] == ts[..i];
      totalResult := totalResult + ts[i].result;
      lines := lines + [Line(ts[i])];
      i := i + 1;
    }
    assert ts[..i] == ts;
  }

  // ---------------------------------------------------------------------------
  // The offset as written

  /** The roll as written and the corrected roll differ exactly in the
      offset: they agree exactly when no offset was written. */
  lemma ThrowAsWrittenAgrees(e: Expr, totalDice: nat, values: seq<int>)
    ensures ThrowAsWritten(e, totalDice, values) == Throw(e, totalDice, values) <==> e.offset == 0
    ensures Throw(e, totalDice, values).result == ThrowAsWritten(e, totalDice, values).result + e.offset
  {
  }

  /** `1d1+1` rolls a single one and shows `= 1`: the offset is printed in
      the label but never added to the result. */
  lemma OffsetIgnoredAsWritten(random: Random)
    requires InRange(random)
    ensures var e := Expr(1, 1, 1);
      var vs := Values(e, 0, random);
      ThrowAsWritten(e, 1, vs).result == 1 && Throw(e, 1, vs).result == 2
  {
    var e := Expr(1, 1, 1);
    var vs := Values(e, 0, random);
    DieRange(random(0, 0), 1);
    assert vs == [1];
    Iterable.SumIsTotal(vs);
  }
}
