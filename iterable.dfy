/** The lazy sequence helpers of the utility library (`utility/iterable.js`).
    Every generator there reads its input once, front to back, and never
    changes it, so each one is a function from a finite sequence to the
    sequence of values it yields. JavaScript's `null`/`undefined` results are
    `None`. */
module Iterable {
  import opened Wrappers

  function MinInt(a: int, b: int): int { if a <= b then a else b }
  function MaxInt(a: int, b: int): int { if a >= b then a else b }

  /** `range(start, count, by)`: `start + i * step` for every `i` in `[0, count)`. */
  function Range(start: int, count: int, step: int): (r: seq<int>)
    ensures |r| == MaxInt(count, 0)
    ensures forall i :: 0 <= i < |r| ==> r[i] == start + i * step
    decreases count
  {
    if count <= 0 then [] else Range(start, count - 1, step) + [start + (count - 1) * step]
  }

  /** `all(iterable, func)`: stops at the first element that fails. */
  function All<T>(xs: seq<T>, p: T -> bool): (b: bool)
    ensures b <==> forall i :: 0 <= i < |xs| ==> p(xs[i])
  {
    if xs == [] then true else if !p(xs[0]) then false else All(xs[1..], p)
  }

  /** `any(iterable, func = null)`: without a function, any element at all counts. */
  function Any<T>(xs: seq<T>, p: Option<T -> bool>): (b: bool)
    ensures p.None? ==> (b <==> xs != [])
    ensures p.Some? ==> (b <==> exists i :: 0 <= i < |xs| && p.value(xs[i]))
  {
    if xs == [] then false
    else if p.None? then true
    else if p.value(xs[0]) then true
    else
      var rest := Any(xs[1..], p);
      assert rest <==> exists i :: 1 <= i < |xs| && p.value(xs[i]) by {
        if rest {
          var i :| 0 <= i < |xs[1..]| && p.value(xs[1..][i]);
          assert xs[i + 1] == xs[1..][i];
        }
        if exists i :: 1 <= i < |xs| && p.value(xs[i]) {
          var i :| 1 <= i < |xs| && p.value(xs[i]);
          assert xs[1..][i - 1] == xs[i];
        }
      }
      rest
  }

  /** `map(iterable, func)`. */
  function Map<T, U>(xs: seq<T>, f: T -> U): (r: seq<U>)
    ensures |r| == |xs|
    ensures forall i :: 0 <= i < |xs| ==> r[i] == f(xs[i])
  {
    if xs == [] then [] else [f(xs[0])] + Map(xs[1..], f)
  }

  /** `filter(iterable, func)`. */
  function Filter<T>(xs: seq<T>, p: T -> bool): (r: seq<T>)
    ensures |r| <= |xs|
    ensures forall i :: 0 <= i < |r| ==> p(r[i])
    ensures forall i :: 0 <= i < |xs| && p(xs[i]) ==> xs[i] in r
    ensures forall i :: 0 <= i < |r| ==> r[i] in xs
  {
    if xs == [] then []
    else
      var rest := Filter(xs[1..], p);
      assert forall i :: 1 <= i < |xs| && p(xs[i]) ==> xs[i] in rest by {
        forall i | 1 <= i < |xs| && p(xs[i]) ensures xs[i] in rest { assert xs[1..][i - 1] == xs[i]; }
      }
      if p(xs[0]) then [xs[0]] + rest else rest
  }

  /** The argument `func` of `first`: a function, or any other value, which
      then takes the place of the default value. */
  datatype FirstArg<!T> = Test(p: T -> bool) | NotAFunction(value: Option<T>)

  /** `first(iterable, func = null, defaultValue = null)`. */
  function First<T>(xs: seq<T>, func: FirstArg<T>, default: Option<T>): (r: Option<T>)
    ensures func.NotAFunction? ==> r == if xs == [] then func.value else Some(xs[0])
    ensures func.Test? && (forall i :: 0 <= i < |xs| ==> !func.p(xs[i])) ==> r == default
    ensures func.Test? && (exists i :: 0 <= i < |xs| && func.p(xs[i])) ==>
              exists k :: 0 <= k < |xs| && r == Some(xs[k]) && func.p(xs[k]) &&
                          forall j :: 0 <= j < k ==> !func.p(xs[j])
  {
    match func
    case NotAFunction(v) => if xs == [] then v else Some(xs[0])
    case Test(p) => FindFirst(xs, p, default)
  }

  function FindFirst<T>(xs: seq<T>, p: T -> bool, default: Option<T>): (r: Option<T>)
    ensures (forall i :: 0 <= i < |xs| ==> !p(xs[i])) ==> r == default
    ensures (exists i :: 0 <= i < |xs| && p(xs[i])) ==>
              exists k :: 0 <= k < |xs| && r == Some(xs[k]) && p(xs[k]) &&
                          forall j :: 0 <= j < k ==> !p(xs[j])
  {
    if xs == [] then default
    else if p(xs[0]) then Some(xs[0])
    else
      var r := FindFirst(xs[1..], p, default);
      assert (forall i :: 0 <= i < |xs| ==> !p(xs[i])) ==> r == default by {
        if forall i :: 0 <= i < |xs| ==> !p(xs[i]) {
          forall i | 0 <= i < |xs[1..]| ensures !p(xs[1..][i]) { assert xs[1..][i] == xs[i + 1]; }
        }
      }
      assert (exists i :: 0 <= i < |xs| && p(xs[i])) ==>
               exists k :: 0 <= k < |xs| && r == Some(xs[k]) && p(xs[k]) &&
                           forall j :: 0 <= j < k ==> !p(xs[j]) by {
        if exists i :: 0 <= i < |xs| && p(xs[i]) {
          var i :| 0 <= i < |xs| && p(xs[i]);
          assert xs[1..][i - 1] == xs[i];
          var k :| 0 <= k < |xs[1..]| && r == Some(xs[1..][k]) && p(xs[1..][k]) &&
                   forall j :: 0 <= j < k ==> !p(xs[1..][j]);
          assert xs[k + 1] == xs[1..][k];
          forall j | 0 <= j < k + 1 ensures !p(xs[j]) {
            if j > 0 { assert xs[j] == xs[1..][j - 1]; }
          }
        }
      }
      r
  }

  /** `concat(...iterables)`: the elements of every iterable, in order. */
  function Concat<T>(xss: seq<seq<T>>): (r: seq<T>)
    ensures xss == [] ==> r == []
    ensures |xss| == 1 ==> r == xss[0]
    ensures forall i :: 0 <= i < |xss| ==> |xss[i]| <= |r|
  {
    if xss == [] then []
    else
      var rest := Concat(xss[1..]);
      assert forall i :: 1 <= i < |xss| ==> |xss[i]| <= |rest| by {
        forall i | 1 <= i < |xss| ensures |xss[i]| <= |rest| { assert xss[1..][i - 1] == xss[i]; }
      }
      xss[0] + rest
  }


  /** `prepend(iterable, ...values)` is `concat(values, iterable)`. */
  function Prepend<T>(it: seq<T>, values: seq<T>): (r: seq<T>)
    ensures r == values + it
  {
    assert [values, it][1..] == [it];
    Concat([values, it])
  }

  /** `append(iterable, ...values)` is `concat(iterable, values)`. */
  function Append<T>(it: seq<T>, values: seq<T>): (r: seq<T>)
    ensures r == it + values
  {
    assert [it, values][1..] == [values];
    Concat([it, values])
  }

  /** `take(iterable, count)`: the loop yields, then counts down, and stops at zero. */
  function Take<T>(xs: seq<T>, count: int): (r: seq<T>)
    ensures count <= 0 ==> r == []
    ensures count > 0 ==> r == xs[..MinInt(count, |xs|)]
  {
    if count <= 0 || xs == [] then []
    else if count - 1 <= 0 then [xs[0]]
    else [xs[0]] + Take(xs[1..], count - 1)
  }

  /** `skip(iterable, count)`: an element is yielded once the decremented
      counter is negative. */
  function Skip<T>(xs: seq<T>, count: int): (r: seq<T>)
    ensures r == xs[MinInt(MaxInt(count, 0), |xs|)..]
  {
    if xs == [] then []
    else if count - 1 < 0 then [xs[0]] + Skip(xs[1..], count - 1)
    else Skip(xs[1..], count - 1)
  }

  /** `zip(first, second, func)`: stops as soon as either side is done. */
  function Zip<A, B, C>(a: seq<A>, b: seq<B>, f: (A, B) -> C): (r: seq<C>)
    ensures |r| == MinInt(|a|, |b|)
    ensures forall i :: 0 <= i < |r| ==> r[i] == f(a[i], b[i])
  {
    if a == [] || b == [] then [] else [f(a[0], b[0])] + Zip(a[1..], b[1..], f)
  }

  /** `aggregate(iterable, value, func)` with a seed: a left fold. */
  function Aggregate<T, A>(xs: seq<T>, seed: A, f: (A, T) -> A): A
  {
    if xs == [] then seed else Aggregate(xs[1..], f(seed, xs[0]), f)
  }

  /** `aggregate(iterable, func)` without a seed: the first element is the
      seed, and an empty iterable gives `undefined`. */
  function AggregateNoSeed<T>(xs: seq<T>, f: (T, T) -> T): (r: Option<T>)
    ensures r.None? <==> xs == []
  {
    if xs == [] then None else Some(Aggregate(xs[1..], xs[0], f))
  }

  function Plus(a: int, b: int): int { a + b }
  function Larger(a: int, b: int): int { if b > a then b else a }
  function Smaller(a: int, b: int): int { if b < a then b else a }

  /** `sum(iterable)`. */
  function Sum(xs: seq<int>): int { Aggregate(xs, 0, Plus) }

  /** `max(iterable)`: keeps `b` when `b > a`. */
  function Max(xs: seq<int>): Option<int> { AggregateNoSeed(xs, Larger) }

  /** `min(iterable)`: keeps `b` when `b < a`. */
  function Min(xs: seq<int>): Option<int> { AggregateNoSeed(xs, Smaller) }

  /** `join(iterable, separator)`: `"" + aggregate(...)`, so an empty
      iterable gives the text "undefined". */
  function Join(xs: seq<string>, sep: string): string
  {
    match AggregateNoSeed(xs, (a: string, b: string) => a + sep + b)
    case None => "undefined"
    case Some(s) => s
  }

  /** An independent, right-recursive sum. */
  function SumRight(xs: seq<int>): int { if xs == [] then 0 else xs[0] + SumRight(xs[1..]) }

  // ---------------------------------------------------------------------------
  // Properties

  /** Folding one more element is one more application of `func`. */
  lemma {:induction false} AggregateSnoc<T, A>(xs: seq<T>, x: T, seed: A, f: (A, T) -> A)
    ensures Aggregate(xs + [x], seed, f) == f(Aggregate(xs, seed, f), x)
  {
    if xs == [] {
      assert [x][1..] == [];
    } else {
      assert (xs + [x])[1..] == xs[1..] + [x];
      AggregateSnoc(xs[1..], x, f(seed, xs[0]), f);
    }
  }

  /** Folding a concatenation folds the second part from the first part's result. */
  lemma {:induction false} AggregateAppend<T, A>(xs: seq<T>, ys: seq<T>, seed: A, f: (A, T) -> A)
    ensures Aggregate(xs + ys, seed, f) == Aggregate(ys, Aggregate(xs, seed, f), f)
  {
    if xs != [] {
      assert (xs + ys)[1..] == xs[1..] + ys;
      AggregateAppend(xs[1..], ys, f(seed, xs[0]), f);
    } else {
      assert xs + ys == ys;
    }
  }

  /** `sum` is a fold from 0: it agrees with the ordinary sum. */
  lemma {:induction false} SumIsTotal(xs: seq<int>)
    ensures Sum(xs) == SumRight(xs)
  {
    SumFrom(xs, 0);
  }

  lemma {:induction false} SumFrom(xs: seq<int>, seed: int)
    ensures Aggregate(xs, seed, Plus) == seed + SumRight(xs)
  {
    if xs != [] { SumFrom(xs[1..], seed + xs[0]); }
  }

  lemma {:induction false} LargerFold(xs: seq<int>, seed: int)
    ensures var m := Aggregate(xs, seed, Larger);
            m >= seed && (forall x :: x in xs ==> x <= m) && (m == seed || m in xs)
  {
    if xs != [] {
      LargerFold(xs[1..], Larger(seed, xs[0]));
      forall x | x in xs ensures x <= Aggregate(xs, seed, Larger) {
        if x != xs[0] { assert x in xs[1..]; }
      }
    }
  }

  lemma {:induction false} SmallerFold(xs: seq<int>, seed: int)
    ensures var m := Aggregate(xs, seed, Smaller);
            m <= seed && (forall x :: x in xs ==> m <= x) && (m == seed || m in xs)
  {
    if xs != [] {
      SmallerFold(xs[1..], Smaller(seed, xs[0]));
      forall x | x in xs ensures Aggregate(xs, seed, Smaller) <= x {
        if x != xs[0] { assert x in xs[1..]; }
      }
    }
  }

  /** `max` yields the largest element (the source's doc comment says "smallest"),
      and `undefined` only for an empty input. */
  lemma MaxIsLargest(xs: seq<int>)
    ensures Max(xs).None? <==> xs == []
    ensures xs != [] ==> Max(xs).value in xs && forall x :: x in xs ==> x <= Max(xs).value
  {
    if xs != [] {
      LargerFold(xs[1..], xs[0]);
      assert xs == [xs[0]] + xs[1..];
    }
  }

  /** `min` yields the smallest element (the source's doc comment says "largest"). */
  lemma MinIsSmallest(xs: seq<int>)
    ensures Min(xs).None? <==> xs == []
    ensures xs != [] ==> Min(xs).value in xs && forall x :: x in xs ==> Min(xs).value <= x
  {
    if xs != [] {
      SmallerFold(xs[1..], xs[0]);
      assert xs == [xs[0]] + xs[1..];
    }
  }

  /** `join` puts the separator between neighbours, and gives "undefined" for
      nothing at all. */
  lemma JoinShape(xs: seq<string>, y: string, sep: string)
    ensures Join([], sep) == "undefined"
    ensures Join([y], sep) == y
    ensures xs != [] ==> Join(xs + [y], sep) == Join(xs, sep) + sep + y
  {
    if xs != [] {
      assert (xs + [y])[0] == xs[0];
      assert (xs + [y])[1..] == xs[1..] + [y];
      AggregateSnoc(xs[1..], y, xs[0], (a: string, b: string) => a + sep + b);
    }
  }

  /** With the empty separator, `join` of a non-empty input is plain concatenation. */
  lemma {:induction false} JoinEmptySeparator(xs: seq<string>)
    requires xs != []
    ensures Join(xs, "") == Concat(xs)
  {
    if |xs| > 1 {
      var init := xs[..|xs| - 1];
      assert xs == init + [xs[|xs| - 1]];
      JoinShape(init, xs[|xs| - 1], "");
      JoinEmptySeparator(init);
      ConcatAppend(init, [xs[|xs| - 1]]);
    } else {
      assert xs == [xs[0]];
      JoinShape([], xs[0], "");
    }
  }

  /** `concat` distributes over the sequence of iterables. */
  lemma {:induction false} ConcatAppend<T>(a: seq<seq<T>>, b: seq<seq<T>>)
    ensures Concat(a + b) == Concat(a) + Concat(b)
  {
    if a == [] {
      assert a + b == b;
    } else {
      assert (a + b)[1..] == a[1..] + b;
      ConcatAppend(a[1..], b);
    }
  }

  /** `take` and `skip` with the same count split the input in two. */
  lemma TakeSkip<T>(xs: seq<T>, count: int)
    ensures Take(xs, count) + Skip(xs, count) == xs
  {
  }

  /** Nothing passes a filter no element satisfies. */
  lemma {:induction false} FilterNone<T>(xs: seq<T>, p: T -> bool)
    requires forall i :: 0 <= i < |xs| ==> !p(xs[i])
    ensures Filter(xs, p) == []
  {
    if xs != [] {
      assert forall i :: 0 <= i < |xs[1..]| ==> xs[1..][i] == xs[i + 1];
      FilterNone(xs[1..], p);
    }
  }

  /** `filter` keeps the order: filtering a concatenation filters each part. */
  lemma {:induction false} FilterAppend<T>(xs: seq<T>, ys: seq<T>, p: T -> bool)
    ensures Filter(xs + ys, p) == Filter(xs, p) + Filter(ys, p)
  {
    if xs == [] {
      assert xs + ys == ys;
    } else {
      assert (xs + ys)[1..] == xs[1..] + ys;
      FilterAppend(xs[1..], ys, p);
    }
  }

  /** `all` is the dual of `any`: true on an empty input, where `any` is false. */
  lemma AllAnyDual<T>(xs: seq<T>, p: T -> bool)
    ensures All(xs, p) <==> !Any(xs, Some((x: T) => !p(x)))
    ensures All<T>([], p) && !Any<T>([], Some(p)) && !Any<T>([], None)
    ensures Any(xs, None) <==> xs != []
  {
  }
}
