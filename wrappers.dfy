/** Optional values and results shared by every module of the model.
    `None` stands for JavaScript's `null`/`undefined` where the source
    uses them as "no value"; `Err` stands for a thrown exception. */
module Wrappers {

  datatype Option<+T> = None | Some(value: T)

  datatype Result<+T, +E> = Ok(value: T) | Err(error: E)
}

/** The JavaScript `Set` operations the source relies on, over an
    insertion-ordered sequence without duplicates (the iteration order of a
    JavaScript `Set` is the order in which its elements were first added). */
module JsSet {

  ghost predicate NoDup<T>(s: seq<T>) {
    forall i, j :: 0 <= i < j < |s| ==> s[i] != s[j]
  }

  /** `set.add(x)`: appended when new, otherwise the set is left as it is. */
  function Add<T(==,!new)>(s: seq<T>, x: T): (r: seq<T>)
    ensures forall y :: y in r <==> y in s || y == x
    ensures x in s ==> r == s
    ensures x !in s ==> r == s + [x]
    ensures NoDup(s) ==> NoDup(r)
  {
    if x in s then s else s + [x]
  }

  /** Where `x` first stands in `s`. */
  function Position<T(==)>(s: seq<T>, x: T): (k: nat)
    requires x in s
    ensures k < |s| && s[k] == x && x !in s[..k]
  {
    if s[0] == x then 0 else 1 + Position(s[1..], x)
  }

  /** `set.delete(x)`: every other element keeps its position. */
  function Delete<T(==,!new)>(s: seq<T>, x: T): (r: seq<T>)
    ensures forall y :: y in r <==> y in s && y != x
    ensures x !in s ==> r == s
    ensures |r| <= |s|
    ensures NoDup(s) ==> NoDup(r)
    ensures NoDup(s) && x in s ==> |r| == |s| - 1
  {
    if s == [] then []
    else if s[0] == x then Delete(s[1..], x)
    else
      var rest := Delete(s[1..], x);
      assert NoDup(s) ==> s[0] !in s[1..] && NoDup(s[1..]) by {
        if NoDup(s) {
          forall k | 0 <= k < |s[1..]| ensures s[1..][k] != s[0] { assert s[1..][k] == s[k + 1]; }
        }
      }
      [s[0]] + rest
  }

  /** Deleting a member of a set cuts out its one position: the elements
      before it and after it keep their order. */
  lemma {:induction false} DeleteKeepsOrder<T(!new)>(s: seq<T>, x: T)
    requires NoDup(s) && x in s
    ensures Delete(s, x) == s[..Position(s, x)] + s[Position(s, x) + 1..]
  {
    if s[0] == x {
      assert x !in s[1..] by {
        forall k | 0 <= k < |s[1..]| ensures s[1..][k] != x { assert s[1..][k] == s[k + 1]; }
      }
    } else {
      assert NoDup(s[1..]) by {
        forall i, j | 0 <= i < j < |s[1..]| ensures s[1..][i] != s[1..][j] { assert s[1..][i] == s[i + 1]; }
      }
      DeleteKeepsOrder(s[1..], x);
      PositionTail(s, x);
    }
  }

  /** Cutting `x` out of the tail and putting the head back cuts it out of
      the whole sequence. */
  lemma PositionTail<T>(s: seq<T>, x: T)
    requires s != [] && s[0] != x && x in s
    ensures [s[0]] + (s[1..][..Position(s[1..], x)] + s[1..][Position(s[1..], x) + 1..])
            == s[..Position(s, x)] + s[Position(s, x) + 1..]
  {
    var t := s[1..];
    var j := Position(t, x);
    var k := Position(s, x);
    assert k == j + 1;
    var left := [s[0]] + t[..j];
    assert left == s[..k] by {
      assert |left| == k;
      forall i | 0 <= i < k ensures left[i] == s[..k][i] {
        if i > 0 { assert left[i] == t[i - 1]; }
      }
    }
    assert t[j + 1..] == s[k + 1..];
    assert [s[0]] + (t[..j] + t[j + 1..]) == left + t[j + 1..];
  }




}
