/** The additions the utility library makes to the built-in prototypes
    (`utility/extensions.js`): `String.prototype.splice`,
    `Array.prototype.clear` and `delete`, `Map.prototype.getOrAdd` and
    `deleteGet`. A JavaScript array is a `JsArray` object whose element list
    is reassigned in place; a JavaScript `Map` is a `JsMap` object over a
    Dafny `map` (a key whose value is `undefined` counts as absent, as the
    `=== undefined` tests of the source do). */
module Extensions {
  import opened Wrappers
  import Iterable

  // ---------------------------------------------------------------------------
  // String.prototype.splice

  /** How `str.slice` reads a position: negative positions count back from
      the end, and every position is clamped to the string. */
  function SliceIndex(len: nat, i: int): (r: nat)
    ensures r <= len
    ensures 0 <= i <= len ==> r == i
    ensures i > len ==> r == len
    ensures i < 0 ==> r == Iterable.MaxInt(len + i, 0)
  {
    if i < 0 then (if len + i < 0 then 0 else len + i) else if i > len then len else i
  }

  /** `str.slice(start, end)`. */
  function Slice(s: string, start: int, end: int): string
  {
    var a := SliceIndex(|s|, start);
    var b := SliceIndex(|s|, end);
    if a < b then s[a..b] else ""
  }

  /** What a thrown exception is. */
  datatype JsError = ReferenceError(what: string) | TypeError(what: string) | Error(message: string)

  /** `String.prototype.splice` as written: the body reads a variable `str`
      that is declared nowhere, so every call throws. */
  function SpliceAsWritten(s: string, index: int, count: int, args: seq<string>): (r: Result<string, JsError>)
  {
    Err(ReferenceError("str is not defined"))
  }

  /** `String.prototype.splice` as its doc comment describes it, reading the
      receiver: the text before `index`, then the arguments joined, then the
      text from `index + count` on. */
  function Splice(s: string, index: int, count: int, args: seq<string>): (r: string)
  {
    Slice(s, 0, index) + Iterable.Concat(args) + Slice(s, index + count, |s|)
  }

  /** For positions inside the string, `splice` replaces exactly `count`
      characters at `index` with the joined arguments. */
  lemma SpliceInRange(s: string, index: int, count: int, args: seq<string>)
    requires 0 <= index && 0 <= count && index + count <= |s|
    ensures Splice(s, index, count, args) == s[..index] + Iterable.Concat(args) + s[index + count..]
    ensures |Splice(s, index, count, args)| == |s| - count + |Iterable.Concat(args)|
  {
    assert Slice(s, 0, index) == s[..index];
    assert Slice(s, index + count, |s|) == s[index + count..];
  }

  /** Splicing text in and then splicing it back out restores the string. */
  lemma SpliceUndo(s: string, index: int, count: int, t: string)
    requires 0 <= index && 0 <= count && index + count <= |s|
    ensures Splice(Splice(s, index, count, [t]), index, |t|, [s[index..index + count]]) == s
  {
    var mid := s[index..index + count];
    SpliceOne(s, index, count, t);
    var u := s[..index] + t + s[index + count..];
    SpliceOne(u, index, |t|, mid);
    Reassembled(s, index, count, t);
  }

  /** Splicing a single argument in range. */
  lemma SpliceOne(s: string, index: int, count: int, t: string)
    requires 0 <= index && 0 <= count && index + count <= |s|
    ensures Splice(s, index, count, [t]) == s[..index] + t + s[index + count..]
  {
    assert Iterable.Concat([t]) == t by { assert [t][1..] == []; }
    SpliceInRange(s, index, count, [t]);
  }

  lemma Reassembled(s: string, index: nat, count: nat, t: string)
    requires index + count <= |s|
    ensures var u := s[..index] + t + s[index + count..];
      u[..index] + s[index..index + count] + u[index + |t|..] == s
  {
    var u := s[..index] + t + s[index + count..];
    assert u[..index] == s[..index];
    assert u[index + |t|..] == s[index + count..];
    assert s == s[..index] + s[index..index + count] + s[index + count..];
  }

  /** The method as written never returns what its documentation promises. */
  lemma SpliceAsWrittenFails(s: string, index: int, count: int, args: seq<string>)
    ensures SpliceAsWritten(s, index, count, args) != Ok(Splice(s, index, count, args))
  {
  }

  // ---------------------------------------------------------------------------
  // Array.prototype.clear / delete

  /** `array.indexOf(value)`: the first position holding `value`, or -1. */
  function IndexOf<T(==)>(s: seq<T>, x: T): (i: int)
    ensures i == -1 <==> x !in s
    ensures 0 <= i ==> i < |s| && s[i] == x && x !in s[..i]
    ensures -1 <= i
  {
    if s == [] then -1
    else if s[0] == x then 0
    else
      var k := IndexOf(s[1..], x);
      assert k >= 0 ==> s[..k + 1] == [s[0]] + s[1..][..k];
      if k < 0 then -1 else k + 1
  }

  /** One round of the loop of `delete`: the first occurrence of `value` is
      spliced out and counted, or nothing happens when there is none. */
  function DeleteStep<T(==)>(s: seq<T>, count: nat, value: T): (seq<T>, nat)
  {
    var index := IndexOf(s, value);
    if index < 0 then (s, count) else (s[..index] + s[index + 1..], count + 1)
  }

  /** The array and the count after `delete(...values)` has handled every value. */
  function DeleteEach<T(==)>(s: seq<T>, values: seq<T>): (seq<T>, nat)
  {
    if values == [] then (s, 0)
    else
      var prev := DeleteEach(s, values[..|values| - 1]);
      DeleteStep(prev.0, prev.1, values[|values| - 1])
  }

  class JsArray<T(==)> {
    var items: seq<T>

    constructor (items: seq<T>)
      ensures this.items == items
    {
      this.items := items;
    }

    /** `array.clear()`: sets the length to 0. */
    method Clear()
      modifies this
      ensures items == []
    {
      items := [];
    }

    /** `array.delete(...values)`: removes one entry per value and returns
        the number of entries removed. */
    method Delete(values: seq<T>) returns (count: nat)
      modifies this
      ensures (items, count) == DeleteEach(old(items), values)
    {
      count := 0;
      var k := 0;
      while k < |values|
        invariant 0 <= k <= |values|
        invariant (items, count) == DeleteEach(old(items), values[..k])
      {
        assert values[..k + 1][..k] == values[..k];
        var index := IndexOf(items, values[k]);
        if index >= 0 {
          items := items[..index] + items[index + 1..];
          count := count + 1;
        }
        k := k + 1;
      }
      assert values[..k] == values;
    }

    /** `array.push(value)`. */
    method Push(value: T)
      modifies this
      ensures items == old(items) + [value]
    {
      items := items + [value];
    }
  }

  /** Deleting one value removes its first occurrence only. */
  lemma DeleteOne<T>(s: seq<T>, value: T)
    ensures value in s ==>
      var i := IndexOf(s, value);
      DeleteEach(s, [value]) == (s[..i] + s[i + 1..], 1)
    ensures value !in s ==> DeleteEach(s, [value]) == (s, 0)
  {
    assert [value][..0] == [];
  }

  /** `[1, 1, 1].delete(1)` leaves `[1, 1]`, as the doc comment says. */
  lemma DeleteOneOfThree()
    ensures DeleteEach([1, 1, 1], [1]) == ([1, 1], 1)
  {
    DeleteOne([1, 1, 1], 1);
    assert IndexOf([1, 1, 1], 1) == 0;
    assert [1, 1, 1][..0] + [1, 1, 1][1..] == [1, 1];
  }

  /** Every counted value is one entry fewer; nothing else leaves or enters. */
  lemma {:induction false} DeleteEachCounts<T>(s: seq<T>, values: seq<T>)
    ensures |DeleteEach(s, values).0| + DeleteEach(s, values).1 == |s|
    ensures DeleteEach(s, values).1 <= |values|
    ensures multiset(DeleteEach(s, values).0) <= multiset(s)
  {
    if values != [] {
      var init := values[..|values| - 1];
      DeleteEachCounts(s, init);
      var prev := DeleteEach(s, init);
      var index := IndexOf(prev.0, values[|values| - 1]);
      if index >= 0 {
        var p := prev.0;
        assert p == p[..index] + [p[index]] + p[index + 1..];
        assert multiset(p) == multiset(p[..index]) + multiset{p[index]} + multiset(p[index + 1..]);
      }
    }
  }

  // ---------------------------------------------------------------------------
  // Map.prototype.getOrAdd / deleteGet

  /** The `defaultValue` argument of `getOrAdd`: a value, or a function that
      is called with the key. */
  datatype Default<!K, V> = Value(value: V) | Factory(make: K -> V)

  function DefaultFor<K, V>(d: Default<K, V>, key: K): V
  {
    match d
    case Value(v) => v
    case Factory(make) => make(key)
  }

  /** The value `getOrAdd` returns and the map it leaves. */
  function GetOrAddSpec<K, V>(m: map<K, V>, key: K, d: Default<K, V>): (V, map<K, V>)
  {
    if key in m then (m[key], m) else (DefaultFor(d, key), m[key := DefaultFor(d, key)])
  }

  /** The value `deleteGet` returns (`None` is `undefined`) and the map it leaves. */
  function DeleteGetSpec<K, V>(m: map<K, V>, key: K, default: Option<V>): (Option<V>, map<K, V>)
  {
    if key !in m then (default, m) else (Some(m[key]), m - {key})
  }

  class JsMap<K(==), V> {
    var entries: map<K, V>

    constructor (entries: map<K, V>)
      ensures this.entries == entries
    {
      this.entries := entries;
    }

    /** `map.getOrAdd(key, defaultValue)`. */
    method GetOrAdd(key: K, d: Default<K, V>) returns (value: V)
      modifies this
      ensures (value, entries) == GetOrAddSpec(old(entries), key, d)
    {
      if key in entries {
        value := entries[key];
      } else {
        value := DefaultFor(d, key);
        entries := entries[key := value];
      }
    }

    /** `map.deleteGet(key, defaultValue = undefined)`. */
    method DeleteGet(key: K, default: Option<V>) returns (value: Option<V>)
      modifies this
      ensures (value, entries) == DeleteGetSpec(old(entries), key, default)
    {
      if key !in entries {
        value := default;
      } else {
        value := Some(entries[key]);
        entries := entries - {key};
      }
    }
  }

  /** `getOrAdd` on a present key returns its value and changes nothing; on
      an absent key it stores and returns the default, so a second call with
      any default returns that same value without consulting the default. */
  lemma GetOrAddStable<K, V>(m: map<K, V>, key: K, d: Default<K, V>, d2: Default<K, V>)
    ensures key in m ==> GetOrAddSpec(m, key, d) == (m[key], m)
    ensures key !in m ==> GetOrAddSpec(m, key, d).1 == m[key := DefaultFor(d, key)]
    ensures var (v, m1) := GetOrAddSpec(m, key, d);
            GetOrAddSpec(m1, key, d2) == (v, m1)
  {
  }

  /** `deleteGet` returns the previous value and the key is gone afterwards;
      for an absent key it returns the default and changes nothing. Deleting
      a key that `getOrAdd` has just added restores the map. */
  lemma DeleteGetUndoesGetOrAdd<K, V>(m: map<K, V>, key: K, d: Default<K, V>, default: Option<V>)
    ensures key !in DeleteGetSpec(m, key, default).1
    ensures key in m ==> DeleteGetSpec(m, key, default).0 == Some(m[key])
    ensures key !in m ==> DeleteGetSpec(m, key, default) == (default, m)
    ensures key !in m ==>
      DeleteGetSpec(GetOrAddSpec(m, key, d).1, key, default) == (Some(DefaultFor(d, key)), m)
  {
    if key !in m {
      var m1 := m[key := DefaultFor(d, key)];
      assert m1 - {key} == m;
    }
  }
}
