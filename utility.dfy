/** The helpers of `utility/index.js`: `extend`, `flatten`, `type`,
    `rangeCheck` and the message built by `UnexpectedTypeError`. */
module Utility {
  import opened Wrappers
  import Iterable
  import Extensions

  /** The JavaScript values these helpers look at. Numbers are integers here;
      an `Obj` carries the tag `Object.prototype.toString` reports for it
      ("Object", "Map", ...), and `Func` the function's `name`. */
  datatype JsValue =
    | Undefined
    | Null
    | Bool(b: bool)
    | Num(n: int)
    | Str(s: string)
    | Arr(items: seq<JsValue>)
    | Func(name: string)
    | Obj(tag: string)

  // ---------------------------------------------------------------------------
  // type

  /** `type(obj)`: "Undefined", "Null", or the tag between `[object ` and
      `]` of `Object.prototype.toString`. */
  function TypeName(v: JsValue): string
  {
    match v
    case Undefined => "Undefined"
    case Null => "Null"
    case Bool(_) => "Boolean"
    case Num(_) => "Number"
    case Str(_) => "String"
    case Arr(_) => "Array"
    case Func(_) => "Function"
    case Obj(tag) => tag
  }

  /** Two built-in (non-object) values get the same type name exactly when
      they are of the same kind. */
  lemma TypeNameSeparatesKinds(a: JsValue, b: JsValue)
    requires !a.Obj? && !b.Obj?
    ensures TypeName(a) == TypeName(b) <==>
      (a.Undefined? && b.Undefined?) || (a.Null? && b.Null?) || (a.Bool? && b.Bool?) ||
      (a.Num? && b.Num?) || (a.Str? && b.Str?) || (a.Arr? && b.Arr?) || (a.Func? && b.Func?)
  {
  }

  // ---------------------------------------------------------------------------
  // rangeCheck

  /** `rangeCheck(value, min, max)`. */
  function RangeCheck(v: JsValue, min: int, max: int): (r: bool)
    ensures r ==> v.Num?
  {
    v.Num? && v.n >= min && v.n <= max
  }

  /** Only numbers pass, an empty range lets nothing through, and widening
      the range keeps every value that passed. */
  lemma RangeCheckBounds(v: JsValue, min: int, max: int, min2: int, max2: int)
    ensures RangeCheck(v, min, max) <==> v.Num? && min <= v.n <= max
    ensures min > max ==> !RangeCheck(v, min, max)
    ensures min2 <= min && max <= max2 && RangeCheck(v, min, max) ==> RangeCheck(v, min2, max2)
  {
  }

  // ---------------------------------------------------------------------------
  // extend

  /** The target after the sources that are objects have been copied in, in
      order: a later source wins. */
  function ExtendAll<V>(t: map<string, V>, sources: seq<map<string, V>>): map<string, V>
  {
    if sources == [] then t else ExtendAll(t, sources[..|sources| - 1]) + sources[|sources| - 1]
  }

  /** The position of the first `null`/`undefined` source (for which
      `Object.getOwnPropertyNames` throws), or the number of sources. */
  function FirstNull<V>(sources: seq<Option<map<string, V>>>): (i: nat)
    ensures i <= |sources|
    ensures forall j :: 0 <= j < i ==> sources[j].Some?
    ensures i < |sources| ==> sources[i].None?
  {
    if sources == [] then 0 else if sources[0].None? then 0 else 1 + FirstNull(sources[1..])
  }

  /** The property maps of sources that are all objects. */
  function Present<V>(sources: seq<Option<map<string, V>>>): (r: seq<map<string, V>>)
    requires forall j :: 0 <= j < |sources| ==> sources[j].Some?
    ensures |r| == |sources|
    ensures forall j :: 0 <= j < |sources| ==> r[j] == sources[j].value
  {
    if sources == [] then [] else [sources[0].value] + Present(sources[1..])
  }

  class JsObject<V> {
    var props: map<string, V>

    constructor (props: map<string, V>)
      ensures this.props == props
    {
      this.props := props;
    }

    /** The inner loop of `extend`: every own property of one source is
        assigned to this object. */
    method CopyProperties(source: map<string, V>)
      modifies this
      ensures props == old(props) + source
    {
      var pending := source.Keys;
      while pending != {}
        invariant pending <= source.Keys
        invariant props == old(props) + map k | k in source.Keys && k !in pending :: source[k]
        decreases pending
      {
        var property :| property in pending;
        props := props[property := source[property]];
        pending := pending - {property};
      }
    }

    /** `extend(target, ...sources)` with this object as the target. Every
        own property of every source is copied in turn; a `null` source
        throws after the sources before it have been copied. */
    method Extend(sources: seq<Option<map<string, V>>>) returns (r: Result<(), Extensions.JsError>)
      modifies this
      ensures var n := FirstNull(sources);
              props == ExtendAll(old(props), Present(sources[..n]))
      ensures r.Ok? <==> FirstNull(sources) == |sources|
      ensures r.Err? ==> r.error == Extensions.TypeError("Cannot convert undefined or null to object")
    {
      var i := 0;
      ghost var copied: seq<map<string, V>> := [];
      while i < |sources|
        invariant 0 <= i <= FirstNull(sources) && |copied| == i
        invariant forall j :: 0 <= j < i ==> copied[j] == sources[j].value
        invariant props == ExtendAll(old(props), copied)
      {
        if sources[i].None? {
          PresentPrefix(sources, i, copied);
          return Err(Extensions.TypeError("Cannot convert undefined or null to object"));
        }
        CopyProperties(sources[i].value);
        ExtendAllSnoc(old(props), copied, sources[i].value);
        copied := copied + [sources[i].value];
        i := i + 1;
      }
      PresentPrefix(sources, i, copied);
      r := Ok(());
    }
  }

  lemma ExtendAllSnoc<V>(t: map<string, V>, sources: seq<map<string, V>>, m: map<string, V>)
    ensures ExtendAll(t, sources + [m]) == ExtendAll(t, sources) + m
  {
    assert (sources + [m])[..|sources|] == sources;
  }

  /** The maps copied from the first `n` sources are their `Present` list. */
  lemma PresentPrefix<V>(sources: seq<Option<map<string, V>>>, n: nat, copied: seq<map<string, V>>)
    requires n <= FirstNull(sources) && |copied| == n
    requires forall j :: 0 <= j < n ==> copied[j] == sources[j].value
    ensures copied == Present(sources[..n])
  {
  }

  /** What `extend` promises when every source is an object: every property
      of a source ends up on the target with the value of the last source
      that has it, and a key no source has keeps its old value. */
  lemma {:induction false} ExtendAllProperties<V>(t: map<string, V>, sources: seq<map<string, V>>, k: string)
    ensures k in ExtendAll(t, sources) <==> k in t || exists i :: 0 <= i < |sources| && k in sources[i]
    ensures (forall i :: 0 <= i < |sources| ==> k !in sources[i]) && k in t ==>
      ExtendAll(t, sources)[k] == t[k]
    ensures forall i :: 0 <= i < |sources| && k in sources[i] &&
                        (forall j :: i < j < |sources| ==> k !in sources[j]) ==>
                          ExtendAll(t, sources)[k] == sources[i][k]
  {
    if sources != [] {
      var init := sources[..|sources| - 1];
      ExtendAllProperties(t, init, k);
      if exists i :: 0 <= i < |init| && k in init[i] {
        var i :| 0 <= i < |init| && k in init[i];
        assert k in sources[i];
      }
    }
  }

  // ---------------------------------------------------------------------------
  // flatten

  /** `isIterable(obj)`: arrays and strings; `null`/`undefined` are not. */
  predicate IsIterable(v: JsValue)
  {
    v.Arr? || v.Str?
  }

  /** `flatten` as written, with a bound on the recursion depth (`None`
      stands for running out of it): iterating a string yields its
      one-character strings, which are iterable again. */
  function FlattenAsWritten(v: JsValue, fuel: nat): Option<seq<JsValue>>
    decreases fuel, 0
  {
    if fuel == 0 then None
    else match v
      case Arr(items) => FlattenItemsAsWritten(items, fuel - 1)
      case Str(s) => FlattenItemsAsWritten(Characters(s), fuel - 1)
      case _ => Some([v])
  }

  function FlattenItemsAsWritten(items: seq<JsValue>, fuel: nat): Option<seq<JsValue>>
    decreases fuel, |items| + 1
  {
    if items == [] then Some([])
    else match (FlattenAsWritten(items[0], fuel), FlattenItemsAsWritten(items[1..], fuel))
      case (Some(a), Some(b)) => Some(a + b)
      case _ => None
  }

  /** What iterating a string yields: its one-character strings. */
  function Characters(s: string): (r: seq<JsValue>)
    ensures |r| == |s|
    ensures forall i :: 0 <= i < |s| ==> r[i] == Str([s[i]])
  {
    if s == [] then [] else [Str([s[0]])] + Characters(s[1..])
  }

  /** On a non-empty string the recursion of `flatten` never ends, however
      deep the stack may grow. */
  lemma {:induction false} FlattenAsWrittenDiverges(s: string, fuel: nat)
    requires s != []
    ensures FlattenAsWritten(Str(s), fuel) == None
    decreases fuel
  {
    if fuel > 0 {
      FlattenAsWrittenDiverges([s[0]], fuel - 1);
    }
  }

  /** `flatten` as intended: a string is a leaf, like any other non-array. */
  function Flatten(v: JsValue): seq<JsValue>
    decreases v
  {
    match v
    case Arr(items) => FlattenItems(items)
    case _ => [v]
  }

  function FlattenItems(items: seq<JsValue>): seq<JsValue>
    decreases items
  {
    if items == [] then [] else Flatten(items[0]) + FlattenItems(items[1..])
  }

  lemma {:induction false} FlattenItemsSnoc(items: seq<JsValue>, x: JsValue)
    ensures FlattenItems(items + [x]) == FlattenItems(items) + Flatten(x)
  {
    if items == [] {
      assert [x][1..] == [];
    } else {
      assert (items + [x])[1..] == items[1..] + [x];
      FlattenItemsSnoc(items[1..], x);
    }
  }

  /** Every element of a flattened value is a leaf: nothing in it is an array. */
  lemma {:induction false} FlattenLeaves(v: JsValue)
    ensures forall x :: x in Flatten(v) ==> !x.Arr?
    ensures !v.Arr? ==> Flatten(v) == [v]
    decreases v, 1
  {
    if v.Arr? { FlattenItemsLeaves(v.items); }
  }

  lemma {:induction false} FlattenItemsLeaves(items: seq<JsValue>)
    ensures forall x :: x in FlattenItems(items) ==> !x.Arr?
    decreases items, 0
  {
    if items != [] {
      FlattenLeaves(items[0]);
      FlattenItemsLeaves(items[1..]);
    }
  }

  /** Values without strings inside. */
  predicate NoText(v: JsValue)
    decreases v
  {
    match v
    case Str(_) => false
    case Arr(items) => forall i :: 0 <= i < |items| ==> NoText(items[i])
    case _ => true
  }

  function Depth(v: JsValue): (d: nat)
    ensures d >= 1
    decreases v
  {
    match v
    case Arr(items) => 1 + DepthItems(items)
    case _ => 1
  }

  function DepthItems(items: seq<JsValue>): (d: nat)
    ensures forall i :: 0 <= i < |items| ==> Depth(items[i]) <= d
    decreases items
  {
    if items == [] then 0 else Iterable.MaxInt(Depth(items[0]), DepthItems(items[1..]))
  }

  /** On values without strings the written `flatten` already does what is
      intended, given a stack as deep as the nesting. */
  lemma {:induction false} FlattenAgrees(v: JsValue, fuel: nat)
    requires NoText(v) && fuel >= Depth(v)
    ensures FlattenAsWritten(v, fuel) == Some(Flatten(v))
    decreases v, 1
  {
    if v.Arr? {
      FlattenItemsAgrees(v.items, fuel - 1);
    }
  }

  lemma {:induction false} FlattenItemsAgrees(items: seq<JsValue>, fuel: nat)
    requires forall i :: 0 <= i < |items| ==> NoText(items[i]) && fuel >= Depth(items[i])
    ensures FlattenItemsAsWritten(items, fuel) == Some(FlattenItems(items))
    decreases items, 0
  {
    if items != [] {
      FlattenAgrees(items[0], fuel);
      FlattenItemsAgrees(items[1..], fuel);
    }
  }

  /** `flatten(obj, array)` as intended, with `acc` as the array: appends the
      leaves of `v` to it from left to right. */
  method FlattenInto(v: JsValue, acc: Extensions.JsArray<JsValue>)
    modifies acc
    ensures acc.items == old(acc.items) + Flatten(v)
    decreases v
  {
    match v {
      case Arr(items) =>
        var i := 0;
        while i < |items|
          invariant 0 <= i <= |items|
          invariant acc.items == old(acc.items) + FlattenItems(items[..i])
        {
          FlattenInto(items[i], acc);
          FlattenItemsSnoc(items[..i], items[i]);
          assert items[..i + 1] == items[..i] + [items[i]];
          i := i + 1;
        }
        assert items[..i] == items;
      case _ =>
        acc.Push(v);
    }
  }

  // ---------------------------------------------------------------------------
  // UnexpectedTypeError

  /** An entry of the `expected` list: something with a non-null `name`
      (a constructor such as `String`), a string, `null`, `undefined`, or a
      value with neither. */
  datatype Expected = Named(name: string) | Text(text: string) | NullEntry | UndefinedEntry | Unnamed

  /** The separator written after entry `i` of `n`. */
  function Separator(i: int, n: int): string
  {
    if i < n - 2 then ", " else if i == n - 2 then " or " else ""
  }

  /** The names joined with ", ", except " or " before the last one. */
  function OrList(names: seq<string>): string
  {
    if names == [] then ""
    else if |names| == 1 then names[0]
    else if |names| == 2 then names[0] + " or " + names[1]
    else names[0] + ", " + OrList(names[1..])
  }

  /** The names, each followed by its separator for a list of `n`. */
  function Listed(names: seq<string>, n: int): string
  {
    if names == [] then ""
    else Listed(names[..|names| - 1], n) + names[|names| - 1] + Separator(|names| - 1, n)
  }

  lemma {:induction false} ListedCons(a: string, rest: seq<string>, n: int)
    ensures Listed([a] + rest, n + 1) == a + Separator(0, n + 1) + Listed(rest, n)
    decreases |rest|
  {
    if rest != [] {
      var init := rest[..|rest| - 1];
      ListedCons(a, init, n);
      assert ([a] + rest)[..|rest|] == [a] + init;
    } else {
      assert ([a] + rest)[..0] == [];
    }
  }

  lemma {:induction false} ListedIsOrList(names: seq<string>)
    ensures Listed(names, |names|) == OrList(names)
  {
    var n := |names|;
    if n == 1 {
      assert names[..0] == [];
    } else if n == 2 {
      ListedCons(names[0], names[1..], 1);
      assert [names[0]] + names[1..] == names;
      assert names[1..][..0] == [];
    } else if n > 2 {
      ListedCons(names[0], names[1..], n - 1);
      assert [names[0]] + names[1..] == names;
      ListedIsOrList(names[1..]);
    }
  }

  /** What one entry contributes as written: `exp.name` throws for `null`
      and `undefined`, before the "Null" branch is reached; an entry with
      neither a name nor string type throws a nested `UnexpectedTypeError`
      whose own `null` entry throws in the same way. */
  function EntryAsWritten(e: Expected): Result<string, Extensions.JsError>
  {
    match e
    case Named(name) => Ok(name)
    case Text(text) => Ok(text)
    case NullEntry => Err(Extensions.TypeError("Cannot read properties of null (reading 'name')"))
    case UndefinedEntry => Err(Extensions.TypeError("Cannot read properties of undefined (reading 'name')"))
    case Unnamed => Err(Extensions.TypeError("Cannot read properties of null (reading 'name')"))
  }

  /** What one entry contributes as intended: a null entry reads "Null" and
      an entry that is neither a name nor a string is reported with an
      `UnexpectedTypeError` of its own. */
  function Entry(e: Expected): (r: Result<string, Extensions.JsError>)
    ensures r.Err? <==> e.Unnamed?
  {
    match e
    case Named(name) => Ok(name)
    case Text(text) => Ok(text)
    case NullEntry => Ok("Null")
    case UndefinedEntry => Ok("Null")
    case Unnamed => Err(Extensions.Error("Expected Constructor, String or Null"))
  }

  /** The message as written, or the error the loop throws first. */
  function MessageAsWritten(expected: seq<Expected>): Result<string, Extensions.JsError>
  {
    MessageLoop(expected, 0, "Expected ")
  }

  function MessageLoop(expected: seq<Expected>, i: nat, str: string): Result<string, Extensions.JsError>
    requires i <= |expected|
    decreases |expected| - i
  {
    if i == |expected| then Ok(str)
    else match EntryAsWritten(expected[i])
      case Err(e) => Err(e)
      case Ok(t) => MessageLoop(expected, i + 1, str + t + Separator(i, |expected|))
  }

  /** The names of entries that all have one. */
  function Names(expected: seq<Expected>): (r: seq<string>)
    requires forall i :: 0 <= i < |expected| ==> Entry(expected[i]).Ok?
    ensures |r| == |expected|
    ensures forall i :: 0 <= i < |expected| ==> r[i] == Entry(expected[i]).value
  {
    if expected == [] then [] else [Entry(expected[0]).value] + Names(expected[1..])
  }

  /** The `UnexpectedTypeError` constructor's loop as intended: the message
      is "Expected " and the entries' names in an or-list. */
  method Message(expected: seq<Expected>) returns (r: Result<string, Extensions.JsError>)
    ensures r.Ok? <==> forall i :: 0 <= i < |expected| ==> !expected[i].Unnamed?
    ensures r.Ok? ==> r.value == "Expected " + OrList(Names(expected))
    ensures r.Err? ==> r.error == Extensions.Error("Expected Constructor, String or Null")
  {
    var str := "Expected ";
    ghost var names: seq<string> := [];
    var i := 0;
    while i < |expected|
      invariant 0 <= i <= |expected| && |names| == i
      invariant forall j :: 0 <= j < i ==> !expected[j].Unnamed? && names[j] == Entry(expected[j]).value
      invariant str == "Expected " + Listed(names, |expected|)
    {
      var t := Entry(expected[i]);
      if t.Err? {
        return t;
      }
      ListedSnoc(names, t.value, |expected|);
      str := str + t.value + Separator(i, |expected|);
      names := names + [t.value];
      i := i + 1;
    }
    ListedAll(expected, names);
    r := Ok(str);
  }

  lemma ListedSnoc(names: seq<string>, a: string, n: int)
    ensures Listed(names + [a], n) == Listed(names, n) + a + Separator(|names|, n)
  {
    assert (names + [a])[..|names|] == names;
  }

  /** Once every entry is listed, the list is the or-list of the names. */
  lemma ListedAll(expected: seq<Expected>, names: seq<string>)
    requires |names| == |expected|
    requires forall j :: 0 <= j < |expected| ==> !expected[j].Unnamed? && names[j] == Entry(expected[j]).value
    ensures Listed(names, |expected|) == OrList(Names(expected))
  {
    assert names == Names(expected);
    ListedIsOrList(names);
  }

  /** The `UnexpectedTypeError` constructor's loop on three named entries,
      as written and as intended, reads "Expected String, Array or Function". */
  lemma MessageExample()
    ensures MessageAsWritten([Named("String"), Named("Array"), Named("Function")]) ==
      Ok("Expected String, Array or Function")
    ensures OrList(Names([Named("String"), Named("Array"), Named("Function")])) == "String, Array or Function"
  {
    MessageLoopExample();
    OrListExample();
  }

  lemma OrListExample()
    ensures OrList(Names([Named("String"), Named("Array"), Named("Function")])) == "String, Array or Function"
  {
    var names := Names([Named("String"), Named("Array"), Named("Function")]);
    assert names == ["String", "Array", "Function"];
    assert names[1..] == ["Array", "Function"];
  }

  lemma MessageLoopExample()
    ensures MessageLoop([Named("String"), Named("Array"), Named("Function")], 0, "Expected ") ==
      Ok("Expected String, Array or Function")
  {
    var e := [Named("String"), Named("Array"), Named("Function")];
    assert MessageLoop(e, 3, "Expected String, Array or Function") == Ok("Expected String, Array or Function");
    assert "Expected String, Array or " + "Function" + Separator(2, 3) == "Expected String, Array or Function";
    assert MessageLoop(e, 2, "Expected String, Array or ") == Ok("Expected String, Array or Function");
    assert "Expected String, " + "Array" + Separator(1, 3) == "Expected String, Array or ";
    assert MessageLoop(e, 1, "Expected String, ") == Ok("Expected String, Array or Function");
    assert "Expected " + "String" + Separator(0, 3) == "Expected String, ";
  }

  /** As written, a `null` entry throws where the intended message reads
      "Expected Null". */
  lemma MessageNullDiffers()
    ensures MessageAsWritten([NullEntry]).Err?
    ensures Names([NullEntry]) == ["Null"]
    ensures "Expected " + OrList(Names([NullEntry])) == "Expected Null"
  {
  }
}
