/**
 * The loosely typed values the application handles: what `json_decode($s, true)` returns and what
 * PHP's `??`, truthiness, `(int)`, `(string)` and `array_merge` do with them.
 *
 * A PHP array is an ordered sequence of entries, each keyed by an integer or a string.
 */
module Php {
  import opened Wrappers
  import opened Text

  datatype Key = IntKey(i: int) | StrKey(s: string)

  datatype Value =
    | Null
    | Bool(b: bool)
    | Int(i: int)
      /** A float, carried as PHP's own rendering of it ("4.5", "0", "-0", "1.0E+25"). */
    | Float(repr: string)
    | Str(s: string)
    | Arr(entries: seq<Entry>)

  datatype Entry = Entry(key: Key, value: Value)

  function Keys(es: seq<Entry>): (ks: seq<Key>)
    ensures |ks| == |es|
    ensures forall i :: 0 <= i < |es| ==> ks[i] == es[i].key
  {
    seq(|es|, i requires 0 <= i < |es| => es[i].key)
  }

  /** The values of an array in iteration order (what `foreach ($a as $v)` visits). */
  function Values(es: seq<Entry>): (vs: seq<Value>)
    ensures |vs| == |es|
    ensures forall i :: 0 <= i < |es| ==> vs[i] == es[i].value
  {
    seq(|es|, i requires 0 <= i < |es| => es[i].value)
  }

  /** The value of the first entry keyed `k`. */
  function Find(es: seq<Entry>, k: Key): (r: Option<Value>)
    ensures r.Some? <==> k in Keys(es)
    ensures r.Some? ==> exists i :: 0 <= i < |es| && es[i] == Entry(k, r.value)
  {
    if es == [] then None
    else if es[0].key == k then Some(es[0].value)
    else
      var r := Find(es[1..], k);
      assert Keys(es) == [es[0].key] + Keys(es[1..]);
      assert r.Some? ==> exists i :: 1 <= i < |es| && es[i] == Entry(k, r.value) by {
        if r.Some? {
          var i :| 0 <= i < |es| - 1 && es[1..][i] == Entry(k, r.value);
          assert es[i + 1] == Entry(k, r.value);
        }
      }
      r
  }

  /**
   * `isset($v[$k])` and the value it guards. An entry holding null counts as absent; a string
   * answers integer offsets (negative ones counting from its end) with a one-character string and
   * answers no non-numeric string key; every other scalar answers nothing.
   */
  function Get(v: Value, k: Key): (r: Option<Value>)
    ensures r != Some(Null)
    ensures v.Arr? && Find(v.entries, k).Some? && Find(v.entries, k).value != Null ==> r == Find(v.entries, k)
    ensures v.Arr? && (Find(v.entries, k).None? || Find(v.entries, k) == Some(Null)) ==> r.None?
    ensures !v.Arr? && !v.Str? ==> r.None?
  {
    match v
    case Arr(es) =>
      (match Find(es, k)
       case Some(x) => if x.Null? then None else Some(x)
       case None => None)
    case Str(s) =>
      (match k
       case IntKey(i) =>
         if 0 <= i < |s| then Some(Str([s[i]]))
         else if -|s| <= i < 0 then Some(Str([s[|s| + i]]))
         else None
       case StrKey(_) => None)
    case _ => None
  }

  /** `$v[$k1][$k2]…` read under `isset`/`??`: absent as soon as one step is unset or null. */
  function Path(v: Value, ks: seq<Key>): (r: Option<Value>)
    ensures r != Some(Null)
    ensures ks == [] ==> (r.Some? <==> v != Null)
    decreases |ks|
  {
    if ks == [] then (if v.Null? then None else Some(v))
    else
      match Get(v, ks[0])
      case None => None
      case Some(w) => Path(w, ks[1..])
  }

  /** `$v['name']` under `??`. */
  function Field(v: Value, name: string): (r: Option<Value>)
    ensures r != Some(Null)
  {
    Get(v, StrKey(name))
  }

  /** PHP's conversion to bool: null, false, 0, 0.0, "", "0" and the empty array are false. */
  predicate Truthy(v: Value) {
    match v
    case Null => false
    case Bool(b) => b
    case Int(i) => i != 0
    case Float(repr) => repr != "0" && repr != "-0"
    case Str(s) => s != "" && s != "0"
    case Arr(es) => |es| > 0
  }

  /**
   * PHP's `(int)` cast. A string is read by its numeric prefix (see `LeadingInt`), a float
   * rendering is truncated (see `FloatToInt`); an array gives 1 when non-empty.
   */
  function IntCast(v: Value): (r: int)
    ensures v.Int? ==> r == v.i
    ensures v.Null? ==> r == 0
    ensures !v.Int? ==> IntMin <= r <= IntMax
    ensures v.Str? && |v.s| > 0 && AllDigits(v.s) && DigitsValue(v.s) <= IntMax ==> r == DigitsValue(v.s)
    ensures v.Str? && |v.s| > 0 && AllDigits(v.s) && IntMax < DigitsValue(v.s) < DoubleOverflow ==> r == IntMax
  {
    match v
    case Null => 0
    case Bool(b) => if b then 1 else 0
    case Int(i) => i
    case Float(repr) => FloatToInt(repr)
    case Str(s) =>
      if |s| > 0 && AllDigits(s) && DigitsValue(s) < DoubleOverflow then LeadingIntOfDigits(s); LeadingInt(s) else LeadingInt(s)
    case Arr(es) => if |es| == 0 then 0 else 1
  }

  /** A float is truncated toward zero: `(int)` of the float rendered `a.b` is `a`. */
  lemma IntCastOfFraction(repr: string, a: string, b: string)
    requires 0 < |a| < |repr| && repr[..|a|] == a && repr[|a|] == '.' && repr[|a| + 1..] == b
    requires AllDigits(a) && AllDigits(b) && DigitsValue(a) <= IntMax
    ensures IntCast(Float(repr)) == DigitsValue(a)
  {
    FloatToIntOfFraction(repr, a, b);
  }

  /** `(int) 4.9` is 4. */
  lemma IntCastOfFourPointNine()
    ensures IntCast(Float("4.9")) == 4
  {
    var s := "4.9";
    assert s[..1] == "4" && s[2..] == "9";
    assert DigitsValue("4") == 4 by {
      assert "4"[..0] == [];
    }
    IntCastOfFraction(s, "4", "9");
  }

  /** A float rendered with a negative exponent is read with it: `(int) 1.0E-5` is 0. */
  lemma IntCastOfSmallFloat()
    ensures IntCast(Float("1.0E-5")) == 0
  {
    var s := "1.0E-5";
    assert s[0] == '1' && s[1] == '.' && s[2] == '0' && s[3] == 'E' && s[4] == '-' && s[5] == '5';
    FloatToIntOfSmallFloat(s);
  }

  lemma FloatToIntOfSmallFloat(s: string)
    requires |s| == 6 && s[0] == '1' && s[1] == '.' && s[2] == '0' && s[3] == 'E' && s[4] == '-' && s[5] == '5'
    ensures FloatToInt(s) == 0
  {
    NumericPrefixOfSmallFloat(s);
    assert Pow10(6) == 1000000;
    FloatToIntOfPrefix(s, Decimal(false, 10, -6));
  }

  /** A rendering spelled `1.0E-5` reads as 10 * 10^-6. */
  lemma NumericPrefixOfSmallFloat(s: string)
    requires |s| == 6 && s[0] == '1' && s[1] == '.' && s[2] == '0' && s[3] == 'E' && s[4] == '-' && s[5] == '5'
    ensures NumericPrefix(s) == Some(Decimal(false, 10, -6))
  {
    assert ExponentValue(s, 3) == -5 by {
      assert DigitRunEnd(s, 5) == 6;
      assert s[5..6] == "5";
      assert DigitsValue("5") == 5 by {
        assert "5"[..0] == [];
      }
    }
    assert s[..0] == [] && s[0..1] == "1" && s[2..3] == "0";
    assert AllDigits("1") && AllDigits("0");
    FractionShape(s, 0, 1, 3, "1", "0", -5);
    TenMillionths(s);
  }

  /** The digits `1` and `0` scaled by 10^-5 and by the length of `0` are 10 * 10^-6. */
  lemma TenMillionths(s: string)
    requires NumericPrefix(s) == Some(Decimal(false, DigitsValue("1" + "0"), -5 - |"0"|))
    ensures NumericPrefix(s) == Some(Decimal(false, 10, -6))
  {
    assert "1" + "0" == "10" && "10"[..1] == "1" && "1"[..0] == [];
  }

  /** PHP's `(string)` cast; an array renders as "Array". */
  function StringCast(v: Value): (r: string)
    ensures v.Str? ==> r == v.s
    ensures v.Null? || v == Bool(false) ==> r == ""
    ensures v.Int? && v.i >= 0 ==> AllDigits(r) && DigitsValue(r) == v.i
  {
    match v
    case Null => ""
    case Bool(b) => if b then "1" else ""
    case Int(i) => if i >= 0 then DigitsValueOfNatToString(i); IntToString(i) else IntToString(i)
    case Float(repr) => repr
    case Str(s) => s
    case Arr(_) => "Array"
  }

  /**
   * String interpolation or concatenation of a value. An array raises the "Array to string
   * conversion" warning, which the framework's error handler turns into an exception: `None`.
   */
  function AsText(v: Value): (r: Option<string>)
    ensures r.None? <==> v.Arr?
    ensures r.Some? ==> r.value == StringCast(v)
  {
    if v.Arr? then None else Some(StringCast(v))
  }

  /** `(string) $key` of an array key. */
  function KeyText(k: Key): string {
    match k
    case IntKey(i) => IntToString(i)
    case StrKey(s) => s
  }

  // ---------------------------------------------------------------------------------------------
  // array_merge

  /** The number of integer keys among `ks`. */
  function IntCount(ks: seq<Key>): (n: nat)
    ensures n <= |ks|
  {
    if ks == [] then 0 else IntCount(ks[..|ks| - 1]) + (if ks[|ks| - 1].IntKey? then 1 else 0)
  }

  /** The first position of `k` in `ks`. */
  function KeyIndex(ks: seq<Key>, k: Key): (r: Option<nat>)
    ensures r.Some? ==> r.value < |ks| && ks[r.value] == k
    ensures r.Some? ==> forall j :: 0 <= j < r.value ==> ks[j] != k
    ensures r.None? <==> k !in ks
  {
    if ks == [] then None
    else if ks[0] == k then Some(0)
    else
      match KeyIndex(ks[1..], k)
      case None => None
      case Some(j) => Some(j + 1)
  }

  /**
   * The key of one more entry fits the shape `array_merge` builds: an integer key is the next
   * number in sequence, a string key is new.
   */
  predicate FitsAfter(ks: seq<Key>, k: Key) {
    match k
    case IntKey(i) => i == IntCount(ks)
    case StrKey(_) => k !in ks
  }

  /**
   * Keys as `array_merge` leaves them: integer keys renumbered 0, 1, 2, … in order, string keys
   * distinct.
   */
  predicate Packed(ks: seq<Key>) {
    ks == [] || (Packed(ks[..|ks| - 1]) && FitsAfter(ks[..|ks| - 1], ks[|ks| - 1]))
  }

  /**
   * One step of `array_merge`: an integer-keyed entry is appended under the next integer key; a
   * string-keyed entry overwrites the value of an existing entry with that key in place, or is
   * appended.
   */
  function Put(acc: seq<Entry>, e: Entry): (r: seq<Entry>)
    ensures |acc| <= |r| <= |acc| + 1
    ensures Keys(acc) <= Keys(r)
  {
    match e.key
    case IntKey(_) => acc + [Entry(IntKey(IntCount(Keys(acc))), e.value)]
    case StrKey(_) =>
      match KeyIndex(Keys(acc), e.key)
      case Some(j) => acc[j := Entry(e.key, e.value)]
      case None => acc + [e]
  }

  /** Every entry of `es` merged, in order, into `acc`. */
  function MergeInto(acc: seq<Entry>, es: seq<Entry>): (r: seq<Entry>)
    decreases |es|
  {
    if es == [] then acc else Put(MergeInto(acc, es[..|es| - 1]), es[|es| - 1])
  }

  /** `array_merge($a, $b)` of two arrays. */
  function ArrayMerge(a: seq<Entry>, b: seq<Entry>): seq<Entry> {
    MergeInto(MergeInto([], a), b)
  }

  /** A list: keys 0, 1, 2, … in order, as `json_decode` gives for a JSON array. */
  predicate IsList(es: seq<Entry>) {
    forall i :: 0 <= i < |es| ==> es[i].key == IntKey(i)
  }

  /** The list holding `vs` in order. */
  function ListOf(vs: seq<Value>): (es: seq<Entry>)
    ensures IsList(es) && Values(es) == vs
  {
    seq(|vs|, i requires 0 <= i < |vs| => Entry(IntKey(i), vs[i]))
  }

  predicate AllIntKeys(es: seq<Entry>) {
    forall i :: 0 <= i < |es| ==> es[i].key.IntKey?
  }

  lemma ValuesSnoc(es: seq<Entry>, e: Entry)
    ensures Values(es + [e]) == Values(es) + [e.value]
  {
  }

  lemma ListSnoc(es: seq<Entry>, v: Value)
    requires IsList(es)
    ensures IsList(es + [Entry(IntKey(|es|), v)])
  {
  }

  lemma {:induction false} IntCountOfList(es: seq<Entry>)
    requires IsList(es)
    ensures IntCount(Keys(es)) == |es|
    decreases |es|
  {
    if es != [] {
      IntCountOfList(es[..|es| - 1]);
      assert Keys(es)[..|es| - 1] == Keys(es[..|es| - 1]);
    }
  }

  /** Merging never removes or moves an entry's key: the old keys stay a prefix, in place. */
  lemma {:induction false} MergeIntoKeepsKeys(acc: seq<Entry>, es: seq<Entry>)
    ensures Keys(acc) <= Keys(MergeInto(acc, es))
    ensures |acc| <= |MergeInto(acc, es)| <= |acc| + |es|
    decreases |es|
  {
    if es != [] {
      MergeIntoKeepsKeys(acc, es[..|es| - 1]);
    }
  }

  /** `array_merge` keeps the shape it builds. */
  lemma PutPacked(acc: seq<Entry>, e: Entry)
    requires Packed(Keys(acc))
    ensures Packed(Keys(Put(acc, e)))
  {
    var r := Put(acc, e);
    match e.key
    case IntKey(_) =>
      assert Keys(r)[..|r| - 1] == Keys(acc);
    case StrKey(_) =>
      match KeyIndex(Keys(acc), e.key)
      case Some(j) =>
        assert Keys(r) == Keys(acc);
      case None =>
        assert Keys(r)[..|r| - 1] == Keys(acc);
  }

  lemma {:induction false} MergeIntoPacked(acc: seq<Entry>, es: seq<Entry>)
    requires Packed(Keys(acc))
    ensures Packed(Keys(MergeInto(acc, es)))
    decreases |es|
  {
    if es != [] {
      MergeIntoPacked(acc, es[..|es| - 1]);
      PutPacked(MergeInto(acc, es[..|es| - 1]), es[|es| - 1]);
    }
  }

  /** A merge result merged again unchanged: `array_merge($a)` is `$a` once `$a` is packed. */
  lemma {:induction false} MergePackedIdentity(a: seq<Entry>)
    requires Packed(Keys(a))
    ensures MergeInto([], a) == a
    decreases |a|
  {
    if a != [] {
      var init := a[..|a| - 1];
      assert Keys(init) == Keys(a)[..|a| - 1];
      MergePackedIdentity(init);
      var e := a[|a| - 1];
      assert FitsAfter(Keys(init), e.key);
      assert a == init + [e];
      match e.key
      case IntKey(_) =>
      case StrKey(_) =>
        assert KeyIndex(Keys(init), e.key).None?;
    }
  }

  lemma {:induction false} ListPacked(es: seq<Entry>)
    requires IsList(es)
    ensures Packed(Keys(es))
    decreases |es|
  {
    if es != [] {
      var init := es[..|es| - 1];
      assert Keys(init) == Keys(es)[..|es| - 1];
      ListPacked(init);
      IntCountOfList(init);
    }
  }

  /**
   * Merging integer-keyed entries into a list appends their values in order, whatever their keys.
   */
  lemma {:induction false} MergeIntoListAppends(acc: seq<Entry>, es: seq<Entry>)
    requires IsList(acc) && AllIntKeys(es)
    ensures IsList(MergeInto(acc, es))
    ensures Values(MergeInto(acc, es)) == Values(acc) + Values(es)
    decreases |es|
  {
    if es == [] {
      assert Values(acc) + Values(es) == Values(acc);
    } else {
      var init := es[..|es| - 1];
      var last := es[|es| - 1];
      MergeIntoListAppends(acc, init);
      var m := MergeInto(acc, init);
      IntCountOfList(m);
      var e := Entry(IntKey(|m|), last.value);
      assert Put(m, last) == m + [e] by {
        assert last.key.IntKey?;
      }
      assert MergeInto(acc, es) == Put(m, last);
      ValuesSnoc(m, e);
      ListSnoc(m, last.value);
      assert es == init + [last];
      ValuesSnoc(init, last);
      Regroup(Values(acc), Values(init), [last.value], Values(es), Values(m));
    }
  }

  /** `a + (b + c) == (a + b) + c`, for sequences named by the caller. */
  lemma Regroup<T>(a: seq<T>, b: seq<T>, c: seq<T>, bc: seq<T>, ab: seq<T>)
    requires bc == b + c && ab == a + b
    ensures a + bc == ab + c
  {
  }

  /**
   * `array_merge` of a list and an integer-keyed array is a list holding their values
   * concatenated.
   */
  lemma ArrayMergeLists(a: seq<Entry>, b: seq<Entry>)
    requires IsList(a) && AllIntKeys(b)
    ensures IsList(ArrayMerge(a, b))
    ensures Values(ArrayMerge(a, b)) == Values(a) + Values(b)
  {
    ListPacked(a);
    MergePackedIdentity(a);
    MergeIntoListAppends(a, b);
  }

  /** Replacing the first entry keyed `e.key` by `e`: that key now reads `e.value`, every other key as before. */
  lemma {:induction false} FindUpdateFirst(es: seq<Entry>, j: nat, e: Entry, k: Key)
    requires j < |es| && es[j].key == e.key
    requires forall i :: 0 <= i < j ==> es[i].key != e.key
    ensures Find(es[j := e], k) == if k == e.key then Some(e.value) else Find(es, k)
    decreases j
  {
    if j > 0 {
      assert es[j := e][1..] == es[1..][j - 1 := e];
      FindUpdateFirst(es[1..], j - 1, e, k);
    }
  }

  /** Appending an entry: a key already present reads as before, the new key reads its value. */
  lemma {:induction false} FindSnoc(es: seq<Entry>, e: Entry, k: Key)
    ensures Find(es + [e], k) == if Find(es, k).Some? then Find(es, k) else if e.key == k then Some(e.value) else None
    decreases |es|
  {
    if es != [] {
      assert (es + [e])[1..] == es[1..] + [e];
      FindSnoc(es[1..], e, k);
    }
  }

  /**
   * `$a[k] = v` for a string key `k` (what `Put` does with a string-keyed entry): `k` reads `v`
   * afterwards and every other key reads as before.
   */
  lemma PutReads(acc: seq<Entry>, k: string, v: Value, other: Key)
    ensures Find(Put(acc, Entry(StrKey(k), v)), StrKey(k)) == Some(v)
    ensures other != StrKey(k) ==> Find(Put(acc, Entry(StrKey(k), v)), other) == Find(acc, other)
  {
    var e := Entry(StrKey(k), v);
    match KeyIndex(Keys(acc), e.key)
    case Some(j) =>
      FindUpdateFirst(acc, j, e, StrKey(k));
      FindUpdateFirst(acc, j, e, other);
    case None =>
      FindSnoc(acc, e, StrKey(k));
      FindSnoc(acc, e, other);
  }
}
