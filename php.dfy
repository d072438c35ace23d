/**
 The PHP values the servers collection handles: the arrays it is passed by
 its callers and the objects json_decode produces from a response body,
 together with the few PHP rules the collection relies on (`empty`,
 `== null`, reading a property, `property_exists`) and the key-preserving
 `collect(...)->map(...)->toArray()` of the collection library.
 */
module Php {
  import opened Wrappers

  /** A key of a PHP array (an integer or a string). */
  datatype Key = IntKey(n: int) | StrKey(s: string)

  /** One entry of a PHP array, or one property of an object, with its key. */
  datatype Item<T> = Item(key: Key, value: T)

  /**
   A PHP value. Floating-point numbers are not modelled. `Int(i)` stands
   for a PHP integer only when `InIntRange(i)`; integers are otherwise
   unbounded here, and no operation of the model overflows. Only values whose
   arrays and objects hold each key once stand for PHP values (a PHP array
   cannot hold a key twice, and json_decode keeps the last of two equal
   property names). Nor does a PHP array hold a string key written as a
   decimal integer, such as "0": PHP stores it under the integer, so every
   entry `e` of an `Arr` that stands for a PHP array has `ArrayKey(e.key) ==
   e.key`. The datatype itself rules out neither case.
   */
  datatype Value =
    | Null
    | Bool(b: bool)
    | Int(i: int)
    | Str(s: string)
      /** A PHP array: an ordered map from keys to values. */
    | Arr(entries: seq<Item<Value>>)
      /** An object produced by json_decode; its properties in order, keyed by StrKey. */
    | Obj(props: seq<Item<Value>>)

  /** A parameter declared `array`. */
  type PhpArray = v: Value | v.Arr? witness Arr([])

  /** The value stored under `k`: the first entry with that key, if any. */
  function Lookup<T>(items: seq<Item<T>>, k: Key): (r: Option<T>)
    ensures r.None? <==> forall i :: 0 <= i < |items| ==> items[i].key != k
    ensures r.Some? ==>
      exists i :: 0 <= i < |items| && items[i] == Item(k, r.value) &&
        forall j :: 0 <= j < i ==> items[j].key != k
    decreases |items|
  {
    if items == [] then None
    else if items[0].key == k then Some(items[0].value)
    else
      var r := Lookup(items[1..], k);
      var rest := items[1..];
      assert r.Some? ==>
        exists i :: 0 <= i < |rest| && rest[i] == Item(k, r.value) && forall j :: 0 <= j < i ==> rest[j].key != k;
      r
  }

  /** PHP `empty($v)`: null, false, 0, "", "0" and the empty array. */
  predicate Empty(v: Value)
    ensures Empty(v) <==> v in {Null, Bool(false), Int(0), Str(""), Str("0"), Arr([])}
  {
    match v
    case Null => true
    case Bool(b) => !b
    case Int(i) => i == 0
    case Str(s) => s == "" || s == "0"
    case Arr(es) => |es| == 0
    case Obj(_) => false
  }

  /**
   PHP `$v == null` (loose comparison): null, false, 0, "" and the empty
   array; a non-empty string such as "0" is compared with "" as a string
   and an object converts to true, so neither equals null.
   */
  predicate LooseNull(v: Value)
    ensures LooseNull(v) <==> v in {Null, Bool(false), Int(0), Str(""), Arr([])}
  {
    match v
    case Null => true
    case Bool(b) => !b
    case Int(i) => i == 0
    case Str(s) => s == ""
    case Arr(es) => |es| == 0
    case Obj(_) => false
  }

  /** PHP `property_exists($v, $name)` for an object; other values have no properties. */
  predicate PropertyExists(v: Value, name: string)
    ensures PropertyExists(v, name) <==>
      v.Obj? && exists i :: 0 <= i < |v.props| && v.props[i].key == StrKey(name)
  {
    v.Obj? && Lookup(v.props, StrKey(name)).Some?
  }

  /**
   PHP `$v->name`: the property's value, or null (with a warning) when the
   property is missing or `v` is not an object.
   */
  function Prop(v: Value, name: string): (r: Value)
    ensures PropertyExists(v, name) ==>
      exists i :: 0 <= i < |v.props| && v.props[i] == Item(StrKey(name), r)
    ensures !PropertyExists(v, name) ==> r == Null
  {
    if v.Obj? then
      match Lookup(v.props, StrKey(name))
      case Some(x) => x
      case None => Null
    else Null
  }

  // ---------------------------------------------------------------------------
  // Integer-like string keys
  // ---------------------------------------------------------------------------

  /** The least and the greatest PHP integer (64-bit builds). */
  const IntMin: int := -0x8000_0000_0000_0000
  const IntMax: int := 0x7FFF_FFFF_FFFF_FFFF

  predicate InIntRange(n: int) {
    IntMin <= n <= IntMax
  }

  predicate IsDigit(c: char) {
    '0' <= c <= '9'
  }

  predicate AllDigits(s: string) {
    forall i :: 0 <= i < |s| ==> IsDigit(s[i])
  }

  function DigitChar(d: nat): char
    requires d < 10
  {
    ('0' as int + d) as char
  }

  function DigitValue(c: char): nat
    requires IsDigit(c)
  {
    c as int - '0' as int
  }

  /** The decimal digits of `n`, with no leading zero. */
  function NatString(n: nat): string
    decreases n
  {
    if n < 10 then [DigitChar(n)] else NatString(n / 10) + [DigitChar(n % 10)]
  }

  /** PHP's `(string) $n` for an integer. */
  function IntString(n: int): string {
    if n < 0 then "-" + NatString(-n) else NatString(n)
  }

  /** A non-empty run of digits without a leading zero ("0" itself is one). */
  predicate CanonicalDigits(s: string) {
    |s| > 0 && AllDigits(s) && (s[0] == '0' ==> |s| == 1)
  }

  /** The number a run of digits denotes. */
  function DigitsValue(s: string): nat
    requires AllDigits(s)
    decreases |s|
  {
    if s == [] then 0 else 10 * DigitsValue(s[..|s| - 1]) + DigitValue(s[|s| - 1])
  }

  /**
   The integer PHP stores a string key as: a key written as a decimal
   integer in range, with no leading zero and not "-0", becomes that integer.
   */
  function IntegerKey(s: string): Option<int> {
    if |s| > 1 && s[0] == '-' && CanonicalDigits(s[1..]) && s[1] != '0' && InIntRange(-(DigitsValue(s[1..]) as int)) then
      Some(-(DigitsValue(s[1..]) as int))
    else if CanonicalDigits(s) && InIntRange(DigitsValue(s)) then
      Some(DigitsValue(s))
    else
      None
  }

  /** The key an object property gets in `(array) $object`. */
  function ArrayKey(k: Key): Key {
    match k
    case IntKey(_) => k
    case StrKey(s) => if IntegerKey(s).Some? then IntKey(IntegerKey(s).value) else k
  }

  lemma DigitChars(d: nat)
    requires d < 10
    ensures IsDigit(DigitChar(d)) && DigitValue(DigitChar(d)) == d
  {
  }

  /** The digits of `n` are canonical and denote `n`. */
  lemma {:induction false} NatStringDigits(n: nat)
    ensures CanonicalDigits(NatString(n)) && DigitsValue(NatString(n)) == n
    ensures n > 0 ==> NatString(n)[0] != '0'
    decreases n
  {
    DigitChars(n % 10);
    if n >= 10 {
      var t := NatString(n / 10);
      NatStringDigits(n / 10);
      var s := t + [DigitChar(n % 10)];
      assert s[..|s| - 1] == t;
      assert forall i :: 0 <= i < |s| ==> IsDigit(s[i]) by {
        forall i | 0 <= i < |s| ensures IsDigit(s[i]) {
          if i < |t| { assert s[i] == t[i]; }
        }
      }
      assert s[0] == t[0];
    }
  }

  /** A canonical run of digits that starts with a non-zero digit denotes a positive number. */
  lemma {:induction false} DigitsPositive(s: string)
    requires |s| > 0 && AllDigits(s) && s[0] != '0'
    ensures DigitsValue(s) >= 1
    decreases |s|
  {
    if |s| > 1 {
      var t := s[..|s| - 1];
      assert t[0] == s[0];
      DigitsPositive(t);
    }
  }

  /** A canonical run of digits is the decimal form of the number it denotes. */
  lemma {:induction false} DigitsNatString(s: string)
    requires CanonicalDigits(s)
    ensures NatString(DigitsValue(s)) == s
    decreases |s|
  {
    var c := s[|s| - 1];
    var d := DigitValue(c);
    assert DigitChar(d) == c;
    if |s| > 1 {
      var t := s[..|s| - 1];
      assert t[0] == s[0];
      assert CanonicalDigits(t);
      DigitsPositive(t);
      DigitsNatString(t);
      var v := DigitsValue(s);
      assert v == 10 * DigitsValue(t) + d;
      assert v / 10 == DigitsValue(t) && v % 10 == d;
      assert s == t + [c];
    }
  }

  /** PHP's decimal form of a PHP integer becomes that integer key. */
  lemma {:induction false} IntegerKeyIntString(n: int)
    requires InIntRange(n)
    ensures IntegerKey(IntString(n)) == Some(n)
  {
    var s := IntString(n);
    if n < 0 {
      NatStringDigits(-n);
      assert s[1..] == NatString(-n);
    } else {
      NatStringDigits(n);
      DigitChars(n % 10);
      assert IsDigit(s[0]);
    }
  }

  /** A string that becomes an integer key is PHP's decimal form of that integer. */
  lemma {:induction false} IntStringIntegerKey(s: string)
    requires IntegerKey(s).Some?
    ensures InIntRange(IntegerKey(s).value) && s == IntString(IntegerKey(s).value)
  {
    if |s| > 1 && s[0] == '-' && CanonicalDigits(s[1..]) && s[1] != '0' && InIntRange(-(DigitsValue(s[1..]) as int)) {
      DigitsPositive(s[1..]);
      DigitsNatString(s[1..]);
      assert s == "-" + s[1..];
    } else {
      DigitsNatString(s);
    }
  }

  /**
   A string key becomes the integer key `n` exactly when it is PHP's decimal
   form of `n` and `n` is a PHP integer.
   */
  lemma IntegerKeyIff(s: string, n: int)
    ensures IntegerKey(s) == Some(n) <==> InIntRange(n) && s == IntString(n)
  {
    if InIntRange(n) && s == IntString(n) {
      IntegerKeyIntString(n);
    }
    if IntegerKey(s) == Some(n) {
      IntStringIntegerKey(s);
    }
  }

  /**
   The items of `collect($v)`: an array's entries, an object's properties
   (each name that is PHP's decimal form of an integer becoming that integer
   key, as the `(array)` cast does), nothing for null, and a single entry
   under key 0 for any other value.
   */
  function Collect(v: Value): (r: seq<Item<Value>>)
    ensures v.Null? ==> r == []
    ensures v.Arr? ==> r == v.entries
    ensures v.Obj? ==> |r| == |v.props|
    ensures v.Obj? ==> forall i :: 0 <= i < |r| ==> r[i] == Item(ArrayKey(v.props[i].key), v.props[i].value)
    ensures !(v.Null? || v.Arr? || v.Obj?) ==> r == [Item(IntKey(0), v)]
  {
    match v
    case Null => []
    case Arr(es) => es
    case Obj(ps) => seq(|ps|, i requires 0 <= i < |ps| => Item(ArrayKey(ps[i].key), ps[i].value))
    case _ => [Item(IntKey(0), v)]
  }

  /** `collect(...)->map(f)->toArray()` over `items`: keys and order are kept, each value mapped. */
  function MapValues<T>(items: seq<Item<Value>>, f: Value -> T): (r: seq<Item<T>>)
    ensures |r| == |items|
    ensures forall i :: 0 <= i < |items| ==> r[i] == Item(items[i].key, f(items[i].value))
    decreases |items|
  {
    if items == [] then []
    else [Item(items[0].key, f(items[0].value))] + MapValues(items[1..], f)
  }

  /** True of a PHP list: the keys are 0, 1, 2, ... in order, as json_decode makes them for a JSON array. */
  predicate IsList<T>(items: seq<Item<T>>) {
    forall i :: 0 <= i < |items| ==> items[i].key == IntKey(i)
  }

  /** Looking a key up after mapping finds the mapped value of the entry found before. */
  lemma {:induction false} LookupMapValues<T>(items: seq<Item<Value>>, f: Value -> T, k: Key)
    ensures Lookup(MapValues(items, f), k) ==
      if Lookup(items, k).Some? then Some(f(Lookup(items, k).value)) else None
    decreases |items|
  {
    if items != [] {
      var r := MapValues(items, f);
      assert r[1..] == MapValues(items[1..], f);
      LookupMapValues(items[1..], f, k);
    }
  }

  /** An entry with key `k` before which no entry has that key is what a lookup of `k` finds. */
  lemma {:induction false} LookupFirst<T>(items: seq<Item<T>>, i: nat, k: Key)
    requires i < |items| && items[i].key == k
    requires forall j :: 0 <= j < i ==> items[j].key != k
    ensures Lookup(items, k) == Some(items[i].value)
    decreases i
  {
    if i > 0 {
      LookupFirst(items[1..], i - 1, k);
    }
  }

  /** Mapping a list gives a list. */
  lemma MapValuesKeepsList<T>(items: seq<Item<Value>>, f: Value -> T)
    requires IsList(items)
    ensures IsList(MapValues(items, f))
  {
  }

  /** In a non-empty list, key 0 holds the first element. */
  lemma ListKeyZero<T>(items: seq<Item<T>>)
    requires IsList(items) && |items| > 0
    ensures Lookup(items, IntKey(0)) == Some(items[0].value)
  {
  }

  /**
   The two PHP tests the create methods use differ in one value only:
   "0" is empty but not equal to null.
   */
  lemma LooseNullIsEmptyButZeroString(v: Value)
    ensures LooseNull(v) <==> Empty(v) && v != Str("0")
  {
  }
}
