/**
  JSON-like values as the order service receives them from its JSON body
  parser, together with the two pieces of JavaScript semantics the service
  relies on: truthiness (`if (!data)`) and the own enumerable properties that
  `Object.assign` and object spread copy out of a value.
 */
module Json {

  /** A parsed JSON value. `Null` also stands for `undefined`: both are falsy
      and neither carries properties. Numbers are mathematical reals. */
  datatype Value =
    | Null
    | Bool(b: bool)
    | Num(n: real)
    | Str(s: string)
    | Arr(elems: seq<Value>)
    | Obj(fields: map<string, Value>)

  /** The top-level properties of an object. */
  type Fields = map<string, Value>

  /** JavaScript truthiness: `false`, `0`, `""`, `null` and `undefined` are
      falsy; every array and every object, even an empty one, is truthy. */
  predicate Truthy(v: Value)
  {
    match v
    case Null => false
    case Bool(b) => b
    case Num(n) => n != 0.0
    case Str(s) => s != ""
    case Arr(_) => true
    case Obj(_) => true
  }

  // ---------------------------------------------------------------------------
  // Canonical decimal spelling of array and string indices ("0", "1", "10", ...)
  // ---------------------------------------------------------------------------

  predicate IsDigit(c: char)
  {
    '0' <= c <= '9'
  }

  function DigitChar(d: nat): (c: char)
    requires d < 10
    ensures IsDigit(c)
    ensures c as int - '0' as int == d
  {
    (d + '0' as int) as char
  }

  function DigitValue(c: char): (d: nat)
    requires IsDigit(c)
    ensures d < 10
  {
    c as int - '0' as int
  }

  /** The property key under which index `i` is stored: its decimal spelling
      without leading zeros. */
  function IndexKey(i: nat): (key: string)
    ensures |key| >= 1
    ensures forall k :: 0 <= k < |key| ==> IsDigit(key[k])
    ensures |key| > 1 ==> key[0] != '0'
    decreases i
  {
    if i < 10 then [DigitChar(i)] else IndexKey(i / 10) + [DigitChar(i % 10)]
  }

  /** Reads a string of decimal digits back as a number. */
  function DecimalValue(key: string): nat
    requires forall k :: 0 <= k < |key| ==> IsDigit(key[k])
    decreases |key|
  {
    if |key| == 0 then 0
    else DecimalValue(key[..|key| - 1]) * 10 + DigitValue(key[|key| - 1])
  }

  /** Reading an index key back yields the index. */
  lemma {:induction false} IndexKeyRoundTrip(i: nat)
    ensures DecimalValue(IndexKey(i)) == i
    decreases i
  {
    var key := IndexKey(i);
    if i < 10 {
    } else {
      IndexKeyRoundTrip(i / 10);
      assert key[..|key| - 1] == IndexKey(i / 10);
      assert DigitValue(key[|key| - 1]) == i % 10;
    }
  }

  /** Distinct indices have distinct keys. */
  lemma IndexKeysDistinct()
    ensures forall i: nat, j: nat :: IndexKey(i) == IndexKey(j) ==> i == j
  {
    forall i: nat, j: nat | IndexKey(i) == IndexKey(j)
      ensures i == j
    {
      IndexKeyRoundTrip(i);
      IndexKeyRoundTrip(j);
    }
  }

  /** A canonical decimal numeral: at least one digit, all digits, and no
      leading zero unless it is "0" itself. */
  predicate IsCanonicalDecimal(k: string)
  {
    && |k| >= 1
    && (forall c :: 0 <= c < |k| ==> IsDigit(k[c]))
    && (|k| > 1 ==> k[0] != '0')
  }

  /** True of the keys an array or a string exposes: canonical decimal
      numerals below its length. */
  predicate IsIndexKeyBelow(k: string, n: nat)
  {
    IsCanonicalDecimal(k) && DecimalValue(k) < n
  }

  /** A numeral with a non-zero leading digit denotes at least 1. */
  lemma {:induction false} LeadingDigitPositive(k: string)
    requires |k| >= 1 && (forall c :: 0 <= c < |k| ==> IsDigit(k[c])) && k[0] != '0'
    ensures DecimalValue(k) >= 1
    decreases |k|
  {
    if |k| > 1 {
      LeadingDigitPositive(k[..|k| - 1]);
    }
  }

  /** Every canonical numeral is the index key of the number it denotes, so
      the keys `IsIndexKeyBelow(_, n)` admits are exactly `IndexKey(i)` for
      `i < n`. */
  lemma {:induction false} CanonicalIsIndexKey(k: string)
    requires IsCanonicalDecimal(k)
    ensures IndexKey(DecimalValue(k)) == k
    decreases |k|
  {
    var v := DecimalValue(k);
    if |k| == 1 {
      assert DecimalValue(k[..0]) == 0;
      assert DigitChar(v) == k[0];
    } else {
      var p := k[..|k| - 1];
      LeadingDigitPositive(p);
      CanonicalIsIndexKey(p);
      assert v / 10 == DecimalValue(p) && v % 10 == DigitValue(k[|k| - 1]);
      assert DigitChar(v % 10) == k[|k| - 1];
      assert k == p + [k[|k| - 1]];
    }
  }

  /** The properties an array with elements `xs` exposes: element `i` under
      the key `IndexKey(i)`, and no other key. */
  function IndexProps(xs: seq<Value>): (props: Fields)
    ensures forall i :: 0 <= i < |xs| ==> IndexKey(i) in props && props[IndexKey(i)] == xs[i]
    ensures forall k :: k in props ==> IsIndexKeyBelow(k, |xs|)
    decreases |xs|
  {
    if |xs| == 0 then map[]
    else
      var n := |xs| - 1;
      IndexKeysDistinct();
      IndexKeyRoundTrip(n);
      IndexProps(xs[..n])[IndexKey(n) := xs[n]]
  }

  /** The one-character strings a string is made of, as `Object.assign` sees
      them when it reads a string's indexed properties. */
  function Chars(s: string): (cs: seq<Value>)
    ensures |cs| == |s|
    ensures forall i :: 0 <= i < |s| ==> cs[i] == Str([s[i]])
  {
    seq(|s|, i requires 0 <= i < |s| => Str([s[i]]))
  }

  /** The own enumerable properties of `v`, as `Object.assign` and spread read
      them: an object's fields; an array's elements and a string's one-character
      substrings under their index keys; nothing for `null`, booleans and
      numbers. */
  function OwnProps(v: Value): (props: Fields)
    ensures v.Obj? ==> props == v.fields
    ensures v.Arr? ==> forall i :: 0 <= i < |v.elems| ==>
      IndexKey(i) in props && props[IndexKey(i)] == v.elems[i]
    ensures v.Arr? ==> forall k :: k in props ==> IsIndexKeyBelow(k, |v.elems|)
    ensures v.Str? ==> forall i :: 0 <= i < |v.s| ==>
      IndexKey(i) in props && props[IndexKey(i)] == Str([v.s[i]])
    ensures v.Str? ==> forall k :: k in props ==> IsIndexKeyBelow(k, |v.s|)
    ensures !v.Obj? && !v.Arr? && !v.Str? ==> props == map[]
  {
    match v
    case Obj(m) => m
    case Arr(xs) => IndexProps(xs)
    case Str(s) => IndexProps(Chars(s))
    case _ => map[]
  }

  /** An array or a string exposes exactly the canonical index keys below its
      length: every such key is present, and no other key is. */
  lemma OwnPropsIndexKeysExact(v: Value, k: string)
    requires v.Arr? || v.Str?
    ensures k in OwnProps(v) <==> IsIndexKeyBelow(k, Length(v))
  {
    if IsIndexKeyBelow(k, Length(v)) {
      CanonicalIsIndexKey(k);
    }
  }

  /** Number of indexed properties of an array or a string. */
  function Length(v: Value): nat
  {
    match v
    case Arr(xs) => |xs|
    case Str(s) => |s|
    case _ => 0
  }
}
