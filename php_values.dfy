/**
 * Decoded JSON as json_decode($text, true) produces it: PHP scalars and PHP
 * arrays, an array being an ordered list of members under integer or string keys.
 */
module PhpValues {
  import opened Wrappers
  import opened PhpNumbers

  /** A PHP array key: an integer or a string. */
  datatype ArrayKey = IntKey(i: int) | StrKey(s: string)

  /** A decoded JSON value; objects and lists both decode to Array. */
  datatype Json = Null | Bool(b: bool) | Int(i: int) | Str(s: string) | Array(entries: seq<Member>)

  datatype Member = Member(key: ArrayKey, val: Json)

  /** A value in a boolean context: if ($v). */
  predicate Truthy(v: Json) {
    match v
    case Null => false
    case Bool(b) => b
    case Int(i) => i != 0
    case Str(s) => s != "" && s != "0"
    case Array(es) => es != []
  }

  /** intval($v). */
  function IntVal(v: Json): (n: int)
    ensures v.Str? ==> n == StringToInt(v.s)
    ensures v.Int? ==> n == v.i
  {
    match v
    case Null => 0
    case Bool(b) => if b then 1 else 0
    case Int(i) => i
    case Str(s) => StringToInt(s)
    case Array(es) => if es == [] then 0 else 1
  }

  /** The key a scalar becomes when it is used to index a PHP array. */
  function ArrayKeyOf(v: Json): (k: ArrayKey)
    requires !v.Array?
    ensures v.Str? && v.s != [] && v.s[0] == '/' ==> k == StrKey(v.s)
    ensures v.Str? && !IsCanonicalInt(v.s) ==> k == StrKey(v.s)
    ensures v.Int? ==> k == IntKey(v.i)
    ensures v.Null? ==> k == StrKey("")
  {
    match v
    case Null => StrKey("")
    case Bool(b) => IntKey(if b then 1 else 0)
    case Int(i) => IntKey(i)
    case Str(s) =>
      if IsCanonicalInt(s) && IntMin <= CanonicalValue(s) <= IntMax then IntKey(CanonicalValue(s)) else StrKey(s)
  }

  /** A string that spells a 64-bit integer is the integer key, as PHP arrays store it. */
  lemma IntegerStringKey(n: int)
    requires IntMin <= n <= IntMax
    ensures ArrayKeyOf(Str(IntText(n))) == IntKey(n)
  {
    CanonicalRoundTrip(n);
  }

  /** $v != '/' is false exactly for these scalars (PHP 8 comparison of a scalar with "/"). */
  predicate LooselyEqualsSlash(v: Json) {
    v == Str("/") || v == Bool(true)
  }

  /** The position of the first member under key k. */
  function Find(es: seq<Member>, k: ArrayKey): (r: Option<nat>)
    ensures r.Some? ==> r.value < |es| && es[r.value].key == k
    ensures r.Some? ==> forall i :: 0 <= i < r.value ==> es[i].key != k
    ensures r.None? ==> forall i :: 0 <= i < |es| ==> es[i].key != k
  {
    if es == [] then None
    else if es[0].key == k then Some(0)
    else match Find(es[1..], k)
      case None => None
      case Some(i) => Some(i + 1)
  }

  /** $v[name]: the member's value, or null when v is not an array or has no such member. */
  function Lookup(v: Json, name: string): (r: Json)
    ensures !v.Array? ==> r == Null
    ensures v.Array? && Find(v.entries, ArrayKeyOf(Str(name))).None? ==> r == Null
    ensures v.Array? && Find(v.entries, ArrayKeyOf(Str(name))).Some? ==>
              r == v.entries[Find(v.entries, ArrayKeyOf(Str(name))).value].val
  {
    if !v.Array? then Null
    else match Find(v.entries, ArrayKeyOf(Str(name)))
      case None => Null
      case Some(i) => v.entries[i].val
  }

  /** isset($v[name]): the member exists and is not null. */
  predicate Isset(v: Json, name: string) {
    Lookup(v, name) != Null
  }
}
