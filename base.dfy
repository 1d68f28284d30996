/**
 * Shared vocabulary of the model: an Option type for the source's
 * `null`/`undefined` values, the ordered header map of a request and the
 * small real-number helpers (`Math.min`, `Math.max`, clamping) the scores use.
 */
module Base {

  datatype Option<+T> = None | Some(value: T)

  /** One header of a request, in the order the client sent it. */
  datatype Header = Header(key: string, value: string)

  /**
   * A header record (`Record<string, string>`): the keys in insertion order,
   * which is the order `Object.keys` reports them.
   */
  type Headers = seq<Header>

  /** The keys of a header record, in order. */
  function Keys(h: Headers): (ks: seq<string>)
    ensures |ks| == |h|
    ensures forall i :: 0 <= i < |h| ==> ks[i] == h[i].key
  {
    if h == [] then [] else [h[0].key] + Keys(h[1..])
  }

  /**
   * The value stored under exactly `key`, or "" when it is absent. The source
   * only ever uses such lookups through JavaScript truthiness, for which an
   * absent key and an empty value are the same.
   */
  function Get(h: Headers, key: string): (v: string)
    ensures v != "" ==> exists i :: 0 <= i < |h| && h[i].key == key && h[i].value == v
    ensures (forall i :: 0 <= i < |h| ==> h[i].key != key) ==> v == ""
  {
    if h == [] then ""
    else if h[0].key == key then h[0].value
    else Get(h[1..], key)
  }

  /** `a || b || c || ''` over strings: the first non-empty one. */
  function FirstNonEmpty(xs: seq<string>): (v: string)
    ensures v == "" <==> forall i :: 0 <= i < |xs| ==> xs[i] == ""
    ensures v != "" ==> exists i :: 0 <= i < |xs| && xs[i] == v
  {
    if xs == [] then "" else if xs[0] != "" then xs[0] else FirstNonEmpty(xs[1..])
  }

  function MinR(a: real, b: real): (r: real)
    ensures r <= a && r <= b && (r == a || r == b)
  {
    if a <= b then a else b
  }

  function MaxR(a: real, b: real): (r: real)
    ensures r >= a && r >= b && (r == a || r == b)
  {
    if a >= b then a else b
  }

  /** `Math.min(Math.max(x, 0.0), 1.0)` */
  function Clamp01(x: real): (r: real)
    ensures 0.0 <= r <= 1.0
    ensures 0.0 <= x <= 1.0 ==> r == x
    ensures x < 0.0 ==> r == 0.0
    ensures x > 1.0 ==> r == 1.0
  {
    MinR(MaxR(x, 0.0), 1.0)
  }

  function MinI(a: int, b: int): (r: int)
    ensures r <= a && r <= b && (r == a || r == b)
  {
    if a <= b then a else b
  }

  function MaxI(a: int, b: int): (r: int)
    ensures r >= a && r >= b && (r == a || r == b)
  {
    if a >= b then a else b
  }

  /** Number of elements of `xs` satisfying `p` (`xs.filter(p).length`). */
  function CountIf<T>(xs: seq<T>, p: T -> bool): (n: nat)
    ensures n <= |xs|
  {
    if xs == [] then 0 else (if p(xs[0]) then 1 else 0) + CountIf(xs[1..], p)
  }

  /** `xs.filter(p)` */
  function Filter<T>(xs: seq<T>, p: T -> bool): (r: seq<T>)
    ensures |r| <= |xs|
    ensures forall i :: 0 <= i < |r| ==> p(r[i]) && r[i] in xs
    ensures forall i :: 0 <= i < |xs| && p(xs[i]) ==> xs[i] in r
  {
    if xs == [] then [] else (if p(xs[0]) then [xs[0]] else []) + Filter(xs[1..], p)
  }

  /** `xs.indexOf(x)`, with `None` for -1. */
  function Position(xs: seq<string>, x: string): (r: Option<nat>)
    ensures r.None? <==> x !in xs
    ensures r.Some? ==> r.value < |xs| && xs[r.value] == x && forall j :: 0 <= j < r.value ==> xs[j] != x
  {
    if xs == [] then None
    else if xs[0] == x then Some(0)
    else match Position(xs[1..], x)
      case None => None
      case Some(i) => Some(i + 1)
  }

  function Abs(x: int): nat { if x < 0 then -x else x }
}
