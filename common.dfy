/** Shared vocabulary: optional values, the untyped payload values that travel on
    the bus, the bits of Python semantics the engines lean on (truthiness, `or`,
    `float()`, bounded deques, insertion-ordered dicts) and decimal rendering. */
module Common {

  datatype Option<T> = None | Some(value: T)

  /** What a handler that returns an optional result appends to its log of
      published events: the result when there is one, nothing otherwise. */
  function Emitted<T>(o: Option<T>): (r: seq<T>)
    ensures o.None? <==> r == []
    ensures o.Some? ==> r == [o.value]
  {
    if o.Some? then [o.value] else []
  }

  /** A value stored in an event payload. Python's `None` is `Null`; ints and
      floats are both `Num`; nested dicts and lists keep their structure. */
  datatype Value =
    | Null
    | Num(n: real)
    | Str(s: string)
    | List(items: seq<Value>)
    | Dict(fields: map<string, Value>)

  type Payload = map<string, Value>

  /** The result of a handler that updates a stored record in place: the new
      record, or the record as far as it had been updated when Python raised
      (a handler that raises before touching the record leaves it as it was). */
  datatype Outcome<S> = Ok(value: S) | Raised(partial: S)

  /** The per-key records after a handler for `key` ends with `o`: a
      completed record is stored; a partly updated one replaces an existing
      record only (a new key's record was never inserted). */
  function StoreOutcome<S>(m: map<string, S>, key: string, o: Outcome<S>): map<string, S>
  {
    match o
    case Ok(x) => m[key := x]
    case Raised(x) => if key in m then m[key := x] else m
  }

  /** The canonical bus event: type tag, timestamp (epoch seconds), source,
      symbol and payload. */
  datatype Event = Event(eventType: string, ts: real, source: string, symbol: string, payload: Payload)

  /** `payload.get(k)` */
  function Get(p: Payload, k: string): (v: Value)
    ensures k !in p ==> v == Null
    ensures k in p ==> v == p[k]
  {
    if k in p then p[k] else Null
  }

  /** `payload.get(k, d)` */
  function GetOr(p: Payload, k: string, d: Value): (v: Value)
    ensures k !in p ==> v == d
    ensures k in p ==> v == p[k]
  {
    if k in p then p[k] else d
  }

  /** Python truthiness: `None`, zero and empty containers are false. */
  predicate Truthy(v: Value)
  {
    match v
    case Null => false
    case Num(n) => n != 0.0
    case Str(s) => s != ""
    case List(xs) => xs != []
    case Dict(m) => m != map[]
  }

  /** `a or b` */
  function Or(a: Value, b: Value): (r: Value)
    ensures Truthy(a) ==> r == a
    ensures !Truthy(a) ==> r == b
  {
    if Truthy(a) then a else b
  }

  /** `float(v)`: `None` when Python would raise. */
  function ToReal(v: Value): (r: Option<real>)
    ensures r.Some? <==> v.Num?
    ensures v.Num? ==> r.value == v.n
  {
    match v
    case Num(n) => Some(n)
    case _ => None
  }

  /** `float(v or 0.0)`: falsy values read as zero. */
  function ToRealOrZero(v: Value): (r: Option<real>)
    ensures !Truthy(v) ==> r == Some(0.0)
    ensures Truthy(v) ==> r == ToReal(v)
  {
    ToReal(Or(v, Num(0.0)))
  }

  /** `d.get(k, 0.0)` on a dict of reals. */
  function GetReal(f: map<string, real>, k: string): (v: real)
    ensures k in f ==> v == f[k]
    ensures k !in f ==> v == 0.0
  {
    if k in f then f[k] else 0.0
  }

  /** The first components of a sequence of pairs, in order. */
  function Firsts<A, B>(xs: seq<(A, B)>): (r: seq<A>)
    ensures |r| == |xs| && forall i :: 0 <= i < |xs| ==> r[i] == xs[i].0
  {
    seq(|xs|, i requires 0 <= i < |xs| => xs[i].0)
  }

  /** The second components of a sequence of pairs, in order. */
  function Seconds<A, B>(xs: seq<(A, B)>): (r: seq<B>)
    ensures |r| == |xs| && forall i :: 0 <= i < |xs| ==> r[i] == xs[i].1
  {
    seq(|xs|, i requires 0 <= i < |xs| => xs[i].1)
  }

  function Abs(x: real): (r: real)
    ensures r >= 0.0 && (r == x || r == -x)
  {
    if x < 0.0 then -x else x
  }

  function Min(a: real, b: real): (r: real)
    ensures r <= a && r <= b && (r == a || r == b)
  {
    if a <= b then a else b
  }

  function Max(a: real, b: real): (r: real)
    ensures r >= a && r >= b && (r == a || r == b)
  {
    if a >= b then a else b
  }

  function Sum(xs: seq<real>): real
  {
    if xs == [] then 0.0 else Sum(xs[..|xs| - 1]) + xs[|xs| - 1]
  }

  /** `int(x)` on a float: truncation toward zero. */
  function Trunc(x: real): (r: int)
    ensures x >= 0.0 ==> r == x.Floor
    ensures x < 0.0 ==> r == -((-x).Floor)
  {
    if x >= 0.0 then x.Floor else -((-x).Floor)
  }

  /** Python's `a // b` for a non-zero divisor (rounds toward negative infinity). */
  function FloorDiv(a: int, b: int): (q: int)
    requires b != 0
    ensures b > 0 ==> q * b <= a < q * b + b
    ensures b < 0 ==> q * b >= a > q * b + b
  {
    if b > 0 then a / b
    else if a % b == 0 then a / b
    else a / b - 1
  }

  /** Appending to `deque(maxlen=cap)`: the oldest entries fall off the front. */
  function Push<T>(s: seq<T>, x: T, cap: nat): (r: seq<T>)
    ensures |r| == if |s| + 1 <= cap then |s| + 1 else cap
    ensures r == (s + [x])[|s| + 1 - |r|..]
    ensures cap > 0 ==> r[|r| - 1] == x
  {
    var t := s + [x];
    if |t| <= cap then t else t[|t| - cap..]
  }

  /** A dict with its insertion order, for the places where the source's
      iteration order is observable. */
  predicate Distinct<T(==)>(s: seq<T>)
  {
    forall i, j :: 0 <= i < j < |s| ==> s[i] != s[j]
  }

  /** `s` without the element `x`, keeping the order of the rest. */
  function RemoveElem<T(==,!new)>(s: seq<T>, x: T): (r: seq<T>)
    ensures forall y :: y in r <==> y in s && y != x
    ensures Distinct(s) ==> Distinct(r)
    ensures x !in s ==> r == s
  {
    if s == [] then []
    else if s[0] == x then RemoveElem(s[1..], x)
    else
      assert Distinct(s) ==> s[0] !in s[1..];
      [s[0]] + RemoveElem(s[1..], x)
  }

  datatype OMap<K(==,!new), V> = OMap(order: seq<K>, vals: map<K, V>)
  {
    ghost predicate Valid()
    {
      && Distinct(order)
      && (forall k :: k in vals <==> k in order)
    }

    /** `d.pop(k, None)`: the key leaves the map and the order; the others
        keep their places. */
    function Remove(k: K): (r: OMap<K, V>)
      requires Valid()
      ensures r.Valid()
      ensures r.vals == vals - {k}
      ensures k !in vals ==> r == this
    {
      OMap(RemoveElem(order, k), vals - {k})
    }

    /** `d[k] = v`: a new key goes to the end, an existing key keeps its place. */
    function Put(k: K, v: V): (r: OMap<K, V>)
      requires Valid()
      ensures r.Valid()
      ensures r.vals == vals[k := v]
      ensures k in vals ==> r.order == order
      ensures k !in vals ==> r.order == order + [k]
    {
      OMap(if k in vals then order else order + [k], vals[k := v])
    }
  }

  function EmptyOMap<K(==,!new), V>(): (r: OMap<K, V>)
    ensures r.Valid() && r.order == [] && r.vals == map[]
  {
    OMap([], map[])
  }

  /** The sum of the values listed in `keys` (`sum(d.values())` over a
      dict whose keys are `keys`). */
  function Total<K>(keys: seq<K>, vals: map<K, real>): real
    requires forall i :: 0 <= i < |keys| ==> keys[i] in vals
  {
    if keys == [] then 0.0 else vals[keys[0]] + Total(keys[1..], vals)
  }

  /** Changing the value of a key outside `keys` does not change their total. */
  lemma {:induction false} TotalFrame<K>(keys: seq<K>, vals: map<K, real>, k: K, v: real)
    requires forall i :: 0 <= i < |keys| ==> keys[i] in vals
    requires k !in keys
    ensures Total(keys, vals[k := v]) == Total(keys, vals)
  {
    if keys != [] {
      TotalFrame(keys[1..], vals, k, v);
    }
  }

  /** Setting a listed key's value moves the total by the difference. */
  lemma {:induction false} TotalUpdate<K>(keys: seq<K>, vals: map<K, real>, k: K, v: real)
    requires forall i :: 0 <= i < |keys| ==> keys[i] in vals
    requires Distinct(keys) && k in keys
    ensures Total(keys, vals[k := v]) == Total(keys, vals) - vals[k] + v
  {
    if keys[0] == k {
      assert k !in keys[1..];
      TotalFrame(keys[1..], vals, k, v);
    } else {
      TotalUpdate(keys[1..], vals, k, v);
    }
  }

  /** Appending a new key adds its value to the total. */
  lemma {:induction false} TotalAppend<K>(keys: seq<K>, vals: map<K, real>, k: K, v: real)
    requires forall i :: 0 <= i < |keys| ==> keys[i] in vals
    requires k !in keys
    ensures Total(keys + [k], vals[k := v]) == Total(keys, vals) + v
  {
    if keys == [] {
      assert Total([k], vals[k := v]) == v + Total([], vals[k := v]);
    } else {
      assert (keys + [k])[1..] == keys[1..] + [k];
      TotalAppend(keys[1..], vals, k, v);
    }
  }

  /** Adding one more listed key adds its value. */
  lemma {:induction false} TotalSnoc<K>(keys: seq<K>, vals: map<K, real>, k: K)
    requires forall i :: 0 <= i < |keys| ==> keys[i] in vals
    requires k in vals
    ensures Total(keys + [k], vals) == Total(keys, vals) + vals[k]
  {
    if keys == [] {
      assert Total([k], vals) == vals[k] + Total([], vals);
    } else {
      assert (keys + [k])[1..] == keys[1..] + [k];
      TotalSnoc(keys[1..], vals, k);
    }
  }

  function DigitChar(d: nat): char
    requires d < 10
  {
    "0123456789"[d]
  }

  /** `str(n)` for an int. */
  function IntToString(i: int): (s: string)
    ensures s != []
  {
    if i < 0 then "-" + NatToString(-i) else NatToString(i)
  }

  function NatToString(n: nat): (s: string)
    ensures s != [] && '-' !in s
    decreases n
  {
    if n < 10 then [DigitChar(n)] else NatToString(n / 10) + [DigitChar(n % 10)]
  }

  /** `s` padded on the left with zeros to `width` characters. */
  function ZeroPad(s: string, width: nat): (r: string)
    ensures |r| == if |s| >= width then |s| else width
    decreases width - |s|
  {
    if |s| >= width then s else ZeroPad("0" + s, width)
  }

  /** A real written with six decimals, truncated toward zero. */
  function SixDecimals(x: real): string
  {
    var scaled := (Abs(x) * 1000000.0).Floor;
    (if x < 0.0 && scaled != 0 then "-" else "")
      + NatToString(scaled / 1000000) + "." + ZeroPad(NatToString(scaled % 1000000), 6)
  }

  /** `sep.join(parts)` */
  function Join(parts: seq<string>, sep: string): string
  {
    if parts == [] then ""
    else if |parts| == 1 then parts[0]
    else Join(parts[..|parts| - 1], sep) + sep + parts[|parts| - 1]
  }
}
