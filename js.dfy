/**
 * The fragment of JavaScript that the data-access layer leans on: scalar
 * values and their string conversion inside template literals, plain objects
 * as ordered lists of own properties, object spread and rest, property
 * assignment, `Array.prototype.join`, `Array(n).fill` and the
 * "lone value or array" argument convention.
 */
module Js {
  import opened Wrappers

  /** A scalar a record field, a filter or an id can hold. Numbers are integers in this model. */
  datatype Value = Undefined | Null | Bool(b: bool) | Num(n: int) | Str(s: string)

  // ---------------------------------------------------------------------------
  // String conversion, as `${v}` performs it

  predicate IsDigit(c: char) { '0' <= c <= '9' }

  function Digit(d: nat): (c: char)
    requires d < 10
    ensures IsDigit(c)
  {
    ('0' as int + d) as char
  }

  /** The decimal numeral of a natural number, most significant digit first. */
  function NatToDecimal(n: nat): (s: string)
    ensures |s| >= 1
    ensures forall i :: 0 <= i < |s| ==> IsDigit(s[i])
    ensures s[0] == '0' ==> n == 0
    decreases n
  {
    if n < 10 then [Digit(n)] else NatToDecimal(n / 10) + [Digit(n % 10)]
  }

  /** The number a string of decimal digits denotes (the inverse of NatToDecimal). */
  function DecimalValue(s: string): nat
    requires forall i :: 0 <= i < |s| ==> IsDigit(s[i])
    decreases |s|
  {
    if s == [] then 0
    else
      assert IsDigit(s[|s| - 1]);
      DecimalValue(s[..|s| - 1]) * 10 + (s[|s| - 1] as int - '0' as int)
  }

  lemma {:induction false} DecimalRoundTrip(n: nat)
    ensures DecimalValue(NatToDecimal(n)) == n
    decreases n
  {
    var s := NatToDecimal(n);
    if n >= 10 {
      DecimalRoundTrip(n / 10);
      assert s[..|s| - 1] == NatToDecimal(n / 10);
    }
  }

  /** The numeral of an integer: a minus sign before the magnitude when negative. */
  function IntToDecimal(i: int): string
  {
    if i < 0 then "-" + NatToDecimal(-i) else NatToDecimal(i)
  }

  /** Reads back a numeral produced by IntToDecimal. */
  function IntegerValue(s: string): int
    requires s != [] && s[0] == '-' ==> forall i :: 1 <= i < |s| ==> IsDigit(s[i])
    requires s != [] && s[0] != '-' ==> forall i :: 0 <= i < |s| ==> IsDigit(s[i])
  {
    if s != [] && s[0] == '-' then 0 - DecimalValue(s[1..]) else DecimalValue(s)
  }

  /** Integers render unambiguously: the numeral reads back as the same number. */
  lemma IntegerRoundTrip(i: int)
    ensures var s := IntToDecimal(i);
      (s != [] && s[0] == '-' ==> forall j :: 1 <= j < |s| ==> IsDigit(s[j])) &&
      (s != [] && s[0] != '-' ==> forall j :: 0 <= j < |s| ==> IsDigit(s[j])) &&
      IntegerValue(s) == i
  {
    if i < 0 {
      DecimalRoundTrip(-i);
      assert IntToDecimal(i)[1..] == NatToDecimal(-i);
    } else {
      DecimalRoundTrip(i);
    }
  }

  /** `${v}`: the text a template literal substitutes for a value, with no quoting. */
  function Interpolate(v: Value): string
  {
    match v
    case Undefined => "undefined"
    case Null => "null"
    case Bool(b) => if b then "true" else "false"
    case Num(n) => IntToDecimal(n)
    case Str(s) => s
  }

  // ---------------------------------------------------------------------------
  // Plain objects

  /** A plain object: its own properties in the order `Object.entries` lists them. */
  type Obj<V> = seq<(string, V)>

  /** A database record or a filter: an object of scalars. */
  type Record = Obj<Value>

  /** `Object.keys(o)` */
  function Keys<V>(o: Obj<V>): seq<string>
  {
    seq(|o|, i requires 0 <= i < |o| => o[i].0)
  }

  /** `Object.values(o)` */
  function Values<V>(o: Obj<V>): seq<V>
  {
    seq(|o|, i requires 0 <= i < |o| => o[i].1)
  }

  /** Every JavaScript object has this property: no key occurs twice. */
  predicate DistinctKeys<V>(o: Obj<V>)
  {
    forall i, j :: 0 <= i < j < |o| ==> o[i].0 != o[j].0
  }

  /** The own property `k` of `o`, if there is one. */
  function Lookup<V>(o: Obj<V>, k: string): (r: Option<V>)
    ensures r.Some? <==> k in Keys(o)
    decreases |o|
  {
    if o == [] then None
    else if o[0].0 == k then
      assert Keys(o)[0] == k;
      Some(o[0].1)
    else
      KeysCons(o[0], o[1..]);
      assert o == [o[0]] + o[1..];
      Lookup(o[1..], k)
  }

  lemma KeysCons<V>(p: (string, V), o: Obj<V>)
    ensures Keys([p] + o) == [p.0] + Keys(o)
  {
  }

  /** The value of an optional property, or a default when it is absent. */
  function ValueOr<V>(p: Option<V>, default: V): V
  {
    match p
    case Some(v) => v
    case None => default
  }

  /** `o[k]` on a record: the property's value, or undefined when it is missing. */
  function Get(o: Record, k: string): Value
  {
    ValueOr(Lookup(o, k), Undefined)
  }

  /** `rest` in `const { k, ...rest } = o`: every property of `o` but `k`, in order. */
  function Without<V>(o: Obj<V>, k: string): (r: Obj<V>)
    ensures Lookup(r, k) == None
    ensures forall j :: j != k ==> Lookup(r, j) == Lookup(o, j)
    ensures forall i :: 0 <= i < |r| ==> r[i] in o
    ensures |r| <= |o|
    decreases |o|
  {
    if o == [] then []
    else if o[0].0 == k then Without(o[1..], k)
    else [o[0]] + Without(o[1..], k)
  }

  /** An object without the key `k` is its own rest. */
  lemma {:induction false} WithoutAbsent<V>(o: Obj<V>, k: string)
    requires k !in Keys(o)
    ensures Without(o, k) == o
    decreases |o|
  {
    if o != [] {
      KeysCons(o[0], o[1..]);
      assert o == [o[0]] + o[1..];
      WithoutAbsent(o[1..], k);
    }
  }

  /**
   * Removing `k` works entry by entry: the rest of a concatenation is the
   * concatenation of the rests, so the remaining properties keep their order.
   */
  lemma {:induction false} WithoutAppend<V>(a: Obj<V>, b: Obj<V>, k: string)
    ensures Without(a + b, k) == Without(a, k) + Without(b, k)
    decreases |a|
  {
    if a == [] {
      assert a + b == b;
    } else {
      assert (a + b)[0] == a[0];
      assert (a + b)[1..] == a[1..] + b;
      WithoutAppend(a[1..], b, k);
    }
  }

  /** `o[k] = v`: overwrites the property in place when present, appends it otherwise. */
  function Assign<V>(o: Obj<V>, k: string, v: V): (r: Obj<V>)
    ensures Lookup(r, k) == Some(v)
    ensures forall j :: j != k ==> Lookup(r, j) == Lookup(o, j)
    ensures k in Keys(o) ==> Keys(r) == Keys(o)
    ensures k !in Keys(o) ==> r == o + [(k, v)] && Keys(r) == Keys(o) + [k]
    decreases |o|
  {
    if o == [] then [(k, v)]
    else if o[0].0 == k then
      KeysCons(o[0], o[1..]);
      KeysCons((k, v), o[1..]);
      assert o == [o[0]] + o[1..];
      [(k, v)] + o[1..]
    else
      var tail := Assign(o[1..], k, v);
      KeysCons(o[0], o[1..]);
      KeysCons(o[0], tail);
      assert o == [o[0]] + o[1..];
      var r := [o[0]] + tail;
      assert r[1..] == tail;
      r
  }

  /** `{ ...target, ...source }`: the properties of `source` assigned onto `target` one by one. */
  function Spread<V>(target: Obj<V>, source: Obj<V>): Obj<V>
    decreases |source|
  {
    if source == [] then target
    else Spread(Assign(target, source[0].0, source[0].1), source[1..])
  }

  lemma DistinctTail<V>(o: Obj<V>)
    requires o != [] && DistinctKeys(o)
    ensures DistinctKeys(o[1..])
    ensures o[0].0 !in Keys(o[1..])
  {
  }

  /** A property whose key the object lacks can be put in front, keeping the keys distinct. */
  lemma ConsDistinct<V>(p: (string, V), o: Obj<V>)
    requires DistinctKeys(o) && p.0 !in Keys(o)
    ensures DistinctKeys([p] + o)
  {
    var r := [p] + o;
    forall i, j | 0 <= i < j < |r| ensures r[i].0 != r[j].0 {
      assert r[j] == o[j - 1];
      if i == 0 {
        assert Keys(o)[j - 1] == o[j - 1].0;
      } else {
        assert r[i] == o[i - 1];
      }
    }
  }

  /** The rest of an object keeps its keys distinct. */
  lemma {:induction false} WithoutDistinct<V>(o: Obj<V>, k: string)
    requires DistinctKeys(o)
    ensures DistinctKeys(Without(o, k))
    decreases |o|
  {
    if o != [] {
      DistinctTail(o);
      WithoutDistinct(o[1..], k);
      if o[0].0 != k {
        var w := Without(o[1..], k);
        forall j | 0 <= j < |w| ensures w[j].0 != o[0].0 {
          assert w[j] in o[1..];
        }
      }
    }
  }

  /**
   * Reading `Object.keys` and `Object.values` side by side pairs each key with
   * its own value: the i-th value is the property named by the i-th key.
   */
  lemma {:induction false} KeysBindValues<V>(o: Obj<V>, i: nat)
    requires DistinctKeys(o) && i < |o|
    ensures Lookup(o, Keys(o)[i]) == Some(Values(o)[i])
    decreases i
  {
    if i > 0 {
      DistinctTail(o);
      KeysBindValues(o[1..], i - 1);
      assert Keys(o[1..])[i - 1] == Keys(o)[i];
    }
  }

  /** Assigning the leading key overwrites it in place. */
  lemma AssignLeading<V>(k: string, x: V, w: Obj<V>, v: V)
    ensures Assign([(k, x)] + w, k, v) == [(k, v)] + w
  {
    var o := [(k, x)] + w;
    assert o[0].0 == k && o[1..] == w;
  }

  /** Assigning a key the object lacks appends it at the end. */
  lemma AssignFresh<V>(k: string, x: V, w: Obj<V>, a: string, v: V)
    requires a != k && a !in Keys(w)
    ensures Assign([(k, x)] + w, a, v) == [(k, x)] + (w + [(a, v)])
    ensures Keys(w + [(a, v)]) == Keys(w) + [a]
  {
    KeysCons((k, x), w);
  }

  /** A leading entry under another key is kept by `Without` and skipped by `Lookup`. */
  lemma SkipLeading<V>(src: Obj<V>, k: string)
    requires src != [] && src[0].0 != k
    ensures Lookup(src, k) == Lookup(src[1..], k)
    ensures Without(src, k) == [src[0]] + Without(src[1..], k)
  {
  }

  /** Spreading a non-empty source assigns its first property, then spreads the rest. */
  lemma SpreadUnfold<V>(target: Obj<V>, src: Obj<V>)
    requires src != []
    ensures Spread(target, src) == Spread(Assign(target, src[0].0, src[0].1), src[1..])
  {
  }

  /** The keys after the first of a distinct-keyed source are also fresh for the target grown by that first one. */
  lemma FreshTail<V>(w: Obj<V>, src: Obj<V>)
    requires src != [] && DistinctKeys(src)
    requires forall j :: 0 <= j < |src| ==> src[j].0 !in Keys(w)
    ensures Keys(w + [src[0]]) == Keys(w) + [src[0].0]
    ensures forall j :: 0 <= j < |src[1..]| ==> src[1..][j].0 !in Keys(w + [src[0]])
  {
    var w' := w + [src[0]];
    assert Keys(w') == Keys(w) + [src[0].0];
    forall j | 0 <= j < |src[1..]| ensures src[1..][j].0 !in Keys(w') {
      assert src[1..][j] == src[j + 1];
      assert src[j + 1].0 != src[0].0;
    }
  }

  lemma Regroup<T>(p: seq<T>, w: seq<T>, q: seq<T>, r: seq<T>)
    ensures p + (w + q) + r == p + w + (q + r)
  {
  }

  /**
   * Spreading a distinct-keyed object onto `{ k: x, ...w }`, where `w` shares no
   * key with it: `k` keeps its leading place and takes the source's value when
   * the source has one; the rest of the source follows `w` in its own order.
   */
  lemma {:induction false} SpreadOntoLeading<V>(k: string, x: V, w: Obj<V>, src: Obj<V>)
    requires DistinctKeys(src)
    requires k !in Keys(w)
    requires forall j :: 0 <= j < |src| ==> src[j].0 !in Keys(w)
    ensures Spread([(k, x)] + w, src) == [(k, ValueOr(Lookup(src, k), x))] + w + Without(src, k)
    decreases |src|
  {
    if src != [] {
      DistinctTail(src);
      var a, v, rest := src[0].0, src[0].1, src[1..];
      SpreadUnfold([(k, x)] + w, src);
      if a == k {
        AssignLeading(k, x, w, v);
        SpreadOntoLeading(k, v, w, rest);
        assert Lookup(rest, k) == None;
      } else {
        var w' := w + [(a, v)];
        assert a !in Keys(w);
        AssignFresh(k, x, w, a, v);
        FreshTail(w, src);
        SpreadOntoLeading(k, x, w', rest);
        SkipLeading(src, k);
        Regroup([(k, ValueOr(Lookup(src, k), x))], w, [(a, v)], Without(rest, k));
      }
    }
  }

  /**
   * `{ id: x, ...record }`: the result lists `id` first, holding the record's own
   * `id` when it has one and `x` otherwise, followed by the record's other
   * properties in their order.
   */
  lemma LeadingIdSpread(record: Record, x: Value)
    requires DistinctKeys(record)
    ensures Spread([("id", x)], record) == [("id", ValueOr(Lookup(record, "id"), x))] + Without(record, "id")
  {
    var w: Record := [];
    assert Keys(w) == [];
    SpreadOntoLeading("id", x, w, record);
    assert [("id", x)] + w == [("id", x)];
  }

  // ---------------------------------------------------------------------------
  // Arrays and strings

  /** An argument that may be a lone value or an array of them. */
  datatype OneOrMany<T> = One(item: T) | Many(items: seq<T>)

  /** `Array.isArray(a) ? a : [a]` */
  function AsArray<T>(a: OneOrMany<T>): seq<T>
  {
    match a
    case One(x) => [x]
    case Many(xs) => xs
  }

  /** `parts.join(sep)` */
  function Join(sep: string, parts: seq<string>): string
    decreases |parts|
  {
    if parts == [] then ""
    else if |parts| == 1 then parts[0]
    else parts[0] + sep + Join(sep, parts[1..])
  }

  /** `Array(n).fill(s)` */
  function Fill(n: nat, s: string): (r: seq<string>)
  {
    seq(n, _ => s)
  }

  /** Joining one more part appends the separator and that part. */
  lemma {:induction false} JoinSnoc(sep: string, parts: seq<string>, p: string)
    requires parts != []
    ensures Join(sep, parts + [p]) == Join(sep, parts) + sep + p
    decreases |parts|
  {
    if |parts| == 1 {
      assert (parts + [p])[1..] == [p];
    } else {
      JoinSnoc(sep, parts[1..], p);
      assert (parts + [p])[1..] == parts[1..] + [p];
    }
  }

  /** How many times `c` occurs in `s`. */
  function Occurrences(c: char, s: string): nat
    decreases |s|
  {
    if s == [] then 0 else (if s[0] == c then 1 else 0) + Occurrences(c, s[1..])
  }

  lemma {:induction false} OccurrencesAppend(c: char, a: string, b: string)
    ensures Occurrences(c, a + b) == Occurrences(c, a) + Occurrences(c, b)
    decreases |a|
  {
    if a != [] {
      assert (a + b)[0] == a[0];
      assert (a + b)[1..] == a[1..] + b;
      OccurrencesAppend(c, a[1..], b);
      assert Occurrences(c, a + b) == (if a[0] == c then 1 else 0) + Occurrences(c, a[1..] + b);
    } else {
      assert a + b == b;
    }
  }
}
