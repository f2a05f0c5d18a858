/**
 * Plain JavaScript objects (`Record<string, unknown>`) as the library uses them:
 * an ordered list of own properties with distinct keys. Key order matters because
 * the serialiser sees it, and object spread (`{ ...a, ...b }`) is defined by the
 * order in which properties are copied.
 */
module Records {
  import opened Wrappers

  /** A JavaScript value as far as this library handles one. Context values are opaque to
      the logger; they only ever reach the serialiser. */
  datatype Value =
    | Null
    | Bool(b: bool)
    | Num(n: int)
    | Str(s: string)
    | Arr(items: seq<Value>)
    | Obj(fields: seq<(string, Value)>)

  /** Own properties of an object, in property order. */
  type Fields = seq<(string, Value)>

  /** The keys of `fs` in property order (`Object.keys`). */
  function Keys(fs: Fields): seq<string> {
    if fs == [] then [] else [fs[0].0] + Keys(fs[1..])
  }

  lemma {:induction false} KeysPointwise(fs: Fields)
    ensures |Keys(fs)| == |fs|
    ensures forall i :: 0 <= i < |fs| ==> Keys(fs)[i] == fs[i].0
    decreases |fs|
  {
    if fs != [] {
      KeysPointwise(fs[1..]);
    }
  }

  lemma {:induction false} KeysOfConcat(a: Fields, b: Fields)
    ensures Keys(a + b) == Keys(a) + Keys(b)
    decreases |a|
  {
    if a != [] {
      assert (a + b)[0] == a[0];
      assert (a + b)[1..] == a[1..] + b;
      KeysOfConcat(a[1..], b);
      assert Keys(a + b) == [a[0].0] + (Keys(a[1..]) + Keys(b));
    } else {
      assert a + b == b;
    }
  }

  /** No key occurs twice, as in every JavaScript object. */
  predicate UniqueKeys(fs: Fields) {
    fs == [] || (fs[0].0 !in Keys(fs[1..]) && UniqueKeys(fs[1..]))
  }

  /** A JavaScript object: properties in order, keys distinct. */
  type Record = fs: Fields | UniqueKeys(fs) witness []

  /** Property read `fs[k]`; `None` when `k` is not an own key. */
  function Lookup(fs: Fields, k: string): (v: Option<Value>)
    ensures v.Some? <==> k in Keys(fs)
  {
    if fs == [] then None
    else if fs[0].0 == k then Some(fs[0].1)
    else Lookup(fs[1..], k)
  }

  /**
   * Property assignment `r[k] = v`: an existing key keeps its position and takes the new
   * value, a new key is appended at the end.
   */
  function Assign(r: Record, k: string, v: Value): (r': Record)
    ensures Lookup(r', k) == Some(v)
    ensures forall k' :: k' != k ==> Lookup(r', k') == Lookup(r, k')
    ensures Keys(r') == if k in Keys(r) then Keys(r) else Keys(r) + [k]
    decreases |r|
  {
    if r == [] then
      ConsShape((k, v), []);
      assert [(k, v)] + [] == [(k, v)];
      [(k, v)]
    else
      ConsShape(r[0], r[1..]);
      assert r == [r[0]] + r[1..];
      if r[0].0 == k then
        ConsShape((k, v), r[1..]);
        [(k, v)] + r[1..]
      else
        var rest := Assign(r[1..], k, v);
        ConsShape(r[0], rest);
        [r[0]] + rest
  }

  /** Keys, uniqueness and lookup of an object given as its first property and the rest. */
  lemma ConsShape(x: (string, Value), rest: Fields)
    ensures Keys([x] + rest) == [x.0] + Keys(rest)
    ensures UniqueKeys([x] + rest) <==> x.0 !in Keys(rest) && UniqueKeys(rest)
    ensures forall k :: Lookup([x] + rest, k) == if x.0 == k then Some(x.1) else Lookup(rest, k)
  {
    assert ([x] + rest)[0] == x;
    assert ([x] + rest)[1..] == rest;
  }

  /**
   * Object spread `{ ...a, ...b }`: a copy of `a`, then every own property of `b`
   * assigned in `b`'s order. Keys of `b` win; keys of `a` that `b` lacks survive.
   */
  function Spread(a: Record, b: Record): (r: Record)
    ensures forall k :: Lookup(r, k) == if k in Keys(b) then Lookup(b, k) else Lookup(a, k)
    decreases |b|
  {
    if b == [] then a else Spread(Assign(a, b[0].0, b[0].1), b[1..])
  }

  /** The properties of `a`, each carrying `b`'s value when `b` has the same key. */
  function Overridden(a: Fields, b: Fields): Fields {
    if a == [] then []
    else [(a[0].0, Lookup(b, a[0].0).GetOr(a[0].1))] + Overridden(a[1..], b)
  }

  /** The properties of `b` whose key is not among `ks`, in `b`'s order. */
  function Additions(b: Fields, ks: seq<string>): Fields {
    if b == [] then []
    else (if b[0].0 in ks then [] else [b[0]]) + Additions(b[1..], ks)
  }

  /** Closed form of object spread: `a`'s keys in place with overriding values, then `b`'s new keys. */
  function SpreadReference(a: Fields, b: Fields): Fields {
    Overridden(a, b) + Additions(b, Keys(a))
  }

  lemma {:induction false} OverriddenByNothing(a: Fields)
    ensures Overridden(a, []) == a
    decreases |a|
  {
    if a != [] {
      OverriddenByNothing(a[1..]);
    }
  }

  lemma {:induction false} AdditionsOverNothing(b: Fields)
    ensures Additions(b, []) == b
    decreases |b|
  {
    if b != [] {
      AdditionsOverNothing(b[1..]);
    }
  }

  lemma {:induction false} OverriddenSkipsForeignKey(a: Fields, k: string, v: Value, b: Fields)
    requires k !in Keys(a)
    ensures Overridden(a, [(k, v)] + b) == Overridden(a, b)
    decreases |a|
  {
    if a != [] {
      assert Lookup([(k, v)] + b, a[0].0) == Lookup(b, a[0].0) by {
        assert ([(k, v)] + b)[1..] == b;
      }
      OverriddenSkipsForeignKey(a[1..], k, v, b);
    }
  }

  lemma {:induction false} AdditionsIgnoreAbsentKey(b: Fields, ks: seq<string>, k: string)
    requires k !in Keys(b)
    ensures Additions(b, ks + [k]) == Additions(b, ks)
    decreases |b|
  {
    if b != [] {
      AdditionsIgnoreAbsentKey(b[1..], ks, k);
    }
  }

  lemma {:induction false} OverriddenAfterAssign(a: Record, k: string, v: Value, b: Fields)
    requires k !in Keys(b)
    ensures Overridden(Assign(a, k, v), b)
         == Overridden(a, [(k, v)] + b) + (if k in Keys(a) then [] else [(k, v)])
    decreases |a|
  {
    if a == [] {
    } else if a[0].0 == k {
      OverriddenAssignAtHead(a, k, v, b);
    } else {
      OverriddenAfterAssign(a[1..], k, v, b);
      OverriddenAssignPastHead(a, k, v, b);
    }
  }

  lemma OverriddenCons(x: (string, Value), rest: Fields, b: Fields)
    ensures Overridden([x] + rest, b) == [(x.0, Lookup(b, x.0).GetOr(x.1))] + Overridden(rest, b)
  {
    assert ([x] + rest)[0] == x;
    assert ([x] + rest)[1..] == rest;
  }

  lemma OverriddenAssignAtHead(a: Record, k: string, v: Value, b: Fields)
    requires k !in Keys(b)
    requires a != [] && a[0].0 == k
    ensures Overridden(Assign(a, k, v), b) == Overridden(a, [(k, v)] + b)
  {
    var a1 := a[1..];
    assert k !in Keys(a1);
    assert Assign(a, k, v) == [(k, v)] + a1;
    OverriddenCons((k, v), a1, b);
    assert a == [a[0]] + a1;
    OverriddenCons(a[0], a1, [(k, v)] + b);
    ConsShape((k, v), b);
    OverriddenSkipsForeignKey(a1, k, v, b);
  }

  lemma OverriddenAssignPastHead(a: Record, k: string, v: Value, b: Fields)
    requires k !in Keys(b)
    requires a != [] && a[0].0 != k
    requires Overridden(Assign(a[1..], k, v), b)
          == Overridden(a[1..], [(k, v)] + b) + (if k in Keys(a[1..]) then [] else [(k, v)])
    ensures Overridden(Assign(a, k, v), b)
         == Overridden(a, [(k, v)] + b) + (if k in Keys(a) then [] else [(k, v)])
  {
    var head := (a[0].0, Lookup(b, a[0].0).GetOr(a[0].1));
    var tail := Overridden(a[1..], [(k, v)] + b);
    var extra: Fields := if k in Keys(a[1..]) then [] else [(k, v)];
    AssignPastHeadShape(a, k, v, b);
    OverriddenPastHead(a, k, v, b);
    ConcatAssociates([head], tail, extra);
  }

  lemma AssignPastHeadShape(a: Record, k: string, v: Value, b: Fields)
    requires a != [] && a[0].0 != k
    ensures Overridden(Assign(a, k, v), b)
         == [(a[0].0, Lookup(b, a[0].0).GetOr(a[0].1))] + Overridden(Assign(a[1..], k, v), b)
  {
    var rest := Assign(a[1..], k, v);
    assert Assign(a, k, v) == [a[0]] + rest;
    OverriddenCons(a[0], rest, b);
  }

  lemma OverriddenPastHead(a: Record, k: string, v: Value, b: Fields)
    requires a != [] && a[0].0 != k
    ensures Overridden(a, [(k, v)] + b)
         == [(a[0].0, Lookup(b, a[0].0).GetOr(a[0].1))] + Overridden(a[1..], [(k, v)] + b)
    ensures (k in Keys(a)) == (k in Keys(a[1..]))
  {
    ConsShape((k, v), b);
  }

  /** The property a spread step appends: `b`'s first entry when its key is new to `a`. */
  function Added(a: Record, b: Fields): Fields
    requires b != []
  {
    if b[0].0 in Keys(a) then [] else [b[0]]
  }

  lemma OverriddenStep(a: Record, b: Record)
    requires b != []
    ensures Overridden(Assign(a, b[0].0, b[0].1), b[1..]) == Overridden(a, b) + Added(a, b)
  {
    var b1: Record := b[1..];
    assert b[0].0 !in Keys(b1);
    assert b == [(b[0].0, b[0].1)] + b1;
    OverriddenAfterAssign(a, b[0].0, b[0].1, b1);
  }

  lemma AdditionsStep(a: Record, b: Record)
    requires b != []
    ensures Additions(b[1..], Keys(Assign(a, b[0].0, b[0].1))) == Additions(b[1..], Keys(a))
    ensures Additions(b, Keys(a)) == Added(a, b) + Additions(b[1..], Keys(a))
  {
    var b1: Record := b[1..];
    if b[0].0 !in Keys(a) {
      AdditionsIgnoreAbsentKey(b1, Keys(a), b[0].0);
    }
  }

  /** One assignment step of the spread leaves the closed form unchanged. */
  lemma ReferenceAbsorbsAssign(a: Record, b: Record)
    requires b != []
    ensures SpreadReference(Assign(a, b[0].0, b[0].1), b[1..]) == SpreadReference(a, b)
  {
    OverriddenStep(a, b);
    AdditionsStep(a, b);
    ConcatAssociates(Overridden(a, b), Added(a, b), Additions(b[1..], Keys(a)));
  }

  lemma ConcatAssociates(x: Fields, y: Fields, z: Fields)
    ensures (x + y) + z == x + (y + z)
  {
  }

  /** Spreading by sequential assignment agrees with the closed-form reference. */
  lemma {:induction false} SpreadMatchesReference(a: Record, b: Record)
    ensures Spread(a, b) == SpreadReference(a, b)
    decreases |b|
  {
    if b == [] {
      OverriddenByNothing(a);
    } else {
      SpreadMatchesReference(Assign(a, b[0].0, b[0].1), b[1..]);
      ReferenceAbsorbsAssign(a, b);
    }
  }

  /** Spreading an object into an empty literal copies it exactly (`{ ...b }`). */
  lemma SpreadOntoEmpty(b: Record)
    ensures Spread([], b) == b
  {
    SpreadMatchesReference([], b);
    AdditionsOverNothing(b);
  }
}
