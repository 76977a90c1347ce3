/** Merging nested configuration maps, the override taking precedence. */
module DeepMerge {
  import opened Options

  /** Anything that is not a map counts as a leaf, lists included. */
  datatype Json = Leaf(value: int) | Object(fields: Fields)

  type Fields = map<string, Json>

  function Merge(base: Fields, override: Fields): Fields
    decreases Object(override)
  {
    map k | k in base.Keys + override.Keys ::
      if k !in override then base[k]
      else if k in base && base[k].Object? && override[k].Object? then Object(Merge(base[k].fields, override[k].fields))
      else override[k]
  }

  // ----- identity and absorption

  lemma MergeNothing(a: Fields)
    ensures Merge(a, map[]) == a && Merge(map[], a) == a
  {
  }

  /** An override applied twice is applied once. */
  lemma {:induction false} MergeAbsorbs(a: Fields, b: Fields)
    ensures Merge(Merge(a, b), b) == Merge(a, b)
    decreases Object(b)
  {
    forall k | k in b && b[k].Object?
      ensures k in a && a[k].Object?
              ==> Merge(Merge(a[k].fields, b[k].fields), b[k].fields) == Merge(a[k].fields, b[k].fields)
      ensures Merge(b[k].fields, b[k].fields) == b[k].fields
    {
      if k in a && a[k].Object? {
        MergeAbsorbs(a[k].fields, b[k].fields);
      }
      MergeNothing(b[k].fields);
      MergeAbsorbs(map[], b[k].fields);
    }
  }

  // ----- lookup

  /** The value at a path, if every step but the last is a map. */
  function Get(a: Fields, path: seq<string>): Option<Json>
    requires path != []
    decreases |path|
  {
    if path[0] !in a then None
    else if |path| == 1 then Some(a[path[0]])
    else if a[path[0]].Object? then Get(a[path[0]].fields, path[1..])
    else None
  }

  /** Some proper prefix of the path is a leaf. */
  predicate Blocks(a: Fields, path: seq<string>)
    requires path != []
    decreases |path|
  {
    |path| > 1 && path[0] in a && (a[path[0]].Leaf? || Blocks(a[path[0]].fields, path[1..]))
  }

  /** What the value at a path becomes, from the two values there. */
  function Decided(base: Option<Json>, override: Option<Json>, blocked: bool): Option<Json> {
    match override
    case None => if blocked then None else base
    case Some(v) =>
      if v.Object? && base.Some? && base.value.Object? then Some(Object(Merge(base.value.fields, v.fields)))
          else override
  }

  /**
   Lookup at any path: the override decides where it has a value, maps merge, and a leaf of the override hides what is
   below it.
   */
  lemma {:induction false} MergeDecides(a: Fields, b: Fields, path: seq<string>)
    requires path != []
    ensures Get(Merge(a, b), path) == Decided(Get(a, path), Get(b, path), Blocks(b, path))
    decreases |path|
  {
    var k := path[0];
    if |path| > 1 && k in b && b[k].Object? && k in a && a[k].Object? {
      MergeDecides(a[k].fields, b[k].fields, path[1..]);
    }
  }

  // ----- associativity

  /** Every path of a, as far as both go through maps, is a path of c. */
  ghost predicate Covers(c: Fields, a: Fields)
    decreases Object(a)
  {
    forall k | k in a :: k in c && (a[k].Object? && c[k].Object? ==> Covers(c[k].fields, a[k].fields))
  }

  /** A base changes nothing exactly when it is covered. */
  lemma {:induction false} CoveredIffIgnored(a: Fields, c: Fields)
    ensures Merge(a, c) == c <==> Covers(c, a)
    decreases Object(a)
  {
    var m := Merge(a, c);
    forall k | k in a && k in c && a[k].Object? && c[k].Object?
      ensures m[k] == c[k] <==> Covers(c[k].fields, a[k].fields)
    {
      CoveredIffIgnored(a[k].fields, c[k].fields);
    }
    if Covers(c, a) {
      assert m.Keys == c.Keys;
    } else {
      var k :| k in a && !(k in c && (a[k].Object? && c[k].Object? ==> Covers(c[k].fields, a[k].fields)));
      assert k in m;
      assert k in c ==> m[k] != c[k];
    }
  }

  predicate AllMaps(a: Fields, c: Fields, k: string) {
    k in a && k in c && a[k].Object? && c[k].Object?
  }

  /** Where a leaf in the middle separates two maps, the outer map must cover the inner one. */
  ghost predicate Compatible(a: Fields, b: Fields, c: Fields)
    decreases Object(a)
  {
    forall k | AllMaps(a, c, k) && k in b ::
      if b[k].Leaf? then Covers(c[k].fields, a[k].fields) else Compatible(a[k].fields, b[k].fields, c[k].fields)
  }

  ghost predicate CompatibleAt(a: Fields, b: Fields, c: Fields, k: string) {
    AllMaps(a, c, k) && k in b ==>
      if b[k].Leaf? then Covers(c[k].fields, a[k].fields) else Compatible(a[k].fields, b[k].fields, c[k].fields)
  }

  lemma CompatibleByKey(a: Fields, b: Fields, c: Fields)
    ensures Compatible(a, b, c) <==> forall k :: CompatibleAt(a, b, c, k)
  {
    if forall k :: CompatibleAt(a, b, c, k) {
      forall k | AllMaps(a, c, k) && k in b
        ensures if b[k].Leaf? then Covers(c[k].fields, a[k].fields)
              else Compatible(a[k].fields, b[k].fields, c[k].fields)
      {
        assert CompatibleAt(a, b, c, k);
      }
    }
  }

  /** One key: only where outer and inner value are maps can the order matter. */
  lemma {:induction false} KeyUnlessMaps(a: Fields, b: Fields, c: Fields, k: string)
    requires !(AllMaps(a, c, k) && k in b)
    ensures k in Merge(Merge(a, b), c) <==> k in Merge(a, Merge(b, c))
    ensures k in Merge(Merge(a, b), c) ==> Merge(Merge(a, b), c)[k] == Merge(a, Merge(b, c))[k]
  {
  }

  lemma {:induction false} KeyWithMaps(a: Fields, b: Fields, c: Fields, k: string)
    requires AllMaps(a, c, k) && k in b
    ensures k in Merge(Merge(a, b), c) && k in Merge(a, Merge(b, c))
    ensures var x, z := a[k].fields, c[k].fields;
            Merge(Merge(a, b), c)[k] == Object(if b[k].Leaf? then z else Merge(Merge(x, b[k].fields), z))
    ensures var x, z := a[k].fields, c[k].fields;
            Merge(a, Merge(b, c))[k] == Object(if b[k].Leaf? then Merge(x, z) else Merge(x, Merge(b[k].fields, z)))
  {
    assert Merge(a, b)[k] == if b[k].Leaf? then b[k] else Object(Merge(a[k].fields, b[k].fields));
    assert Merge(b, c)[k] == if b[k].Leaf? then c[k] else Object(Merge(b[k].fields, c[k].fields));
  }

  /** Merging is associative exactly where every such map is covered. */
  lemma {:induction false} AssociativeIff(a: Fields, b: Fields, c: Fields)
    ensures Merge(Merge(a, b), c) == Merge(a, Merge(b, c)) <==> Compatible(a, b, c)
    decreases Object(a)
  {
    var l, r := Merge(Merge(a, b), c), Merge(a, Merge(b, c));
    forall k: string
      ensures k in l <==> k in r
      ensures k in l ==> (l[k] == r[k] <==> CompatibleAt(a, b, c, k))
      ensures k !in l ==> CompatibleAt(a, b, c, k)
    {
      AssociativeAt(a, b, c, k);
    }
    CompatibleByKey(a, b, c);
    assert l == r <==> forall k | k in l :: l[k] == r[k];
  }

  lemma {:induction false} AssociativeAt(a: Fields, b: Fields, c: Fields, k: string)
    ensures var l, r := Merge(Merge(a, b), c), Merge(a, Merge(b, c));
            && (k in l <==> k in r)
            && (k in l ==> (l[k] == r[k] <==> CompatibleAt(a, b, c, k)))
            && (k !in l ==> CompatibleAt(a, b, c, k))
    decreases Object(a), 0
  {
    if AllMaps(a, c, k) && k in b {
      KeyWithMaps(a, b, c, k);
      if b[k].Leaf? {
        CoveredIffIgnored(a[k].fields, c[k].fields);
      } else {
        AssociativeIff(a[k].fields, b[k].fields, c[k].fields);
      }
    } else {
      KeyUnlessMaps(a, b, c, k);
    }
  }

  /** No path holds a map, then a leaf, then a map. */
  ghost predicate NoLeafBetween(a: Fields, b: Fields, c: Fields)
    decreases Object(a)
  {
    forall k | AllMaps(a, c, k) && k in b ::
      b[k].Object? && NoLeafBetween(a[k].fields, b[k].fields, c[k].fields)
  }

  lemma {:induction false} NoLeafIsCompatible(a: Fields, b: Fields, c: Fields)
    requires NoLeafBetween(a, b, c)
    ensures Compatible(a, b, c)
    decreases Object(a)
  {
    forall k | AllMaps(a, c, k) && k in b
      ensures Compatible(a[k].fields, b[k].fields, c[k].fields)
    {
      NoLeafIsCompatible(a[k].fields, b[k].fields, c[k].fields);
    }
  }

  /** A map, a leaf and a map under one key: merging from the left forgets the first map, from the right it does not. */
  lemma {:induction false} NotAlwaysAssociative()
    ensures var a, b, c: Fields :=
          map["k" := Object(map["x" := Leaf(1)])], map["k" := Leaf(0)], map["k" := Object(map["y" := Leaf(2)])];
            Merge(Merge(a, b), c) != Merge(a, Merge(b, c))
  {
    var a, b, c: Fields :=
        map["k" := Object(map["x" := Leaf(1)])], map["k" := Leaf(0)], map["k" := Object(map["y" := Leaf(2)])];
    assert "k" in a && "x" in a["k"].fields && "x" !in c["k"].fields;
    AssociativeIff(a, b, c);
  }

  // ----- the loop

  /** The value of one key after the merge. */
  function MergedValue(base: Fields, key: string, value: Json): Json {
    if key in base && base[key].Object? && value.Object? then Object(Merge(base[key].fields, value.fields)) else value
  }

  /** Some keys of the override are still to be merged. */
  ghost predicate PartlyMerged(merged: Fields, base: Fields, override: Fields, left: set<string>) {
    && left <= override.Keys
    && merged.Keys == base.Keys + (override.Keys - left)
    && (forall k | k in merged && k in base :: k in left || k !in override ==> merged[k] == base[k])
    && (forall k | k in override && k !in left :: k in merged && merged[k] == MergedValue(base, k, override[k]))
  }

  lemma FullyMerged(merged: Fields, base: Fields, override: Fields)
    requires PartlyMerged(merged, base, override, {})
    ensures merged == Merge(base, override)
  {
  }

  lemma OneMoreMerged(merged: Fields, base: Fields, override: Fields, left: set<string>, key: string)
    requires PartlyMerged(merged, base, override, left) && key in left
    ensures key in merged <==> key in base
    ensures key in merged ==> merged[key] == base[key]
    ensures PartlyMerged(merged[key := MergedValue(base, key, override[key])], base, override, left - {key})
  {
  }

  method MergeInto(base: Fields, override: Fields) returns (merged: Fields)
    ensures merged == Merge(base, override)
    decreases Object(override)
  {
    merged := base;
    var left := override.Keys;
    while left != {}
      invariant PartlyMerged(merged, base, override, left)
      decreases |left|
    {
      var key :| key in left;
      var value := override[key];
      OneMoreMerged(merged, base, override, left, key);
      if key in merged && merged[key].Object? && value.Object? {
        var fields := MergeInto(merged[key].fields, value.fields);
        merged := merged[key := Object(fields)];
      } else {
        merged := merged[key := value];
      }
      left := left - {key};
    }
    FullyMerged(merged, base, override);
  }
}
