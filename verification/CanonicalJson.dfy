/**
 Request payloads and the canonical form that is hashed to recognise a resent command.
 Keys are compared with the runtime's collation; all that matters here is that it is a
 total order which tells different keys apart.
 */
module CanonicalJson {
  datatype Json<K> =
    | Null
    | Bool(b: bool)
    | Number(n: int)
    | Text(s: string)
    | Array(items: seq<Json<K>>)
    | Object(fields: seq<Field<K>>)

  datatype Field<K> = Field(key: K, value: Json<K>)

  type Collation<!K> = (K, K) -> bool

  ghost predicate TotalOrder<K(!new)>(le: Collation<K>) {
    && (forall a, b :: le(a, b) || le(b, a))
    && (forall a, b :: le(a, b) && le(b, a) ==> a == b)
    && (forall a, b, c :: le(a, b) && le(b, c) ==> le(a, c))
  }

  function Insert<K>(le: Collation<K>, f: Field<K>, sorted: seq<Field<K>>): seq<Field<K>> {
    if sorted == [] || le(f.key, sorted[0].key) then [f] + sorted
    else [sorted[0]] + Insert(le, f, sorted[1..])
  }

  function Sort<K>(le: Collation<K>, fields: seq<Field<K>>): seq<Field<K>> {
    if fields == [] then [] else Insert(le, fields[0], Sort(le, fields[1..]))
  }

  /** Fields sorted by key at every depth; arrays keep their order. */
  function Canon<K>(le: Collation<K>, v: Json<K>): Json<K>
    decreases v, 1
  {
    match v
    case Array(items) => Array(CanonItems(le, items))
    case Object(fields) => Object(Sort(le, CanonFields(le, fields)))
    case _ => v
  }

  function CanonItems<K>(le: Collation<K>, items: seq<Json<K>>): (r: seq<Json<K>>)
    ensures |r| == |items|
    ensures forall i :: 0 <= i < |items| ==> r[i] == Canon(le, items[i])
    decreases items, 0
  {
    if items == [] then [] else [Canon(le, items[0])] + CanonItems(le, items[1..])
  }

  function CanonFields<K>(le: Collation<K>, fields: seq<Field<K>>): (r: seq<Field<K>>)
    ensures |r| == |fields|
    ensures forall i :: 0 <= i < |fields| ==> r[i] == CanonField(le, fields[i])
    decreases fields, 0
  {
    if fields == [] then []
    else [CanonField(le, fields[0])] + CanonFields(le, fields[1..])
  }

  function CanonField<K>(le: Collation<K>, f: Field<K>): Field<K>
    decreases f, 0
  {
    Field(f.key, Canon(le, f.value))
  }

  /** Equal up to the order of fields, at any depth. */
  ghost predicate Similar<K>(a: Json<K>, b: Json<K>)
    decreases a, 1
  {
    match (a, b)
    case (Array(xs), Array(ys)) =>
      |xs| == |ys| && forall i :: 0 <= i < |xs| ==> Similar(xs[i], ys[i])
    case (Object(fs), Object(gs)) =>
      && |fs| == |gs|
      && (forall f :: f in fs ==> HasPartner(f, gs))
      && (forall g :: g in gs ==> IsPartner(g, fs))
    case _ => a == b
  }

  ghost predicate HasPartner<K>(f: Field<K>, gs: seq<Field<K>>)
    decreases f, 1
  {
    exists g :: g in gs && SameField(f, g)
  }

  ghost predicate IsPartner<K>(g: Field<K>, fs: seq<Field<K>>)
    decreases fs, 0
  {
    exists f :: f in fs && SameField(f, g)
  }

  ghost predicate SameField<K>(f: Field<K>, g: Field<K>)
    decreases f, 0
  {
    f.key == g.key && Similar(f.value, g.value)
  }

  predicate UniqueKeys<K(==)>(fields: seq<Field<K>>) {
    forall i, j :: 0 <= i < j < |fields| ==> fields[i].key != fields[j].key
  }

  predicate Unique<K(==)>(v: Json<K>) {
    match v
    case Array(items) => forall i :: 0 <= i < |items| ==> Unique(items[i])
    case Object(fields) => UniqueKeys(fields) && forall f :: f in fields ==> Unique(f.value)
    case _ => true
  }

  // -- Sorting --------------------------------------------------------------------------

  ghost predicate Sorted<K>(le: Collation<K>, fields: seq<Field<K>>) {
    forall i, j :: 0 <= i < j < |fields| ==> le(fields[i].key, fields[j].key)
  }

  lemma {:induction false} InsertSorts<K(!new)>(le: Collation<K>, f: Field<K>, sorted: seq<Field<K>>)
    requires TotalOrder(le) && Sorted(le, sorted)
    ensures Sorted(le, Insert(le, f, sorted))
    ensures multiset(Insert(le, f, sorted)) == multiset{f} + multiset(sorted)
  {
    if sorted == [] || le(f.key, sorted[0].key) {
    } else {
      var rest := Insert(le, f, sorted[1..]);
      InsertSorts(le, f, sorted[1..]);
      assert sorted == [sorted[0]] + sorted[1..];
      forall i | 0 <= i < |rest|
        ensures le(sorted[0].key, rest[i].key)
      {
        assert rest[i] in multiset(rest);
        assert rest[i] == f || rest[i] in sorted[1..];
      }
    }
  }

  lemma {:induction false} SortSorts<K(!new)>(le: Collation<K>, fields: seq<Field<K>>)
    requires TotalOrder(le)
    ensures Sorted(le, Sort(le, fields))
    ensures multiset(Sort(le, fields)) == multiset(fields)
  {
    if fields != [] {
      SortSorts(le, fields[1..]);
      InsertSorts(le, fields[0], Sort(le, fields[1..]));
      assert fields == [fields[0]] + fields[1..];
    }
  }

  lemma {:induction false} SortOfSorted<K(!new)>(le: Collation<K>, fields: seq<Field<K>>)
    requires TotalOrder(le) && Sorted(le, fields)
    ensures Sort(le, fields) == fields
  {
    if fields != [] {
      SortOfSorted(le, fields[1..]);
      assert fields == [fields[0]] + fields[1..];
    }
  }

  /** Sorting looks at keys only, so it does not matter whether values are made canonical before or after. */
  lemma {:induction false} SortThenCanon<K>(le: Collation<K>, fields: seq<Field<K>>)
    ensures CanonFields(le, Sort(le, fields)) == Sort(le, CanonFields(le, fields))
  {
    if fields != [] {
      SortThenCanon(le, fields[1..]);
      InsertThenCanon(le, fields[0], Sort(le, fields[1..]));
      assert CanonFields(le, fields)[1..] == CanonFields(le, fields[1..]);
    }
  }

  lemma {:induction false} InsertThenCanon<K>(le: Collation<K>, f: Field<K>, sorted: seq<Field<K>>)
    ensures CanonFields(le, Insert(le, f, sorted))
         == Insert(le, Field(f.key, Canon(le, f.value)), CanonFields(le, sorted))
  {
    if sorted == [] || le(f.key, sorted[0].key) {
      assert ([f] + sorted)[1..] == sorted;
    } else {
      InsertThenCanon(le, f, sorted[1..]);
      assert ([sorted[0]] + Insert(le, f, sorted[1..]))[1..] == Insert(le, f, sorted[1..]);
      assert CanonFields(le, sorted)[1..] == CanonFields(le, sorted[1..]);
    }
  }

  // -- Idempotence ----------------------------------------------------------------------

  /** Making a payload canonical twice is making it canonical once. */
  lemma {:induction false} CanonIsIdempotent<K(!new)>(le: Collation<K>, v: Json<K>)
    requires TotalOrder(le)
    ensures Canon(le, Canon(le, v)) == Canon(le, v)
    decreases v
  {
    match v
    case Array(items) =>
      forall i | 0 <= i < |items|
        ensures Canon(le, Canon(le, items[i])) == Canon(le, items[i])
      {
        CanonIsIdempotent(le, items[i]);
      }
      assert CanonItems(le, CanonItems(le, items)) == CanonItems(le, items);
    case Object(fields) =>
      var fs := CanonFields(le, fields);
      forall i | 0 <= i < |fields|
        ensures Canon(le, fs[i].value) == fs[i].value
      {
        CanonIsIdempotent(le, fields[i].value);
      }
      assert CanonFields(le, fs) == fs;
      SortThenCanon(le, fs);
      SortSorts(le, fs);
      SortOfSorted(le, Sort(le, fs));
    case _ =>
  }

  // -- Equal canonical forms are equal payloads up to field order ------------------------

  /** A sorted list of fields with distinct keys is determined by its elements. */
  lemma {:induction false} SortedIsUnique<K(!new)>(le: Collation<K>, fs: seq<Field<K>>, gs: seq<Field<K>>)
    requires TotalOrder(le) && Sorted(le, fs) && Sorted(le, gs) && UniqueKeys(fs) && UniqueKeys(gs)
    requires |fs| == |gs| && forall f :: f in fs <==> f in gs
    ensures fs == gs
  {
    if fs != [] {
      FirstAgrees(le, fs, gs);
      TailAgrees(fs, gs);
      TailAgrees(gs, fs);
      SortedIsUnique(le, fs[1..], gs[1..]);
      assert fs == [fs[0]] + fs[1..] && gs == [gs[0]] + gs[1..];
    }
  }

  lemma FirstAgrees<K(!new)>(le: Collation<K>, fs: seq<Field<K>>, gs: seq<Field<K>>)
    requires TotalOrder(le) && Sorted(le, fs) && Sorted(le, gs) && UniqueKeys(fs) && UniqueKeys(gs)
    requires |fs| == |gs| > 0 && forall f :: f in fs <==> f in gs
    ensures fs[0] == gs[0]
  {
    assert fs[0] in gs && gs[0] in fs;
    var i, j :| 0 <= i < |fs| && 0 <= j < |gs| && fs[i] == gs[0] && gs[j] == fs[0];
    assert le(fs[0].key, gs[0].key) && le(gs[0].key, fs[0].key);
    assert j == 0;
  }

  lemma TailAgrees<K>(fs: seq<Field<K>>, gs: seq<Field<K>>)
    requires UniqueKeys(fs) && |fs| > 0 && |gs| > 0 && fs[0] == gs[0]
    requires forall f :: f in fs ==> f in gs
    ensures forall f :: f in fs[1..] ==> f in gs[1..]
  {
    forall f | f in fs[1..]
      ensures f in gs[1..]
    {
      var i :| 0 <= i < |fs[1..]| && fs[1..][i] == f;
      assert fs[i + 1] == f && f in gs;
      var j :| 0 <= j < |gs| && gs[j] == f;
      assert gs[1..][j - 1] == f;
    }
  }

  lemma SortedFieldsOf<K(!new)>(le: Collation<K>, fields: seq<Field<K>>)
    requires TotalOrder(le) && UniqueKeys(fields)
    ensures var r := Sort(le, CanonFields(le, fields));
            && Sorted(le, r) && UniqueKeys(r) && |r| == |fields|
            && (forall f :: f in r <==> f in CanonFields(le, fields))
  {
    var fs := CanonFields(le, fields);
    var r := Sort(le, fs);
    SortSorts(le, fs);
    assert |multiset(r)| == |multiset(fs)|;
    forall f
      ensures f in r <==> f in fs
    {
      assert f in r <==> f in multiset(r);
      assert f in fs <==> f in multiset(fs);
    }
    PermutationKeepsUnique(fs, r);
  }

  lemma {:induction false} PermutationKeepsUnique<K>(fs: seq<Field<K>>, r: seq<Field<K>>)
    requires UniqueKeys(fs) && multiset(fs) == multiset(r)
    ensures UniqueKeys(r)
  {
    forall i, j | 0 <= i < j < |r|
      ensures r[i].key != r[j].key
    {
      if r[i].key == r[j].key {
        assert r[i] in multiset(fs) && r[j] in multiset(fs);
        var a, b :| 0 <= a < |fs| && 0 <= b < |fs| && fs[a] == r[i] && fs[b] == r[j];
        assert a == b;
        Twice(r, i, j);
        Once(fs, a);
        assert false;
      }
    }
  }

  lemma Twice<K>(r: seq<Field<K>>, i: nat, j: nat)
    requires i < j < |r| && r[i] == r[j]
    ensures multiset(r)[r[i]] >= 2
  {
    assert r == r[..i] + [r[i]] + r[i + 1..j] + [r[j]] + r[j + 1..];
  }

  lemma Once<K>(fs: seq<Field<K>>, a: nat)
    requires UniqueKeys(fs) && a < |fs|
    ensures multiset(fs)[fs[a]] == 1
  {
    assert fs == fs[..a] + [fs[a]] + fs[a + 1..];
    assert fs[a] !in fs[..a] && fs[a] !in fs[a + 1..];
  }

  lemma MatchedFields<K(!new)>(le: Collation<K>, fs: seq<Field<K>>, gs: seq<Field<K>>)
    requires TotalOrder(le) && UniqueKeys(fs) && UniqueKeys(gs) && |fs| == |gs|
    requires forall f :: f in CanonFields(le, fs) <==> f in CanonFields(le, gs)
    ensures Sort(le, CanonFields(le, fs)) == Sort(le, CanonFields(le, gs))
  {
    SortedFieldsOf(le, fs);
    SortedFieldsOf(le, gs);
    SortedIsUnique(le, Sort(le, CanonFields(le, fs)), Sort(le, CanonFields(le, gs)));
  }

  lemma CanonFieldIn<K>(le: Collation<K>, fs: seq<Field<K>>, f: Field<K>)
    requires f in fs
    ensures CanonField(le, f) in CanonFields(le, fs)
  {
    var i :| 0 <= i < |fs| && fs[i] == f;
    assert CanonFields(le, fs)[i] == CanonField(le, f);
  }

  lemma CanonFieldFrom<K>(le: Collation<K>, fs: seq<Field<K>>, c: Field<K>) returns (f: Field<K>)
    requires c in CanonFields(le, fs)
    ensures f in fs && c == CanonField(le, f)
  {
    var i :| 0 <= i < |fs| && CanonFields(le, fs)[i] == c;
    f := fs[i];
  }

  predicate UniqueValues<K(==)>(fields: seq<Field<K>>) {
    forall f :: f in fields ==> Unique(f.value)
  }

  /** Payloads that differ in field order only have the same canonical form. */
  lemma {:induction false} SimilarCanon<K(!new)>(le: Collation<K>, a: Json<K>, b: Json<K>)
    requires TotalOrder(le) && Unique(a) && Unique(b) && Similar(a, b)
    ensures Canon(le, a) == Canon(le, b)
    decreases a, 1
  {
    match (a, b)
    case (Array(xs), Array(ys)) =>
      SimilarItems(le, xs, ys);
    case (Object(fs), Object(gs)) =>
      SimilarFields(le, fs, gs);
      MatchedFields(le, fs, gs);
    case _ =>
  }

  lemma {:induction false} SimilarItems<K(!new)>(le: Collation<K>, xs: seq<Json<K>>, ys: seq<Json<K>>)
    requires TotalOrder(le) && Unique(Array(xs)) && Unique(Array(ys)) && Similar(Array(xs), Array(ys))
    ensures CanonItems(le, xs) == CanonItems(le, ys)
    decreases Array(xs), 0
  {
    forall i | 0 <= i < |xs|
      ensures Canon(le, xs[i]) == Canon(le, ys[i])
    {
      SimilarCanon(le, xs[i], ys[i]);
    }
  }

  lemma {:induction false} SameFieldCanon<K(!new)>(le: Collation<K>, f: Field<K>, g: Field<K>)
    requires TotalOrder(le) && Unique(f.value) && Unique(g.value) && SameField(f, g)
    ensures CanonField(le, f) == CanonField(le, g)
    decreases f, 0
  {
    SimilarCanon(le, f.value, g.value);
  }

  lemma {:induction false} PartnerCanon<K(!new)>(le: Collation<K>, f: Field<K>, gs: seq<Field<K>>)
    requires TotalOrder(le) && Unique(f.value) && UniqueValues(gs) && HasPartner(f, gs)
    ensures CanonField(le, f) in CanonFields(le, gs)
    decreases f, 1
  {
    var g :| g in gs && SameField(f, g);
    SameFieldCanon(le, f, g);
    CanonFieldIn(le, gs, g);
  }

  lemma {:induction false} IsPartnerCanon<K(!new)>(le: Collation<K>, g: Field<K>, fs: seq<Field<K>>)
    requires TotalOrder(le) && Unique(g.value) && UniqueValues(fs) && IsPartner(g, fs)
    ensures CanonField(le, g) in CanonFields(le, fs)
    decreases fs, 0
  {
    var f :| f in fs && SameField(f, g);
    SameFieldCanon(le, f, g);
    CanonFieldIn(le, fs, f);
  }

  lemma {:induction false} SimilarFields<K(!new)>(le: Collation<K>, fs: seq<Field<K>>, gs: seq<Field<K>>)
    requires TotalOrder(le) && UniqueValues(fs) && UniqueValues(gs)
    requires forall f :: f in fs ==> HasPartner(f, gs)
    requires forall g :: g in gs ==> IsPartner(g, fs)
    ensures forall c :: c in CanonFields(le, fs) <==> c in CanonFields(le, gs)
    decreases fs, 1
  {
    forall c | c in CanonFields(le, fs)
      ensures c in CanonFields(le, gs)
    {
      var f := CanonFieldFrom(le, fs, c);
      PartnerCanon(le, f, gs);
    }
    forall c | c in CanonFields(le, gs)
      ensures c in CanonFields(le, fs)
    {
      var g := CanonFieldFrom(le, gs, c);
      IsPartnerCanon(le, g, fs);
    }
  }

  /** Payloads with the same canonical form differ in field order only. */
  lemma {:induction false} CanonSimilar<K(!new)>(le: Collation<K>, a: Json<K>, b: Json<K>)
    requires TotalOrder(le) && Unique(a) && Unique(b) && Canon(le, a) == Canon(le, b)
    ensures Similar(a, b)
    decreases a, 1
  {
    match (a, b)
    case (Array(xs), Array(ys)) =>
      CanonSimilarItems(le, xs, ys);
    case (Object(fs), Object(gs)) =>
      SortedFieldsOf(le, fs);
      SortedFieldsOf(le, gs);
      CanonSimilarFields(le, fs, gs);
    case _ =>
  }

  lemma {:induction false} CanonSimilarItems<K(!new)>(le: Collation<K>, xs: seq<Json<K>>, ys: seq<Json<K>>)
    requires TotalOrder(le) && Unique(Array(xs)) && Unique(Array(ys)) && CanonItems(le, xs) == CanonItems(le, ys)
    ensures Similar(Array(xs), Array(ys))
    decreases Array(xs), 0
  {
    forall i | 0 <= i < |xs|
      ensures Similar(xs[i], ys[i])
    {
      assert CanonItems(le, xs)[i] == CanonItems(le, ys)[i];
      CanonSimilar(le, xs[i], ys[i]);
    }
  }

  lemma {:induction false} CanonSameField<K(!new)>(le: Collation<K>, f: Field<K>, g: Field<K>)
    requires TotalOrder(le) && Unique(f.value) && Unique(g.value) && CanonField(le, f) == CanonField(le, g)
    ensures SameField(f, g)
    decreases f, 0
  {
    CanonSimilar(le, f.value, g.value);
  }

  lemma {:induction false} CanonSimilarFields<K(!new)>(le: Collation<K>, fs: seq<Field<K>>, gs: seq<Field<K>>)
    requires TotalOrder(le) && UniqueValues(fs) && UniqueValues(gs) && |fs| == |gs|
    requires forall c :: c in CanonFields(le, fs) <==> c in CanonFields(le, gs)
    ensures Similar(Object(fs), Object(gs))
    decreases fs
  {
    forall f | f in fs
      ensures HasPartner(f, gs)
    {
      CanonFieldIn(le, fs, f);
      var g := CanonFieldFrom(le, gs, CanonField(le, f));
      CanonSameField(le, f, g);
    }
    forall g | g in gs
      ensures IsPartner(g, fs)
    {
      CanonFieldIn(le, gs, g);
      var f := CanonFieldFrom(le, fs, CanonField(le, g));
      CanonSameField(le, f, g);
    }
  }

  /** The canonical form identifies a payload exactly up to the order of its fields. */
  lemma CanonIffSimilar<K(!new)>(le: Collation<K>, a: Json<K>, b: Json<K>)
    requires TotalOrder(le) && Unique(a) && Unique(b)
    ensures Canon(le, a) == Canon(le, b) <==> Similar(a, b)
  {
    if Similar(a, b) {
      SimilarCanon(le, a, b);
    }
    if Canon(le, a) == Canon(le, b) {
      CanonSimilar(le, a, b);
    }
  }
}
