/**
 The canonical form behind a command fingerprint: object keys are sorted at every depth before the
 payload is written out and hashed. Writing it out and hashing are taken to be injective.
 */
module Fingerprint {

  datatype Json =
    | Null
    | Bool(b: bool)
    | Number(n: int)
    | Text(s: string)
    | Array(items: seq<Json>)
    | Object(fields: seq<Field>)

  datatype Field = Field(key: string, value: Json)

  // ---------------------------------------------------------------- the order of keys

  predicate Less(a: string, b: string) {
    b != [] && (a == [] || a[0] < b[0] || (a[0] == b[0] && Less(a[1..], b[1..])))
  }

  lemma {:induction false} LessTotal(a: string, b: string)
    ensures Less(a, b) || a == b || Less(b, a)
    ensures !(Less(a, b) && Less(b, a)) && !Less(a, a)
  {
    if a != [] && b != [] && a[0] == b[0] {
      LessTotal(a[1..], b[1..]);
      assert a == [a[0]] + a[1..] && b == [b[0]] + b[1..];
    }
    LessIrreflexive(a);
  }

  lemma {:induction false} LessIrreflexive(a: string)
    ensures !Less(a, a)
  {
    if a != [] {
      LessIrreflexive(a[1..]);
    }
  }

  lemma {:induction false} LessTransitive(a: string, b: string, c: string)
    requires Less(a, b) && Less(b, c)
    ensures Less(a, c)
  {
    if a != [] && a[0] == b[0] && b[0] == c[0] {
      LessTransitive(a[1..], b[1..], c[1..]);
    }
  }

  // ---------------------------------------------------------------- canonical form

  function Insert(fields: seq<Field>, f: Field): seq<Field> {
    if fields == [] then [f]
    else if Less(f.key, fields[0].key) then [f] + fields
    else [fields[0]] + Insert(fields[1..], f)
  }

  function Canonical(v: Json): Json {
    match v
    case Array(items) => Array(CanonicalItems(items))
    case Object(fields) => Object(CanonicalFields(fields))
    case _ => v
  }

  function CanonicalItems(items: seq<Json>): seq<Json> {
    if items == [] then [] else [Canonical(items[0])] + CanonicalItems(items[1..])
  }

  function CanonicalField(f: Field): Field {
    Field(f.key, Canonical(f.value))
  }

  function CanonicalFields(fields: seq<Field>): seq<Field> {
    if fields == [] then []
    else Insert(CanonicalFields(fields[1..]), CanonicalField(fields[0]))
  }

  /** No object, at any depth, has two fields of one key. */
  predicate UniqueKeys(v: Json) {
    match v
    case Array(items) => forall i :: 0 <= i < |items| ==> UniqueKeys(items[i])
    case Object(fields) =>
      && (forall i, j :: 0 <= i < j < |fields| ==> fields[i].key != fields[j].key)
      && (forall i :: 0 <= i < |fields| ==> UniqueKeys(fields[i].value))
    case _ => true
  }

  /** The two values differ at most in the order of object keys. */
  ghost predicate SameUpToKeyOrder(v: Json, w: Json) {
    match v
    case Array(items) =>
      w.Array? && |items| == |w.items|
      && forall i :: 0 <= i < |items| ==> SameUpToKeyOrder(items[i], w.items[i])
    case Object(fields) =>
      && w.Object?
      && (forall f :: f in fields ==> exists g :: g in w.fields && SameField(f, g))
      && (forall g :: g in w.fields ==> exists f :: f in fields && SameField(f, g))
    case _ => v == w
  }

  ghost predicate SameField(f: Field, g: Field) {
    f.key == g.key && SameUpToKeyOrder(f.value, g.value)
  }

  // ---------------------------------------------------------------- sorted fields

  predicate KeysSorted(fields: seq<Field>) {
    forall i, j :: 0 <= i < j < |fields| ==> Less(fields[i].key, fields[j].key)
  }

  lemma {:induction false} InsertMembers(fields: seq<Field>, f: Field, x: Field)
    ensures x in Insert(fields, f) <==> x == f || x in fields
  {
    if fields != [] && !Less(f.key, fields[0].key) {
      InsertMembers(fields[1..], f, x);
      assert fields == [fields[0]] + fields[1..];
    }
  }

  lemma {:induction false} InsertSorted(fields: seq<Field>, f: Field)
    requires KeysSorted(fields) && forall i :: 0 <= i < |fields| ==> fields[i].key != f.key
    ensures KeysSorted(Insert(fields, f))
  {
    if fields != [] {
      LessTotal(f.key, fields[0].key);
      if Less(f.key, fields[0].key) {
        forall j | 0 < j < |fields| ensures Less(f.key, fields[j].key) {
          LessTransitive(f.key, fields[0].key, fields[j].key);
        }
      } else {
        InsertSorted(fields[1..], f);
        var rest := Insert(fields[1..], f);
        forall j | 0 <= j < |rest| ensures Less(fields[0].key, rest[j].key) {
          InsertMembers(fields[1..], f, rest[j]);
        }
      }
    }
  }

  lemma HasMember(s: seq<Field>)
    requires s != []
    ensures exists x :: x in s
  {
    assert s[0] in s;
  }

  /** Sorted fields are determined by which fields they are. */
  lemma {:induction false} SortedDetermined(a: seq<Field>, b: seq<Field>)
    requires KeysSorted(a) && KeysSorted(b) && forall x :: x in a <==> x in b
    ensures a == b
  {
    if a == [] {
      if b != [] {
        HasMember(b);
        assert false;
      }
    } else {
      assert a[0] in b && b[0] in a;
      LessTotal(a[0].key, b[0].key);
      assert a[0] == b[0];
      forall x ensures x in a[1..] <==> x in b[1..] {
        LessIrreflexive(a[0].key);
        assert x in a[1..] <==> x in a && x != a[0];
        assert x in b[1..] <==> x in b && x != b[0];
      }
      SortedDetermined(a[1..], b[1..]);
    }
  }

  lemma {:induction false} CanonicalFieldsMembers(fields: seq<Field>, x: Field)
    ensures x in CanonicalFields(fields) <==> exists f :: f in fields && x == CanonicalField(f)
  {
    if fields != [] {
      var first, rest := fields[0], fields[1..];
      CanonicalFieldsMembers(rest, x);
      InsertMembers(CanonicalFields(rest), CanonicalField(first), x);
      assert fields == [first] + rest && first in fields;
      if f :| f in fields && x == CanonicalField(f) {
        assert f == first || f in rest;
      }
      if x in CanonicalFields(fields) && x != CanonicalField(first) {
        var f :| f in rest && x == CanonicalField(f);
        assert f in fields;
      }
    }
  }

  lemma {:induction false} CanonicalFieldsSorted(fields: seq<Field>)
    requires forall i, j :: 0 <= i < j < |fields| ==> fields[i].key != fields[j].key
    ensures KeysSorted(CanonicalFields(fields))
  {
    if fields != [] {
      CanonicalFieldsSorted(fields[1..]);
      var rest := CanonicalFields(fields[1..]);
      forall i | 0 <= i < |rest| ensures rest[i].key != fields[0].key {
        CanonicalFieldsMembers(fields[1..], rest[i]);
      }
      InsertSorted(rest, CanonicalField(fields[0]));
    }
  }

  lemma {:induction false} CanonicalItemsAt(items: seq<Json>)
    ensures |CanonicalItems(items)| == |items|
    ensures forall i :: 0 <= i < |items| ==> CanonicalItems(items)[i] == Canonical(items[i])
  {
    if items != [] {
      CanonicalItemsAt(items[1..]);
    }
  }

  // ---------------------------------------------------------------- the theorem

  /** Two payloads share a canonical form exactly when they differ only in the order of object keys. */
  lemma {:induction false} CanonicalIff(v: Json, w: Json)
    requires UniqueKeys(v) && UniqueKeys(w)
    ensures Canonical(v) == Canonical(w) <==> SameUpToKeyOrder(v, w)
    decreases v
  {
    if v.Array? && w.Array? {
      CanonicalItemsAt(v.items);
      CanonicalItemsAt(w.items);
      forall i | 0 <= i < |v.items| && i < |w.items|
        ensures Canonical(v.items[i]) == Canonical(w.items[i]) <==> SameUpToKeyOrder(v.items[i], w.items[i])
      {
        CanonicalIff(v.items[i], w.items[i]);
      }
      if Canonical(v) == Canonical(w) {
        assert forall i :: 0 <= i < |v.items| ==> CanonicalItems(v.items)[i] == CanonicalItems(w.items)[i];
      }
    } else if v.Object? && w.Object? {
      forall f, g | f in v.fields && g in w.fields ensures SameField(f, g) <==> Partners(f, g) {
        CanonicalIff(f.value, g.value);
      }
      ObjectsIff(v.fields, w.fields);
    }
  }

  ghost predicate Partners(f: Field, g: Field) {
    f.key == g.key && Canonical(f.value) == Canonical(g.value)
  }

  ghost predicate AllPartnered(fs: seq<Field>, gs: seq<Field>) {
    && (forall f :: f in fs ==> exists g :: g in gs && Partners(f, g))
    && (forall g :: g in gs ==> exists f :: f in fs && Partners(f, g))
  }

  lemma ObjectsIff(fs: seq<Field>, gs: seq<Field>)
    requires UniqueKeys(Object(fs)) && UniqueKeys(Object(gs))
    requires forall f, g :: f in fs && g in gs ==> (SameField(f, g) <==> Partners(f, g))
    ensures Canonical(Object(fs)) == Canonical(Object(gs)) <==> SameUpToKeyOrder(Object(fs), Object(gs))
  {
    if AllPartnered(fs, gs) {
      EqualOfPartners(fs, gs);
    }
    if CanonicalFields(fs) == CanonicalFields(gs) {
      PartnersOfEqual(fs, gs);
    }
    hide Partners, SameField, CanonicalFields, UniqueKeys;
    assert SameUpToKeyOrder(Object(fs), Object(gs)) <==> AllPartnered(fs, gs);
  }

  /** Fields that all have partners have one canonical form. */
  lemma EqualOfPartners(fs: seq<Field>, gs: seq<Field>)
    requires UniqueKeys(Object(fs)) && UniqueKeys(Object(gs)) && AllPartnered(fs, gs)
    ensures CanonicalFields(fs) == CanonicalFields(gs)
  {
    CanonicalFieldsSorted(fs);
    CanonicalFieldsSorted(gs);
    hide CanonicalFields, KeysSorted, UniqueKeys, Canonical;
    forall x ensures x in CanonicalFields(fs) <==> x in CanonicalFields(gs) {
      CanonicalFieldsMembers(fs, x);
      CanonicalFieldsMembers(gs, x);
      if f :| f in fs && x == CanonicalField(f) {
        var g :| g in gs && Partners(f, g);
        assert x == CanonicalField(g);
      }
      if g :| g in gs && x == CanonicalField(g) {
        var f :| f in fs && Partners(f, g);
        assert x == CanonicalField(f);
      }
    }
    SortedDetermined(CanonicalFields(fs), CanonicalFields(gs));
  }

  lemma PartnersOfEqual(fs: seq<Field>, gs: seq<Field>)
    requires CanonicalFields(fs) == CanonicalFields(gs)
    ensures AllPartnered(fs, gs)
  {
    hide CanonicalFields, Canonical;
    forall f | f in fs ensures exists g :: g in gs && Partners(f, g) {
      CanonicalFieldsMembers(fs, CanonicalField(f));
      CanonicalFieldsMembers(gs, CanonicalField(f));
      var g :| g in gs && CanonicalField(f) == CanonicalField(g);
    }
    forall g | g in gs ensures exists f :: f in fs && Partners(f, g) {
      CanonicalFieldsMembers(fs, CanonicalField(g));
      CanonicalFieldsMembers(gs, CanonicalField(g));
      var f :| f in fs && CanonicalField(g) == CanonicalField(f);
    }
  }
}
