/**
 * The canonical form that backups sign: property names sorted by code unit, no
 * white space. Two values have one canonical text exactly when they are the
 * same up to the order of their properties.
 */
module CanonicalJson {
  import opened Common
  import opened JsonText
  import opened JsonValues

  /** JavaScript's default order of strings: by UTF-16 code unit. */
  predicate Less(a: Text, b: Text) {
    b != [] && (a == [] || a[0] < b[0] || (a[0] == b[0] && Less(a[1..], b[1..])))
  }

  function InsertField(field: Field, fields: seq<Field>): seq<Field> {
    if fields == [] || !Less(fields[0].key, field.key) then [field] + fields
    else [fields[0]] + InsertField(field, fields[1..])
  }

  /** Every object with its properties in order of their names, inside and out. */
  function Sorted(v: Json): Json
    decreases v
  {
    match v
    case Array(items) => Array(SortedItems(items))
    case Object(fields) => Object(SortedFields(fields))
    case _ => v
  }

  function SortedItems(items: seq<Json>): (r: seq<Json>)
    ensures |r| == |items| && forall i :: 0 <= i < |items| ==> r[i] == Sorted(items[i])
    decreases items
  {
    if items == [] then [] else [Sorted(items[0])] + SortedItems(items[1..])
  }

  function SortedFields(fields: seq<Field>): seq<Field>
    decreases fields
  {
    if fields == [] then [] else InsertField(Field(fields[0].key, Sorted(fields[0].value)), SortedFields(fields[1..]))
  }

  /** `canonicalJson`. */
  function Canonical(v: Json): Text {
    Print(Sorted(v))
  }

  /** The same value: equal but for the order of properties, at every depth. */
  ghost predicate Same(v: Json, w: Json)
    decreases v
  {
    match v
    case Array(items) => w.Array? && |items| == |w.items| && forall i :: 0 <= i < |items| ==> Same(items[i], w.items[i])
    case Object(fields) =>
      && w.Object?
      && (forall i :: 0 <= i < |fields| ==> HasSame(w.fields, fields[i]))
      && HasNames(fields, w.fields)
    case _ => v == w
  }

  ghost predicate HasSame(fields: seq<Field>, a: Field)
    decreases a
  {
    exists j :: 0 <= j < |fields| && SameField(a, fields[j])
  }

  ghost predicate SameField(a: Field, b: Field)
    decreases a, 0
  {
    a.key == b.key && Same(a.value, b.value)
  }

  /** `f` has every name that occurs in `g`. */
  ghost predicate HasNames(f: seq<Field>, g: seq<Field>) {
    forall j :: 0 <= j < |g| ==> HasName(f, g[j].key)
  }

  ghost predicate HasName(fields: seq<Field>, key: Text) {
    exists i :: 0 <= i < |fields| && fields[i].key == key
  }

  // ---------------------------------------------------------------- ordering

  lemma {:induction false} LessIrreflexive(a: Text)
    ensures !Less(a, a)
  {
    if a != [] {
      LessIrreflexive(a[1..]);
    }
  }

  lemma {:induction false} LessTransitive(a: Text, b: Text, c: Text)
    requires Less(a, b) && Less(b, c)
    ensures Less(a, c)
  {
    if a != [] && a[0] == b[0] == c[0] {
      LessTransitive(a[1..], b[1..], c[1..]);
    }
  }

  lemma {:induction false} LessTotal(a: Text, b: Text)
    ensures a == b || Less(a, b) || Less(b, a)
  {
    if a != [] && b != [] && a[0] == b[0] {
      LessTotal(a[1..], b[1..]);
      assert a == [a[0]] + a[1..] && b == [b[0]] + b[1..];
    }
  }

  /** Names strictly ascending. */
  predicate Ascending(fields: seq<Field>) {
    forall i, j :: 0 <= i < j < |fields| ==> Less(fields[i].key, fields[j].key)
  }

  lemma {:induction false} InsertHas(field: Field, fields: seq<Field>, x: Field)
    ensures x in InsertField(field, fields) <==> x == field || x in fields
  {
    if fields != [] && Less(fields[0].key, field.key) {
      InsertHas(field, fields[1..], x);
      assert fields == [fields[0]] + fields[1..];
    }
  }

  lemma AscendingCons(first: Field, rest: seq<Field>)
    requires Ascending(rest) && forall x :: x in rest ==> Less(first.key, x.key)
    ensures Ascending([first] + rest)
  {
  }

  lemma {:induction false} InsertAscending(field: Field, fields: seq<Field>)
    requires Ascending(fields) && forall x :: x in fields ==> x.key != field.key
    ensures Ascending(InsertField(field, fields))
  {
    if fields != [] {
      var first, rest := fields[0], fields[1..];
      assert fields == [first] + rest;
      if Less(first.key, field.key) {
        InsertAscending(field, rest);
        forall x | x in InsertField(field, rest)
          ensures Less(first.key, x.key)
        {
          InsertHas(field, rest, x);
        }
        AscendingCons(first, InsertField(field, rest));
      } else {
        LessTotal(first.key, field.key);
        forall x | x in fields
          ensures Less(field.key, x.key)
        {
          if x != first {
            LessTransitive(field.key, first.key, x.key);
          }
        }
        AscendingCons(field, fields);
      }
    }
  }

  /** What stands in the sorted list: each property with its sorted value. */
  predicate IsSortedOf(x: Field, field: Field) {
    x == Field(field.key, Sorted(field.value))
  }

  lemma {:induction false} SortedHas(fields: seq<Field>, x: Field)
    ensures x in SortedFields(fields) <==> exists i :: 0 <= i < |fields| && IsSortedOf(x, fields[i])
    decreases fields
  {
    if fields != [] {
      var first, rest := fields[0], fields[1..];
      SortedHas(rest, x);
      InsertHas(Field(first.key, Sorted(first.value)), SortedFields(rest), x);
      if i :| 0 <= i < |rest| && IsSortedOf(x, rest[i]) {
        assert IsSortedOf(x, fields[i + 1]);
      }
      if i :| 0 <= i < |fields| && IsSortedOf(x, fields[i]) && i > 0 {
        assert IsSortedOf(x, rest[i - 1]);
      }
      assert IsSortedOf(x, first) ==> IsSortedOf(x, fields[0]);
    }
  }

  lemma {:induction false} SortedAscending(fields: seq<Field>)
    requires Distinct(fields)
    ensures Ascending(SortedFields(fields))
    decreases fields
  {
    if fields != [] {
      var first, rest := fields[0], fields[1..];
      SortedAscending(rest);
      forall x | x in SortedFields(rest)
        ensures x.key != first.key
      {
        SortedHas(rest, x);
        var i :| 0 <= i < |rest| && IsSortedOf(x, rest[i]);
        assert fields[0].key != fields[i + 1].key;
      }
      InsertAscending(Field(first.key, Sorted(first.value)), SortedFields(rest));
    }
  }

  lemma {:induction false} AscendingDistinct(fields: seq<Field>)
    requires Ascending(fields)
    ensures Distinct(fields)
  {
    forall i, j | 0 <= i < j < |fields|
      ensures fields[i].key != fields[j].key
    {
      LessIrreflexive(fields[i].key);
    }
  }

  /** There is only one ascending list of the same properties. */
  lemma {:induction false} AscendingUnique(f: seq<Field>, g: seq<Field>)
    requires Ascending(f) && Ascending(g) && forall x :: x in f <==> x in g
    ensures f == g
  {
    if f == [] {
      if g != [] {
        FirstIn(g);
      }
    } else {
      assert f[0] in g;
      FirstIn(g);
      SameFirst(f, g);
      forall x
        ensures x in f[1..] <==> x in g[1..]
      {
        LessIrreflexive(f[0].key);
        TailHas(f, x);
        TailHas(g, x);
      }
      AscendingUnique(f[1..], g[1..]);
    }
  }

  lemma FirstIn(g: seq<Field>)
    requires g != []
    ensures g[0] in g
  {
  }

  lemma SameFirst(f: seq<Field>, g: seq<Field>)
    requires Ascending(f) && Ascending(g) && f != [] && f[0] in g && g != [] && g[0] in f
    ensures f[0] == g[0]
  {
    var i :| 0 <= i < |g| && g[i] == f[0];
    var j :| 0 <= j < |f| && f[j] == g[0];
    if i > 0 && j > 0 {
      LessTransitive(f[0].key, g[0].key, f[0].key);
      LessIrreflexive(f[0].key);
    }
  }

  lemma TailHas(f: seq<Field>, x: Field)
    requires Ascending(f) && f != []
    ensures x in f[1..] <==> x in f && x != f[0]
  {
    LessIrreflexive(f[0].key);
    assert f == [f[0]] + f[1..];
  }

  lemma {:induction false} SortedPlain(v: Json)
    requires Plain(v)
    ensures Plain(Sorted(v))
    decreases v
  {
    if v.Array? {
      forall i | 0 <= i < |v.items|
        ensures Plain(Sorted(v).items[i])
      {
        SortedPlain(v.items[i]);
      }
    } else if v.Object? {
      SortedAscending(v.fields);
      AscendingDistinct(SortedFields(v.fields));
      forall k | 0 <= k < |SortedFields(v.fields)|
        ensures Plain(SortedFields(v.fields)[k].value)
      {
        SortedHas(v.fields, SortedFields(v.fields)[k]);
        var i :| 0 <= i < |v.fields| && IsSortedOf(SortedFields(v.fields)[k], v.fields[i]);
        SortedPlain(v.fields[i].value);
      }
    }
  }

  /** Some property of `fields` has this name and a value that sorts alike. */
  ghost predicate HasAlike(fields: seq<Field>, a: Field) {
    exists j :: 0 <= j < |fields| && Alike(a, fields[j])
  }

  predicate Alike(a: Field, b: Field) {
    a.key == b.key && Sorted(a.value) == Sorted(b.value)
  }

  ghost predicate Within(f: seq<Field>, g: seq<Field>) {
    forall i :: 0 <= i < |f| ==> HasAlike(g, f[i])
  }

  lemma SortedHasAlike(fields: seq<Field>, a: Field)
    ensures Field(a.key, Sorted(a.value)) in SortedFields(fields) <==> HasAlike(fields, a)
  {
    var x := Field(a.key, Sorted(a.value));
    SortedHas(fields, x);
    if i :| 0 <= i < |fields| && IsSortedOf(x, fields[i]) {
      assert Alike(a, fields[i]);
    }
    if i :| 0 <= i < |fields| && Alike(a, fields[i]) {
      assert IsSortedOf(x, fields[i]);
    }
  }

  lemma SortedWithin(f: seq<Field>, g: seq<Field>)
    requires SortedFields(f) == SortedFields(g)
    ensures Within(f, g)
  {
    forall i | 0 <= i < |f|
      ensures HasAlike(g, f[i])
    {
      assert Alike(f[i], f[i]);
      SortedHasAlike(f, f[i]);
      SortedHasAlike(g, f[i]);
    }
  }

  /** What stands in the sorted list of `f` also stands in that of `g`. */
  lemma WithinSorted(f: seq<Field>, g: seq<Field>, x: Field)
    requires Within(f, g) && x in SortedFields(f)
    ensures x in SortedFields(g)
  {
    SortedHas(f, x);
    var i :| 0 <= i < |f| && IsSortedOf(x, f[i]);
    SortedHasAlike(g, f[i]);
    assert HasAlike(g, f[i]);
  }

  /** Objects sort to one list exactly when they have the same names with values that sort alike. */
  lemma SortedEqualFields(f: seq<Field>, g: seq<Field>)
    requires Distinct(f) && Distinct(g)
    ensures SortedFields(f) == SortedFields(g) <==> Within(f, g) && Within(g, f)
  {
    if SortedFields(f) == SortedFields(g) {
      SortedWithin(f, g);
      SortedWithin(g, f);
    }
    if Within(f, g) && Within(g, f) {
      SortedAscending(f);
      SortedAscending(g);
      forall x
        ensures x in SortedFields(f) <==> x in SortedFields(g)
      {
        if x in SortedFields(f) {
          WithinSorted(f, g, x);
        }
        if x in SortedFields(g) {
          WithinSorted(g, f, x);
        }
      }
      AscendingUnique(SortedFields(f), SortedFields(g));
    }
  }

  // ------------------------------------------- same value, same sorted value

  lemma {:induction false} SameSorts(v: Json, w: Json)
    requires Plain(v) && Plain(w)
    ensures Same(v, w) <==> Sorted(v) == Sorted(w)
    decreases v
  {
    if v.Array? && w.Array? {
      SameItemsSort(v.items, w.items);
    } else if v.Object? && w.Object? {
      SameFields(v.fields, w.fields);
      WithinBothWays(v.fields, w.fields);
      SortedEqualFields(v.fields, w.fields);
    }
  }

  lemma {:induction false} SameItemsSort(f: seq<Json>, g: seq<Json>)
    requires Plain(Array(f)) && Plain(Array(g))
    ensures Same(Array(f), Array(g)) <==> SortedItems(f) == SortedItems(g)
    decreases f
  {
    if |f| == |g| {
      forall i | 0 <= i < |f|
        ensures Same(f[i], g[i]) <==> SortedItems(f)[i] == SortedItems(g)[i]
      {
        SameSorts(f[i], g[i]);
      }
    }
  }

  /** `f` has a property that is the same exactly when it has one that sorts alike. */
  lemma {:induction false} HasSameHasAlike(g: seq<Field>, a: Field)
    requires Plain(a.value) && forall j :: 0 <= j < |g| ==> Plain(g[j].value)
    ensures HasSame(g, a) <==> HasAlike(g, a)
    decreases a
  {
    forall j | 0 <= j < |g|
      ensures SameField(a, g[j]) <==> Alike(a, g[j])
    {
      SameSorts(a.value, g[j].value);
    }
  }

  lemma {:induction false} SameFields(f: seq<Field>, g: seq<Field>)
    requires Plain(Object(f)) && Plain(Object(g))
    ensures Same(Object(f), Object(g)) <==> Within(f, g) && HasNames(f, g)
    decreases f
  {
    forall i | 0 <= i < |f|
      ensures HasSame(g, f[i]) <==> HasAlike(g, f[i])
    {
      HasSameHasAlike(g, f[i]);
    }
  }

  /** When every property of `f` is in `g`, the converse is a matter of names only. */
  lemma WithinBothWays(f: seq<Field>, g: seq<Field>)
    requires Distinct(f) && Distinct(g)
    ensures Within(f, g) && Within(g, f) <==> Within(f, g) && HasNames(f, g)
  {
    if Within(f, g) {
      forall j | 0 <= j < |g|
        ensures HasName(f, g[j].key) <==> HasAlike(f, g[j])
      {
        NameSuffices(f, g, j);
      }
    }
  }

  lemma NameSuffices(f: seq<Field>, g: seq<Field>, j: nat)
    requires Distinct(g) && Within(f, g) && j < |g|
    ensures HasName(f, g[j].key) <==> HasAlike(f, g[j])
  {
    if i :| 0 <= i < |f| && f[i].key == g[j].key {
      assert HasAlike(g, f[i]);
      var k :| 0 <= k < |g| && Alike(f[i], g[k]);
      assert k == j;
      assert Alike(g[j], f[i]);
    }
    if i :| 0 <= i < |f| && Alike(g[j], f[i]) {
      assert f[i].key == g[j].key;
    }
  }

  // ------------------------------------------------------------- main results

  /** Distinct values print to distinct texts. */
  lemma PrintInjective(v: Json, w: Json)
    requires Plain(v) && Plain(w) && Print(v) == Print(w)
    ensures v == w
  {
    ParsePrint(v, []);
    ParsePrint(w, []);
  }

  /** Canonical texts are independent of property order, and nothing else is lost: equal text means the same value. */
  lemma CanonicalIffSame(v: Json, w: Json)
    requires Plain(v) && Plain(w)
    ensures Canonical(v) == Canonical(w) <==> Same(v, w)
  {
    SameSorts(v, w);
    SortedPlain(v);
    SortedPlain(w);
    if Canonical(v) == Canonical(w) {
      PrintInjective(Sorted(v), Sorted(w));
    }
  }

  /** Reading a canonical text, with the writer's line end behind it or not, gives the same value back. */
  lemma CanonicalReadsBack(v: Json, space: Text)
    requires Plain(v) && (forall i :: 0 <= i < |space| ==> IsSpace(space[i]))
    ensures Parse(Canonical(v) + space) == Some(Sorted(v)) && Plain(Sorted(v)) && Same(v, Sorted(v))
    ensures Canonical(Sorted(v)) == Canonical(v)
  {
    SortedPlain(v);
    ParsePrint(Sorted(v), space);
    SortedTwice(v);
    SameSorts(v, Sorted(v));
  }

  lemma {:induction false} SortedTwice(v: Json)
    requires Plain(v)
    ensures Sorted(Sorted(v)) == Sorted(v)
    decreases v
  {
    if v.Array? {
      forall i | 0 <= i < |v.items|
        ensures Sorted(Sorted(v.items[i])) == Sorted(v.items[i])
      {
        SortedTwice(v.items[i]);
      }
    } else if v.Object? {
      SortedFieldsTwice(v.fields);
    }
  }

  lemma {:induction false} SortedFieldsTwice(fields: seq<Field>)
    requires Plain(Object(fields))
    ensures SortedFields(SortedFields(fields)) == SortedFields(fields)
    decreases fields
  {
    var once := SortedFields(fields);
    SortedAscending(fields);
    AscendingDistinct(once);
    SortedAscending(once);
    forall x
      ensures x in SortedFields(once) <==> x in once
    {
      SortedHas(once, x);
      if k :| 0 <= k < |once| && IsSortedOf(x, once[k]) {
        SortedValue(fields, once[k]);
      }
      if x in once {
        SortedValue(fields, x);
        var k :| 0 <= k < |once| && once[k] == x;
        assert IsSortedOf(x, once[k]);
      }
    }
    AscendingUnique(SortedFields(once), once);
  }

  lemma {:induction false} SortedValue(fields: seq<Field>, x: Field)
    requires Plain(Object(fields)) && x in SortedFields(fields)
    ensures Sorted(x.value) == x.value
    decreases fields, 0
  {
    SortedHas(fields, x);
    var i :| 0 <= i < |fields| && IsSortedOf(x, fields[i]);
    SortedTwice(fields[i].value);
  }
}
