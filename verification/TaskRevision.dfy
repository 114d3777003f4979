/**
 The revision of a set of Task cards, meant not to depend on how rows and object
 keys are enumerated (src/coordination/task-projection-revision.ts). The string
 comparison, the digest of a JSON text, and the text of a JSON value are
 parameters; the comparison may tie distinct strings.
 */
module TaskRevision {
  import opened Wrappers
  import opened StableSort

  datatype Field = Field(key: string, value: Json)

  /** The fields of an object stand in their own order. */
  datatype Json = Null | Bool(b: bool) | Num(n: int) | Str(s: string) | Arr(items: seq<Json>) | Obj(fields: seq<Field>)

  predicate UniqueKeys(fields: seq<Field>) {
    forall i, j | 0 <= i < j < |fields| :: fields[i].key != fields[j].key
  }

  predicate WellFormed(j: Json) {
    match j
    case Arr(items) => forall i | 0 <= i < |items| :: WellFormed(items[i])
    case Obj(fields) => UniqueKeys(fields) && forall i | 0 <= i < |fields| :: WellFormed(fields[i].value)
    case _ => true
  }

  predicate AllWellFormed(js: seq<Json>) {
    forall i | 0 <= i < |js| :: WellFormed(js[i])
  }

  function Lookup(fields: seq<Field>, key: string): (r: Option<Json>)
    ensures r.Some? ==> exists i | 0 <= i < |fields| :: fields[i] == Field(key, r.value)
    ensures r.None? ==> forall i | 0 <= i < |fields| :: fields[i].key != key
  {
    if fields == [] then None
    else if fields[0].key == key then
      assert fields[0] == Field(key, fields[0].value);
      Some(fields[0].value)
    else
      var r := Lookup(fields[1..], key);
      assert forall i | 0 <= i < |fields| - 1 :: fields[1..][i] == fields[i + 1];
      r
  }

  /** Equal up to the order of object keys. */
  predicate Equiv(a: Json, b: Json)
    decreases a
  {
    match a
    case Arr(items) => b.Arr? && |items| == |b.items| && forall i | 0 <= i < |items| :: Equiv(items[i], b.items[i])
    case Obj(fields) =>
      && b.Obj? && (forall i | 0 <= i < |b.fields| :: Lookup(fields, b.fields[i].key).Some?)
      && forall i | 0 <= i < |fields| ::
           var other := Lookup(b.fields, fields[i].key);
           other.Some? && Equiv(fields[i].value, other.value)
    case _ => a == b
  }

  // ---- canonical ----

  const FIELD_KEY := (f: Field) => f.key

  function CanonicalFields(fields: seq<Field>, le: Order): (r: seq<Field>)
    ensures |r| == |fields|
    ensures forall i | 0 <= i < |fields| :: r[i] == Field(fields[i].key, Canonical(fields[i].value, le))
    decreases fields
  {
    if fields == [] then [] else [Field(fields[0].key, Canonical(fields[0].value, le))] + CanonicalFields(fields[1..], le)
  }

  /** Keys sorted, at every depth. */
  function Canonical(j: Json, le: Order): Json
    decreases j
  {
    match j
    case Arr(items) => Arr(CanonicalItems(items, le))
    case Obj(fields) => Obj(Sort(CanonicalFields(fields, le), FIELD_KEY, le))
    case _ => j
  }

  function CanonicalItems(items: seq<Json>, le: Order): (r: seq<Json>)
    ensures |r| == |items|
    ensures forall i | 0 <= i < |items| :: r[i] == Canonical(items[i], le)
    decreases items
  {
    if items == [] then [] else [Canonical(items[0], le)] + CanonicalItems(items[1..], le)
  }

  ghost predicate SameFields(a: seq<Field>, b: seq<Field>) {
    forall f :: f in a <==> f in b
  }

  lemma {:induction false} UniqueFields(s: seq<Field>, f: Field)
    requires UniqueKeys(s)
    ensures multiset(s)[f] == if f in s then 1 else 0
  {
    if s != [] {
      UniqueFields(s[1..], f);
      assert s == [s[0]] + s[1..];
      assert forall i | 0 <= i < |s| - 1 :: s[1..][i] == s[i + 1];
    }
  }

  /** No two fields of the list have keys that compare as equal. */
  predicate UntiedFields(fields: seq<Field>, le: Order) {
    forall i, j | 0 <= i < j < |fields| :: !Tied(le, fields[i].key, fields[j].key)
  }

  /** With unique and untied keys, sorting tells two lists of fields apart exactly when they hold different fields. */
  lemma {:induction false} SortedFields(a: seq<Field>, b: seq<Field>, le: Order)
    requires Preorder(le) && UniqueKeys(a) && UniqueKeys(b) && UntiedFields(a, le)
    ensures Sort(a, FIELD_KEY, le) == Sort(b, FIELD_KEY, le) <==> SameFields(a, b)
  {
    hide Sort, Preorder;
    if SameFields(a, b) {
      SameBag(a, b);
      UntiedAreApart(a, le);
      PermutedSort(a, b, FIELD_KEY, le);
    }
    if Sort(a, FIELD_KEY, le) == Sort(b, FIELD_KEY, le) {
      BagIsSame(a, b);
    }
  }

  lemma {:induction false} SameBag(a: seq<Field>, b: seq<Field>)
    requires UniqueKeys(a) && UniqueKeys(b) && SameFields(a, b)
    ensures multiset(a) == multiset(b)
  {
    forall f ensures multiset(a)[f] == multiset(b)[f] {
      UniqueFields(a, f);
      UniqueFields(b, f);
    }
  }

  lemma BagIsSame(a: seq<Field>, b: seq<Field>)
    requires multiset(a) == multiset(b)
    ensures SameFields(a, b)
  {
    forall f ensures f in a <==> f in b {
      assert f in a <==> f in multiset(a);
      assert f in b <==> f in multiset(b);
    }
  }

  lemma UntiedAreApart(fields: seq<Field>, le: Order)
    requires UntiedFields(fields, le)
    ensures NoTies(fields, FIELD_KEY, le)
  {
    forall x, y | x in fields && y in fields && Tied(le, FIELD_KEY(x), FIELD_KEY(y)) ensures x == y {
      var i :| 0 <= i < |fields| && fields[i] == x;
      var j :| 0 <= j < |fields| && fields[j] == y;
      assert i == j;
    }
  }

  lemma LookupUnique(fields: seq<Field>, i: nat)
    requires UniqueKeys(fields) && i < |fields|
    ensures Lookup(fields, fields[i].key) == Some(fields[i].value)
  {
  }

  /** No object within the value has two keys that compare as equal. */
  predicate NoTiedKeys(j: Json, le: Order)
    decreases j
  {
    match j
    case Arr(items) => forall i | 0 <= i < |items| :: NoTiedKeys(items[i], le)
    case Obj(fields) => UntiedFields(fields, le) && forall i | 0 <= i < |fields| :: NoTiedKeys(fields[i].value, le)
    case _ => true
  }

  predicate AllUntied(js: seq<Json>, le: Order) {
    forall i | 0 <= i < |js| :: NoTiedKeys(js[i], le)
  }

  /** Of a value without tied keys the canonical form decides exactly equality up to the order of object keys. */
  lemma {:induction false} CanonicalMeaning(a: Json, b: Json, le: Order)
    requires Preorder(le) && WellFormed(a) && WellFormed(b) && NoTiedKeys(a, le)
    ensures Canonical(a, le) == Canonical(b, le) <==> Equiv(a, b)
    decreases a
  {
    if a.Arr? && b.Arr? && |a.items| == |b.items| {
      forall i | 0 <= i < |a.items| ensures Canonical(a.items[i], le) == Canonical(b.items[i], le) <==> Equiv(a.items[i], b.items[i]) {
        CanonicalMeaning(a.items[i], b.items[i], le);
      }
      ItemsMeaning(a.items, b.items, le);
    } else if a.Obj? && b.Obj? {
      forall i, j | 0 <= i < |a.fields| && 0 <= j < |b.fields|
        ensures Canonical(a.fields[i].value, le) == Canonical(b.fields[j].value, le) <==> Equiv(a.fields[i].value, b.fields[j].value)
      {
        CanonicalMeaning(a.fields[i].value, b.fields[j].value, le);
      }
      FieldsMeaning(a.fields, b.fields, le);
      var ca, cb := CanonicalFields(a.fields, le), CanonicalFields(b.fields, le);
      assert UniqueKeys(ca) && UniqueKeys(cb) && UntiedFields(ca, le);
      SortedFields(ca, cb, le);
    }
  }

  lemma ItemsMeaning(a: seq<Json>, b: seq<Json>, le: Order)
    requires |a| == |b|
    requires forall i | 0 <= i < |a| :: Canonical(a[i], le) == Canonical(b[i], le) <==> Equiv(a[i], b[i])
    ensures CanonicalItems(a, le) == CanonicalItems(b, le) <==> forall i | 0 <= i < |a| :: Equiv(a[i], b[i])
  {
    var ca, cb := CanonicalItems(a, le), CanonicalItems(b, le);
    if ca == cb {
      forall i | 0 <= i < |a| ensures Equiv(a[i], b[i]) {
        assert ca[i] == cb[i];
      }
    }
  }

  ghost predicate Matching(a: seq<Field>, b: seq<Field>, le: Order) {
    forall i, j | 0 <= i < |a| && 0 <= j < |b| ::
      Canonical(a[i].value, le) == Canonical(b[j].value, le) <==> Equiv(a[i].value, b[j].value)
  }

  lemma {:induction false} FieldsMeaning(a: seq<Field>, b: seq<Field>, le: Order)
    requires UniqueKeys(a) && UniqueKeys(b) && Matching(a, b, le)
    ensures SameFields(CanonicalFields(a, le), CanonicalFields(b, le)) <==> Equiv(Obj(a), Obj(b))
  {
    hide *;
    if SameFields(CanonicalFields(a, le), CanonicalFields(b, le)) {
      SameFieldsEquiv(a, b, le);
    }
    if Equiv(Obj(a), Obj(b)) {
      EquivSameFields(a, b, le);
    }
  }

  lemma {:induction false} SameFieldsEquiv(a: seq<Field>, b: seq<Field>, le: Order)
    requires UniqueKeys(b) && Matching(a, b, le)
    requires SameFields(CanonicalFields(a, le), CanonicalFields(b, le))
    ensures Equiv(Obj(a), Obj(b))
  {
    hide Equiv, Canonical, UniqueKeys, Matching;
    var ca, cb := CanonicalFields(a, le), CanonicalFields(b, le);
    forall i | 0 <= i < |a| ensures Lookup(b, a[i].key).Some? && Equiv(a[i].value, Lookup(b, a[i].key).value) {
      assert ca[i] in cb;
      SameFieldFound(a, b, i, le);
    }
    forall j | 0 <= j < |b| ensures Lookup(a, b[j].key).Some? {
      assert cb[j] in ca;
      KeyFound(b, a, j, le);
    }
    EquivIntro(a, b);
  }

  lemma {:induction false} EquivSameFields(a: seq<Field>, b: seq<Field>, le: Order)
    requires UniqueKeys(b) && Matching(a, b, le) && Equiv(Obj(a), Obj(b))
    ensures SameFields(CanonicalFields(a, le), CanonicalFields(b, le))
  {
    hide Equiv, Canonical, UniqueKeys, Matching;
    var ca, cb := CanonicalFields(a, le), CanonicalFields(b, le);
    forall f ensures f in ca <==> f in cb {
      if f in ca {
        var i :| 0 <= i < |a| && ca[i] == f;
        EquivFinds(a, b, i, le);
      }
      if f in cb {
        var j :| 0 <= j < |b| && cb[j] == f;
        EquivFindsBack(a, b, j, le);
      }
    }
  }

  lemma EquivElim(a: seq<Field>, b: seq<Field>)
    requires Equiv(Obj(a), Obj(b))
    ensures forall i | 0 <= i < |a| :: Lookup(b, a[i].key).Some? && Equiv(a[i].value, Lookup(b, a[i].key).value)
    ensures forall j | 0 <= j < |b| :: Lookup(a, b[j].key).Some?
  {
  }

  lemma EquivIntro(a: seq<Field>, b: seq<Field>)
    requires forall i | 0 <= i < |a| :: Lookup(b, a[i].key).Some? && Equiv(a[i].value, Lookup(b, a[i].key).value)
    requires forall j | 0 <= j < |b| :: Lookup(a, b[j].key).Some?
    ensures Equiv(Obj(a), Obj(b))
  {
  }

  lemma {:induction false} KeyFound(a: seq<Field>, b: seq<Field>, i: nat, le: Order)
    requires i < |a| && CanonicalFields(a, le)[i] in CanonicalFields(b, le)
    ensures Lookup(b, a[i].key).Some?
  {
    hide Canonical;
    var j :| 0 <= j < |b| && CanonicalFields(b, le)[j] == CanonicalFields(a, le)[i];
    assert b[j].key == a[i].key;
  }

  lemma {:induction false} SameFieldFound(a: seq<Field>, b: seq<Field>, i: nat, le: Order)
    requires UniqueKeys(b) && Matching(a, b, le) && i < |a| && CanonicalFields(a, le)[i] in CanonicalFields(b, le)
    ensures Lookup(b, a[i].key).Some? && Equiv(a[i].value, Lookup(b, a[i].key).value)
  {
    hide Canonical, Equiv;
    var j :| 0 <= j < |b| && CanonicalFields(b, le)[j] == CanonicalFields(a, le)[i];
    assert b[j].key == a[i].key && Canonical(a[i].value, le) == Canonical(b[j].value, le);
    LookupUnique(b, j);
  }

  lemma {:induction false} EquivFinds(a: seq<Field>, b: seq<Field>, i: nat, le: Order)
    requires Matching(a, b, le) && i < |a| && Equiv(Obj(a), Obj(b))
    ensures CanonicalFields(a, le)[i] in CanonicalFields(b, le)
  {
    hide Canonical, Equiv;
    EquivElim(a, b);
    var j :| 0 <= j < |b| && b[j] == Field(a[i].key, Lookup(b, a[i].key).value);
    assert CanonicalFields(b, le)[j] == CanonicalFields(a, le)[i];
  }

  lemma {:induction false} EquivFindsBack(a: seq<Field>, b: seq<Field>, j: nat, le: Order)
    requires UniqueKeys(b) && Matching(a, b, le) && j < |b| && Equiv(Obj(a), Obj(b))
    ensures CanonicalFields(b, le)[j] in CanonicalFields(a, le)
  {
    hide Canonical, Equiv;
    EquivElim(a, b);
    var i :| 0 <= i < |a| && a[i] == Field(b[j].key, Lookup(a, b[j].key).value);
    LookupUnique(b, j);
    assert CanonicalFields(a, le)[i] == CanonicalFields(b, le)[j];
  }

  // ---- rows ----

  lemma {:induction false} ItemsConcat(a: seq<Json>, b: seq<Json>, le: Order)
    ensures CanonicalItems(a + b, le) == CanonicalItems(a, le) + CanonicalItems(b, le)
  {
    hide Canonical;
    var c := CanonicalItems(a, le) + CanonicalItems(b, le);
    assert forall i | 0 <= i < |a + b| :: CanonicalItems(a + b, le)[i] == c[i];
  }

  lemma {:induction false} ItemsWithout(rows: seq<Json>, k: nat, le: Order)
    requires k < |rows|
    ensures multiset(rows) == multiset{rows[k]} + multiset(rows[..k] + rows[k + 1..])
    ensures multiset(CanonicalItems(rows, le))
            == multiset{Canonical(rows[k], le)} + multiset(CanonicalItems(rows[..k] + rows[k + 1..], le))
  {
    hide Canonical;
    var front, one, back := rows[..k], [rows[k]], rows[k + 1..];
    assert rows == front + one + back;
    ItemsConcat(front, back, le);
    ItemsConcat(front, one, le);
    ItemsConcat(front + one, back, le);
    assert CanonicalItems(one, le) == [Canonical(rows[k], le)];
  }

  lemma PlaceOf<T>(s: seq<T>, x: T, bag: multiset<T>) returns (k: nat)
    requires multiset(s) == bag && x in bag
    ensures k < |s| && s[k] == x
  {
    assert x in s;
    k :| 0 <= k < |s| && s[k] == x;
  }

  lemma SameRest<T>(x: T, a: multiset<T>, b: multiset<T>)
    requires multiset{x} + a == multiset{x} + b
    ensures a == b
  {
    assert a == multiset{x} + a - multiset{x} == multiset{x} + b - multiset{x} == b;
  }

  /** Reordered rows have reordered canonical forms. */
  lemma {:induction false} ItemsBag(a: seq<Json>, b: seq<Json>, le: Order)
    requires multiset(a) == multiset(b)
    ensures multiset(CanonicalItems(a, le)) == multiset(CanonicalItems(b, le))
    decreases |a|
  {
    hide Canonical, CanonicalItems;
    if a == [] {
      assert |multiset(b)| == 0;
    } else {
      var k := PlaceOf(b, a[0], multiset(a));
      ItemsWithout(a, 0, le);
      ItemsWithout(b, k, le);
      SameRest(a[0], multiset(a[..0] + a[1..]), multiset(b[..k] + b[k + 1..]));
      ItemsBag(a[..0] + a[1..], b[..k] + b[k + 1..], le);
    }
  }

  /** How many rows are equal to `x` up to the order of object keys. */
  function Count(rows: seq<Json>, x: Json): nat {
    if rows == [] then 0 else (if Equiv(rows[0], x) then 1 else 0) + Count(rows[1..], x)
  }

  lemma {:induction false} CountMeaning(rows: seq<Json>, x: Json, le: Order)
    requires Preorder(le) && AllWellFormed(rows) && WellFormed(x) && AllUntied(rows, le)
    ensures Count(rows, x) == multiset(CanonicalItems(rows, le))[Canonical(x, le)]
  {
    if rows != [] {
      CanonicalMeaning(rows[0], x, le);
      CountMeaning(rows[1..], x, le);
      hide Canonical;
      var items := CanonicalItems(rows, le);
      assert items == [items[0]] + CanonicalItems(rows[1..], le);
    }
  }

  /** The same rows, however often each, up to their order and that of object keys. */
  ghost predicate SameRows(a: seq<Json>, b: seq<Json>) {
    forall x | WellFormed(x) :: Count(a, x) == Count(b, x)
  }

  lemma {:induction false} RowsMeaning(a: seq<Json>, b: seq<Json>, le: Order)
    requires Preorder(le) && AllWellFormed(a) && AllWellFormed(b) && AllUntied(a, le) && AllUntied(b, le)
    ensures SameRows(a, b) <==> multiset(CanonicalItems(a, le)) == multiset(CanonicalItems(b, le))
  {
    hide Canonical, CanonicalItems, Count, Preorder, NoTiedKeys;
    if SameRows(a, b) {
      forall c ensures multiset(CanonicalItems(a, le))[c] == multiset(CanonicalItems(b, le))[c] {
        RowsAgreeOn(a, b, c, le);
      }
    }
    if multiset(CanonicalItems(a, le)) == multiset(CanonicalItems(b, le)) {
      forall x | WellFormed(x) ensures Count(a, x) == Count(b, x) {
        CountMeaning(a, x, le);
        CountMeaning(b, x, le);
      }
    }
  }

  lemma {:induction false} RowsAgreeOn(a: seq<Json>, b: seq<Json>, c: Json, le: Order)
    requires Preorder(le) && AllWellFormed(a) && AllWellFormed(b) && AllUntied(a, le) && AllUntied(b, le) && SameRows(a, b)
    ensures multiset(CanonicalItems(a, le))[c] == multiset(CanonicalItems(b, le))[c]
  {
    hide Canonical, Count, Preorder, NoTiedKeys, WellFormed;
    var ca, cb := CanonicalItems(a, le), CanonicalItems(b, le);
    if c in ca {
      var i :| 0 <= i < |ca| && ca[i] == c;
      CountMeaning(a, a[i], le);
      CountMeaning(b, a[i], le);
    } else if c in cb {
      var i :| 0 <= i < |cb| && cb[i] == c;
      CountMeaning(a, b[i], le);
      CountMeaning(b, b[i], le);
    }
  }

  // ---- under a comparison that ties nothing ----

  lemma {:induction false} UntiedByCode(j: Json)
    requires WellFormed(j)
    ensures NoTiedKeys(j, CODE_ORDER)
    decreases j
  {
    CodeOrderTiesNothing();
    hide CODE_ORDER;
    match j
    case Arr(items) =>
      forall i | 0 <= i < |items| ensures NoTiedKeys(items[i], CODE_ORDER) {
        UntiedByCode(items[i]);
      }
    case Obj(fields) =>
      forall i | 0 <= i < |fields| ensures NoTiedKeys(fields[i].value, CODE_ORDER) {
        UntiedByCode(fields[i].value);
      }
    case _ =>
  }

  /** So Equiv is the equality of some canonical form, whatever the code's own comparison does. */
  lemma {:induction false} EquivByCode(a: Json, b: Json)
    requires WellFormed(a) && WellFormed(b)
    ensures Equiv(a, b) <==> Canonical(a, CODE_ORDER) == Canonical(b, CODE_ORDER)
  {
    CodeOrderTiesNothing();
    UntiedByCode(a);
    CanonicalMeaning(a, b, CODE_ORDER);
  }

  lemma {:induction false} RowsByCode(a: seq<Json>, b: seq<Json>)
    requires AllWellFormed(a) && AllWellFormed(b)
    ensures SameRows(a, b) <==> multiset(CanonicalItems(a, CODE_ORDER)) == multiset(CanonicalItems(b, CODE_ORDER))
  {
    CodeOrderTiesNothing();
    hide CODE_ORDER;
    forall i | 0 <= i < |a| ensures NoTiedKeys(a[i], CODE_ORDER) {
      UntiedByCode(a[i]);
    }
    forall i | 0 <= i < |b| ensures NoTiedKeys(b[i], CODE_ORDER) {
      UntiedByCode(b[i]);
    }
    RowsMeaning(a, b, CODE_ORDER);
  }

  // ---- tied keys show ----

  lemma {:induction false} InsertCanonical(f: Field, s: seq<Field>, le: Order)
    ensures CanonicalFields(Insert(f, s, FIELD_KEY, le), le)
            == Insert(Field(f.key, Canonical(f.value, le)), CanonicalFields(s, le), FIELD_KEY, le)
  {
    hide Canonical;
    if s != [] && !le(f.key, s[0].key) {
      InsertCanonical(f, s[1..], le);
      var rest := Insert(f, s[1..], FIELD_KEY, le);
      assert Insert(f, s, FIELD_KEY, le) == [s[0]] + rest && ([s[0]] + rest)[1..] == rest;
      var c := CanonicalFields(s, le);
      assert c[1..] == CanonicalFields(s[1..], le);
    } else {
      assert ([f] + s)[1..] == s;
    }
  }

  /** Keys decide the order, so values may be made canonical before or after sorting. */
  lemma {:induction false} SortCanonical(s: seq<Field>, le: Order)
    ensures CanonicalFields(Sort(s, FIELD_KEY, le), le) == Sort(CanonicalFields(s, le), FIELD_KEY, le)
  {
    hide Canonical;
    if s != [] {
      SortCanonical(s[1..], le);
      InsertCanonical(s[0], Sort(s[1..], FIELD_KEY, le), le);
      assert CanonicalFields(s, le)[1..] == CanonicalFields(s[1..], le);
    }
  }

  lemma TwiceCounted<T>(s: seq<T>, i: nat, j: nat)
    requires i < j < |s| && s[i] == s[j]
    ensures multiset(s)[s[i]] >= 2
  {
    assert s == s[..j] + [s[j]] + s[j + 1..];
    assert s[..j][i] == s[i] && s[i] in multiset(s[..j]);
  }

  lemma {:induction false} PermutedFields(fields: seq<Field>, p: seq<Field>)
    requires WellFormed(Obj(fields)) && multiset(p) == multiset(fields)
    ensures WellFormed(Obj(p)) && Equiv(Obj(fields), Obj(p))
  {
    hide Equiv, Canonical;
    BagIsSame(fields, p);
    forall i, j | 0 <= i < j < |p| ensures p[i].key != p[j].key {
      assert p[i] in fields && p[j] in fields;
      UniqueFields(fields, p[i]);
      if p[i] == p[j] {
        TwiceCounted(p, i, j);
      }
    }
    forall i | 0 <= i < |p| ensures WellFormed(p[i].value) {
      assert p[i] in fields;
    }
    PermutedIsEquiv(fields, p);
  }

  lemma {:induction false} PermutedIsEquiv(fields: seq<Field>, p: seq<Field>)
    requires WellFormed(Obj(fields)) && WellFormed(Obj(p)) && SameFields(fields, p)
    ensures Equiv(Obj(fields), Obj(p))
  {
    hide Equiv, Canonical, WellFormed;
    assert UniqueKeys(fields) && UniqueKeys(p) && forall i | 0 <= i < |fields| :: WellFormed(fields[i].value) by {
      WellFormedParts(fields);
      WellFormedParts(p);
    }
    forall i | 0 <= i < |fields| ensures Lookup(p, fields[i].key) == Some(fields[i].value) && Equiv(fields[i].value, fields[i].value) {
      assert fields[i] in p;
      var j :| 0 <= j < |p| && p[j] == fields[i];
      LookupUnique(p, j);
      EquivByCode(fields[i].value, fields[i].value);
    }
    forall j | 0 <= j < |p| ensures Lookup(fields, p[j].key).Some? {
      assert p[j] in fields;
      var i :| 0 <= i < |fields| && fields[i] == p[j];
      LookupUnique(fields, i);
    }
    EquivIntro(fields, p);
  }

  lemma WellFormedParts(fields: seq<Field>)
    requires WellFormed(Obj(fields))
    ensures UniqueKeys(fields) && forall i | 0 <= i < |fields| :: WellFormed(fields[i].value)
  {
  }

  lemma OtherKeyShows(a: seq<Field>, b: seq<Field>, m: nat, le: Order)
    requires m < |a| && m < |b| && Sort(a, FIELD_KEY, le)[m].key != Sort(b, FIELD_KEY, le)[m].key
    requires Sort(CanonicalFields(a, le), FIELD_KEY, le) == CanonicalFields(Sort(a, FIELD_KEY, le), le)
    requires Sort(CanonicalFields(b, le), FIELD_KEY, le) == CanonicalFields(Sort(b, FIELD_KEY, le), le)
    ensures Canonical(Obj(a), le) != Canonical(Obj(b), le)
  {
    hide Sort;
    assert Sort(CanonicalFields(a, le), FIELD_KEY, le)[m].key != Sort(CanonicalFields(b, le), FIELD_KEY, le)[m].key;
  }

  /** Two tied keys of one object: some order of its fields has another canonical form. */
  lemma {:induction false} TiedFieldsShow(fields: seq<Field>, i: nat, j: nat, le: Order) returns (p: seq<Field>)
    requires Preorder(le) && WellFormed(Obj(fields)) && i < j < |fields| && Tied(le, fields[i].key, fields[j].key)
    ensures WellFormed(Obj(p)) && Equiv(Obj(fields), Obj(p)) && Canonical(Obj(p), le) != Canonical(Obj(fields), le)
  {
    hide Equiv, WellFormed, Sort, Preorder, Tied, Canonical, CanonicalFields;
    WellFormedParts(fields);
    var a, b, m := TieShows(fields, fields[i], fields[j], FIELD_KEY, le);
    SortCanonical(a, le);
    SortCanonical(b, le);
    PermutedFields(fields, a);
    PermutedFields(fields, b);
    OtherKeyShows(a, b, m, le);
    p := if Canonical(Obj(a), le) != Canonical(Obj(fields), le) then a else b;
  }

  lemma OneChanged<T>(s: seq<T>, i: nat, x: T)
    requires i < |s| && s[i] != x
    ensures multiset(s[i := x]) != multiset(s)
  {
    assert s == s[..i] + [s[i]] + s[i + 1..] && s[i := x] == s[..i] + [x] + s[i + 1..];
    assert multiset(s[i := x])[x] == multiset(s)[x] + 1;
  }

  /** A variant of one value makes a variant of the object that holds it. */
  lemma {:induction false} FieldVariant(fields: seq<Field>, i: nat, v: Json, le: Order)
    requires WellFormed(Obj(fields)) && i < |fields| && WellFormed(v)
    requires Equiv(fields[i].value, v) && Canonical(v, le) != Canonical(fields[i].value, le)
    ensures var p := fields[i := Field(fields[i].key, v)];
            WellFormed(Obj(p)) && Equiv(Obj(fields), Obj(p)) && Canonical(Obj(p), le) != Canonical(Obj(fields), le)
  {
    hide Equiv, Canonical, WellFormed, CanonicalFields;
    var p := fields[i := Field(fields[i].key, v)];
    VariantFields(fields, i, v, le);
    VariantIsEquiv(fields, i, v);
    OneChanged(CanonicalFields(fields, le), i, Field(fields[i].key, Canonical(v, le)));
    FieldsShow(p, fields, le);
  }

  lemma VariantFields(fields: seq<Field>, i: nat, v: Json, le: Order)
    requires WellFormed(Obj(fields)) && i < |fields| && WellFormed(v)
    ensures var p := fields[i := Field(fields[i].key, v)];
            && WellFormed(Obj(p))
            && CanonicalFields(p, le) == CanonicalFields(fields, le)[i := Field(fields[i].key, Canonical(v, le))]
  {
    hide Canonical;
    WellFormedParts(fields);
    var p := fields[i := Field(fields[i].key, v)];
    assert UniqueKeys(p);
  }

  lemma FieldsShow(a: seq<Field>, b: seq<Field>, le: Order)
    requires multiset(CanonicalFields(a, le)) != multiset(CanonicalFields(b, le))
    ensures Canonical(Obj(a), le) != Canonical(Obj(b), le)
  {
    hide CanonicalFields, Sort;
    var ca, cb := CanonicalFields(a, le), CanonicalFields(b, le);
    assert multiset(Sort(ca, FIELD_KEY, le)) == multiset(ca) && multiset(Sort(cb, FIELD_KEY, le)) == multiset(cb);
  }

  lemma {:induction false} VariantIsEquiv(fields: seq<Field>, i: nat, v: Json)
    requires WellFormed(Obj(fields)) && i < |fields| && WellFormed(v) && Equiv(fields[i].value, v)
    requires WellFormed(Obj(fields[i := Field(fields[i].key, v)]))
    ensures Equiv(Obj(fields), Obj(fields[i := Field(fields[i].key, v)]))
  {
    hide Equiv, Canonical;
    var p := fields[i := Field(fields[i].key, v)];
    forall k | 0 <= k < |fields| ensures Lookup(p, fields[k].key).Some? && Equiv(fields[k].value, Lookup(p, fields[k].key).value) {
      LookupUnique(p, k);
      EquivByCode(fields[k].value, fields[k].value);
    }
    forall k | 0 <= k < |p| ensures Lookup(fields, p[k].key).Some? {
      LookupUnique(fields, k);
    }
    EquivIntro(fields, p);
  }

  lemma {:induction false} ItemVariant(items: seq<Json>, i: nat, v: Json, le: Order)
    requires AllWellFormed(items) && i < |items| && WellFormed(v)
    requires Equiv(items[i], v) && Canonical(v, le) != Canonical(items[i], le)
    ensures var p := items[i := v];
            && AllWellFormed(p) && Equiv(Arr(items), Arr(p)) && SameRows(items, p)
            && CanonicalItems(p, le) == CanonicalItems(items, le)[i := Canonical(v, le)]
            && CanonicalItems(p, le) != CanonicalItems(items, le)
  {
    hide WellFormed, SameRows, Canonical;
    var p := items[i := v];
    VariantRows(items, i, v);
    assert Equiv(Arr(items), Arr(p));
    assert CanonicalItems(p, le)[i] != CanonicalItems(items, le)[i];
    assert CanonicalItems(p, le) == CanonicalItems(items, le)[i := Canonical(v, le)];
  }

  lemma {:induction false} VariantRows(items: seq<Json>, i: nat, v: Json)
    requires AllWellFormed(items) && i < |items| && WellFormed(v) && Equiv(items[i], v)
    ensures var p := items[i := v];
            AllWellFormed(p) && SameRows(items, p) && forall k | 0 <= k < |items| :: Equiv(items[k], p[k])
  {
    hide WellFormed, SameRows, Canonical, Equiv;
    var p := items[i := v];
    forall k | 0 <= k < |items| ensures Equiv(items[k], p[k]) && Canonical(items[k], CODE_ORDER) == Canonical(p[k], CODE_ORDER) {
      EquivByCode(items[k], items[k]);
      EquivByCode(items[k], p[k]);
    }
    assert CanonicalItems(p, CODE_ORDER) == CanonicalItems(items, CODE_ORDER);
    RowsByCode(items, p);
  }

  lemma ItemsShow(a: seq<Json>, b: seq<Json>, le: Order)
    requires CanonicalItems(a, le) != CanonicalItems(b, le) && AllWellFormed(b)
    ensures Canonical(Arr(a), le) != Canonical(Arr(b), le) && WellFormed(Arr(b))
  {
  }

  /** Tied keys anywhere within a value: some order of the keys has another canonical form. */
  lemma {:induction false} TiedKeysShow(j: Json, le: Order) returns (v: Json)
    requires Preorder(le) && WellFormed(j) && !NoTiedKeys(j, le)
    ensures WellFormed(v) && Equiv(j, v) && Canonical(v, le) != Canonical(j, le)
    decreases j
  {
    hide Equiv, Canonical, Preorder, Tied;
    match j
    case Arr(items) =>
      var i :| 0 <= i < |items| && !NoTiedKeys(items[i], le);
      var inner := TiedKeysShow(items[i], le);
      ItemVariant(items, i, inner, le);
      v := Arr(items[i := inner]);
      ItemsShow(items, v.items, le);
    case Obj(fields) =>
      if !UntiedFields(fields, le) {
        var i, k :| 0 <= i < k < |fields| && Tied(le, fields[i].key, fields[k].key);
        var p := TiedFieldsShow(fields, i, k, le);
        v := Obj(p);
      } else {
        var i :| 0 <= i < |fields| && !NoTiedKeys(fields[i].value, le);
        var inner := TiedKeysShow(fields[i].value, le);
        FieldVariant(fields, i, inner, le);
        v := Obj(fields[i := Field(fields[i].key, inner)]);
      }
  }

  /** The canonical form of a value ignores the order of its keys exactly when no object within it has tied keys. */
  lemma {:induction false} KeyOrderIsFree(j: Json, le: Order)
    requires Preorder(le) && WellFormed(j)
    ensures (forall v | WellFormed(v) && Equiv(j, v) :: Canonical(v, le) == Canonical(j, le)) <==> NoTiedKeys(j, le)
  {
    hide Equiv, Canonical, NoTiedKeys, Preorder, WellFormed;
    if NoTiedKeys(j, le) {
      forall v | WellFormed(v) && Equiv(j, v) ensures Canonical(v, le) == Canonical(j, le) {
        CanonicalMeaning(j, v, le);
      }
    } else {
      var v := TiedKeysShow(j, le);
    }
  }

  /** Having tied keys is not a matter of their order. */
  lemma {:induction false} EquivKeepsUntied(a: Json, b: Json, le: Order)
    requires Preorder(le) && WellFormed(a) && WellFormed(b) && NoTiedKeys(a, le) && Equiv(a, b)
    ensures NoTiedKeys(b, le)
  {
    hide Equiv, Canonical, NoTiedKeys, Preorder, WellFormed;
    CanonicalMeaning(a, b, le);
    EquivByCode(a, b);
    forall v | WellFormed(v) && Equiv(b, v) ensures Canonical(v, le) == Canonical(b, le) {
      EquivByCode(b, v);
      EquivByCode(a, v);
      CanonicalMeaning(a, v, le);
    }
    KeyOrderIsFree(b, le);
  }

  lemma {:induction false} CountedIsFound(rows: seq<Json>, x: Json) returns (i: nat)
    requires 0 < Count(rows, x)
    ensures i < |rows| && Equiv(rows[i], x)
  {
    hide Equiv;
    if Equiv(rows[0], x) {
      i := 0;
    } else {
      i := CountedIsFound(rows[1..], x);
      i := i + 1;
    }
  }

  lemma {:induction false} FoundIsCounted(rows: seq<Json>, i: nat, x: Json)
    requires i < |rows| && Equiv(rows[i], x)
    ensures 0 < Count(rows, x)
  {
    hide Equiv;
    if 0 < i {
      FoundIsCounted(rows[1..], i - 1, x);
    }
  }

  /** Rows that are the same as rows without tied keys have none. */
  lemma {:induction false} RowsKeepUntied(a: seq<Json>, b: seq<Json>, le: Order)
    requires Preorder(le) && AllWellFormed(a) && AllWellFormed(b) && AllUntied(a, le)
    requires SameRows(a, b) || multiset(CanonicalItems(a, le)) == multiset(CanonicalItems(b, le))
    ensures AllUntied(b, le)
  {
    hide Equiv, Canonical, NoTiedKeys, Preorder, WellFormed, Count;
    forall j | 0 <= j < |b| ensures NoTiedKeys(b[j], le) {
      var i: nat;
      if SameRows(a, b) {
        EquivByCode(b[j], b[j]);
        FoundIsCounted(b, j, b[j]);
        i := CountedIsFound(a, b[j]);
      } else {
        var ca, cb := CanonicalItems(a, le), CanonicalItems(b, le);
        assert cb[j] in multiset(ca);
        i :| 0 <= i < |ca| && ca[i] == cb[j];
        CanonicalMeaning(a[i], b[j], le);
      }
      EquivKeepsUntied(a[i], b[j], le);
    }
  }

  lemma {:induction false} RowsDecide(a: seq<Json>, b: seq<Json>, le: Order)
    requires Preorder(le) && AllWellFormed(a) && AllWellFormed(b) && AllUntied(a, le)
    ensures SameRows(a, b) <==> multiset(CanonicalItems(a, le)) == multiset(CanonicalItems(b, le))
  {
    hide SameRows, Canonical, CanonicalItems, NoTiedKeys, Preorder, WellFormed, AllUntied;
    if SameRows(a, b) || multiset(CanonicalItems(a, le)) == multiset(CanonicalItems(b, le)) {
      RowsKeepUntied(a, b, le);
      RowsMeaning(a, b, le);
    }
  }

  // ---- the revision ----

  datatype Env<D> = Env(le: Order, text: Json -> string, digest: Json -> D)

  /** A comparator, a text that tells values apart, and a digest without collisions. */
  ghost predicate Faithful<D(!new)>(env: Env<D>) {
    && Preorder(env.le)
    && (forall x, y :: env.text(x) == env.text(y) ==> x == y)
    && (forall x, y :: env.digest(x) == env.digest(y) ==> x == y)
  }

  /** The id of a card. */
  function IdOf(card: Json): string {
    if card.Obj? && Lookup(card.fields, "id").Some? && Lookup(card.fields, "id").value.Str?
    then Lookup(card.fields, "id").value.s else ""
  }

  predicate DistinctIds(cards: seq<Json>) {
    forall i, j | 0 <= i < j < |cards| :: IdOf(cards[i]) != IdOf(cards[j])
  }

  const ID_KEY := (card: Json) => IdOf(card)

  function WarningKey<D>(env: Env<D>): Json -> string {
    w => env.text(Canonical(w, env.le))
  }

  function Projection<D>(env: Env<D>, tasks: seq<Json>, warnings: seq<Json>): Json {
    Obj(Pair(Sort(tasks, ID_KEY, env.le), Sort(warnings, WarningKey(env), env.le)))
  }

  /** taskProjectionRevision */
  function Revision<D>(env: Env<D>, tasks: seq<Json>, warnings: seq<Json>): D {
    env.digest(Canonical(Projection(env, tasks, warnings), env.le))
  }

  /** A field keeps its key, with the canonical form of its value. */
  lemma {:induction false} FieldKept(fields: seq<Field>, key: string, le: Order)
    requires UniqueKeys(fields)
    ensures var found, was := Lookup(Sort(CanonicalFields(fields, le), FIELD_KEY, le), key), Lookup(fields, key);
            && (found.Some? <==> was.Some?)
            && (found.Some? ==> found.value == Canonical(was.value, le))
  {
    hide Canonical, Lookup;
    var mapped := CanonicalFields(fields, le);
    var sorted := Sort(mapped, FIELD_KEY, le);
    var found, was := Lookup(sorted, key), Lookup(fields, key);
    if found.Some? {
      assert Field(key, found.value) in multiset(sorted);
      assert Field(key, found.value) in mapped;
      var i :| 0 <= i < |mapped| && mapped[i] == Field(key, found.value);
      LookupUnique(fields, i);
    }
    if was.Some? {
      var i :| 0 <= i < |fields| && fields[i] == Field(key, was.value);
      assert mapped[i].key == key && mapped[i] in multiset(mapped);
      assert mapped[i] in sorted;
    }
  }

  lemma {:induction false} CanonicalId(card: Json, le: Order)
    requires WellFormed(card)
    ensures IdOf(Canonical(card, le)) == IdOf(card)
  {
    hide Lookup, Sort;
    if card.Obj? {
      FieldKept(card.fields, "id", le);
      var was := Lookup(card.fields, "id");
      assert was.Some? ==> (Canonical(was.value, le).Str? <==> was.value.Str?) && (was.value.Str? ==> Canonical(was.value, le) == was.value);
    }
  }

  /** What sorting leaves of the rows: canonical forms in order, none added, none lost. */
  lemma {:induction false} SortedRows(rows: seq<Json>, key: Json -> string, canonicalKey: Json -> string, le: Order)
    requires Preorder(le) && forall x | x in rows :: canonicalKey(Canonical(x, le)) == key(x)
    ensures var items := CanonicalItems(Sort(rows, key, le), le);
            Sorted(items, canonicalKey, le) && multiset(items) == multiset(CanonicalItems(rows, le))
  {
    hide Canonical, Preorder, Sort;
    var sorted := Sort(rows, key, le);
    SortSorts(rows, key, le);
    ItemsBag(sorted, rows, le);
    forall i | 0 <= i < |sorted| ensures canonicalKey(Canonical(sorted[i], le)) == key(sorted[i]) {
      assert sorted[i] in multiset(sorted);
      assert sorted[i] in rows;
    }
  }

  // ---- where ties matter ----

  /** No two Tasks have ids that compare as equal. */
  predicate UntiedIds(cards: seq<Json>, le: Order) {
    forall i, j | 0 <= i < j < |cards| :: !Tied(le, IdOf(cards[i]), IdOf(cards[j]))
  }

  /** No two warnings have distinct canonical texts that compare as equal. */
  predicate UntiedTexts<D>(env: Env<D>, warnings: seq<Json>) {
    forall i, j | 0 <= i < j < |warnings| ::
      WarningKey(env)(warnings[i]) != WarningKey(env)(warnings[j]) ==> !Tied(env.le, WarningKey(env)(warnings[i]), WarningKey(env)(warnings[j]))
  }

  /** What a caller can look up: nothing that the revision sorts is tied. */
  predicate TellsApart<D>(env: Env<D>, tasks: seq<Json>, warnings: seq<Json>) {
    UntiedIds(tasks, env.le) && UntiedTexts(env, warnings) && AllUntied(tasks, env.le) && AllUntied(warnings, env.le)
  }

  lemma {:induction false} SameCards(a: seq<Json>, b: seq<Json>, le: Order)
    requires Preorder(le) && AllWellFormed(a) && AllWellFormed(b) && UntiedIds(a, le) && AllUntied(a, le)
    ensures SameRows(a, b) <==> CanonicalItems(Sort(a, ID_KEY, le), le) == CanonicalItems(Sort(b, ID_KEY, le), le)
  {
    hide Canonical, CanonicalItems, IdOf, WellFormed, SameRows, Sort, ID_KEY, UntiedIds, AllUntied, Preorder;
    forall x | x in a || x in b ensures ID_KEY(Canonical(x, le)) == ID_KEY(x) {
      CardId(a, b, x, le);
    }
    SortedRows(a, ID_KEY, ID_KEY, le);
    SortedRows(b, ID_KEY, ID_KEY, le);
    RowsDecide(a, b, le);
    var ia, ib := CanonicalItems(Sort(a, ID_KEY, le), le), CanonicalItems(Sort(b, ID_KEY, le), le);
    if multiset(ia) == multiset(ib) {
      IdsTellApart(a, ia, le);
      SortedIsUnique(ia, ib, ID_KEY, le);
    }
  }

  lemma RowOfItem(rows: seq<Json>, items: seq<Json>, x: Json, le: Order) returns (i: nat)
    requires multiset(items) == multiset(CanonicalItems(rows, le)) && x in items
    ensures i < |rows| && Canonical(rows[i], le) == x
  {
    hide Canonical;
    assert x in multiset(items);
    assert x in CanonicalItems(rows, le);
    i :| 0 <= i < |rows| && CanonicalItems(rows, le)[i] == x;
  }

  lemma {:induction false} IdsTellApart(rows: seq<Json>, items: seq<Json>, le: Order)
    requires AllWellFormed(rows) && UntiedIds(rows, le) && multiset(items) == multiset(CanonicalItems(rows, le))
    ensures NoTies(items, ID_KEY, le)
  {
    hide Canonical, CanonicalItems, IdOf, WellFormed;
    forall x, y | x in items && y in items && Tied(le, ID_KEY(x), ID_KEY(y)) ensures x == y {
      var i := RowOfItem(rows, items, x, le);
      var j := RowOfItem(rows, items, y, le);
      CanonicalId(rows[i], le);
      CanonicalId(rows[j], le);
      assert i == j;
    }
  }

  lemma CardId(a: seq<Json>, b: seq<Json>, x: Json, le: Order)
    requires AllWellFormed(a) && AllWellFormed(b) && (x in a || x in b)
    ensures ID_KEY(Canonical(x, le)) == ID_KEY(x)
  {
    CanonicalId(x, le);
  }

  lemma {:induction false} TextsTellApart<D(!new)>(env: Env<D>, rows: seq<Json>, items: seq<Json>)
    requires Faithful(env) && UntiedTexts(env, rows) && multiset(items) == multiset(CanonicalItems(rows, env.le))
    ensures NoTies(items, env.text, env.le)
  {
    hide Canonical, CanonicalItems, Faithful, Tied, UntiedTexts;
    forall x, y | x in items && y in items && Tied(env.le, env.text(x), env.text(y)) ensures x == y {
      var i := RowOfItem(rows, items, x, env.le);
      var j := RowOfItem(rows, items, y, env.le);
      TextsApart(env, rows, i, j);
      TextTells(env, x, y);
    }
  }

  lemma TextsApart<D(!new)>(env: Env<D>, rows: seq<Json>, i: nat, j: nat)
    requires UntiedTexts(env, rows) && i < |rows| && j < |rows|
    requires Tied(env.le, env.text(Canonical(rows[i], env.le)), env.text(Canonical(rows[j], env.le)))
    ensures env.text(Canonical(rows[i], env.le)) == env.text(Canonical(rows[j], env.le))
  {
    hide Canonical;
    assert WarningKey(env)(rows[i]) == env.text(Canonical(rows[i], env.le));
    assert WarningKey(env)(rows[j]) == env.text(Canonical(rows[j], env.le));
  }

  lemma TextTells<D(!new)>(env: Env<D>, x: Json, y: Json)
    requires Faithful(env)
    ensures env.text(x) == env.text(y) ==> x == y
  {
  }

  /** Warnings with the same canonical forms, however enumerated, sort to the same canonical forms. */
  lemma {:induction false} WarningsSortAlike<D(!new)>(env: Env<D>, a: seq<Json>, b: seq<Json>)
    requires Faithful(env) && UntiedTexts(env, a)
    ensures multiset(CanonicalItems(a, env.le)) == multiset(CanonicalItems(b, env.le))
            <==> CanonicalItems(Sort(a, WarningKey(env), env.le), env.le) == CanonicalItems(Sort(b, WarningKey(env), env.le), env.le)
  {
    hide Canonical, CanonicalItems, Sort, UntiedTexts, Preorder;
    var le := env.le;
    SortedRows(a, WarningKey(env), env.text, le);
    SortedRows(b, WarningKey(env), env.text, le);
    var ia, ib := CanonicalItems(Sort(a, WarningKey(env), le), le), CanonicalItems(Sort(b, WarningKey(env), le), le);
    if multiset(ia) == multiset(ib) {
      TextsTellApart(env, a, ia);
      SortedIsUnique(ia, ib, env.text, le);
    }
  }

  function Pair(tasks: seq<Json>, warnings: seq<Json>): seq<Field> {
    [Field("tasks", Arr(tasks)), Field("warnings", Arr(warnings))]
  }

  lemma PairFields(t: seq<Json>, w: seq<Json>, le: Order)
    ensures CanonicalFields(Pair(t, w), le) == [Field("tasks", Arr(CanonicalItems(t, le))), Field("warnings", Arr(CanonicalItems(w, le)))]
    ensures Canonical(Obj(Pair(t, w)), le) == Obj(Sort(CanonicalFields(Pair(t, w), le), FIELD_KEY, le))
  {
    hide Sort, CanonicalItems;
    var fields := CanonicalFields(Pair(t, w), le);
    assert |fields| == 2 && fields == [fields[0], fields[1]];
  }

  /** The two rows of the projection stand in one order, whatever they hold. */
  lemma {:induction false} SamePair(t: seq<Json>, w: seq<Json>, t': seq<Json>, w': seq<Json>, le: Order)
    ensures Canonical(Obj(Pair(t, w)), le) == Canonical(Obj(Pair(t', w')), le)
            <==> CanonicalItems(t, le) == CanonicalItems(t', le) && CanonicalItems(w, le) == CanonicalItems(w', le)
  {
    PairFields(t, w, le);
    PairFields(t', w', le);
    hide Canonical, CanonicalItems, CanonicalFields, Sort;
    var a, b := CanonicalFields(Pair(t, w), le), CanonicalFields(Pair(t', w'), le);
    SortTwo(a[0], a[1], FIELD_KEY, le);
    SortTwo(b[0], b[1], FIELD_KEY, le);
  }

  /** A revision shows its two sorted rows, and nothing else. */
  lemma {:induction false} RevisionParts<D(!new)>(env: Env<D>, t: seq<Json>, w: seq<Json>, t': seq<Json>, w': seq<Json>)
    requires Faithful(env)
    ensures Revision(env, t, w) == Revision(env, t', w')
            <==> && CanonicalItems(Sort(t, ID_KEY, env.le), env.le) == CanonicalItems(Sort(t', ID_KEY, env.le), env.le)
                 && CanonicalItems(Sort(w, WarningKey(env), env.le), env.le) == CanonicalItems(Sort(w', WarningKey(env), env.le), env.le)
  {
    hide Canonical, CanonicalItems, Sort, Preorder;
    SamePair(Sort(t, ID_KEY, env.le), Sort(w, WarningKey(env), env.le), Sort(t', ID_KEY, env.le), Sort(w', WarningKey(env), env.le), env.le);
  }

  /**
   If nothing is tied in one enumeration, another has the same revision exactly
   when it holds the same cards and warnings, up to the order of rows and keys.
   */
  lemma {:induction false} SameRevision<D(!new)>(env: Env<D>, tasks: seq<Json>, warnings: seq<Json>, tasks': seq<Json>, warnings': seq<Json>)
    requires Faithful(env) && AllWellFormed(tasks) && AllWellFormed(tasks') && AllWellFormed(warnings) && AllWellFormed(warnings')
    requires TellsApart(env, tasks, warnings)
    ensures Revision(env, tasks, warnings) == Revision(env, tasks', warnings')
            <==> SameRows(tasks, tasks') && SameRows(warnings, warnings')
  {
    hide Canonical, SameRows, AllWellFormed, AllUntied, UntiedIds, UntiedTexts, Revision, Preorder, Sort, CanonicalItems;
    SameCards(tasks, tasks', env.le);
    RowsDecide(warnings, warnings', env.le);
    WarningsSortAlike(env, warnings, warnings');
    RevisionParts(env, tasks, warnings, tasks', warnings');
  }

  // ---- exactly when the order of enumeration is lost ----

  lemma {:induction false} UntiedIdsAreApart(tasks: seq<Json>, le: Order)
    requires UntiedIds(tasks, le)
    ensures NoTies(tasks, ID_KEY, le)
  {
    hide IdOf;
    forall x, y | x in tasks && y in tasks && Tied(le, ID_KEY(x), ID_KEY(y)) ensures x == y {
      var i :| 0 <= i < |tasks| && tasks[i] == x;
      var j :| 0 <= j < |tasks| && tasks[j] == y;
      assert i == j;
    }
  }

  lemma {:induction false} TiedIdsShow<D(!new)>(env: Env<D>, tasks: seq<Json>, warnings: seq<Json>) returns (p: seq<Json>)
    requires Faithful(env) && AllWellFormed(tasks) && DistinctIds(tasks) && !UntiedIds(tasks, env.le)
    ensures multiset(p) == multiset(tasks) && Revision(env, p, warnings) != Revision(env, tasks, warnings)
  {
    hide Canonical, IdOf, Sort, Revision, Preorder, WellFormed, Tied;
    var le := env.le;
    var i, j :| 0 <= i < j < |tasks| && Tied(le, IdOf(tasks[i]), IdOf(tasks[j]));
    var a, b, m := TieShows(tasks, tasks[i], tasks[j], ID_KEY, le);
    CanonicalId(tasks[i], le);
    CanonicalId(tasks[j], le);
    assert CanonicalItems(Sort(a, ID_KEY, le), le)[m] != CanonicalItems(Sort(b, ID_KEY, le), le)[m];
    RevisionParts(env, a, warnings, b, warnings);
    p := if Revision(env, a, warnings) != Revision(env, tasks, warnings) then a else b;
  }

  /** Every order of the Tasks has one revision exactly when no two of their ids are tied. */
  lemma {:induction false} TaskOrderIsFree<D(!new)>(env: Env<D>, tasks: seq<Json>, warnings: seq<Json>)
    requires Faithful(env) && AllWellFormed(tasks) && DistinctIds(tasks)
    ensures (forall p | multiset(p) == multiset(tasks) :: Revision(env, p, warnings) == Revision(env, tasks, warnings))
            <==> UntiedIds(tasks, env.le)
  {
    hide Canonical, Sort, Preorder, WellFormed, UntiedIds, DistinctIds;
    if UntiedIds(tasks, env.le) {
      UntiedIdsAreApart(tasks, env.le);
      forall p | multiset(p) == multiset(tasks) ensures Revision(env, p, warnings) == Revision(env, tasks, warnings) {
        PermutedSort(tasks, p, ID_KEY, env.le);
      }
    } else {
      var p := TiedIdsShow(env, tasks, warnings);
    }
  }

  lemma {:induction false} TiedTextsShow<D(!new)>(env: Env<D>, tasks: seq<Json>, warnings: seq<Json>) returns (p: seq<Json>)
    requires Faithful(env) && !UntiedTexts(env, warnings)
    ensures multiset(p) == multiset(warnings) && Revision(env, tasks, p) != Revision(env, tasks, warnings)
  {
    hide Canonical, Sort, Revision, Preorder, Tied;
    var le, key := env.le, WarningKey(env);
    var i, j :| 0 <= i < j < |warnings| && key(warnings[i]) != key(warnings[j]) && Tied(le, key(warnings[i]), key(warnings[j]));
    var a, b, m := TieShows(warnings, warnings[i], warnings[j], key, le);
    assert Canonical(warnings[i], le) != Canonical(warnings[j], le);
    assert CanonicalItems(Sort(a, key, le), le)[m] != CanonicalItems(Sort(b, key, le), le)[m];
    RevisionParts(env, tasks, a, tasks, b);
    p := if Revision(env, tasks, a) != Revision(env, tasks, warnings) then a else b;
  }

  /** Every order of the warnings has one revision exactly when no two of their canonical texts are tied. */
  lemma {:induction false} WarningOrderIsFree<D(!new)>(env: Env<D>, tasks: seq<Json>, warnings: seq<Json>)
    requires Faithful(env)
    ensures (forall p | multiset(p) == multiset(warnings) :: Revision(env, tasks, p) == Revision(env, tasks, warnings))
            <==> UntiedTexts(env, warnings)
  {
    hide Canonical, CanonicalItems, Sort, Revision, Preorder, UntiedTexts;
    if UntiedTexts(env, warnings) {
      forall p | multiset(p) == multiset(warnings) ensures Revision(env, tasks, p) == Revision(env, tasks, warnings) {
        ItemsBag(warnings, p, env.le);
        WarningsSortAlike(env, warnings, p);
        RevisionParts(env, tasks, p, tasks, warnings);
      }
    } else {
      var p := TiedTextsShow(env, tasks, warnings);
    }
  }

  lemma {:induction false} PermutedRows(a: seq<Json>, p: seq<Json>)
    requires AllWellFormed(a) && multiset(p) == multiset(a)
    ensures AllWellFormed(p) && SameRows(a, p)
  {
    hide WellFormed, SameRows, Canonical;
    forall i | 0 <= i < |p| ensures WellFormed(p[i]) {
      assert p[i] in multiset(a);
      assert p[i] in a;
    }
    ItemsBag(a, p, CODE_ORDER);
    RowsByCode(a, p);
  }

  lemma {:induction false} TiedRowShows(rows: seq<Json>, le: Order) returns (p: seq<Json>)
    requires Preorder(le) && AllWellFormed(rows) && !AllUntied(rows, le)
    ensures AllWellFormed(p) && SameRows(rows, p) && multiset(CanonicalItems(p, le)) != multiset(CanonicalItems(rows, le))
  {
    hide WellFormed, SameRows, Canonical, NoTiedKeys, Preorder, Equiv;
    var i :| 0 <= i < |rows| && !NoTiedKeys(rows[i], le);
    var v := TiedKeysShow(rows[i], le);
    ItemVariant(rows, i, v, le);
    p := rows[i := v];
    OneChanged(CanonicalItems(rows, le), i, Canonical(v, le));
  }

  lemma {:induction false} RevisionShowsRows<D(!new)>(env: Env<D>, t: seq<Json>, w: seq<Json>, t': seq<Json>, w': seq<Json>)
    requires Faithful(env) && Revision(env, t, w) == Revision(env, t', w')
    ensures multiset(CanonicalItems(t, env.le)) == multiset(CanonicalItems(t', env.le))
    ensures multiset(CanonicalItems(w, env.le)) == multiset(CanonicalItems(w', env.le))
  {
    hide Canonical, CanonicalItems, Sort, Revision, Preorder;
    var le := env.le;
    RevisionParts(env, t, w, t', w');
    ItemsBag(Sort(t, ID_KEY, le), t, le);
    ItemsBag(Sort(t', ID_KEY, le), t', le);
    ItemsBag(Sort(w, WarningKey(env), le), w, le);
    ItemsBag(Sort(w', WarningKey(env), le), w', le);
  }

  /** Some enumeration of the same cards and warnings has another revision, if anything that is sorted is tied. */
  lemma {:induction false} TieIsSeen<D(!new)>(env: Env<D>, tasks: seq<Json>, warnings: seq<Json>) returns (tasks': seq<Json>, warnings': seq<Json>)
    requires Faithful(env) && AllWellFormed(tasks) && AllWellFormed(warnings) && DistinctIds(tasks)
    requires !TellsApart(env, tasks, warnings)
    ensures AllWellFormed(tasks') && AllWellFormed(warnings') && SameRows(tasks, tasks') && SameRows(warnings, warnings')
    ensures Revision(env, tasks', warnings') != Revision(env, tasks, warnings)
  {
    hide Canonical, CanonicalItems, Sort, Revision, Preorder, AllWellFormed, AllUntied, UntiedIds, UntiedTexts, SameRows, DistinctIds;
    tasks', warnings' := tasks, warnings;
    PermutedRows(tasks, tasks);
    PermutedRows(warnings, warnings);
    if !UntiedIds(tasks, env.le) {
      tasks' := TiedIdsShow(env, tasks, warnings);
      PermutedRows(tasks, tasks');
    } else if !UntiedTexts(env, warnings) {
      warnings' := TiedTextsShow(env, tasks, warnings);
      PermutedRows(warnings, warnings');
    } else if !AllUntied(tasks, env.le) {
      tasks' := TiedRowShows(tasks, env.le);
      if Revision(env, tasks', warnings) == Revision(env, tasks, warnings) {
        RevisionShowsRows(env, tasks', warnings, tasks, warnings);
      }
    } else {
      warnings' := TiedRowShows(warnings, env.le);
      if Revision(env, tasks, warnings') == Revision(env, tasks, warnings) {
        RevisionShowsRows(env, tasks, warnings', tasks, warnings);
      }
    }
  }

  /**
   The revision depends on the cards and warnings alone, whatever the order of
   rows and of keys, exactly when nothing that is sorted is tied: no two ids, no
   two texts of warnings, no two keys of one object.
   */
  lemma {:induction false} RevisionIsOrderFree<D(!new)>(env: Env<D>, tasks: seq<Json>, warnings: seq<Json>)
    requires Faithful(env) && AllWellFormed(tasks) && AllWellFormed(warnings) && DistinctIds(tasks)
    ensures (forall t, w | AllWellFormed(t) && AllWellFormed(w) && SameRows(tasks, t) && SameRows(warnings, w) ::
               Revision(env, t, w) == Revision(env, tasks, warnings))
            <==> TellsApart(env, tasks, warnings)
  {
    hide Revision, AllWellFormed, SameRows, TellsApart, DistinctIds, Preorder;
    if TellsApart(env, tasks, warnings) {
      forall t, w | AllWellFormed(t) && AllWellFormed(w) && SameRows(tasks, t) && SameRows(warnings, w)
        ensures Revision(env, t, w) == Revision(env, tasks, warnings)
      {
        SameRevision(env, tasks, warnings, t, w);
      }
    } else {
      var t, w := TieIsSeen(env, tasks, warnings);
    }
  }

  function CardOf(id: string): Json {
    Obj([Field("id", Str(id))])
  }

  lemma CardHasId(id: string)
    ensures WellFormed(CardOf(id)) && IdOf(CardOf(id)) == id
  {
    var fields := [Field("id", Str(id))];
    assert Lookup(fields, "id") == Some(Str(id));
  }

  /** Two Tasks whose ids are one word, composed and decomposed: under a comparison by Unicode equivalence their order shows. */
  lemma {:induction false} AccentedIdsShow<D(!new)>(env: Env<D>)
    requires Faithful(env) && env.le == COMPOSED_ORDER
    ensures var tasks := [CardOf(ACCENTED), CardOf(DECOMPOSED)];
            && DistinctIds(tasks) && AllWellFormed(tasks)
            && exists p :: multiset(p) == multiset(tasks) && Revision(env, p, []) != Revision(env, tasks, [])
  {
    hide Revision, IdOf, COMPOSED_ORDER, CardOf;
    var tasks := [CardOf(ACCENTED), CardOf(DECOMPOSED)];
    CardHasId(ACCENTED);
    CardHasId(DECOMPOSED);
    ComposedOrderTies();
    assert !UntiedIds(tasks, env.le) by {
      assert Tied(env.le, IdOf(tasks[0]), IdOf(tasks[1]));
    }
    var p := TiedIdsShow(env, tasks, []);
  }
}
