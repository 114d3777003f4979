/** Array.sort by a comparison that may tie distinct strings, as localeCompare does. */
module StableSort {
  import opened TextOrder

  /** Whether the first string compares as at most the second. */
  type Order = (string, string) -> bool

  /** What every comparator must be; distinct strings may compare as equal. */
  ghost predicate Preorder(le: Order) {
    && (forall a, b :: le(a, b) || le(b, a))
    && (forall a, b, c :: le(a, b) && le(b, c) ==> le(a, c))
  }

  predicate Tied(le: Order, a: string, b: string) {
    le(a, b) && le(b, a)
  }

  /** The key tells the elements of the list apart. */
  predicate NoTies<T(==)>(s: seq<T>, key: T -> string, le: Order) {
    forall x, y | x in s && y in s && Tied(le, key(x), key(y)) :: x == y
  }

  predicate Sorted<T>(s: seq<T>, key: T -> string, le: Order) {
    forall i, j | 0 <= i < j < |s| :: le(key(s[i]), key(s[j]))
  }

  /** Before the first element with a key as great or greater, so that ties keep their order. */
  function Insert<T>(x: T, s: seq<T>, key: T -> string, le: Order): (r: seq<T>)
    ensures multiset(r) == multiset(s) + multiset{x}
  {
    if s == [] then [x]
    else if le(key(x), key(s[0])) then
      assert s == [s[0]] + s[1..];
      [x] + s
    else
      assert s == [s[0]] + s[1..];
      [s[0]] + Insert(x, s[1..], key, le)
  }

  /** Array.sort, which is stable. */
  function Sort<T>(s: seq<T>, key: T -> string, le: Order): (r: seq<T>)
    ensures multiset(r) == multiset(s) && |r| == |s|
  {
    if s == [] then []
    else
      assert s == [s[0]] + s[1..];
      var r := Insert(s[0], Sort(s[1..], key, le), key, le);
      assert |multiset(r)| == |multiset(s)|;
      r
  }

  lemma {:induction false} InsertSorts<T>(x: T, s: seq<T>, key: T -> string, le: Order)
    requires Preorder(le) && Sorted(s, key, le)
    ensures Sorted(Insert(x, s, key, le), key, le)
  {
    if s != [] && !le(key(x), key(s[0])) {
      var rest := Insert(x, s[1..], key, le);
      InsertSorts(x, s[1..], key, le);
      forall i | 0 <= i < |rest| ensures le(key(s[0]), key(rest[i])) {
        assert rest[i] in multiset(rest);
        assert rest[i] == x || rest[i] in s[1..];
      }
    }
  }

  lemma {:induction false} SortSorts<T>(s: seq<T>, key: T -> string, le: Order)
    requires Preorder(le)
    ensures Sorted(Sort(s, key, le), key, le)
  {
    if s != [] {
      SortSorts(s[1..], key, le);
      InsertSorts(s[0], Sort(s[1..], key, le), key, le);
    }
  }

  // ---- without ties the order of enumeration is lost ----

  lemma SortedTail<T>(s: seq<T>, key: T -> string, le: Order)
    requires s != [] && Sorted(s, key, le)
    ensures Sorted(s[1..], key, le) && s == [s[0]] + s[1..]
    ensures multiset(s[1..]) == multiset(s) - multiset{s[0]} && forall x :: x in s[1..] ==> x in s
  {
    assert s == [s[0]] + s[1..];
  }

  lemma {:induction false} SameHead<T>(a: seq<T>, b: seq<T>, key: T -> string, le: Order)
    requires Preorder(le) && multiset(a) == multiset(b) && Sorted(a, key, le) && Sorted(b, key, le)
    requires a != [] && b != [] && NoTies(a, key, le)
    ensures a[0] == b[0]
  {
    assert a[0] in multiset(b) && b[0] in multiset(a);
    var i :| 0 <= i < |b| && b[i] == a[0];
    var j :| 0 <= j < |a| && a[j] == b[0];
    assert le(key(b[0]), key(b[i])) && le(key(a[0]), key(a[j]));
  }

  /** Two sorted enumerations of the same elements are the same, when the key tells these elements apart. */
  lemma {:induction false} SortedIsUnique<T>(a: seq<T>, b: seq<T>, key: T -> string, le: Order)
    requires Preorder(le) && multiset(a) == multiset(b) && Sorted(a, key, le) && Sorted(b, key, le)
    requires NoTies(a, key, le)
    ensures a == b
    decreases |a|
  {
    if a == [] {
      assert |multiset(b)| == 0;
    } else {
      assert |multiset(a)| == |multiset(b)|;
      SameHead(a, b, key, le);
      SortedTail(a, key, le);
      SortedTail(b, key, le);
      SortedIsUnique(a[1..], b[1..], key, le);
    }
  }

  lemma {:induction false} PermutedSort<T>(a: seq<T>, b: seq<T>, key: T -> string, le: Order)
    requires Preorder(le) && multiset(a) == multiset(b) && NoTies(a, key, le)
    ensures Sort(a, key, le) == Sort(b, key, le)
  {
    SortSorts(a, key, le);
    SortSorts(b, key, le);
    var sa := Sort(a, key, le);
    forall x | x in sa ensures x in a {
      assert x in multiset(sa);
    }
    SortedIsUnique(sa, Sort(b, key, le), key, le);
  }

  // ---- a tie shows the order of enumeration ----

  /** The index where Insert puts its element. */
  function Place<T>(x: T, s: seq<T>, key: T -> string, le: Order): (i: nat)
    ensures i <= |s|
  {
    if s == [] || le(key(x), key(s[0])) then 0 else 1 + Place(x, s[1..], key, le)
  }

  lemma InsertFirst<T>(x: T, s: seq<T>, key: T -> string, le: Order)
    requires s == [] || le(key(x), key(s[0]))
    ensures Insert(x, s, key, le) == [x] + s && Place(x, s, key, le) == 0
  {
  }

  lemma InsertBehind<T>(x: T, first: T, rest: seq<T>, key: T -> string, le: Order)
    requires !le(key(x), key(first))
    ensures Insert(x, [first] + rest, key, le) == [first] + Insert(x, rest, key, le)
    ensures Place(x, [first] + rest, key, le) == 1 + Place(x, rest, key, le)
  {
    assert ([first] + rest)[1..] == rest;
  }

  /** Two tied elements inserted one after the other stand side by side, the later one first. */
  lemma {:induction false} InsertTied<T>(x: T, y: T, s: seq<T>, key: T -> string, le: Order)
    requires Preorder(le) && Tied(le, key(x), key(y))
    ensures Place(x, s, key, le) == Place(y, s, key, le)
    ensures Insert(x, Insert(y, s, key, le), key, le) == s[..Place(x, s, key, le)] + [x, y] + s[Place(x, s, key, le)..]
  {
    hide Insert, Place, Preorder, Tied;
    TiedIsLe(le, key(x), key(y));
    if s != [] {
      TiedAlike(le, key(x), key(y), key(s[0]));
    }
    if s == [] || le(key(y), key(s[0])) {
      InsertFirst(y, s, key, le);
      InsertFirst(x, s, key, le);
      InsertFirst(x, [y] + s, key, le);
      Beside(x, y, s, 0);
    } else {
      var first, rest := s[0], s[1..];
      assert s == [first] + rest;
      InsertTied(x, y, rest, key, le);
      InsertBehind(y, first, rest, key, le);
      InsertBehind(x, first, rest, key, le);
      InsertBehind(x, first, Insert(y, rest, key, le), key, le);
      Shifted(x, y, first, rest, Place(x, rest, key, le));
    }
  }

  lemma TiedIsLe(le: Order, a: string, b: string)
    requires Tied(le, a, b)
    ensures le(a, b)
  {
  }

  lemma TiedAlike(le: Order, a: string, b: string, c: string)
    requires Preorder(le) && Tied(le, a, b)
    ensures le(a, c) <==> le(b, c)
  {
  }

  lemma Beside<T>(x: T, y: T, s: seq<T>, i: nat)
    requires i <= |s|
    ensures [x] + ([y] + s) == s[..0] + [x, y] + s[0..]
    ensures var t := s[..i] + [x, y] + s[i..]; t[i] == x && t[i + 1] == y
  {
  }

  lemma Shifted<T>(x: T, y: T, first: T, rest: seq<T>, p: nat)
    requires p <= |rest|
    ensures var s := [first] + rest; [first] + (rest[..p] + [x, y] + rest[p..]) == s[..p + 1] + [x, y] + s[p + 1..]
  {
  }

  lemma Without<T>(s: seq<T>, x: T) returns (rest: seq<T>)
    requires x in s
    ensures multiset(s) == multiset{x} + multiset(rest)
  {
    var i :| 0 <= i < |s| && s[i] == x;
    rest := s[..i] + s[i + 1..];
    assert s == s[..i] + [x] + s[i + 1..];
  }

  lemma SortPair<T>(x: T, y: T, rest: seq<T>, key: T -> string, le: Order)
    ensures Sort([x, y] + rest, key, le) == Insert(x, Insert(y, Sort(rest, key, le), key, le), key, le)
  {
    var all := [x, y] + rest;
    assert all[1..] == [y] + rest && ([y] + rest)[1..] == rest;
    assert Sort([y] + rest, key, le) == Insert(y, Sort(rest, key, le), key, le);
  }

  /** Two tied elements of any list can be enumerated so that either stands first at one place of the sorted list. */
  lemma {:induction false} TieShows<T>(s: seq<T>, x: T, y: T, key: T -> string, le: Order) returns (p: seq<T>, q: seq<T>, i: nat)
    requires Preorder(le) && x in s && y in s && x != y && Tied(le, key(x), key(y))
    ensures multiset(p) == multiset(s) == multiset(q)
    ensures i < |s| && Sort(p, key, le)[i] == x && Sort(q, key, le)[i] == y
  {
    hide Insert, Sort;
    var others := Without(s, x);
    assert y in multiset(s);
    assert y in multiset(others);
    var rest := Without(others, y);
    p, q := [x, y] + rest, [y, x] + rest;
    assert |multiset(p)| == |multiset(s)|;
    SortPair(x, y, rest, key, le);
    SortPair(y, x, rest, key, le);
    var sorted := Sort(rest, key, le);
    InsertTied(x, y, sorted, key, le);
    InsertTied(y, x, sorted, key, le);
    i := Place(x, sorted, key, le);
    assert (sorted[..i] + [x, y] + sorted[i..])[i] == x && (sorted[..i] + [y, x] + sorted[i..])[i] == y;
  }

  lemma {:induction false} SortTwo<T>(a: T, b: T, key: T -> string, le: Order)
    ensures Sort([a, b], key, le) == if le(key(a), key(b)) then [a, b] else [b, a]
  {
    assert [a, b][1..] == [b] && [b][1..] == [];
    assert Insert(b, [], key, le) == [b] && Sort([b], key, le) == [b];
    assert Insert(a, [b], key, le) == if le(key(a), key(b)) then [a] + [b] else [b] + Insert(a, [], key, le);
  }

  // ---- two comparisons ----

  /** By code: a comparison that ties nothing. */
  const CODE_ORDER: Order := (a, b) => a == b || TextBefore(a, b)

  lemma CodeOrderTiesNothing()
    ensures Preorder(CODE_ORDER)
    ensures forall a, b :: Tied(CODE_ORDER, a, b) ==> a == b
  {
    forall a, b ensures (CODE_ORDER(a, b) || CODE_ORDER(b, a)) && (Tied(CODE_ORDER, a, b) ==> a == b) {
      TextOrderIsTotal(a, b);
    }
    forall a, b, c | CODE_ORDER(a, b) && CODE_ORDER(b, c) ensures CODE_ORDER(a, c) {
      if a != b && b != c {
        TextOrderIsTransitive(a, b, c);
      }
    }
  }

  /** One of Unicode's canonical equivalences: "e" with a combining acute accent is the letter with the accent. */
  function Composed(s: string): string {
    if s == "" then ""
    else if |s| >= 2 && s[0] == 'e' && s[1] == '\U{301}' then ['\U{E9}'] + Composed(s[2..])
    else [s[0]] + Composed(s[1..])
  }

  /** By code after composing: what ECMA-262 requires of localeCompare, that canonically equivalent strings compare as equal. */
  const COMPOSED_ORDER: Order := (a, b) => CODE_ORDER(Composed(a), Composed(b))

  const ACCENTED := "\U{E9}"
  const DECOMPOSED := "e\U{301}"

  lemma ComposedOrderTies()
    ensures Preorder(COMPOSED_ORDER)
    ensures ACCENTED != DECOMPOSED && Tied(COMPOSED_ORDER, ACCENTED, DECOMPOSED)
  {
    CodeOrderTiesNothing();
    forall a, b ensures COMPOSED_ORDER(a, b) || COMPOSED_ORDER(b, a) {
      assert CODE_ORDER(Composed(a), Composed(b)) || CODE_ORDER(Composed(b), Composed(a));
    }
    forall a, b, c | COMPOSED_ORDER(a, b) && COMPOSED_ORDER(b, c) ensures COMPOSED_ORDER(a, c) {
      assert CODE_ORDER(Composed(a), Composed(b)) && CODE_ORDER(Composed(b), Composed(c));
    }
    assert ACCENTED[1..] == "" && DECOMPOSED[2..] == "";
    assert Composed(ACCENTED) == ['\U{E9}'] + Composed("") == Composed(DECOMPOSED);
    assert |ACCENTED| != |DECOMPOSED|;
  }
}
