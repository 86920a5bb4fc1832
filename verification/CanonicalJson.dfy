// `sortValue` and `stableJson`: the canonical form of a JSON tree, up to the order of its object keys.
module CanonicalJson {

  datatype Json =
    | Scalar(text: string)
    | Array(items: Items)
    | Object(members: Members)

  datatype Items = NoItems | Item(head: Json, rest: Items)

  datatype Members = NoMembers | Member(key: string, value: Json, rest: Members)

  /** The order of keys: `localeCompare`, taken to be a strict total order on the keys that occur. */
  type Less = (string, string) -> bool

  ghost predicate StrictTotal(less: Less) {
    && (forall a :: !less(a, a))
    && (forall a, b :: a != b ==> less(a, b) || less(b, a))
    && (forall a, b, c :: less(a, b) && less(b, c) ==> less(a, c))
  }

  function HasKey(m: Members, key: string): bool {
    m.Member? && (m.key == key || HasKey(m.rest, key))
  }

  function Lookup(m: Members, key: string): Json
    requires HasKey(m, key)
  {
    if m.key == key then m.value else Lookup(m.rest, key)
  }

  /** Objects have each key once, at every depth. */
  predicate Distinct(j: Json) {
    match j
    case Scalar(_) => true
    case Array(items) => DistinctItems(items)
    case Object(members) => DistinctMembers(members)
  }

  predicate DistinctItems(items: Items) {
    items.Item? ==> Distinct(items.head) && DistinctItems(items.rest)
  }

  predicate DistinctMembers(m: Members) {
    m.Member? ==> !HasKey(m.rest, m.key) && Distinct(m.value) && DistinctMembers(m.rest)
  }

  // ---- sortValue ------------------------------------------------------------------------------

  /** Sorted insertion of one entry: the comparison sort, an entry at a time. */
  function Insert(less: Less, key: string, value: Json, m: Members): Members {
    if m.NoMembers? || !less(m.key, key) then Member(key, value, m)
    else Member(m.key, m.value, Insert(less, key, value, m.rest))
  }

  function SortValue(less: Less, j: Json): Json {
    match j
    case Scalar(_) => j
    case Array(items) => Array(SortItems(less, items))
    case Object(members) => Object(SortMembers(less, members))
  }

  function SortItems(less: Less, items: Items): Items {
    if items.NoItems? then NoItems else Item(SortValue(less, items.head), SortItems(less, items.rest))
  }

  function SortMembers(less: Less, m: Members): Members {
    if m.NoMembers? then NoMembers
    else Insert(less, m.key, SortValue(less, m.value), SortMembers(less, m.rest))
  }

  /** `stableJson` for the printer in use. */
  function StableJson(less: Less, render: Json -> string, j: Json): string {
    render(SortValue(less, j))
  }

  // ---- The same tree up to key order ----------------------------------------------------------

  /** Equal but for the order of keys, at every depth. */
  ghost predicate SameTree(a: Json, b: Json)
    decreases a
  {
    match (a, b)
    case (Scalar(s), Scalar(t)) => s == t
    case (Array(i), Array(k)) => SameItems(i, k)
    case (Object(m), Object(n)) => SameMembers(m, n) && forall key :: HasKey(n, key) ==> HasKey(m, key)
    case _ => false
  }

  ghost predicate SameItems(i: Items, k: Items)
    decreases i
  {
    match (i, k)
    case (NoItems, NoItems) => true
    case (Item(x, xs), Item(y, ys)) => SameTree(x, y) && SameItems(xs, ys)
    case _ => false
  }

  /** Every entry of `m` has its counterpart in `n`. */
  ghost predicate SameMembers(m: Members, n: Members)
    decreases m
  {
    m.Member? ==> HasKey(n, m.key) && SameTree(m.value, Lookup(n, m.key)) && SameMembers(m.rest, n)
  }

  // ---- Sorted members -------------------------------------------------------------------------

  /** Keys strictly increase, so an entry comes before everything after it. */
  predicate Ascending(less: Less, m: Members) {
    m.Member? ==> Before(less, m.key, m.rest) && Ascending(less, m.rest)
  }

  predicate Before(less: Less, key: string, m: Members) {
    m.Member? ==> less(key, m.key) && Before(less, key, m.rest)
  }

  lemma {:induction false} InsertKeeps(less: Less, key: string, value: Json, m: Members)
    requires StrictTotal(less) && Ascending(less, m) && !HasKey(m, key)
    ensures Ascending(less, Insert(less, key, value, m))
    ensures forall k :: HasKey(Insert(less, key, value, m), k) <==> k == key || HasKey(m, k)
    ensures forall k :: k == key || HasKey(m, k) ==>
              Lookup(Insert(less, key, value, m), k) == if k == key then value else Lookup(m, k)
    ensures forall x :: less(x, key) && Before(less, x, m) ==> Before(less, x, Insert(less, key, value, m))
  {
    if m.NoMembers? || !less(m.key, key) {
      if m.Member? {
        BeforeLater(less, key, m.key, m.rest);
      }
    } else {
      InsertKeeps(less, key, value, m.rest);
    }
  }

  lemma {:induction false} BeforeLater(less: Less, x: string, y: string, m: Members)
    requires StrictTotal(less) && less(x, y) && Before(less, y, m)
    ensures Before(less, x, m)
  {
    if m.Member? {
      BeforeLater(less, x, y, m.rest);
    }
  }

  /** Sorting keeps keys and values, sorted values in place of the values, and orders the keys. */
  lemma {:induction false} SortedMembers(less: Less, m: Members)
    requires StrictTotal(less) && DistinctMembers(m)
    ensures Ascending(less, SortMembers(less, m))
    ensures forall k :: HasKey(SortMembers(less, m), k) <==> HasKey(m, k)
    ensures forall k :: HasKey(m, k) ==> Lookup(SortMembers(less, m), k) == SortValue(less, Lookup(m, k))
  {
    if m.Member? {
      SortedMembers(less, m.rest);
      InsertKeeps(less, m.key, SortValue(less, m.value), SortMembers(less, m.rest));
    }
  }

  lemma {:induction false} FirstKeyIsLeast(less: Less, m: Members, key: string)
    requires StrictTotal(less) && Ascending(less, m) && HasKey(m, key) && m.key != key
    ensures less(m.key, key) && HasKey(m.rest, key)
  {
    KeysAreAfter(less, m.key, m.rest, key);
  }

  lemma {:induction false} KeysAreAfter(less: Less, x: string, m: Members, key: string)
    requires Before(less, x, m) && HasKey(m, key)
    ensures less(x, key)
  {
    if m.key != key {
      KeysAreAfter(less, x, m.rest, key);
    }
  }

  /** There is one ascending arrangement of given keys and values. */
  lemma {:induction false} AscendingIsUnique(less: Less, m: Members, n: Members)
    requires StrictTotal(less) && Ascending(less, m) && Ascending(less, n)
    requires forall k :: HasKey(m, k) <==> HasKey(n, k)
    requires forall k :: HasKey(m, k) ==> Lookup(m, k) == Lookup(n, k)
    ensures m == n
  {
    if m.NoMembers? {
      assert n.Member? ==> HasKey(n, n.key);
    } else {
      assert HasKey(m, m.key) && HasKey(n, m.key);
      assert HasKey(n, n.key) && HasKey(m, n.key);
      if m.key != n.key {
        FirstKeyIsLeast(less, n, m.key);
        FirstKeyIsLeast(less, m, n.key);
      }
      RestKeys(less, m);
      RestKeys(less, n);
      AscendingIsUnique(less, m.rest, n.rest);
    }
  }

  /** Dropping the first entry of an ascending arrangement drops exactly its key. */
  lemma RestKeys(less: Less, m: Members)
    requires StrictTotal(less) && Ascending(less, m) && m.Member?
    ensures !HasKey(m.rest, m.key)
    ensures forall k :: HasKey(m.rest, k) <==> HasKey(m, k) && k != m.key
    ensures forall k :: HasKey(m.rest, k) ==> Lookup(m.rest, k) == Lookup(m, k)
  {
    if HasKey(m.rest, m.key) {
      KeysAreAfter(less, m.key, m.rest, m.key);
    }
  }

  // ---- Canonicity -----------------------------------------------------------------------------

  lemma {:induction false} SameTreesSortAlike(less: Less, a: Json, b: Json)
    requires StrictTotal(less) && Distinct(a) && Distinct(b) && SameTree(a, b)
    ensures SortValue(less, a) == SortValue(less, b)
    decreases a
  {
    match (a, b)
    case (Scalar(_), Scalar(_)) =>
    case (Array(i), Array(k)) => SameItemsSortAlike(less, i, k);
    case (Object(m), Object(n)) =>
      SortedMembers(less, m);
      SortedMembers(less, n);
      SameMembersSortAlike(less, m, n);
      AscendingIsUnique(less, SortMembers(less, m), SortMembers(less, n));
  }

  lemma {:induction false} SameItemsSortAlike(less: Less, i: Items, k: Items)
    requires StrictTotal(less) && DistinctItems(i) && DistinctItems(k) && SameItems(i, k)
    ensures SortItems(less, i) == SortItems(less, k)
    decreases i
  {
    if i.Item? {
      SameTreesSortAlike(less, i.head, k.head);
      SameItemsSortAlike(less, i.rest, k.rest);
    }
  }

  lemma {:induction false} LookupIsDistinct(m: Members, key: string)
    requires DistinctMembers(m) && HasKey(m, key)
    ensures Distinct(Lookup(m, key))
  {
    if m.key != key {
      LookupIsDistinct(m.rest, key);
    }
  }

  lemma {:induction false} SameMembersSortAlike(less: Less, m: Members, n: Members)
    requires StrictTotal(less) && DistinctMembers(m) && DistinctMembers(n) && SameMembers(m, n)
    ensures forall k :: HasKey(m, k) ==> HasKey(n, k) && SortValue(less, Lookup(m, k)) == SortValue(less, Lookup(n, k))
    decreases m
  {
    if m.Member? {
      LookupIsDistinct(n, m.key);
      SameTreesSortAlike(less, m.value, Lookup(n, m.key));
      SameMembersSortAlike(less, m.rest, n);
    }
  }

  lemma {:induction false} SortedIsSame(less: Less, j: Json)
    requires StrictTotal(less) && Distinct(j)
    ensures Distinct(SortValue(less, j)) && SortValue(less, SortValue(less, j)) == SortValue(less, j)
    decreases j, 0
  {
    match j
    case Scalar(_) =>
    case Array(items) => SortedItemsAreSame(less, items);
    case Object(m) =>
      SortedMembersAreSame(less, m);
      var s := SortMembers(less, m);
      SortedMembers(less, m);
      SortedMembers(less, s);
      forall k | HasKey(s, k) ensures Lookup(SortMembers(less, s), k) == Lookup(s, k) {
        SortedLookup(less, m, k);
      }
      AscendingIsUnique(less, SortMembers(less, s), s);
  }

  lemma {:induction false} SortedItemsAreSame(less: Less, items: Items)
    requires StrictTotal(less) && DistinctItems(items)
    ensures DistinctItems(SortItems(less, items)) && SortItems(less, SortItems(less, items)) == SortItems(less, items)
    decreases items, 0
  {
    if items.Item? {
      SortedIsSame(less, items.head);
      SortedItemsAreSame(less, items.rest);
    }
  }

  lemma {:induction false} InsertIsDistinct(less: Less, key: string, value: Json, m: Members)
    requires DistinctMembers(m) && !HasKey(m, key) && Distinct(value)
    ensures DistinctMembers(Insert(less, key, value, m))
    ensures forall k :: HasKey(Insert(less, key, value, m), k) <==> k == key || HasKey(m, k)
  {
    if m.Member? && less(m.key, key) {
      InsertIsDistinct(less, key, value, m.rest);
    }
  }

  lemma {:induction false} SortedMembersAreSame(less: Less, m: Members)
    requires StrictTotal(less) && DistinctMembers(m)
    ensures DistinctMembers(SortMembers(less, m))
    decreases m, 0
  {
    if m.Member? {
      SortedIsSame(less, m.value);
      SortedMembersAreSame(less, m.rest);
      SortedMembers(less, m.rest);
      InsertIsDistinct(less, m.key, SortValue(less, m.value), SortMembers(less, m.rest));
    }
  }

  lemma {:induction false} SortedLookup(less: Less, m: Members, key: string)
    requires StrictTotal(less) && DistinctMembers(m) && HasKey(m, key)
    ensures SortValue(less, SortValue(less, Lookup(m, key))) == SortValue(less, Lookup(m, key))
    decreases m, 1
  {
    if m.key == key {
      SortedIsSame(less, m.value);
    } else {
      SortedLookup(less, m.rest, key);
    }
  }

  /** Sorting a sorted tree changes nothing. */
  lemma SortValueIdempotent(less: Less, j: Json)
    requires StrictTotal(less) && Distinct(j)
    ensures SortValue(less, SortValue(less, j)) == SortValue(less, j)
  {
    SortedIsSame(less, j);
  }

  /** Trees that sort alike are the same tree up to key order. */
  lemma {:induction false} SortedAlikeAreSame(less: Less, a: Json, b: Json)
    requires StrictTotal(less) && Distinct(a) && Distinct(b) && SortValue(less, a) == SortValue(less, b)
    ensures SameTree(a, b)
    decreases a
  {
    match (a, b)
    case (Array(i), Array(k)) => SortedAlikeItems(less, i, k);
    case (Object(m), Object(n)) =>
      SortedMembers(less, m);
      SortedMembers(less, n);
      SortedAlikeMembers(less, m, n);
    case _ =>
  }

  lemma {:induction false} SortedAlikeItems(less: Less, i: Items, k: Items)
    requires StrictTotal(less) && DistinctItems(i) && DistinctItems(k) && SortItems(less, i) == SortItems(less, k)
    ensures SameItems(i, k)
    decreases i
  {
    if i.Item? && k.Item? {
      SortedAlikeAreSame(less, i.head, k.head);
      SortedAlikeItems(less, i.rest, k.rest);
    }
  }

  lemma {:induction false} SortedAlikeMembers(less: Less, m: Members, n: Members)
    requires StrictTotal(less) && DistinctMembers(m) && DistinctMembers(n)
    requires forall k :: HasKey(m, k) ==> HasKey(n, k) && SortValue(less, Lookup(m, k)) == SortValue(less, Lookup(n, k))
    ensures SameMembers(m, n)
    decreases m
  {
    if m.Member? {
      LookupIsDistinct(n, m.key);
      assert HasKey(m, m.key);
      SortedAlikeAreSame(less, m.value, Lookup(n, m.key));
      assert forall k :: HasKey(m.rest, k) ==> HasKey(m, k) && Lookup(m, k) == Lookup(m.rest, k);
      SortedAlikeMembers(less, m.rest, n);
    }
  }

  /** The canonical form identifies exactly the trees that differ only by key order, at any depth. */
  lemma CanonicalExactly(less: Less, a: Json, b: Json)
    requires StrictTotal(less) && Distinct(a) && Distinct(b)
    ensures SortValue(less, a) == SortValue(less, b) <==> SameTree(a, b)
  {
    if SameTree(a, b) {
      SameTreesSortAlike(less, a, b);
    }
    if SortValue(less, a) == SortValue(less, b) {
      SortedAlikeAreSame(less, a, b);
    }
  }

  /** So they print alike, and with a printer that tells different trees apart, only they do. */
  lemma StableJsonExactly(less: Less, render: Json -> string, a: Json, b: Json)
    requires StrictTotal(less) && Distinct(a) && Distinct(b)
    ensures SameTree(a, b) ==> StableJson(less, render, a) == StableJson(less, render, b)
    ensures (forall x, y :: render(x) == render(y) ==> x == y) ==>
              (StableJson(less, render, a) == StableJson(less, render, b) <==> SameTree(a, b))
  {
    CanonicalExactly(less, a, b);
  }
}
