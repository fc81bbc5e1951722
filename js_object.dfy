/** The two facts about plain JavaScript objects (`{}`) used as dictionaries
    that the aggregations depend on: the order in which `Object.entries` and
    `Object.values` list the keys, and the property names every object
    inherits from `Object.prototype`. */
module JsObject {
  import opened Sequences
  import opened Sorting
  import opened Strings

  /** A key that is an array index: the canonical decimal form of an integer
      from 0 to 2^32 - 2 (ECMAScript section 6.1.7). */
  predicate IsArrayIndex(k: string) {
    |k| >= 1 && AllDigits(k) && (k[0] != '0' || |k| == 1) && DecimalValue(k) < 0xFFFF_FFFF
  }

  predicate IsOtherKey(k: string) {
    !IsArrayIndex(k)
  }

  /** The numeric value of an array-index key (0 for other keys). */
  function IndexValue(k: string): int {
    if AllDigits(k) then DecimalValue(k) else 0
  }

  predicate IndexBefore(a: string, b: string) {
    IndexValue(a) < IndexValue(b)
  }

  lemma IndexBeforeIsStrictWeakOrder()
    ensures StrictWeakOrder(IndexBefore)
  {
  }

  /** The order of `Object.keys`/`entries`/`values` for an object whose own
      keys were created in the order `created`: array-index keys first, in
      ascending numeric order, then the other keys in creation order
      (OrdinaryOwnPropertyKeys, ECMAScript section 10.1.11.1). */
  function OwnKeysOrder(created: seq<string>): seq<string> {
    SortBy(Filter(created, IsArrayIndex), IndexBefore) + Filter(created, IsOtherKey)
  }

  /** The listing is a reordering of the created keys: nothing is lost or
      repeated. It starts with the array-index keys, all of them, in
      ascending numeric order, and ends with the other keys in creation
      order. */
  lemma OwnKeysOrderFacts(created: seq<string>)
    ensures multiset(OwnKeysOrder(created)) == multiset(created)
    ensures NoDup(created) ==> NoDup(OwnKeysOrder(created))
    ensures Sorted(SortBy(Filter(created, IsArrayIndex), IndexBefore), IndexBefore)
    ensures var n := |Filter(created, IsArrayIndex)|;
      && n <= |OwnKeysOrder(created)|
      && multiset(OwnKeysOrder(created)[..n]) == multiset(Filter(created, IsArrayIndex))
      && (forall i :: 0 <= i < n ==> IsArrayIndex(OwnKeysOrder(created)[i]))
      && Sorted(OwnKeysOrder(created)[..n], IndexBefore)
      && OwnKeysOrder(created)[n..] == Filter(created, IsOtherKey)
  {
    var idx := Filter(created, IsArrayIndex);
    var sorted := SortBy(idx, IndexBefore);
    var order := OwnKeysOrder(created);
    assert order[..|idx|] == sorted && order[|idx|..] == Filter(created, IsOtherKey);
    forall i | 0 <= i < |idx| ensures IsArrayIndex(order[i]) {
      assert order[i] in multiset(idx);
      assert order[i] in idx;
    }
    FilterPartition(created, IsArrayIndex, IsOtherKey);
    IndexBeforeIsStrictWeakOrder();
    SortBySorted(idx, IndexBefore);
    if NoDup(created) {
      NoDupPermutation(created, OwnKeysOrder(created));
    }
  }

  /** Without array-index keys the listing is the creation order. */
  lemma OwnKeysOrderNoIndex(created: seq<string>)
    requires forall i :: 0 <= i < |created| ==> !IsArrayIndex(created[i])
    ensures OwnKeysOrder(created) == created
  {
    assert Filter(created, IsArrayIndex) == [];
    FilterAll(created, IsOtherKey);
  }

  /** An array index consists of digits only, so a key holding any other
      character is listed in creation order. */
  lemma NotIndexWithChar(k: string, c: char)
    requires c in k && !IsDigit(c)
    ensures !IsArrayIndex(k)
  {
  }

  /** The properties of `Object.prototype` that every `{}` inherits
      (ECMAScript section 20.1.3, with the Annex B accessors): reading
      `obj[name]` for one of them yields a function or an object, never
      `undefined`. */
  const InheritedNames: set<string> := {
    "constructor", "hasOwnProperty", "isPrototypeOf", "propertyIsEnumerable",
    "toLocaleString", "toString", "valueOf", "__proto__",
    "__defineGetter__", "__defineSetter__", "__lookupGetter__", "__lookupSetter__"
  }

  /** No inherited name contains `|`. */
  lemma InheritedNamesHaveNoBar(k: string)
    requires k in InheritedNames
    ensures '|' !in k
  {
  }
}
