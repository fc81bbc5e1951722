/** Grouping records by several fields at once through one string key: the
    fields' values joined with a separator, used as the property name of a
    plain object. */
module CompositeKey {
  import opened Wrappers
  import opened Sequences
  import opened Strings
  import opened JsObject
  import opened Records
  import opened Grouping

  /** `values(r).join(sep)` */
  function JoinKey(values: Record -> seq<string>, sep: string): Record -> string {
    r => Join(values(r), sep)
  }

  /** None of the values of the records holds the separator's first
      character, and every record has `n` of them. */
  predicate Clean(items: seq<Record>, values: Record -> seq<string>, sep: string, n: nat)
    requires sep != []
  {
    forall i :: 0 <= i < |items| ==>
      |values(items[i])| == n
      && forall j :: 0 <= j < |values(items[i])| ==> sep[0] !in values(items[i])[j]
  }

  /** Two or more pieces joined hold the separator. */
  lemma JoinHasSep(xs: seq<string>, sep: string)
    requires |xs| >= 2 && sep != []
    ensures sep[0] in Join(xs, sep)
  {
    assert Join(xs, sep) == xs[0] + sep + Join(xs[1..], sep);
    assert Join(xs, sep)[|xs[0]|] == sep[0];
  }

  /** A joined key of two or more values with a `|` separator is never an
      array index nor an inherited property name, so the plain object lists
      its groups in creation order and never throws. */
  lemma JoinKeyObject(items: seq<Record>, values: Record -> seq<string>, sep: string)
    requires sep != [] && sep[0] == '|'
    requires forall i :: 0 <= i < |items| ==> |values(items[i])| >= 2
    ensures DictGroupBy(items, JoinKey(values, sep)) == Some(GroupBy(items, JoinKey(values, sep)))
    ensures OwnKeysOrder(GroupBy(items, JoinKey(values, sep)).keys) == GroupBy(items, JoinKey(values, sep)).keys
  {
    var key := JoinKey(values, sep);
    var g := GroupBy(items, key);
    forall i | 0 <= i < |items| ensures '|' in key(items[i]) {
      JoinHasSep(values(items[i]), sep);
    }
    forall i | 0 <= i < |items| ensures key(items[i]) !in InheritedNames {
      if key(items[i]) in InheritedNames {
        InheritedNamesHaveNoBar(key(items[i]));
      }
    }
    DictGroupByAgrees(items, key);
    GroupByKeys(items, key);
    forall i | 0 <= i < |g.keys| ensures !IsArrayIndex(g.keys[i]) {
      var j :| 0 <= j < |MapSeq(items, key)| && MapSeq(items, key)[j] == g.keys[i];
      NotIndexWithChar(g.keys[i], '|');
    }
    OwnKeysOrderNoIndex(g.keys);
  }

  /** With clean values the joined key merges nothing: the groups are those
      of the values themselves, under their joined names. */
  lemma JoinKeyRekey(items: seq<Record>, values: Record -> seq<string>, sep: string, n: nat)
    requires sep != [] && Clean(items, values, sep, n)
    ensures GroupBy(items, JoinKey(values, sep)).keys == MapSeq(GroupBy(items, values).keys, (xs: seq<string>) => Join(xs, sep))
    ensures forall i :: 0 <= i < |GroupBy(items, values).keys| ==>
      GroupBy(items, JoinKey(values, sep)).members[Join(GroupBy(items, values).keys[i], sep)]
      == GroupBy(items, values).members[GroupBy(items, values).keys[i]]
  {
    var f := (xs: seq<string>) => Join(xs, sep);
    forall i, j | 0 <= i < |items| && 0 <= j < |items| && f(values(items[i])) == f(values(items[j]))
      ensures values(items[i]) == values(items[j])
    {
      JoinInjective(values(items[i]), values(items[j]), sep);
    }
    GroupByRekey(items, values, f, JoinKey(values, sep));
  }
}
