/** `usePivotProcessor(rawData)`: one row per combination of model,
    function, failure code, cause, action, origin, position and comment, with
    the number of records of the combination and their distinct serial
    numbers (NS). */
module PivotProcessor {
  import opened Wrappers
  import opened Sequences
  import opened Strings
  import opened JsObject
  import opened Records
  import opened Grouping
  import opened CompositeKey

  /** The eight values a record is grouped by, with their placeholders. */
  function KeyValues(r: Record): (vs: seq<string>)
    ensures |vs| == 8
  {
    [OrElse(r, MODELO, "(Sin Modelo)"),
     OrElse(r, FUNCION, "(Sin Función)"),
     OrElse(r, CODIGO, "(Sin Código)"),
     OrElse(r, CAUSA, "(Sin Causa)"),
     OrElse(r, ACCION, "(Sin Acción)"),
     OrElse(r, ORIGEN, "(Sin Origen)"),
     OrElse(r, POSICION, "(Sin Posición)"),
     OrElse(r, COMENTARIO, "(Sin Comentario)")]
  }

  const Separator := "|||"

  /** One output row: the eight values (in the order of `KeyValues`),
      `NS_COUNT`, `NS_LIST` and `NS_UNIQUE_COUNT`. */
  datatype ProcessorRow = ProcessorRow(values: seq<string>, nsCount: nat,
                                       nsList: seq<Option<string>>, nsUniqueCount: nat)

  /** The row of a group: the values of the record that created it, the
      number of records, and their serial numbers in first-seen order. */
  function RowOf(group: seq<Record>): ProcessorRow
    requires group != []
  {
    ProcessorRow(KeyValues(group[0]), |group|, Distinct(MapSeq(group, NsOf)), |SetOf(MapSeq(group, NsOf))|)
  }

  /** The hook as written: the joined values name the groups of a `{}`,
      listed with `Object.values`. */
  function PivotDataAsWritten(rawData: seq<Record>): seq<ProcessorRow> {
    if rawData == [] then []
    else
      var g := GroupBy(rawData, JoinKey(KeyValues, Separator));
      JoinKeyObject(rawData, KeyValues, Separator);
      KeysInMembers(g);
      RowsFor(g, OwnKeysOrder(g.keys), RowOf)
  }

  /** The hook as intended: one group per combination of the eight values. */
  function UsePivotProcessor(rawData: seq<Record>): seq<ProcessorRow> {
    var g := GroupBy(rawData, KeyValues);
    KeysInMembers(g);
    RowsFor(g, g.keys, RowOf)
  }

  /** Each row describes the records with its values: its count is their
      number, its serial-number list their distinct NS values and its
      unique count the length of that list, at least one and at most the
      count. No two rows have the same values, and every record's values
      have a row. */
  lemma ProcessorRowFacts(rawData: seq<Record>, i: nat)
    requires i < |UsePivotProcessor(rawData)|
    ensures UsePivotProcessor(rawData)[i].nsCount
      == CountIf(rawData, HasKey(KeyValues, UsePivotProcessor(rawData)[i].values)) >= 1
    ensures UsePivotProcessor(rawData)[i].nsList
      == Distinct(MapSeq(Filter(rawData, HasKey(KeyValues, UsePivotProcessor(rawData)[i].values)), NsOf))
    ensures UsePivotProcessor(rawData)[i].nsUniqueCount == |UsePivotProcessor(rawData)[i].nsList|
    ensures NoDup(UsePivotProcessor(rawData)[i].nsList)
    ensures 1 <= UsePivotProcessor(rawData)[i].nsUniqueCount <= UsePivotProcessor(rawData)[i].nsCount
  {
    var g := GroupBy(rawData, KeyValues);
    KeysInMembers(g);
    RowsForAt(g, g.keys, RowOf, i);
    var k := g.keys[i];
    GroupByMembers(rawData, KeyValues, k);
    var group := g.members[k];
    assert HasKey(KeyValues, k)(group[0]);
    DistinctSize(MapSeq(group, NsOf));
    SetOfSize(MapSeq(group, NsOf));
  }

  /** Row `i` shows the `i`-th combination of values. */
  lemma RowValues(rawData: seq<Record>, i: nat)
    requires i < |GroupBy(rawData, KeyValues).keys|
    ensures |UsePivotProcessor(rawData)| == |GroupBy(rawData, KeyValues).keys|
    ensures UsePivotProcessor(rawData)[i].values == GroupBy(rawData, KeyValues).keys[i]
  {
    var g := GroupBy(rawData, KeyValues);
    KeysInMembers(g);
    RowsForAt(g, g.keys, RowOf, i);
    GroupByMembers(rawData, KeyValues, g.keys[i]);
    assert HasKey(KeyValues, g.keys[i])(g.members[g.keys[i]][0]);
  }

  /** The rows are the combinations of the records, each once, in
      first-seen order, and their counts add up to the number of records. */
  lemma ProcessorRowsFacts(rawData: seq<Record>)
    ensures MapSeq(UsePivotProcessor(rawData), (row: ProcessorRow) => row.values) == Distinct(MapSeq(rawData, KeyValues))
    ensures SumBy(UsePivotProcessor(rawData), (row: ProcessorRow) => row.nsCount) == |rawData|
    ensures rawData == [] ==> UsePivotProcessor(rawData) == []
  {
    RowsValues(rawData);
    RowsCounts(rawData);
  }

  /** The values of the rows are the keys of the grouping. */
  lemma RowsValues(rawData: seq<Record>)
    ensures MapSeq(UsePivotProcessor(rawData), (row: ProcessorRow) => row.values) == Distinct(MapSeq(rawData, KeyValues))
  {
    var g := GroupBy(rawData, KeyValues);
    var rows := UsePivotProcessor(rawData);
    KeysInMembers(g);
    GroupByKeys(rawData, KeyValues);
    forall i | 0 <= i < |rows| ensures rows[i].values == g.keys[i] {
      RowValues(rawData, i);
    }
  }

  /** The counts of the rows add up to the number of records. */
  lemma RowsCounts(rawData: seq<Record>)
    ensures SumBy(UsePivotProcessor(rawData), (row: ProcessorRow) => row.nsCount) == |rawData|
  {
    var g := GroupBy(rawData, KeyValues);
    KeysInMembers(g);
    RowsForCounts(g, g.keys, RowOf, (row: ProcessorRow) => row.nsCount);
    GroupBySizes(rawData, KeyValues);
  }

  /** When no value holds `|` the hook as written gives the intended rows. */
  lemma AsWrittenAgrees(rawData: seq<Record>)
    requires Clean(rawData, KeyValues, Separator, 8)
    ensures PivotDataAsWritten(rawData) == UsePivotProcessor(rawData)
  {
    if rawData != [] {
      var g1 := GroupBy(rawData, KeyValues);
      var g2 := GroupBy(rawData, JoinKey(KeyValues, Separator));
      JoinKeyObject(rawData, KeyValues, Separator);
      JoinKeyRekey(rawData, KeyValues, Separator, 8);
      KeysInMembers(g1);
      forall i | 0 <= i < |g1.keys| ensures Join(g1.keys[i], Separator) in g2.members {
        assert MapSeq(g1.keys, (xs: seq<string>) => Join(xs, Separator))[i] == Join(g1.keys[i], Separator);
        assert Join(g1.keys[i], Separator) in SetOf(g2.keys);
      }
      RowsForRekey(g1, g2, g1.keys, (xs: seq<string>) => Join(xs, Separator), RowOf);
    }
  }

  /** A record with only an origin and a position takes the placeholder
      for every other value. */
  lemma OnlyOriginPosition(r: Record)
    requires r.Keys == {ORIGEN, POSICION}
    ensures OrElse(r, MODELO, "(Sin Modelo)") == "(Sin Modelo)"
    ensures OrElse(r, FUNCION, "(Sin Función)") == "(Sin Función)"
    ensures OrElse(r, CODIGO, "(Sin Código)") == "(Sin Código)"
    ensures OrElse(r, CAUSA, "(Sin Causa)") == "(Sin Causa)"
    ensures OrElse(r, ACCION, "(Sin Acción)") == "(Sin Acción)"
    ensures OrElse(r, COMENTARIO, "(Sin Comentario)") == "(Sin Comentario)"
  {
  }

  /** The placeholders of the first five values. */
  const NoHead: seq<string> := ["(Sin Modelo)", "(Sin Función)", "(Sin Código)", "(Sin Causa)", "(Sin Acción)"]

  /** The values of a record with only a (non-empty) origin and position. */
  lemma OriginPositionValues(r: Record, o: string, p: string)
    requires r == map[ORIGEN := o, POSICION := p] && o != "" && p != ""
    ensures KeyValues(r) == NoHead + [o, p, "(Sin Comentario)"]
  {
    assert r.Keys == {ORIGEN, POSICION};
    OnlyOriginPosition(r);
    assert OrElse(r, ORIGEN, "(Sin Origen)") == o && OrElse(r, POSICION, "(Sin Posición)") == p;
    var vs := KeyValues(r);
    assert vs == ["(Sin Modelo)", "(Sin Función)", "(Sin Código)", "(Sin Causa)", "(Sin Acción)",
                  o, p, "(Sin Comentario)"];
    assert |NoHead + [o, p, "(Sin Comentario)"]| == 8;
    forall i | 0 <= i < 8 ensures vs[i] == (NoHead + [o, p, "(Sin Comentario)"])[i] {
    }
  }

  /** Joining three pieces. */
  lemma JoinThree(x: string, y: string, z: string, sep: string)
    ensures Join([x, y, z], sep) == x + sep + (y + sep + z)
  {
    assert [y, z][1..] == [z];
    assert Join([y, z], sep) == y + sep + z;
    assert [x, y, z][1..] == [y, z];
  }

  /** The two records of `CollidingKeys`: different values, one joined key. */
  lemma CollidingValues(a: Record, b: Record)
    requires a == map[ORIGEN := "a|||b", POSICION := "c"]
    requires b == map[ORIGEN := "a", POSICION := "b|||c"]
    ensures KeyValues(a) != KeyValues(b)
    ensures JoinKey(KeyValues, Separator)(a) == JoinKey(KeyValues, Separator)(b)
  {
    OriginPositionValues(a, "a|||b", "c");
    OriginPositionValues(b, "a", "b|||c");
    var va := KeyValues(a);
    var vb := KeyValues(b);
    var t := "(Sin Comentario)";
    assert va[5] != vb[5];
    assert va[..5] == NoHead == vb[..5];
    assert va[5..] == ["a|||b", "c", t] && vb[5..] == ["a", "b|||c", t];
    JoinThree("a|||b", "c", t, Separator);
    JoinThree("a", "b|||c", t, Separator);
    assert "a|||b" + Separator + ("c" + Separator + t) == "a" + Separator + ("b|||c" + Separator + t);
    JoinSuffix(va, vb, Separator, 5);
  }

  /** Two repairs that differ in origin and position, `"a|||b"`/`"c"` and
      `"a"`/`"b|||c"`, get the same joined key, so the hook as written gives
      them one row counting both, labelled with the first one's values; the
      intended grouping gives each its row. */
  lemma CollidingKeys()
    ensures var a := map[ORIGEN := "a|||b", POSICION := "c"];
            var b := map[ORIGEN := "a", POSICION := "b|||c"];
            |PivotDataAsWritten([a, b])| == 1
            && PivotDataAsWritten([a, b])[0].nsCount == 2
            && PivotDataAsWritten([a, b])[0].values == KeyValues(a)
            && |UsePivotProcessor([a, b])| == 2
  {
    var a := map[ORIGEN := "a|||b", POSICION := "c"];
    var b := map[ORIGEN := "a", POSICION := "b|||c"];
    CollidingValues(a, b);
    var key := JoinKey(KeyValues, Separator);
    GroupByTwo(a, b, key);
    GroupByTwo(a, b, KeyValues);
    JoinKeyObject([a, b], KeyValues, Separator);
    var g := GroupBy([a, b], key);
    KeysInMembers(g);
    RowsForAt(g, g.keys, RowOf, 0);
  }
}
