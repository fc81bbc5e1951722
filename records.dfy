/** Repair records as the dashboard receives them from the spreadsheet
    service: one JavaScript object per repair, with string-valued columns. */
module Records {
  import opened Wrappers
  import opened Sequences
  import opened Sorting
  import opened Strings

  /** A record maps column names to values; a column that is absent is
      `undefined` (the service writes no `null`s that behave differently). */
  type Record = map<string, string>

  const MODELO := "MODELO"
  const NS := "NS"
  const FUNCION := "FUNCION"
  const CODIGO := "CODIGO_DE_FALLA_REPARACION"
  const CAUSA := "CAUSA_DE_REPARACION"
  const ACCION := "ACCION_CORRECTIVA"
  const ORIGEN := "ORIGEN"
  const POSICION := "POSICION"
  const COMENTARIO := "COMENTARIO"
  const REPARADOR := "REPARADOR"
  const FECHA := "FECHA_REPARACION"

  /** The "all models" choice of the model selectors. */
  const AllModels := "Todos los Modelos"

  /** `r[f]`, with `None` for `undefined`. */
  function Get(r: Record, f: string): Option<string> {
    if f in r then Some(r[f]) else None
  }

  /** `r[f]` is truthy: present and not the empty string. */
  predicate Truthy(r: Record, f: string) {
    f in r && r[f] != ""
  }

  /** `r[f] || d` */
  function OrElse(r: Record, f: string, d: string): string {
    if Truthy(r, f) then r[f] else d
  }

  /** `r[f] || d` is `r[f]` when truthy and otherwise `d`, so it is never
      empty when `d` is not. */
  lemma OrElseFacts(r: Record, f: string, d: string)
    ensures Truthy(r, f) ==> OrElse(r, f, d) == r[f]
    ensures !Truthy(r, f) ==> OrElse(r, f, d) == d
    ensures d != "" ==> OrElse(r, f, d) != ""
  {
  }

  function ModelOf(r: Record): Option<string> {
    Get(r, MODELO)
  }

  function NsOf(r: Record): Option<string> {
    Get(r, NS)
  }

  /** `.filter(Boolean)` on a list of optional strings, keeping the strings. */
  function TruthyValues(s: seq<Option<string>>): (r: seq<string>)
    ensures forall i :: 0 <= i < |r| ==> r[i] != "" && Some(r[i]) in s
    ensures forall i :: 0 <= i < |s| && s[i].Some? && s[i].value != "" ==> s[i].value in r
    decreases |s|
  {
    if s == [] then []
    else (if s[0].Some? && s[0].value != "" then [s[0].value] else []) + TruthyValues(s[1..])
  }

  lemma {:induction false} TruthyValuesNoDup(s: seq<Option<string>>)
    requires NoDup(s)
    ensures NoDup(TruthyValues(s))
    decreases |s|
  {
    if s != [] {
      TruthyValuesNoDup(s[1..]);
      assert NoDup(s[1..]) by {
        forall i, j | 0 <= i < j < |s[1..]| ensures s[1..][i] != s[1..][j] {
          assert s[1..][i] == s[i + 1] && s[1..][j] == s[j + 1];
        }
      }
      if s[0].Some? && s[0].value != "" {
        var r := TruthyValues(s);
        var t := TruthyValues(s[1..]);
        assert r == [s[0].value] + t;
        forall j | 0 <= j < |t| ensures t[j] != s[0].value {
          var k :| 0 <= k < |s[1..]| && s[1..][k] == Some(t[j]);
          assert s[k + 1] == Some(t[j]);
        }
      }
    }
  }

  /** JavaScript's `<` on strings is a strict weak order, so sorting by it is
      well defined. */
  lemma LessIsStrictWeakOrder()
    ensures StrictWeakOrder(Less)
  {
    forall x, y | Less(x, y) ensures !Less(y, x) {
      LessAsymmetric(x, y);
    }
    forall x, y, z | !Less(x, y) && !Less(y, z) ensures !Less(x, z) {
      LessTrichotomy(x, y);
      LessTrichotomy(y, z);
      LessTransitive(z, y, x);
      if Less(x, z) {
        LessTransitive(z, x, y);
        LessAsymmetric(x, z);
      }
    }
  }

  /** `[...new Set(data.map(item => item.MODELO))].filter(Boolean).sort()`:
      the model names of the records, each once, in string order. */
  function DistinctModels(data: seq<Record>): seq<string> {
    SortBy(TruthyValues(Distinct(MapSeq(data, ModelOf))), Less)
  }

  /** The model list holds every non-empty model of the data exactly once,
      nothing else, and is sorted. */
  lemma DistinctModelsFacts(data: seq<Record>)
    ensures NoDup(DistinctModels(data))
    ensures Sorted(DistinctModels(data), Less)
    ensures forall m :: m in DistinctModels(data) <==>
      m != "" && exists i :: 0 <= i < |data| && ModelOf(data[i]) == Some(m)
  {
    var ms := MapSeq(data, ModelOf);
    var d := Distinct(ms);
    var t := TruthyValues(d);
    LessIsStrictWeakOrder();
    SortBySorted(t, Less);
    TruthyValuesNoDup(d);
    NoDupPermutation(t, DistinctModels(data));
    forall m ensures m in DistinctModels(data) <==>
      m != "" && exists i :: 0 <= i < |data| && ModelOf(data[i]) == Some(m)
    {
      SortByMembers(t, Less, m);
      if m in t {
        var k :| 0 <= k < |t| && t[k] == m;
        assert Some(m) in d;
        var j :| 0 <= j < |ms| && ms[j] == Some(m);
        assert ModelOf(data[j]) == Some(m);
      }
      if m != "" && exists i :: 0 <= i < |data| && ModelOf(data[i]) == Some(m) {
        var i :| 0 <= i < |data| && ModelOf(data[i]) == Some(m);
        assert ms[i] == Some(m);
        var j :| 0 <= j < |d| && d[j] == Some(m);
      }
    }
  }

  /** `data.filter(item => item.MODELO === m).length` */
  function CountWithModel(data: seq<Record>, m: string): nat
    decreases |data|
  {
    if data == [] then 0
    else (if ModelOf(data[0]) == Some(m) then 1 else 0) + CountWithModel(data[1..], m)
  }

  /** The count is positive exactly when some record has that model. */
  lemma {:induction false} CountWithModelPositive(data: seq<Record>, m: string)
    ensures CountWithModel(data, m) > 0 <==> exists i :: 0 <= i < |data| && ModelOf(data[i]) == Some(m)
    ensures CountWithModel(data, m) <= |data|
    decreases |data|
  {
    if data != [] {
      CountWithModelPositive(data[1..], m);
      if exists i :: 0 <= i < |data| && ModelOf(data[i]) == Some(m) {
        var i :| 0 <= i < |data| && ModelOf(data[i]) == Some(m);
        if i > 0 {
          assert data[1..][i - 1] == data[i];
        }
      }
      if exists i :: 0 <= i < |data[1..]| && ModelOf(data[1..][i]) == Some(m) {
        var i :| 0 <= i < |data[1..]| && ModelOf(data[1..][i]) == Some(m);
        assert data[i + 1] == data[1..][i];
      }
    }
  }
}
