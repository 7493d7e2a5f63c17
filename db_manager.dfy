/**
 * The Python side of three queries of the database manager: grouping the
 * flat (method, factor, score) join rows into one record per method,
 * collecting one method's factor scores, and the preference dictionary. The
 * SQL itself is not modelled: each query's result is an input sequence, or
 * None when the query failed.
 */
module DbManager {
  import opened Wrappers

  /** One row of the method/factor join: `(method_id, name, description, factor_name, score)`. */
  datatype Row = Row(
    methodId: int,
    methodName: string,
    methodDescription: Option<string>,
    factorName: Option<string>,
    factorScore: Option<int>)

  /** A grouped method: its header and its factor-name to score dictionary. */
  datatype MethodEntry = MethodEntry(
    id: int,
    name: string,
    description: Option<string>,
    factors: map<Option<string>, Option<int>>)

  /** The result of `get_method_details`: only named factors with a score are kept. */
  datatype MethodDetails = MethodDetails(
    id: int,
    name: string,
    description: Option<string>,
    factors: map<string, int>)

  // ---------------------------------------------------------------------
  // get_all_methods_with_factors
  // ---------------------------------------------------------------------

  /** The index of the first row of method `id`. */
  function FirstRowOf(rows: seq<Row>, id: int): (r: Option<nat>)
    ensures r.Some? ==> r.value < |rows| && rows[r.value].methodId == id
    ensures r.Some? ==> forall j :: 0 <= j < r.value ==> rows[j].methodId != id
    ensures r.None? ==> forall j :: 0 <= j < |rows| ==> rows[j].methodId != id
  {
    if |rows| == 0 then None
    else
      match FirstRowOf(rows[..|rows| - 1], id)
      case Some(k) => Some(k)
      case None => if rows[|rows| - 1].methodId == id then Some(|rows| - 1) else None
  }

  /** The method ids in order of first appearance, each once. */
  function MethodIds(rows: seq<Row>): (ids: seq<int>)
    ensures forall a, b :: 0 <= a < b < |ids| ==> ids[a] != ids[b]
    ensures forall id :: id in ids <==> exists j :: 0 <= j < |rows| && rows[j].methodId == id
    ensures forall a :: 0 <= a < |ids| ==> FirstRowOf(rows, ids[a]).Some?
  {
    if |rows| == 0 then []
    else
      var init := rows[..|rows| - 1];
      var last := rows[|rows| - 1];
      var ids := MethodIds(init);
      assert forall j :: 0 <= j < |init| ==> init[j] == rows[j];
      if last.methodId in ids then ids else ids + [last.methodId]
  }

  /** Every method id is listed after the ids whose first row comes earlier. */
  lemma {:induction false} MethodIdsInFirstAppearanceOrder(rows: seq<Row>)
    ensures forall a, b :: 0 <= a < b < |MethodIds(rows)| ==>
      FirstRowOf(rows, MethodIds(rows)[a]).value < FirstRowOf(rows, MethodIds(rows)[b]).value
  {
    if |rows| > 0 {
      var init := rows[..|rows| - 1];
      var last := rows[|rows| - 1];
      MethodIdsInFirstAppearanceOrder(init);
      var old_ids := MethodIds(init);
      var ids := MethodIds(rows);
      forall a | 0 <= a < |old_ids|
        ensures FirstRowOf(rows, old_ids[a]) == FirstRowOf(init, old_ids[a])
        ensures FirstRowOf(init, old_ids[a]).value < |init|
      {
      }
      if last.methodId in old_ids {
        assert ids == old_ids;
      } else {
        assert ids == old_ids + [last.methodId];
        forall a | 0 <= a < |old_ids|
          ensures ids[a] == old_ids[a]
        {
        }
        assert FirstRowOf(rows, ids[|old_ids|]) == Some(|rows| - 1);
        forall a, b | 0 <= a < b < |ids|
          ensures FirstRowOf(rows, ids[a]).value < FirstRowOf(rows, ids[b]).value
        {
          assert FirstRowOf(rows, ids[a]) == FirstRowOf(init, old_ids[a]);
          if b < |old_ids| {
            assert FirstRowOf(rows, ids[b]) == FirstRowOf(init, old_ids[b]);
            assert FirstRowOf(init, old_ids[a]).value < FirstRowOf(init, old_ids[b]).value;
          }
        }
      }
    }
  }

  /** The factor dictionary of method `id`: the loop's `factors[factor_name] = factor_score` over its rows. */
  function FactorsOf(rows: seq<Row>, id: int): map<Option<string>, Option<int>>
  {
    if |rows| == 0 then map[]
    else
      var m := FactorsOf(rows[..|rows| - 1], id);
      var last := rows[|rows| - 1];
      if last.methodId == id then m[last.factorName := last.factorScore] else m
  }

  /** Whether row `j` is the last row of method `id` with its factor name. */
  ghost predicate LastOfName(rows: seq<Row>, id: int, j: int)
    requires 0 <= j < |rows|
  {
    rows[j].methodId == id
    && forall l :: j < l < |rows| && rows[l].methodId == id ==> rows[l].factorName != rows[j].factorName
  }

  /** A method's factor dictionary holds exactly the factor names of its rows. */
  lemma {:induction false} FactorsOfKeys(rows: seq<Row>, id: int)
    ensures forall k :: k in FactorsOf(rows, id) <==>
      exists j :: 0 <= j < |rows| && rows[j].methodId == id && rows[j].factorName == k
  {
    if |rows| > 0 {
      var init := rows[..|rows| - 1];
      var n := |init|;
      FactorsOfKeys(init, id);
      var m0 := FactorsOf(init, id);
      var m := FactorsOf(rows, id);
      forall k
        ensures k in m <==> exists j :: 0 <= j < |rows| && rows[j].methodId == id && rows[j].factorName == k
      {
        if k in m0 {
          var j :| 0 <= j < n && init[j].methodId == id && init[j].factorName == k;
          assert rows[j] == init[j];
        }
        if exists j :: 0 <= j < |rows| && rows[j].methodId == id && rows[j].factorName == k {
          var j :| 0 <= j < |rows| && rows[j].methodId == id && rows[j].factorName == k;
          if j < n {
            assert init[j] == rows[j];
          }
        }
      }
    }
  }

  /** A repeated factor name keeps the score of the method's last row with that name. */
  lemma {:induction false} FactorsOfLastScore(rows: seq<Row>, id: int, j: nat)
    requires j < |rows| && LastOfName(rows, id, j)
    ensures rows[j].factorName in FactorsOf(rows, id)
    ensures FactorsOf(rows, id)[rows[j].factorName] == rows[j].factorScore
  {
    var init := rows[..|rows| - 1];
    var last := rows[|rows| - 1];
    if j < |init| {
      assert init[j] == rows[j];
      assert LastOfName(init, id, j) by {
        forall l | j < l < |init| && init[l].methodId == id
          ensures init[l].factorName != init[j].factorName
        {
          assert init[l] == rows[l];
        }
      }
      FactorsOfLastScore(init, id, j);
      if last.methodId == id {
        assert last.factorName != rows[j].factorName;
      }
    }
  }

  /** The entry of method `id`: header from its first row, factors from all its rows. */
  function EntryOf(rows: seq<Row>, id: int): MethodEntry
    requires FirstRowOf(rows, id).Some?
  {
    var first := rows[FirstRowOf(rows, id).value];
    MethodEntry(id, first.methodName, first.methodDescription, FactorsOf(rows, id))
  }

  /** What `get_all_methods_with_factors` returns for the rows of a successful query. */
  function Grouped(rows: seq<Row>): (r: seq<MethodEntry>)
    ensures |r| == |MethodIds(rows)|
    ensures forall a :: 0 <= a < |r| ==> r[a] == EntryOf(rows, MethodIds(rows)[a])
  {
    var ids := MethodIds(rows);
    seq(|ids|, i requires 0 <= i < |ids| => EntryOf(rows, ids[i]))
  }

  /** One entry per distinct method id. */
  lemma GroupedIdsDistinct(rows: seq<Row>)
    ensures var r := Grouped(rows);
      forall a, b :: 0 <= a < b < |r| ==> r[a].id != r[b].id
  {
    var r := Grouped(rows);
    var ids := MethodIds(rows);
    assert forall a :: 0 <= a < |r| ==> r[a].id == ids[a];
  }

  /** Every entry's method has a row. */
  lemma GroupedMethodsHaveRows(rows: seq<Row>)
    ensures var r := Grouped(rows);
      forall a :: 0 <= a < |r| ==> exists j :: 0 <= j < |rows| && rows[j].methodId == r[a].id
  {
    var r := Grouped(rows);
    var ids := MethodIds(rows);
    forall a | 0 <= a < |r|
      ensures exists j :: 0 <= j < |rows| && rows[j].methodId == r[a].id
    {
      assert r[a].id == ids[a];
      assert ids[a] in ids;
    }
  }

  /** Every row's method has an entry. */
  lemma GroupedCoversEveryRow(rows: seq<Row>)
    ensures var r := Grouped(rows);
      forall j :: 0 <= j < |rows| ==> exists a :: 0 <= a < |r| && r[a].id == rows[j].methodId
  {
    var r := Grouped(rows);
    var ids := MethodIds(rows);
    forall j | 0 <= j < |rows|
      ensures exists a :: 0 <= a < |r| && r[a].id == rows[j].methodId
    {
      assert rows[j].methodId in ids;
      var a :| 0 <= a < |ids| && ids[a] == rows[j].methodId;
      assert r[a].id == ids[a];
    }
  }

  /** The entries come in the order in which their methods first appear in the rows. */
  lemma GroupedInFirstAppearanceOrder(rows: seq<Row>)
    ensures var r := Grouped(rows);
      forall a, b :: 0 <= a < b < |r| ==>
        FirstRowOf(rows, r[a].id).Some? && FirstRowOf(rows, r[b].id).Some?
        && FirstRowOf(rows, r[a].id).value < FirstRowOf(rows, r[b].id).value
  {
    MethodIdsInFirstAppearanceOrder(rows);
    var r := Grouped(rows);
    var ids := MethodIds(rows);
    forall a, b | 0 <= a < b < |r|
      ensures FirstRowOf(rows, r[a].id).Some? && FirstRowOf(rows, r[b].id).Some?
      ensures FirstRowOf(rows, r[a].id).value < FirstRowOf(rows, r[b].id).value
    {
      assert r[a].id == ids[a] && r[b].id == ids[b];
    }
  }

  /**
   * Each entry's name and description come from the first row of its
   * method, and its factors are those of all its rows (last score wins).
   */
  lemma GroupedEntryContents(rows: seq<Row>)
    ensures var r := Grouped(rows);
      forall a :: 0 <= a < |r| ==>
        FirstRowOf(rows, r[a].id).Some?
        && r[a].name == rows[FirstRowOf(rows, r[a].id).value].methodName
        && r[a].description == rows[FirstRowOf(rows, r[a].id).value].methodDescription
        && r[a].factors == FactorsOf(rows, r[a].id)
  {
    var r := Grouped(rows);
    var ids := MethodIds(rows);
    forall a | 0 <= a < |r|
      ensures r[a].id == ids[a] && FirstRowOf(rows, ids[a]).Some?
    {
    }
  }

  /** The dictionary built so far holds exactly the entries of the methods seen so far. */
  ghost predicate DictMatches(rows: seq<Row>, order: seq<int>, dict: map<int, MethodEntry>)
  {
    && (forall id :: id in dict <==> id in order)
    && (forall id :: id in dict ==> FirstRowOf(rows, id).Some? && dict[id] == EntryOf(rows, id))
  }

  /** The dictionary after one row: the method's entry is created if new, then the factor is set. */
  function Absorb(dict: map<int, MethodEntry>, row: Row): map<int, MethodEntry>
  {
    var base := if row.methodId in dict then dict
                else dict[row.methodId := MethodEntry(row.methodId, row.methodName, row.methodDescription, map[])];
    base[row.methodId := base[row.methodId].(factors := base[row.methodId].factors[row.factorName := row.factorScore])]
  }

  lemma AbsorbStep(rows: seq<Row>, i: nat, order: seq<int>, dict: map<int, MethodEntry>)
    requires i < |rows|
    requires order == MethodIds(rows[..i])
    requires DictMatches(rows[..i], order, dict)
    ensures var order' := if rows[i].methodId in dict then order else order + [rows[i].methodId];
      order' == MethodIds(rows[..i + 1]) && DictMatches(rows[..i + 1], order', Absorb(dict, rows[i]))
  {
    var pre := rows[..i];
    var post := rows[..i + 1];
    assert post[..i] == pre;
    assert post[i] == rows[i];
    var row := rows[i];
    var order' := if row.methodId in dict then order else order + [row.methodId];
    var dict' := Absorb(dict, row);
    forall id | id in dict'
      ensures FirstRowOf(post, id).Some? && dict'[id] == EntryOf(post, id)
    {
      if id == row.methodId {
        assert FactorsOf(post, id) == FactorsOf(pre, id)[row.factorName := row.factorScore];
        if id in dict {
          assert FirstRowOf(post, id) == FirstRowOf(pre, id);
        } else {
          assert FirstRowOf(pre, id).None?;
          assert FirstRowOf(post, id) == Some(i);
          assert FactorsOf(pre, id) == map[] by {
            FactorsOfKeys(pre, id);
          }
        }
      } else {
        assert FirstRowOf(post, id) == FirstRowOf(pre, id);
        assert FactorsOf(post, id) == FactorsOf(pre, id);
      }
    }
  }

  /** One iteration of the grouping loop. */
  method AddRow(methodsDict: map<int, MethodEntry>, order: seq<int>, row: Row)
    returns (dict: map<int, MethodEntry>, order': seq<int>)
    ensures dict == Absorb(methodsDict, row)
    ensures order' == if row.methodId in methodsDict then order else order + [row.methodId]
  {
    dict, order' := methodsDict, order;
    if row.methodId !in dict {
      dict := dict[row.methodId := MethodEntry(row.methodId, row.methodName, row.methodDescription, map[])];
      order' := order' + [row.methodId];
    }
    var entry := dict[row.methodId];
    dict := dict[row.methodId := entry.(factors := entry.factors[row.factorName := row.factorScore])];
  }

  /** `get_all_methods_with_factors` after the query: [] for a failed or empty result, else the grouping loop. */
  method GetAllMethodsWithFactors(rawData: Option<seq<Row>>) returns (methods: seq<MethodEntry>)
    ensures rawData.None? || rawData.value == [] ==> methods == []
    ensures rawData.Some? ==> methods == Grouped(rawData.value)
  {
    if rawData.None? || rawData.value == [] {
      return [];
    }
    var rows := rawData.value;
    var methodsDict: map<int, MethodEntry> := map[];
    var order: seq<int> := [];
    var i := 0;
    assert rows[..0] == [];
    while i < |rows|
      invariant 0 <= i <= |rows|
      invariant order == MethodIds(rows[..i])
      invariant DictMatches(rows[..i], order, methodsDict)
    {
      AbsorbStep(rows, i, order, methodsDict);
      methodsDict, order := AddRow(methodsDict, order, rows[i]);
      i := i + 1;
    }
    assert rows[..i] == rows;
    assert forall j :: 0 <= j < |order| ==> order[j] in order;
    methods := DictValues(order, methodsDict);
    DictValuesAreGrouped(rows, order, methodsDict);
  }

  /** `list(d.values())`: the entries in the dictionary's insertion order. */
  function DictValues(order: seq<int>, dict: map<int, MethodEntry>): (r: seq<MethodEntry>)
    requires forall j :: 0 <= j < |order| ==> order[j] in dict
    ensures |r| == |order| && forall j :: 0 <= j < |order| ==> r[j] == dict[order[j]]
  {
    seq(|order|, j requires 0 <= j < |order| => dict[order[j]])
  }

  lemma DictValuesAreGrouped(rows: seq<Row>, order: seq<int>, dict: map<int, MethodEntry>)
    requires order == MethodIds(rows)
    requires DictMatches(rows, order, dict)
    ensures DictValues(order, dict) == Grouped(rows)
  {
    assert forall j :: 0 <= j < |order| ==> order[j] in order;
    var r := DictValues(order, dict);
    var g := Grouped(rows);
    forall j | 0 <= j < |order|
      ensures r[j] == g[j]
    {
      assert order[j] in order;
    }
  }

  // ---------------------------------------------------------------------
  // get_method_details
  // ---------------------------------------------------------------------

  /** Whether a row carries a factor: a non-empty name and a score. */
  predicate HasFactor(row: Row)
  {
    row.factorName.Some? && row.factorName.value != "" && row.factorScore.Some?
  }

  /**
   * The factor dictionary of `get_method_details`: the names of the rows
   * that carry a factor, each with the score of the last such row.
   */
  function DetailFactors(rows: seq<Row>): (m: map<string, int>)
    ensures forall k :: k in m <==> exists j :: 0 <= j < |rows| && HasFactor(rows[j]) && rows[j].factorName.value == k
    ensures forall j :: (0 <= j < |rows| && HasFactor(rows[j])
                         && (forall l :: j < l < |rows| && HasFactor(rows[l]) ==> rows[l].factorName != rows[j].factorName))
                         ==> m[rows[j].factorName.value] == rows[j].factorScore.value
  {
    if |rows| == 0 then map[]
    else
      var init := rows[..|rows| - 1];
      var last := rows[|rows| - 1];
      var m := DetailFactors(init);
      assert forall j :: 0 <= j < |init| ==> init[j] == rows[j];
      if HasFactor(last) then m[last.factorName.value := last.factorScore.value] else m
  }

  lemma DetailFactorsStep(rows: seq<Row>, i: nat)
    requires i < |rows|
    ensures DetailFactors(rows[..i + 1]) ==
      if HasFactor(rows[i]) then DetailFactors(rows[..i])[rows[i].factorName.value := rows[i].factorScore.value]
      else DetailFactors(rows[..i])
  {
    assert rows[..i + 1][..i] == rows[..i];
  }

  /**
   * `get_method_details` after the query: None for a failed or empty
   * result; otherwise the header of the first row and the factors of all
   * rows that carry one.
   */
  method GetMethodDetails(rawData: Option<seq<Row>>) returns (details: Option<MethodDetails>)
    ensures details.None? <==> rawData.None? || rawData.value == []
    ensures details.Some? ==>
      var first := rawData.value[0];
      details.value == MethodDetails(first.methodId, first.methodName, first.methodDescription, DetailFactors(rawData.value))
  {
    if rawData.None? || rawData.value == [] {
      return None;
    }
    var rows := rawData.value;
    var factors: map<string, int> := map[];
    var i := 0;
    while i < |rows|
      invariant 0 <= i <= |rows|
      invariant factors == DetailFactors(rows[..i])
    {
      var row := rows[i];
      DetailFactorsStep(rows, i);
      if row.factorName.Some? && row.factorName.value != "" && row.factorScore.Some? {
        factors := factors[row.factorName.value := row.factorScore.value];
      }
      i := i + 1;
    }
    assert rows[..i] == rows;
    details := Some(MethodDetails(rows[0].methodId, rows[0].methodName, rows[0].methodDescription, factors));
  }

  // ---------------------------------------------------------------------
  // get_user_preferences
  // ---------------------------------------------------------------------

  /** `{p[0]: p[1] for p in pairs}`: every key of the pairs, with the value of its last pair. */
  function LastWins(pairs: seq<(int, int)>): (m: map<int, int>)
    ensures forall k :: k in m <==> exists j :: 0 <= j < |pairs| && pairs[j].0 == k
    ensures forall j :: (0 <= j < |pairs| && (forall l :: j < l < |pairs| ==> pairs[l].0 != pairs[j].0))
                         ==> m[pairs[j].0] == pairs[j].1
  {
    if |pairs| == 0 then map[]
    else
      var init := pairs[..|pairs| - 1];
      assert forall j :: 0 <= j < |init| ==> init[j] == pairs[j];
      LastWins(init)[pairs[|pairs| - 1].0 := pairs[|pairs| - 1].1]
  }

  /** `get_user_preferences`: factor id to preference score; {} when the query failed or found nothing. */
  function UserPreferences(preferences: Option<seq<(int, int)>>): (m: map<int, int>)
    ensures preferences.None? || preferences.value == [] ==> m == map[]
    ensures preferences.Some? ==> m == LastWins(preferences.value)
  {
    if preferences.Some? && preferences.value != [] then LastWins(preferences.value) else map[]
  }
}
