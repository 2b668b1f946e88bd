/** classes/responsetemplate.js: `getResponse` and `getStatus`. */
module Response {
  import opened Values

  datatype Param =
    | Field(outName: Key, field: Key)
    | RowsWithFields(outName: Key, fields: seq<Key>)
    | OneRowWithFields(outName: Key, fields: seq<Key>)

  type Output = map<Key, Val>

  predicate HasFields(row: Row, fields: seq<Key>) {
    forall k :: 0 <= k < |fields| ==> fields[k] in row
  }

  function FieldsOf(p: Param): seq<Key> {
    if p.Field? then [p.field] else p.fields
  }

  /** The first row of a query's result that has the fields, as `some` finds it. */
  function FirstRow(rows: Rows, fields: seq<Key>): (r: Option<nat>)
    ensures r.Some? ==> r.value < |rows| && HasFields(rows[r.value], fields)
                        && forall i :: 0 <= i < r.value ==> !HasFields(rows[i], fields)
    ensures r.None? ==> forall i :: 0 <= i < |rows| ==> !HasFields(rows[i], fields)
  {
    if rows == [] then None
    else
      var before := FirstRow(rows[..|rows| - 1], fields);
      if before.Some? then before
      else if HasFields(rows[|rows| - 1], fields) then Some(|rows| - 1) else None
  }

  /** The place that `getResponse` ends up with after the first k queries: every query with
      such a row overrides the ones before it. */
  function Chosen(results: seq<Rows>, fields: seq<Key>, k: nat): (r: Option<(nat, nat)>)
    requires k <= |results|
    ensures r.Some? ==> r.value.0 < k && r.value.1 < |results[r.value.0]|
  {
    if k == 0 then None
    else
      match FirstRow(results[k - 1], fields)
      case Some(i) => Some((k - 1, i))
      case None => Chosen(results, fields, k - 1)
  }

  /** All rows with the fields, in order. */
  function Collected(rows: Rows, fields: seq<Key>): seq<Val> {
    if rows == [] then []
    else
      var last := |rows| - 1;
      Collected(rows[..last], fields) + if HasFields(rows[last], fields) then [Obj(rows[last])] else []
  }

  function CollectedUpTo(results: seq<Rows>, fields: seq<Key>, k: nat): seq<Val>
    requires k <= |results|
  {
    if k == 0 then [] else CollectedUpTo(results, fields, k - 1) + Collected(results[k - 1], fields)
  }

  /** The value of one parameter; Undef when nothing was found. */
  function ValueOf(p: Param, results: seq<Rows>): Val {
    match p
    case RowsWithFields(_, fields) => Arr(CollectedUpTo(results, fields, |results|))
    case Field(_, field) =>
      (match Chosen(results, [field], |results|)
       case None => Undef
       case Some((q, i)) => if field in results[q][i] then results[q][i][field] else Undef)
    case OneRowWithFields(_, fields) =>
      (match Chosen(results, fields, |results|)
       case None => Undef
       case Some((q, i)) => Obj(results[q][i]))
  }

  function ResponseUpTo(params: seq<Param>, results: seq<Rows>, k: nat): Output
    requires k <= |params|
  {
    if k == 0 then map[]
    else
      var before, v := ResponseUpTo(params, results, k - 1), ValueOf(params[k - 1], results);
      if v.Undef? then before else before[params[k - 1].outName := v]
  }

  /** The nested loops of `getResponse` for `field` and `one_row_with_fields`. */
  method Choose(results: seq<Rows>, fields: seq<Key>) returns (place: Option<(nat, nat)>)
    ensures place == Chosen(results, fields, |results|)
  {
    place := None;
    for q := 0 to |results|
      invariant place == Chosen(results, fields, q)
    {
      var i, found := 0, false;
      while i < |results[q]| && !found
        invariant 0 <= i <= |results[q]|
        invariant !found ==> place == Chosen(results, fields, q) && FirstRow(results[q][..i], fields).None?
        invariant found ==> i > 0 && place == Some((q, i - 1)) && FirstRow(results[q][..i], fields) == Some(i - 1)
        decreases |results[q]| - i, !found
      {
        assert results[q][..i + 1][..i] == results[q][..i];
        if HasFields(results[q][i], fields) {
          place, found := Some((q, i)), true;
        }
        i := i + 1;
      }
      if found {
        FirstRowStays(results[q], fields, i);
      }
      assert results[q][..|results[q]|] == results[q];
    }
  }

  lemma {:induction false} FirstRowStays(rows: Rows, fields: seq<Key>, k: nat)
    requires k <= |rows| && FirstRow(rows[..k], fields).Some?
    ensures FirstRow(rows, fields) == FirstRow(rows[..k], fields)
  {
    if k < |rows| {
      assert rows[..|rows| - 1][..k] == rows[..k];
      FirstRowStays(rows[..|rows| - 1], fields, k);
    } else {
      assert rows[..k] == rows;
    }
  }

  method Collect(results: seq<Rows>, fields: seq<Key>) returns (value: seq<Val>)
    ensures value == CollectedUpTo(results, fields, |results|)
  {
    value := [];
    for q := 0 to |results|
      invariant value == CollectedUpTo(results, fields, q)
    {
      for i := 0 to |results[q]|
        invariant value == CollectedUpTo(results, fields, q) + Collected(results[q][..i], fields)
      {
        assert results[q][..i + 1][..i] == results[q][..i];
        if HasFields(results[q][i], fields) {
          value := value + [Obj(results[q][i])];
        }
      }
      assert results[q][..|results[q]|] == results[q];
    }
  }

  method GetResponse(params: seq<Param>, results: seq<Rows>) returns (output: Output)
    ensures output == ResponseUpTo(params, results, |params|)
  {
    output := map[];
    for k := 0 to |params|
      invariant output == ResponseUpTo(params, results, k)
    {
      var value := Undef;
      if params[k].RowsWithFields? {
        var rows := Collect(results, params[k].fields);
        value := Arr(rows);
      } else {
        var place := Choose(results, FieldsOf(params[k]));
        if place.Some? {
          var row := results[place.value.0][place.value.1];
          value := if params[k].OneRowWithFields? then Obj(row)
                   else if params[k].field in row then row[params[k].field]
                   else Undef;
        }
      }
      if !value.Undef? {
        output := output[params[k].outName := value];
      }
    }
  }

  // ---------------------------------------------------------------- "the first occurrence"

  predicate Occurs(rows: Rows, fields: seq<Key>) {
    FirstRow(rows, fields).Some?
  }

  /** The place that the comment in the source describes: the first occurrence of all. */
  ghost predicate IsFirstOccurrence(results: seq<Rows>, fields: seq<Key>, place: (nat, nat)) {
    && place.0 < |results| && FirstRow(results[place.0], fields) == Some(place.1)
    && forall q :: 0 <= q < place.0 ==> !Occurs(results[q], fields)
  }

  /** What the code finds instead: the first row of the last query that has one. */
  lemma {:induction false} ChosenIsInTheLastQuery(results: seq<Rows>, fields: seq<Key>, k: nat)
    requires k <= |results|
    ensures Chosen(results, fields, k).None? <==> forall q :: 0 <= q < k ==> !Occurs(results[q], fields)
    ensures Chosen(results, fields, k).Some? ==>
              var (q, i) := Chosen(results, fields, k).value;
              FirstRow(results[q], fields) == Some(i) && forall h :: q < h < k ==> !Occurs(results[h], fields)
  {
    if k > 0 {
      ChosenIsInTheLastQuery(results, fields, k - 1);
    }
  }

  ghost predicate OccursOnce(results: seq<Rows>, fields: seq<Key>) {
    forall q, h :: 0 <= q < h < |results| ==> !(Occurs(results[q], fields) && Occurs(results[h], fields))
  }

  /** `getResponse` finds the first occurrence, as its comment says, exactly when at most
      one query returned a row with the fields. */
  lemma FirstOccurrenceIff(results: seq<Rows>, fields: seq<Key>)
    ensures (Chosen(results, fields, |results|).Some? ==>
               IsFirstOccurrence(results, fields, Chosen(results, fields, |results|).value))
            <==> OccursOnce(results, fields)
  {
    ChosenIsInTheLastQuery(results, fields, |results|);
    var chosen := Chosen(results, fields, |results|);
    if chosen.Some? && IsFirstOccurrence(results, fields, chosen.value) {
      forall q, h | 0 <= q < h < |results|
        ensures !(Occurs(results[q], fields) && Occurs(results[h], fields))
      {
        assert q != chosen.value.0 ==> !Occurs(results[q], fields);
      }
    }
  }

  /** Two queries that both return the field: the later one wins. */
  lemma LaterQueryOverrides()
    ensures Chosen([[map[TITLE := Num(1)]], [map[TITLE := Num(2)]]], [TITLE], 2) == Some((1, 0))
    ensures ValueOf(Field(TITLE, TITLE), [[map[TITLE := Num(1)]], [map[TITLE := Num(2)]]]) == Num(2)
  {
    var first, second := [map[TITLE := Num(1)]], [map[TITLE := Num(2)]];
    assert HasFields(second[0], [TITLE]);
    assert FirstRow(second, [TITLE]) == Some(0);
    assert Chosen([first, second], [TITLE], 2) == Some((1, 0));
  }

  // ---------------------------------------------------------------- what is in a response

  /** The keys are names of parameters that have a value. */
  lemma {:induction false} OnlyDeclaredKeys(params: seq<Param>, results: seq<Rows>, n: nat, key: Key)
    requires n <= |params| && key in ResponseUpTo(params, results, n)
    ensures exists k :: 0 <= k < n && params[k].outName == key && !ValueOf(params[k], results).Undef?
  {
    if key !in ResponseUpTo(params, results, n - 1) {
      assert params[n - 1].outName == key;
    } else {
      OnlyDeclaredKeys(params, results, n - 1, key);
    }
  }

  /** A parameter with a value has its key in the response, whatever comes after it. */
  lemma {:induction false} KeyStays(params: seq<Param>, results: seq<Rows>, n: nat, k: nat)
    requires k < n <= |params| && !ValueOf(params[k], results).Undef?
    ensures params[k].outName in ResponseUpTo(params, results, n)
  {
    if k < n - 1 {
      KeyStays(params, results, n - 1, k);
    }
  }

  predicate DistinctNames(params: seq<Param>) {
    forall i, j :: 0 <= i < j < |params| ==> params[i].outName != params[j].outName
  }

  lemma {:induction false} OwnValue(params: seq<Param>, results: seq<Rows>, n: nat, k: nat)
    requires k < n <= |params| && DistinctNames(params)
    ensures params[k].outName in ResponseUpTo(params, results, n) <==> !ValueOf(params[k], results).Undef?
    ensures params[k].outName in ResponseUpTo(params, results, n) ==>
              ResponseUpTo(params, results, n)[params[k].outName] == ValueOf(params[k], results)
  {
    if k < n - 1 {
      OwnValue(params, results, n - 1, k);
    } else if params[k].outName in ResponseUpTo(params, results, n - 1) {
      OnlyDeclaredKeys(params, results, n - 1, params[k].outName);
    }
  }

  /** The row and the column of the last query that returned the field. */
  ghost predicate HasValue(results: seq<Rows>, field: Key) {
    exists q, i :: 0 <= q < |results| && FirstRow(results[q], [field]) == Some(i) && field in results[q][i]
                   && !results[q][i][field].Undef? && forall h :: q < h < |results| ==> !Occurs(results[h], [field])
  }

  ghost predicate SomeRowHas(results: seq<Rows>, fields: seq<Key>) {
    exists q, i :: 0 <= q < |results| && 0 <= i < |results[q]| && HasFields(results[q][i], fields)
  }

  /** The rows have something to say about a parameter. */
  ghost predicate Answered(p: Param, results: seq<Rows>) {
    match p
    case RowsWithFields(_, _) => true
    case OneRowWithFields(_, fields) => SomeRowHas(results, fields)
    case Field(_, field) => HasValue(results, field)
  }

  /** Exactly which keys a response has, when no two parameters share a name: that of rows
      always, with no row at all as with many; that of one row if some query returned such a
      row; and that of a field if the row that is chosen has a value for it. */
  lemma KeysOfResponse(params: seq<Param>, results: seq<Rows>, k: nat)
    requires k < |params| && DistinctNames(params)
    ensures params[k].outName in ResponseUpTo(params, results, |params|) <==> Answered(params[k], results)
  {
    OwnValue(params, results, |params|, k);
    ValueIffAnswered(params[k], results);
  }

  /** The key of rows is in every response, whatever the other parameters are called. */
  lemma RowsAreAlwaysThere(params: seq<Param>, results: seq<Rows>, k: nat)
    requires k < |params| && params[k].RowsWithFields?
    ensures params[k].outName in ResponseUpTo(params, results, |params|)
  {
    KeyStays(params, results, |params|, k);
  }

  lemma ValueIffAnswered(p: Param, results: seq<Rows>)
    ensures !ValueOf(p, results).Undef? <==> Answered(p, results)
  {
    ChosenIsInTheLastQuery(results, FieldsOf(p), |results|);
    var chosen := Chosen(results, FieldsOf(p), |results|);
    if chosen.Some? {
      var (q, i) := chosen.value;
      assert HasFields(results[q][i], FieldsOf(p)) && FieldsOf(p) == if p.Field? then [p.field] else p.fields;
      if p.Field? {
        assert [p.field][0] in results[q][i];
      }
    } else {
      assert forall q :: 0 <= q < |results| ==> !Occurs(results[q], FieldsOf(p));
    }
  }

  /** If no defined value is undefined, a field is in the response exactly if some row has it. */
  lemma FieldIffSomeRow(params: seq<Param>, results: seq<Rows>, k: nat)
    requires k < |params| && DistinctNames(params) && params[k].Field?
    requires forall q, i :: 0 <= q < |results| && 0 <= i < |results[q]| && params[k].field in results[q][i] ==>
               !results[q][i][params[k].field].Undef?
    ensures params[k].outName in ResponseUpTo(params, results, |params|) <==> SomeRowHas(results, [params[k].field])
  {
    KeysOfResponse(params, results, k);
    var field := params[k].field;
    ChosenIsInTheLastQuery(results, [field], |results|);
    var chosen := Chosen(results, [field], |results|);
    if chosen.Some? {
      var (q, i) := chosen.value;
      assert HasFields(results[q][i], [field]) && [field][0] == field;
    }
  }

  /** The rows with the fields, over all queries: each of them once, in the order of the
      queries and of the rows of each. */
  ghost predicate Lists(value: seq<Val>, places: seq<(nat, nat)>, results: seq<Rows>, fields: seq<Key>) {
    && |value| == |places|
    && (forall r :: 0 <= r < |places| ==> IsAt(value[r], places[r], results, fields))
    && (forall r, s :: 0 <= r < s < |places| ==> Precedes(places[r], places[s]))
    && (forall q, i :: 0 <= q < |results| && 0 <= i < |results[q]| && HasFields(results[q][i], fields) ==>
          (q, i) in places)
  }

  ghost predicate IsAt(v: Val, place: (nat, nat), results: seq<Rows>, fields: seq<Key>) {
    && place.0 < |results| && place.1 < |results[place.0]|
    && HasFields(results[place.0][place.1], fields) && v == Obj(results[place.0][place.1])
  }

  predicate Precedes(a: (nat, nat), b: (nat, nat)) {
    a.0 < b.0 || (a.0 == b.0 && a.1 < b.1)
  }

  lemma {:induction false} ListsQuery(results: seq<Rows>, rows: Rows, fields: seq<Key>, before: seq<Val>,
                                      places: seq<(nat, nat)>, n: nat)
    returns (more: seq<(nat, nat)>)
    requires Lists(before, places, results, fields) && n <= |rows|
    ensures Lists(before + Collected(rows[..n], fields), more, results + [rows[..n]], fields)
  {
    if n == 0 {
      more := places;
      assert before + [] == before;
    } else {
      more := ListsQuery(results, rows, fields, before, places, n - 1);
      var value, row := before + Collected(rows[..n - 1], fields), rows[n - 1];
      more := RowListed(results, rows[..n - 1], row, fields, value, more);
      assert rows[..n] == rows[..n - 1] + [row] && rows[..n][..n - 1] == rows[..n - 1];
      assert before + Collected(rows[..n], fields) == value + if HasFields(row, fields) then [Obj(row)] else [];
    }
  }

  lemma RowListed(results: seq<Rows>, rows: Rows, row: Row, fields: seq<Key>, value: seq<Val>,
                  places: seq<(nat, nat)>)
    returns (more: seq<(nat, nat)>)
    requires Lists(value, places, results + [rows], fields)
    ensures Lists(value + (if HasFields(row, fields) then [Obj(row)] else []), more, results + [rows + [row]], fields)
  {
    if HasFields(row, fields) {
      OneMoreListed(results, rows, row, fields, value, places);
      more := places + [(|results|, |rows|)];
    } else {
      more := places;
      assert value + [] == value;
    }
  }

  lemma OneMoreListed(results: seq<Rows>, rows: Rows, row: Row, fields: seq<Key>, value: seq<Val>,
                      places: seq<(nat, nat)>)
    requires Lists(value, places, results + [rows], fields) && HasFields(row, fields)
    ensures Lists(value + [Obj(row)], places + [(|results|, |rows|)], results + [rows + [row]], fields)
  {
  }

  /** What `rows_with_fields` collects. */
  lemma {:induction false} CollectedLists(results: seq<Rows>, fields: seq<Key>, k: nat)
    returns (places: seq<(nat, nat)>)
    requires k <= |results|
    ensures Lists(CollectedUpTo(results, fields, k), places, results[..k], fields)
  {
    if k == 0 {
      places := [];
    } else {
      places := CollectedLists(results, fields, k - 1);
      places := ListsQuery(results[..k - 1], results[k - 1], fields, CollectedUpTo(results, fields, k - 1), places,
                           |results[k - 1]|);
      assert results[k - 1][..|results[k - 1]|] == results[k - 1];
      assert results[..k - 1] + [results[k - 1]] == results[..k];
    }
  }

  // ---------------------------------------------------------------- the values in a response

  predicate Carries(row: Row, fields: seq<Key>) {
    forall f :: f in fields ==> f in row
  }

  /** Row i of query q is the first of that query to have the fields, and no later query has
      such a row. */
  ghost predicate LastFirst(results: seq<Rows>, fields: seq<Key>, q: nat, i: nat) {
    && q < |results| && i < |results[q]| && Carries(results[q][i], fields)
    && (forall j :: 0 <= j < i ==> !Carries(results[q][j], fields))
    && (forall h, j :: q < h < |results| && 0 <= j < |results[h]| ==> !Carries(results[h][j], fields))
  }

  ghost predicate NowhereIn(results: seq<Rows>, fields: seq<Key>) {
    forall q, i :: 0 <= q < |results| && 0 <= i < |results[q]| ==> !Carries(results[q][i], fields)
  }

  /** These are the rows with the fields: each once, in the order of the queries and of the
      rows of each. */
  ghost predicate RowsAre(items: seq<Val>, places: seq<(nat, nat)>, results: seq<Rows>, fields: seq<Key>) {
    && |items| == |places|
    && (forall r :: 0 <= r < |places| ==>
          && places[r].0 < |results| && places[r].1 < |results[places[r].0]|
          && Carries(results[places[r].0][places[r].1], fields)
          && items[r] == Obj(results[places[r].0][places[r].1]))
    && (forall r, s :: 0 <= r < s < |places| ==>
          places[r].0 < places[s].0 || (places[r].0 == places[s].0 && places[r].1 < places[s].1))
    && (forall q, i :: 0 <= q < |results| && 0 <= i < |results[q]| && Carries(results[q][i], fields) ==>
          (q, i) in places)
  }

  lemma CarriesIsHasFields(row: Row, fields: seq<Key>)
    ensures Carries(row, fields) <==> HasFields(row, fields)
  {
    if HasFields(row, fields) {
      forall f | f in fields
        ensures f in row
      {
        var k :| 0 <= k < |fields| && fields[k] == f;
      }
    }
  }

  lemma AllCarry(results: seq<Rows>, fields: seq<Key>)
    ensures forall q, i :: 0 <= q < |results| && 0 <= i < |results[q]| ==>
              (Carries(results[q][i], fields) <==> HasFields(results[q][i], fields))
  {
    forall q, i | 0 <= q < |results| && 0 <= i < |results[q]|
      ensures Carries(results[q][i], fields) <==> HasFields(results[q][i], fields)
    {
      CarriesIsHasFields(results[q][i], fields);
    }
  }

  /** The place that the loops end with is that one. */
  lemma ChosenIsLastFirst(results: seq<Rows>, fields: seq<Key>)
    ensures forall q: nat, i: nat :: LastFirst(results, fields, q, i) ==>
              Chosen(results, fields, |results|) == Some((q, i))
    ensures NowhereIn(results, fields) ==> Chosen(results, fields, |results|).None?
  {
    ChosenIsInTheLastQuery(results, fields, |results|);
    AllCarry(results, fields);
    forall q: nat, i: nat | LastFirst(results, fields, q, i)
      ensures Chosen(results, fields, |results|) == Some((q, i))
    {
      assert HasFields(results[q][i], fields) && Occurs(results[q], fields);
      var chosen := Chosen(results, fields, |results|).value;
      assert Carries(results[chosen.0][chosen.1], fields);
    }
  }

  /** There is such a row unless there is no row with the fields at all. */
  lemma LastFirstOrNowhere(results: seq<Rows>, fields: seq<Key>)
    ensures NowhereIn(results, fields) || exists q: nat, i: nat :: LastFirst(results, fields, q, i)
  {
    ChosenIsInTheLastQuery(results, fields, |results|);
    AllCarry(results, fields);
    var chosen := Chosen(results, fields, |results|);
    if chosen.Some? {
      assert LastFirst(results, fields, chosen.value.0, chosen.value.1);
    } else {
      assert forall q :: 0 <= q < |results| ==> !Occurs(results[q], fields);
    }
  }

  /** The value of every key, when no two parameters share a name: under a field the cell, and
      under one row the row, of the first row with the fields of the last query that has such
      a row; under rows all of them, in order. */
  lemma ValuesOfResponse(params: seq<Param>, results: seq<Rows>, k: nat)
    requires k < |params| && DistinctNames(params)
    ensures ValueIs(ResponseUpTo(params, results, |params|), params[k], results)
  {
    var p := params[k];
    OwnValue(params, results, |params|, k);
    ChosenIsLastFirst(results, FieldsOf(p));
    if p.RowsWithFields? {
      var places := CollectedLists(results, p.fields, |results|);
      assert results[..|results|] == results;
      AllCarry(results, p.fields);
      assert RowsAre(CollectedUpTo(results, p.fields, |results|), places, results, p.fields);
    } else if p.Field? {
      ValueOfField(p, results);
    }
  }

  lemma ValueOfField(p: Param, results: seq<Rows>)
    requires p.Field?
    ensures forall q: nat, i: nat :: LastFirst(results, [p.field], q, i) ==>
              p.field in results[q][i] && ValueOf(p, results) == results[q][i][p.field]
  {
    ChosenIsLastFirst(results, [p.field]);
    forall q: nat, i: nat | LastFirst(results, [p.field], q, i)
      ensures p.field in results[q][i]
    {
      assert p.field in [p.field];
    }
  }

  ghost predicate ValueIs(output: Output, p: Param, results: seq<Rows>) {
    && (p.OneRowWithFields? ==> OneRowIs(output, p.outName, results, p.fields))
    && (p.Field? ==> CellIs(output, p.outName, results, p.field))
    && (p.RowsWithFields? ==> RowsIn(output, p.outName, results, p.fields))
  }

  ghost predicate OneRowIs(output: Output, name: Key, results: seq<Rows>, fields: seq<Key>) {
    && (forall q: nat, i: nat :: LastFirst(results, fields, q, i) ==>
          name in output && output[name] == Obj(results[q][i]))
    && (NowhereIn(results, fields) ==> name !in output)
  }

  ghost predicate CellIs(output: Output, name: Key, results: seq<Rows>, field: Key) {
    && (forall q: nat, i: nat :: LastFirst(results, [field], q, i) ==>
          && field in results[q][i]
          && if results[q][i][field].Undef? then name !in output
             else name in output && output[name] == results[q][i][field])
    && (NowhereIn(results, [field]) ==> name !in output)
  }

  ghost predicate RowsIn(output: Output, name: Key, results: seq<Rows>, fields: seq<Key>) {
    && name in output && output[name].Arr?
    && exists places :: RowsAre(output[name].items, places, results, fields)
  }

  /** And no key is there but those of parameters. */
  lemma NoOtherKeys(params: seq<Param>, results: seq<Rows>, key: Key)
    requires key in ResponseUpTo(params, results, |params|)
    ensures exists k :: 0 <= k < |params| && params[k].outName == key
  {
    OnlyDeclaredKeys(params, results, |params|, key);
  }

  // ---------------------------------------------------------------- getStatus

  /** An `errorMap`: its entry for null, and those for names of errors. */
  datatype StatusMap = StatusMap(onSuccess: Option<int>, onError: map<ErrorName, int>)

  /** `DefaultErrorMap` */
  function DefaultStatus(name: ErrorName): Option<int> {
    match name
    case AlreadyAuthenticatedError => Some(401)
    case UnauthenticatedUserError => Some(401)
    case UnauthorizedUserError => Some(403)
    case InvalidCredentialsError => Some(401)
    case InvalidTokenError => Some(401)
    case TamperedTokenError => Some(401)
    case ExpiredTokenError => Some(401)
    case NotBeforeTokenError => Some(401)
    case ValidationError => Some(400)
    case AbsentArgumentError => Some(400)
    case UnprocessableArgumentError => Some(422)
    case InvalidArgumentError => Some(400)
    case DirtyArgumentError => Some(400)
    case EmptyResponseError => Some(404)
    case ForeignKeyError => Some(404)
    case UniqueConstraintError => Some(409)
    case UnlistedError(_) => None
    case _ => Some(500)
  }

  /** `a || b` */
  function Or(a: Option<int>, b: int): int {
    if a.Some? && a.value != 0 then a.value else b
  }

  function Entry(m: map<ErrorName, int>, name: ErrorName): Option<int> {
    if name in m then Some(m[name]) else None
  }

  function StatusOf(m: StatusMap, err: Option<Error>): int {
    match err
    case None => Or(m.onSuccess, 200)
    case Some(NotAnError) => 500
    case Some(e) => Or(Entry(m.onError, NameOf(e)), Or(DefaultStatus(NameOf(e)), 500))
  }

  predicate IsSuccess(status: int) {
    200 <= status < 300
  }

  /** A template reports success exactly for requests without an error, provided that its
      own entries do. */
  ghost predicate Honest(m: StatusMap) {
    && (m.onSuccess.Some? ==> IsSuccess(m.onSuccess.value))
    && forall name :: name in m.onError ==> !IsSuccess(m.onError[name])
  }

  lemma HonestStatus(m: StatusMap, err: Option<Error>)
    requires Honest(m)
    ensures IsSuccess(StatusOf(m, err)) <==> err.None?
  {
    if err.Some? && !err.value.NotAnError? {
      assert DefaultStatus(NameOf(err.value)).Some? ==> !IsSuccess(DefaultStatus(NameOf(err.value)).value);
    }
  }
}
