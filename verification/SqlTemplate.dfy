/** The transaction compiler: classes/sqltemplate.js.  A template is an ordered list of
    named queries; `Build` turns it and an input object into a flat list of statements
    whose references to earlier queries are absolute indexes into the result list. */
module SqlTemplate {
  import opened Values
  import opened Vocabulary

  /** What a callable value constructor returns: a value, or a function that the
      executor will apply to the results so far (None when that function throws). */
  datatype Produced = Value(v: Val) | Closure(f: seq<Rows> -> Option<Val>)

  datatype ValueCons =
    | Callable(f: (Input, seq<QueryName>) -> Option<Produced>)  // None: the callable throws
    | FromInput(key: Key)
    | FromQuery(query: QueryName, column: Key)

  datatype Times = TimesThrows | NotAnInteger | Integer(n: int)

  datatype QueryDef = QueryDef(
    text: Sql,
    condition: Option<Input -> Option<bool>>,
    times: Option<Input -> Times>,
    values: Option<seq<ValueCons>>)

  datatype Template = Template(
    dict: map<QueryName, QueryDef>,
    order: seq<QueryName>,
    errorOnEmptyResponse: bool,
    errorOnEmptyTransaction: bool,
    drop: Option<seq<QueryName>>)

  /** One parameter of a built query.  `Ref` is the closure `res => res[index][0][column]`. */
  datatype Param = Plain(v: Val) | Deferred(f: seq<Rows> -> Option<Val>) | Ref(index: nat, column: Key)

  datatype Query = Query(text: Sql, values: Option<seq<Param>>)

  datatype Plan = Plan(names: seq<QueryName>, queries: seq<Query>)

  // ---------------------------------------------------------------- constructor

  datatype TemplateFault =
    | NoQueries
    | DropsUnknownQuery
    | DropsEveryQuery
    | QueryNotDefined
    | ReferenceToUnknownQuery
    | ReferenceToFutureQuery

  /** A reference in the query at position k names a query whose first position is earlier. */
  predicate ReferencesEarlier(c: ValueCons, order: seq<QueryName>, k: nat)
    requires k <= |order|
  {
    c.FromQuery? ==> c.query in order[..k]
  }

  predicate Defined(t: Template) {
    forall q :: q in t.order ==> q in t.dict
  }

  /** The templates the constructor lets through. */
  ghost predicate Accepted(t: Template) {
    && !(t.order == [] && t.errorOnEmptyTransaction)
    && (t.drop.Some? ==>
          && (forall q :: q in t.drop.value ==> q in t.order)
          && (t.errorOnEmptyResponse ==> exists q :: q in t.order && q !in t.drop.value))
    && Defined(t)
    && forall k, c :: 0 <= k < |t.order| && t.dict[t.order[k]].values.Some? && c in t.dict[t.order[k]].values.value
                      ==> ReferencesEarlier(c, t.order, k)
  }

  /** The checks of the constructor, in its order. */
  method CheckTemplate(t: Template) returns (fault: Option<TemplateFault>)
    ensures fault.None? <==> Accepted(t)
  {
    if |t.order| == 0 && t.errorOnEmptyTransaction {
      return Some(NoQueries);
    }
    if t.drop.Some? {
      if exists q :: q in t.drop.value && q !in t.order {
        return Some(DropsUnknownQuery);
      } else if t.errorOnEmptyResponse && !(exists q :: q in t.order && q !in t.drop.value) {
        return Some(DropsEveryQuery);
      }
    }
    for k := 0 to |t.order|
      invariant forall l :: 0 <= l < k ==> t.order[l] in t.dict
      invariant forall l, c :: 0 <= l < k && t.dict[t.order[l]].values.Some? && c in t.dict[t.order[l]].values.value
                               ==> ReferencesEarlier(c, t.order, l)
    {
      if t.order[k] !in t.dict {
        return Some(QueryNotDefined);
      }
      if t.dict[t.order[k]].values.Some? {
        var cs := t.dict[t.order[k]].values.value;
        for j := 0 to |cs|
          invariant forall i :: 0 <= i < j ==> ReferencesEarlier(cs[i], t.order, k)
        {
          if cs[j].FromQuery? {
            var indexes := GetAllIndexes(t.order, cs[j].query);
            if |indexes| == 0 {
              assert !ReferencesEarlier(cs[j], t.order, k);
              return Some(ReferenceToUnknownQuery);
            } else if indexes[0] >= k {
              assert !ReferencesEarlier(cs[j], t.order, k);
              return Some(ReferenceToFutureQuery);
            }
            assert t.order[..k][indexes[0]] == cs[j].query;
          }
        }
      }
    }
    fault := None;
  }

  // ---------------------------------------------------------------- getAllIndexes

  /** The positions of q in names, ascending. */
  function IndexesOf(names: seq<QueryName>, q: QueryName): (r: seq<nat>)
    ensures forall i :: 0 <= i < |r| ==> r[i] < |names| && names[r[i]] == q
    ensures forall i, j :: 0 <= i < j < |r| ==> r[i] < r[j]
    ensures forall n :: 0 <= n < |names| && names[n] == q ==> n in r
  {
    if names == [] then [] else
      var last := |names| - 1;
      var before := IndexesOf(names[..last], q);
      if names[last] == q then before + [last] else before
  }

  method GetAllIndexes(names: seq<QueryName>, q: QueryName) returns (indexes: seq<nat>)
    ensures indexes == IndexesOf(names, q)
    ensures forall i :: 0 <= i < |indexes| ==> indexes[i] < |names| && names[indexes[i]] == q
    ensures forall n :: 0 <= n < |names| && names[n] == q ==> |indexes| > 0 && indexes[0] <= n
  {
    indexes := [];
    for i := 0 to |names|
      invariant indexes == IndexesOf(names[..i], q)
    {
      assert names[..i + 1][..i] == names[..i];
      if names[i] == q {
        indexes := indexes + [i];
      }
    }
    assert names[..|names|] == names;
  }

  // ---------------------------------------------------------------- what a plan is

  /** Whether a query takes part, and how many copies of it: None when its condition is false. */
  function Activation(d: QueryDef, input: Input): Result<Option<nat>> {
    var runs := if d.condition.None? then Some(true) else d.condition.value(input);
    if runs.None? then Err(QueryConstruction(ConditionThrew))
    else if !runs.value then Ok(None)
    else if d.times.None? then Ok(Some(1))
    else
      match d.times.value(input)
      case TimesThrows => Err(QueryConstruction(TimesThrew))
      case NotAnInteger => Err(QueryConstruction(TimesNotNatural))
      case Integer(n) => if n < 0 then Err(QueryConstruction(TimesNotNatural)) else Ok(Some(n))
  }

  /** Why one value constructor cannot be compiled, if it cannot. */
  function ColumnFault(c: ValueCons, input: Input, names: seq<QueryName>, times: nat): Option<BuildFault> {
    match c
    case Callable(f) => if f(input, names).None? then Some(ValueThrew) else None
    case FromInput(_) => None
    case FromQuery(q, _) =>
      var n := |IndexesOf(names, q)|;
      if n == 1 || n == times then None
      else if n == 0 then Some(ReferencedQueryDidNotRun)
      else Some(CopiesMismatch)
  }

  /** What copy i of `times` copies takes from an input field: arrays of length `times` are
      split, everything else is repeated, and a missing field is NULL. */
  function InputValue(input: Input, key: Key, times: nat, i: nat): Val {
    if key !in input then Null
    else
      var v := input[key];
      if v.Arr? && |v.items| == times && i < times then v.items[i] else v
  }

  /** The parameter that constructor c contributes to copy i of `times` copies.  (The two
      Undef cases are those in which ColumnFault is a fault.) */
  function Entry(c: ValueCons, input: Input, names: seq<QueryName>, times: nat, i: nat): Param {
    match c
    case Callable(f) =>
      (match f(input, names)
       case None => Plain(Undef)
       case Some(Value(v)) => Plain(v)
       case Some(Closure(g)) => Deferred(g))
    case FromInput(key) => Plain(InputValue(input, key, times, i))
    case FromQuery(q, column) =>
      var ix := IndexesOf(names, q);
      if |ix| == 1 then Ref(ix[0], column)
      else if i < |ix| then Ref(ix[i], column)
      else Plain(Undef)
  }

  function FirstFault(cs: seq<ValueCons>, input: Input, names: seq<QueryName>, times: nat,
                      m: nat): (r: Option<BuildFault>)
    requires m <= |cs|
    ensures r.None? <==> forall j :: 0 <= j < m ==> ColumnFault(cs[j], input, names, times).None?
  {
    if m == 0 then None else
      var before := FirstFault(cs, input, names, times, m - 1);
      if before.Some? then before else ColumnFault(cs[m - 1], input, names, times)
  }

  function ParamRow(cs: seq<ValueCons>, input: Input, names: seq<QueryName>, times: nat, i: nat): seq<Param> {
    seq(|cs|, j requires 0 <= j < |cs| => Entry(cs[j], input, names, times, i))
  }

  /** The copies of one query, row by row; names are those of the copies of earlier queries. */
  function Expand(d: QueryDef, input: Input, names: seq<QueryName>): Result<seq<Query>> {
    var active := Activation(d, input);
    if active.Err? then Err(active.error)
    else if active.value.None? then Ok([])
    else
      var times := active.value.value;
      if d.values.None? then Ok(seq(times, i => Query(d.text, None)))
      else
        var fault := FirstFault(d.values.value, input, names, times, |d.values.value|);
        if fault.Some? then Err(QueryConstruction(fault.value))
        else
          Ok(seq(times, i requires 0 <= i < times =>
               Query(d.text, Some(ParamRow(d.values.value, input, names, times, i)))))
  }

  /** The plan of the first k queries of the order. */
  function PlanUpTo(t: Template, input: Input, k: nat): (r: Result<Plan>)
    requires Defined(t) && k <= |t.order|
    ensures r.Ok? ==> |r.value.names| == |r.value.queries|
  {
    if k == 0 then Ok(Plan([], [])) else
      var before := PlanUpTo(t, input, k - 1);
      if before.Err? then before else
        var p := before.value;
        var copies := Expand(t.dict[t.order[k - 1]], input, p.names);
        if copies.Err? then Err(copies.error)
        else Ok(Plan(p.names + seq(|copies.value|, i => t.order[k - 1]), p.queries + copies.value))
  }

  function PlanOf(t: Template, input: Input): (r: Result<Plan>)
    requires Defined(t)
    ensures r.Ok? ==> |r.value.names| == |r.value.queries|
  {
    var r := PlanUpTo(t, input, |t.order|);
    if r.Ok? && r.value.queries == [] && t.errorOnEmptyTransaction then Err(EmptyQuery) else r
  }

  // ---------------------------------------------------------------- build

  /** References to one query, or to as many as there are rows. */
  method PushReferences(indexes: seq<nat>, column: Key, rows: array<seq<Param>>)
    requires |indexes| == 1 || |indexes| == rows.Length
    modifies rows
    ensures forall i :: 0 <= i < rows.Length ==>
              rows[i] == old(rows[i]) + [Ref(indexes[if |indexes| == 1 then 0 else i], column)]
  {
    var times := rows.Length;
    if |indexes| == 1 {
      for i := 0 to times
        invariant forall l :: 0 <= l < times ==>
                    rows[l] == old(rows[l]) + if l < i then [Ref(indexes[0], column)] else []
      {
        rows[i] := rows[i] + [Ref(indexes[0], column)];
      }
    } else {
      for i := 0 to times
        invariant forall l :: 0 <= l < times ==>
                    rows[l] == old(rows[l]) + if l < i then [Ref(indexes[l], column)] else []
      {
        rows[i] := rows[i] + [Ref(indexes[i], column)];
      }
    }
  }

  /** One value constructor fills one column: it pushes a parameter onto every row. */
  method FillColumn(c: ValueCons, input: Input, names: seq<QueryName>, rows: array<seq<Param>>)
    returns (fault: Option<BuildFault>)
    modifies rows
    ensures fault == ColumnFault(c, input, names, rows.Length)
    ensures fault.None? ==> forall i :: 0 <= i < rows.Length ==>
              rows[i] == old(rows[i]) + [Entry(c, input, names, rows.Length, i)]
  {
    var times := rows.Length;
    match c {
      case Callable(f) =>
        var value := f(input, names);
        if value.None? {
          return Some(ValueThrew);
        }
        var param := match value.value case Value(v) => Plain(v) case Closure(g) => Deferred(g);
        for i := 0 to times
          invariant forall l :: 0 <= l < times ==> rows[l] == old(rows[l]) + if l < i then [param] else []
        {
          rows[i] := rows[i] + [param];
        }
      case FromInput(key) =>
        var val := if key in input then input[key] else Null;
        var split := val.Arr? && |val.items| == times;
        for i := 0 to times
          invariant forall l :: 0 <= l < times ==>
                                  rows[l] == old(rows[l]) + if l < i then [Entry(c, input, names, times, l)] else []
        {
          rows[i] := rows[i] + [if split then Plain(val.items[i]) else Plain(val)];
        }
      case FromQuery(q, column) =>
        var indexes := GetAllIndexes(names, q);
        if |indexes| == 1 || |indexes| == times {
          PushReferences(indexes, column, rows);
        } else if |indexes| == 0 {
          return Some(ReferencedQueryDidNotRun);
        } else {
          return Some(CopiesMismatch);
        }
    }
    fault := None;
  }

  /** The copies of one query, filled column by column. */
  method BuildQuery(d: QueryDef, input: Input, names: seq<QueryName>) returns (r: Result<seq<Query>>)
    ensures r == Expand(d, input, names)
  {
    if d.condition.Some? {
      var runs := d.condition.value(input);
      if runs.None? {
        return Err(QueryConstruction(ConditionThrew));
      } else if !runs.value {
        return Ok([]);
      }
    }
    var times := 1;
    if d.times.Some? {
      match d.times.value(input) {
        case TimesThrows => return Err(QueryConstruction(TimesThrew));
        case NotAnInteger => return Err(QueryConstruction(TimesNotNatural));
        case Integer(n) =>
          if n < 0 {
            return Err(QueryConstruction(TimesNotNatural));
          }
          times := n;
      }
    }
    assert Activation(d, input) == Ok(Some(times));
    var rows := new seq<Param>[times](i => []);
    if d.values.Some? {
      var cs := d.values.value;
      for j := 0 to |cs|
        invariant FirstFault(cs, input, names, times, j).None?
        invariant forall i :: 0 <= i < times ==> rows[i] == ParamRow(cs[..j], input, names, times, i)
      {
        var fault := FillColumn(cs[j], input, names, rows);
        if fault.Some? {
          FaultStays(cs, input, names, times, j + 1, |cs|);
          return Err(QueryConstruction(fault.value));
        }
        assert cs[..j + 1] == cs[..j] + [cs[j]];
      }
      assert cs[..|cs|] == cs;
    }
    var queries := [];
    for i := 0 to times
      invariant |queries| == i
      invariant forall l :: 0 <= l < i ==> queries[l] == Query(d.text, if d.values.Some? then Some(rows[l]) else None)
    {
      queries := queries + [Query(d.text, if d.values.Some? then Some(rows[i]) else None)];
    }
    assert queries == Expand(d, input, names).value;
    return Ok(queries);
  }

  lemma {:induction false} FaultStays(cs: seq<ValueCons>, input: Input, names: seq<QueryName>, times: nat, m: nat,
                                      n: nat)
    requires m <= n <= |cs|
    requires FirstFault(cs, input, names, times, m).Some?
    ensures FirstFault(cs, input, names, times, n) == FirstFault(cs, input, names, times, m)
    decreases n - m
  {
    if m < n {
      FaultStays(cs, input, names, times, m + 1, n);
    }
  }

  lemma {:induction false} PlanFaultStays(t: Template, input: Input, k: nat, n: nat)
    requires Defined(t) && k <= n <= |t.order|
    requires PlanUpTo(t, input, k).Err?
    ensures PlanUpTo(t, input, n) == PlanUpTo(t, input, k)
    decreases n - k
  {
    if k < n {
      PlanFaultStays(t, input, k + 1, n);
    }
  }

  // ---------------------------------------------------------------- prepareResults

  predicate Dropped(t: Template, q: QueryName) {
    t.drop.Some? && q in t.drop.value
  }

  /** The results of the queries that are not dropped, in order. */
  function Kept(t: Template, names: seq<QueryName>, results: seq<Rows>): seq<Rows>
    requires |names| == |results|
  {
    if results == [] then [] else
      var last := |results| - 1;
      Kept(t, names[..last], results[..last]) + if Dropped(t, names[last]) then [] else [results[last]]
  }

  function Prepared(t: Template, names: seq<QueryName>, results: seq<Rows>): Result<seq<Rows>>
    requires |names| == |results|
  {
    var out := Kept(t, names, results);
    if t.errorOnEmptyResponse && forall rows :: rows in out ==> rows == [] then Err(EmptyResponse) else Ok(out)
  }

  // ---------------------------------------------------------------- the template object

  /** A list of queries that is filled at one end and shifted at the other. */
  class QueryList {
    var items: seq<Query>

    constructor ()
      ensures items == []
    {
      items := [];
    }

    method Push(q: Query)
      modifies this
      ensures items == old(items) + [q]
    {
      items := items + [q];
    }

    method PushAll(qs: seq<Query>)
      modifies this
      ensures items == old(items) + qs
    {
      for i := 0 to |qs|
        invariant items == old(items) + qs[..i]
      {
        Push(qs[i]);
      }
      assert qs[..|qs|] == qs;
    }

    method Shift() returns (q: Query)
      requires |items| > 0
      modifies this
      ensures q == old(items[0]) && items == old(items[1..])
    {
      q := items[0];
      items := items[1..];
    }
  }

  datatype Built = Built(names: seq<QueryName>, queries: QueryList)

  /** The one object per action that all requests share. */
  class SQLTemplate {
    var queryDict: map<QueryName, QueryDef>
    var order: seq<QueryName>
    var errorOnEmptyResponse: bool
    var errorOnEmptyTransaction: bool
    var dropFromResults: Option<seq<QueryName>>

    function Value(): Template
      reads this
    {
      Template(queryDict, order, errorOnEmptyResponse, errorOnEmptyTransaction, dropFromResults)
    }

    /** For what the checks let through. */
    constructor (t: Template)
      requires Accepted(t)
      ensures Value() == t
    {
      queryDict, order, dropFromResults := t.dict, t.order, t.drop;
      errorOnEmptyResponse, errorOnEmptyTransaction := t.errorOnEmptyResponse, t.errorOnEmptyTransaction;
    }

    /** `build`: the plan in a list of its own, or the first fault met.  It only reads the
        template. */
    method Build(input: Input) returns (r: Result<Built>)
      requires Defined(Value())
      ensures Value() == old(Value())
      ensures r.Ok? ==> fresh(r.value.queries)
      ensures r.Ok? ==> PlanOf(Value(), input) == Ok(Plan(r.value.names, r.value.queries.items))
      ensures r.Err? ==> PlanOf(Value(), input) == Err(r.error)
    {
      var queryList := new QueryList();
      var queryNames: seq<QueryName> := [];
      for k := 0 to |order|
        invariant fresh(queryList) && PlanUpTo(Value(), input, k) == Ok(Plan(queryNames, queryList.items))
      {
        var copies := BuildQuery(queryDict[order[k]], input, queryNames);
        if copies.Err? {
          PlanFaultStays(Value(), input, k + 1, |order|);
          return Err(copies.error);
        }
        queryList.PushAll(copies.value);
        var query := order[k];
        queryNames := queryNames + seq(|copies.value|, i => query);
      }
      if |queryList.items| == 0 && errorOnEmptyTransaction {
        return Err(EmptyQuery);
      }
      return Ok(Built(queryNames, queryList));
    }

    method PrepareResults(names: seq<QueryName>, results: seq<Rows>) returns (r: Result<seq<Rows>>)
      requires |names| == |results|
      ensures r == Prepared(Value(), names, results)
    {
      var out := [];
      for i := 0 to |results|
        invariant out == Kept(Value(), names[..i], results[..i])
      {
        assert names[..i + 1][..i] == names[..i] && results[..i + 1][..i] == results[..i];
        if !Dropped(Value(), names[i]) {
          out := out + [results[i]];
        }
      }
      assert names[..|results|] == names && results[..|results|] == results;
      if errorOnEmptyResponse && !(exists rows :: rows in out && |rows| != 0) {
        return Err(EmptyResponse);
      }
      return Ok(out);
    }
  }
}
