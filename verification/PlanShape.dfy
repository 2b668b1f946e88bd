/** What the plans of `build` look like, in terms of the template and the input alone:
    how long they are, what stands at every place, where references point, and exactly
    when there is a plan at all. */
module PlanShape {
  import opened Values
  import opened Vocabulary
  import opened SqlTemplate

  /** How many copies of the k-th query of the order an input asks for. */
  function Copies(t: Template, input: Input, k: nat): nat
    requires Defined(t) && k < |t.order|
  {
    var active := Activation(t.dict[t.order[k]], input);
    if active.Ok? && active.value.Some? then active.value.value else 0
  }

  /** The sum of the copies of the first k queries. */
  function Offset(t: Template, input: Input, k: nat): nat
    requires Defined(t) && k <= |t.order|
  {
    if k == 0 then 0 else Offset(t, input, k - 1) + Copies(t, input, k - 1)
  }

  /** The copies of query q among the first k queries of the order. */
  function CopiesBefore(t: Template, input: Input, k: nat, q: QueryName): nat
    requires Defined(t) && k <= |t.order|
  {
    if k == 0 then 0
    else CopiesBefore(t, input, k - 1, q) + if t.order[k - 1] == q then Copies(t, input, k - 1) else 0
  }

  function NamesUpTo(t: Template, input: Input, k: nat): (names: seq<QueryName>)
    requires Defined(t) && k <= |t.order|
    ensures |names| == Offset(t, input, k)
  {
    if k == 0 then [] else NamesUpTo(t, input, k - 1) + seq(Copies(t, input, k - 1), i => t.order[k - 1])
  }

  // ---------------------------------------------------------------- names and counts

  lemma {:induction false} CountRun(names: seq<QueryName>, r: QueryName, n: nat, q: QueryName)
    ensures |IndexesOf(names + seq(n, i => r), q)| == |IndexesOf(names, q)| + if r == q then n else 0
  {
    var all := names + seq(n, i => r);
    if n == 0 {
      assert all == names;
    } else {
      assert all[..|all| - 1] == names + seq(n - 1, i => r);
      CountRun(names, r, n - 1, q);
    }
  }

  lemma {:induction false} CopiesAreCounted(t: Template, input: Input, k: nat, q: QueryName)
    requires Defined(t) && k <= |t.order|
    ensures |IndexesOf(NamesUpTo(t, input, k), q)| == CopiesBefore(t, input, k, q)
  {
    if k > 0 {
      CopiesAreCounted(t, input, k - 1, q);
      CountRun(NamesUpTo(t, input, k - 1), t.order[k - 1], Copies(t, input, k - 1), q);
    }
  }

  lemma {:induction false} PlanNames(t: Template, input: Input, k: nat)
    requires Defined(t) && k <= |t.order| && PlanUpTo(t, input, k).Ok?
    ensures PlanUpTo(t, input, k).value.names == NamesUpTo(t, input, k)
  {
    if k > 0 {
      PlanNames(t, input, k - 1);
    }
  }

  lemma {:induction false} NamesPrefix(t: Template, input: Input, k: nat, n: nat)
    requires Defined(t) && k <= n <= |t.order|
    ensures Offset(t, input, k) <= Offset(t, input, n)
    ensures NamesUpTo(t, input, k) == NamesUpTo(t, input, n)[..Offset(t, input, k)]
    decreases n
  {
    if k < n {
      NamesPrefix(t, input, k, n - 1);
    }
  }

  // ---------------------------------------------------------------- when there is a plan

  ghost predicate ValueBuildable(t: Template, input: Input, k: nat, c: ValueCons)
    requires Defined(t) && k < |t.order|
  {
    match c
    case Callable(f) => f(input, NamesUpTo(t, input, k)).Some?
    case FromInput(_) => true
    case FromQuery(q, _) => CopiesBefore(t, input, k, q) == 1 || CopiesBefore(t, input, k, q) == Copies(t, input, k)
  }

  /** Nothing about the k-th query can make `build` throw: its callables return, and every
      reference is to a query with one copy or with as many copies as this one. */
  ghost predicate Buildable(t: Template, input: Input, k: nat)
    requires Defined(t) && k < |t.order|
  {
    var d := t.dict[t.order[k]];
    && Activation(d, input).Ok?
    && (Activation(d, input).value.Some? && d.values.Some? ==>
          forall c :: c in d.values.value ==> ValueBuildable(t, input, k, c))
  }

  lemma ExpandSucceeds(t: Template, input: Input, k: nat)
    requires Defined(t) && k < |t.order|
    ensures Expand(t.dict[t.order[k]], input, NamesUpTo(t, input, k)).Ok? <==> Buildable(t, input, k)
  {
    var d, names := t.dict[t.order[k]], NamesUpTo(t, input, k);
    if Activation(d, input).Ok? && Activation(d, input).value.Some? && d.values.Some? {
      var cs, n := d.values.value, Copies(t, input, k);
      forall c | c in cs
        ensures c.FromQuery? ==> |IndexesOf(names, c.query)| == CopiesBefore(t, input, k, c.query)
      {
        if c.FromQuery? {
          CopiesAreCounted(t, input, k, c.query);
        }
      }
      assert FirstFault(cs, input, names, n, |cs|).None? <==> forall c :: c in cs ==>
               ColumnFault(c, input, names, n).None?;
    }
  }

  /** Exactly when `build` gets through the first k queries. */
  lemma {:induction false} PlanExists(t: Template, input: Input, k: nat)
    requires Defined(t) && k <= |t.order|
    ensures PlanUpTo(t, input, k).Ok? <==> forall l :: 0 <= l < k ==> Buildable(t, input, l)
  {
    if k > 0 {
      PlanExists(t, input, k - 1);
      if PlanUpTo(t, input, k - 1).Ok? {
        PlanNames(t, input, k - 1);
        ExpandSucceeds(t, input, k - 1);
      }
    }
  }

  /** Exactly when `build` succeeds, and exactly when it throws EmptyQueryError. */
  lemma BuildSucceedsIff(t: Template, input: Input)
    requires Defined(t)
    ensures var buildable := forall l :: 0 <= l < |t.order| ==> Buildable(t, input, l);
            var nothing := Offset(t, input, |t.order|) == 0 && t.errorOnEmptyTransaction;
            && (PlanOf(t, input).Ok? <==> buildable && !nothing)
            && (PlanOf(t, input) == Err(EmptyQuery) <==> buildable && nothing)
  {
    PlanExists(t, input, |t.order|);
    if PlanUpTo(t, input, |t.order|).Ok? {
      PlanNames(t, input, |t.order|);
    } else {
      NoEmptyQuery(t, input, |t.order|);
    }
  }

  lemma {:induction false} NoEmptyQuery(t: Template, input: Input, k: nat)
    requires Defined(t) && k <= |t.order|
    ensures PlanUpTo(t, input, k) != Err(EmptyQuery)
  {
    if k > 0 {
      NoEmptyQuery(t, input, k - 1);
    }
  }

  // ---------------------------------------------------------------- what stands where

  lemma {:induction false} BlockUpTo(t: Template, input: Input, k: nat, i: nat, n: nat)
    requires Defined(t) && k < n <= |t.order| && i < Copies(t, input, k)
    requires PlanUpTo(t, input, n).Ok?
    ensures Offset(t, input, k) + i < Offset(t, input, k + 1) <= |PlanUpTo(t, input, n).value.queries|
    ensures Expand(t.dict[t.order[k]], input, NamesUpTo(t, input, k)).Ok?
    ensures |Expand(t.dict[t.order[k]], input, NamesUpTo(t, input, k)).value| == Copies(t, input, k)
    ensures PlanUpTo(t, input, n).value.queries[Offset(t, input, k) + i]
         == Expand(t.dict[t.order[k]], input, NamesUpTo(t, input, k)).value[i]
    ensures PlanUpTo(t, input, n).value.names[Offset(t, input, k) + i] == t.order[k]
    decreases n
  {
    PlanNames(t, input, n - 1);
    if k < n - 1 {
      BlockUpTo(t, input, k, i, n - 1);
    }
  }

  /** A plan has one entry for every copy of every query whose condition holds. */
  lemma PlanLength(t: Template, input: Input)
    requires Defined(t) && PlanOf(t, input).Ok?
    ensures |PlanOf(t, input).value.queries| == |PlanOf(t, input).value.names| == Offset(t, input, |t.order|)
  {
    PlanNames(t, input, |t.order|);
  }

  /** p is what constructor c of the k-th query has to become in copy i: input arrays with
      one item per copy are split, other inputs are repeated, a callable sees the names of
      the earlier queries, and a reference holds the place of the only copy of the query it
      names, or of that query's i-th copy: always an earlier place. */
  ghost predicate CompiledTo(t: Template, input: Input, k: nat, i: nat, names: seq<QueryName>, c: ValueCons, p: Param)
    requires Defined(t) && k < |t.order| && i < Copies(t, input, k) && Offset(t, input, k) <= |names|
  {
    match c
    case FromInput(key) =>
      p == Plain(if key !in input then Null
                 else if input[key].Arr? && |input[key].items| == Copies(t, input, k) then input[key].items[i]
                 else input[key])
    case Callable(f) =>
      (match f(input, names[..Offset(t, input, k)])
       case None => false
       case Some(Value(v)) => p == Plain(v)
       case Some(Closure(g)) => p == Deferred(g))
    case FromQuery(q, column) =>
      && p.Ref? && p.column == column
      && p.index < Offset(t, input, k)
      && names[p.index] == q
      && |IndexesOf(names[..p.index], q)| == (if CopiesBefore(t, input, k, q) == 1 then 0 else i)
  }

  /** The parameter matrix.  Copy i of the k-th query stands at Offset(k) + i, under that
      query's name and text, and its j-th parameter is what its j-th constructor becomes. */
  lemma ParameterMatrix(t: Template, input: Input, k: nat, i: nat)
    requires Defined(t) && PlanOf(t, input).Ok?
    requires k < |t.order| && i < Copies(t, input, k)
    ensures var plan, d, at := PlanOf(t, input).value, t.dict[t.order[k]], Offset(t, input, k) + i;
            && at < |plan.queries|
            && plan.names[at] == t.order[k]
            && plan.queries[at].text == d.text
            && (plan.queries[at].values.None? <==> d.values.None?)
            && (d.values.Some? ==> |plan.queries[at].values.value| == |d.values.value|)
    ensures var plan, d, at := PlanOf(t, input).value, t.dict[t.order[k]], Offset(t, input, k) + i;
            d.values.Some? ==> forall j :: 0 <= j < |d.values.value| ==>
              CompiledTo(t, input, k, i, plan.names, d.values.value[j], plan.queries[at].values.value[j])
  {
    var n := |t.order|;
    var d, names := t.dict[t.order[k]], NamesUpTo(t, input, k);
    BlockUpTo(t, input, k, i, n);
    PlanNames(t, input, n);
    NamesPrefix(t, input, k, n);
    PlanExists(t, input, n);
    assert Buildable(t, input, k);
    if d.values.Some? {
      forall j | 0 <= j < |d.values.value|
        ensures CompiledTo(t, input, k, i, PlanOf(t, input).value.names, d.values.value[j],
                           ParamRow(d.values.value, input, names, Copies(t, input, k), i)[j])
      {
        assert d.values.value[j] in d.values.value;
        EntryCompiles(t, input, k, i, PlanOf(t, input).value.names, d.values.value[j]);
      }
    }
  }

  lemma EntryCompiles(t: Template, input: Input, k: nat, i: nat, names: seq<QueryName>, c: ValueCons)
    requires Defined(t) && k < |t.order| && i < Copies(t, input, k)
    requires Offset(t, input, k) <= |names| && names[..Offset(t, input, k)] == NamesUpTo(t, input, k)
    requires ValueBuildable(t, input, k, c)
    ensures CompiledTo(t, input, k, i, names, c, Entry(c, input, NamesUpTo(t, input, k), Copies(t, input, k), i))
  {
    if c.FromQuery? {
      var before, r := NamesUpTo(t, input, k), if CopiesBefore(t, input, k, c.query) == 1 then 0 else i;
      CopiesAreCounted(t, input, k, c.query);
      PlaceInNames(before, names, c.query, r);
    }
  }

  lemma PlaceInNames(before: seq<QueryName>, names: seq<QueryName>, q: QueryName, r: nat)
    requires before <= names && r < |IndexesOf(before, q)|
    ensures var at := IndexesOf(before, q)[r]; at < |before| && names[at] == q && |IndexesOf(names[..at], q)| == r
  {
    PlacesBefore(before, q, r);
    var at := IndexesOf(before, q)[r];
    assert names[..at] == before[..at];
  }

  /** Before the r-th place of q there are r others. */
  lemma {:induction false} PlacesBefore(names: seq<QueryName>, q: QueryName, r: nat)
    requires r < |IndexesOf(names, q)|
    ensures |IndexesOf(names[..IndexesOf(names, q)[r]], q)| == r
  {
    var last := |names| - 1;
    var before := IndexesOf(names[..last], q);
    if r < |before| {
      PlacesBefore(names[..last], q, r);
      assert names[..last][..before[r]] == names[..before[r]];
    }
  }
}
