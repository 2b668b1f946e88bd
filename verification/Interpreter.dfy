/** A second, direct meaning of templates, and the proof that compiling preserves it.
    The interpreter never computes an index: it keeps every result under the name of the
    query that produced it, and looks references up by name and copy number while it runs. */
module Interpreter {
  import opened Values
  import opened Vocabulary
  import opened SqlTemplate
  import opened Execution

  /** The state of a direct run: results[i] was produced by a copy of query names[i]. */
  datatype Direct<+S> = Live(db: S, names: seq<QueryName>, results: seq<Rows>) | Dead(error: Error)

  /** The results of the copies of query q, first copy first. */
  function ResultsNamed(names: seq<QueryName>, results: seq<Rows>, q: QueryName): seq<Rows>
    requires |names| == |results|
  {
    if names == [] then [] else
      var last := |names| - 1;
      ResultsNamed(names[..last], results[..last], q) + if names[last] == q then [results[last]] else []
  }

  function ReferenceFault(c: ValueCons, input: Input, names: seq<QueryName>, earlier: seq<Rows>,
                          times: nat): Option<BuildFault>
    requires |names| == |earlier|
  {
    match c
    case Callable(f) => if f(input, names).None? then Some(ValueThrew) else None
    case FromInput(_) => None
    case FromQuery(q, _) =>
      var n := |ResultsNamed(names, earlier, q)|;
      if n == 1 || n == times then None
      else if n == 0 then Some(ReferencedQueryDidNotRun)
      else Some(CopiesMismatch)
  }

  function FirstReferenceFault(cs: seq<ValueCons>, input: Input, names: seq<QueryName>, earlier: seq<Rows>,
                               times: nat): Option<BuildFault>
    requires |names| == |earlier|
  {
    if cs == [] then None else
      var before := FirstReferenceFault(cs[..|cs| - 1], input, names, earlier, times);
      if before.Some? then before else ReferenceFault(cs[|cs| - 1], input, names, earlier, times)
  }

  /** The argument that constructor c denotes for copy i: `earlier` are the results of the
      queries before this one, `now` also has those of its own earlier copies. */
  function Argument(c: ValueCons, input: Input, names: seq<QueryName>, earlier: seq<Rows>, now: seq<Rows>, times: nat,
                    i: nat): Option<Val>
    requires |names| == |earlier|
  {
    match c
    case Callable(f) =>
      (match f(input, names)
       case None => None
       case Some(Value(v)) => Some(v)
       case Some(Closure(g)) => if g(now) == Some(Undef) then None else g(now))
    case FromInput(key) => Some(InputValue(input, key, times, i))
    case FromQuery(q, column) =>
      var rs := ResultsNamed(names, earlier, q);
      if |rs| == 1 then FirstCell(rs[0], column)
      else if i < |rs| then FirstCell(rs[i], column)
      else None
  }

  function Constructors(d: QueryDef): seq<ValueCons> {
    if d.values.Some? then d.values.value else []
  }

  function Arguments(d: QueryDef, input: Input, names: seq<QueryName>, earlier: seq<Rows>, now: seq<Rows>, times: nat,
                     i: nat): Option<seq<Val>>
    requires |names| == |earlier|
  {
    var cs := Constructors(d);
    if forall j :: 0 <= j < |cs| ==> Argument(cs[j], input, names, earlier, now, times, i).Some? then
      Some(seq(|cs|, j requires 0 <= j < |cs| && Argument(cs[j], input, names, earlier, now, times, i).Some? =>
                 Argument(cs[j], input, names, earlier, now, times, i).value))
    else None
  }

  /** i of the `times` copies of one query. */
  function InterpretCopies<S>(d: QueryDef, input: Input, engine: Engine<S>, db: S, names: seq<QueryName>,
                              earlier: seq<Rows>,
                              times: nat, i: nat): (r: Progress<S>)
    requires |names| == |earlier|
    ensures r.Going? ==> |r.results| == |earlier| + i && r.results[..|earlier|] == earlier
    ensures r.Stopped? ==> r.error == Backreference || r.error.QueryExecution?
  {
    if i == 0 then Going(db, earlier) else
      var before := InterpretCopies(d, input, engine, db, names, earlier, times, i - 1);
      if before.Stopped? then before
      else RunStatement(engine, before.db, before.results, d.text,
                        Arguments(d, input, names, earlier, before.results, times, i - 1))
  }

  function InterpretQuery<S>(q: QueryName, d: QueryDef, input: Input, engine: Engine<S>, db: S, names: seq<QueryName>,
                             results: seq<Rows>): (r: Direct<S>)
    requires |names| == |results|
    ensures r.Live? ==> |r.names| == |r.results|
  {
    var active := Activation(d, input);
    if active.Err? then Dead(active.error)
    else if active.value.None? then Live(db, names, results)
    else
      var times := active.value.value;
      var fault := if d.values.Some? then FirstReferenceFault(d.values.value, input, names, results, times) else None;
      if fault.Some? then Dead(QueryConstruction(fault.value))
      else
        match InterpretCopies(d, input, engine, db, names, results, times, times)
        case Stopped(e) => Dead(e)
        case Going(next, all) => Live(next, names + seq(times, i => q), all)
  }

  function InterpretUpTo<S>(t: Template, input: Input, engine: Engine<S>, db: S, k: nat): (r: Direct<S>)
    requires Defined(t) && k <= |t.order|
    ensures r.Live? ==> |r.names| == |r.results|
  {
    if k == 0 then Live(db, [], []) else
      var before := InterpretUpTo(t, input, engine, db, k - 1);
      if before.Dead? then before
      else InterpretQuery(t.order[k - 1], t.dict[t.order[k - 1]], input, engine, before.db, before.names,
                          before.results)
  }

  function Interpret<S>(t: Template, input: Input, engine: Engine<S>, db: S): Direct<S>
    requires Defined(t)
  {
    var r := InterpretUpTo(t, input, engine, db, |t.order|);
    if r.Live? && r.results == [] && t.errorOnEmptyTransaction then Dead(EmptyQuery) else r
  }

  // ---------------------------------------------------------------- names and indexes

  /** Looking a copy up by name is indexing with the position the compiler computed. */
  lemma {:induction false} ByNameIsByIndex(names: seq<QueryName>, results: seq<Rows>, q: QueryName)
    requires |names| == |results|
    ensures |ResultsNamed(names, results, q)| == |IndexesOf(names, q)|
    ensures forall i :: 0 <= i < |IndexesOf(names, q)| ==>
              ResultsNamed(names, results, q)[i] == results[IndexesOf(names, q)[i]]
  {
    if names != [] {
      var last := |names| - 1;
      ByNameIsByIndex(names[..last], results[..last], q);
    }
  }

  lemma {:induction false} FaultsAgree(cs: seq<ValueCons>, input: Input, names: seq<QueryName>, earlier: seq<Rows>,
                                       times: nat, m: nat)
    requires |names| == |earlier| && m <= |cs|
    ensures FirstReferenceFault(cs[..m], input, names, earlier, times) == FirstFault(cs, input, names, times, m)
  {
    if m > 0 {
      FaultsAgree(cs, input, names, earlier, times, m - 1);
      assert cs[..m][..m - 1] == cs[..m - 1];
      if cs[m - 1].FromQuery? {
        ByNameIsByIndex(names, earlier, cs[m - 1].query);
      }
    }
  }

  lemma ArgumentAgrees(c: ValueCons, input: Input, names: seq<QueryName>, earlier: seq<Rows>, now: seq<Rows>,
                       times: nat, i: nat)
    requires |names| == |earlier| <= |now| && now[..|earlier|] == earlier
    requires ColumnFault(c, input, names, times).None? && i < times
    ensures Evaluate(Entry(c, input, names, times, i), now) == Argument(c, input, names, earlier, now, times, i)
  {
    if c.FromQuery? {
      var ix := IndexesOf(names, c.query);
      ByNameIsByIndex(names, earlier, c.query);
      var k := if |ix| == 1 then 0 else i;
      assert now[ix[k]] == now[..|earlier|][ix[k]];
    }
  }

  lemma ArgumentsAgree(d: QueryDef, input: Input, names: seq<QueryName>, earlier: seq<Rows>, now: seq<Rows>, times: nat,
                       i: nat)
    requires |names| == |earlier| <= |now| && now[..|earlier|] == earlier && i < times
    requires d.values.Some? ==> FirstFault(d.values.value, input, names, times, |d.values.value|).None?
    ensures var q := Query(d.text, if d.values.Some? then Some(ParamRow(d.values.value, input, names, times, i))
                                   else None);
            EvaluateAll(Params(q), now) == Arguments(d, input, names, earlier, now, times, i)
  {
    if d.values.Some? {
      var cs := d.values.value;
      forall j | 0 <= j < |cs|
        ensures Evaluate(ParamRow(cs, input, names, times, i)[j], now)
                == Argument(cs[j], input, names, earlier, now, times, i)
      {
        ArgumentAgrees(cs[j], input, names, earlier, now, times, i);
      }
      var ps := ParamRow(cs, input, names, times, i);
      assert |ps| == |cs|;
      if EvaluateAll(ps, now).Some? {
        assert EvaluateAll(ps, now).value == Arguments(d, input, names, earlier, now, times, i).value;
      } else {
        var j :| 0 <= j < |ps| && Evaluate(ps[j], now).None?;
        assert Argument(Constructors(d)[j], input, names, earlier, now, times, i).None?;
      }
    } else {
      assert EvaluateAll([], now).value == [] == Arguments(d, input, names, earlier, now, times, i).value;
    }
  }

  // ---------------------------------------------------------------- one query

  lemma CopiesCounted(d: QueryDef, input: Input, names: seq<QueryName>, times: nat, copies: seq<Query>)
    requires Activation(d, input) == Ok(Some(times)) && Expand(d, input, names) == Ok(copies)
    ensures |copies| == times
  {
  }

  lemma {:induction false} CopiesAgree<S>(d: QueryDef, input: Input, engine: Engine<S>, start: S, done: seq<Query>,
                                          db: S, names: seq<QueryName>, earlier: seq<Rows>, times: nat,
                                          copies: seq<Query>, i: nat)
    requires |names| == |earlier|
    requires Activation(d, input) == Ok(Some(times)) && Expand(d, input, names) == Ok(copies)
    requires RunAll(engine, start, done) == Going(db, earlier)
    requires i <= times == |copies|
    ensures RunUpTo(engine, start, done + copies, |done| + i)
            == InterpretCopies(d, input, engine, db, names, earlier, times, i)
  {
    if i == 0 {
      NoCopyAgrees(d, input, engine, start, done, db, names, earlier, times, copies);
    } else {
      CopiesAgree(d, input, engine, start, done, db, names, earlier, times, copies, i - 1);
      assert (done + copies)[|done| + i - 1] == copies[i - 1];
      NextCopyAgrees(d, input, engine, start, done + copies, |done| + i - 1, db, names, earlier, times, copies, i - 1);
    }
  }

  lemma NoCopyAgrees<S>(d: QueryDef, input: Input, engine: Engine<S>, start: S, done: seq<Query>,
                        db: S, names: seq<QueryName>, earlier: seq<Rows>, times: nat, copies: seq<Query>)
    requires |names| == |earlier| && RunAll(engine, start, done) == Going(db, earlier)
    requires Activation(d, input) == Ok(Some(times)) && Expand(d, input, names) == Ok(copies)
    ensures RunUpTo(engine, start, done + copies, |done|)
            == InterpretCopies(d, input, engine, db, names, earlier, times, 0)
  {
    RunPrefix(engine, start, done, copies, |done|);
  }

  lemma NextCopyAgrees<S>(d: QueryDef, input: Input, engine: Engine<S>, start: S, all: seq<Query>, m: nat,
                          db: S, names: seq<QueryName>, earlier: seq<Rows>, times: nat, copies: seq<Query>, i: nat)
    requires |names| == |earlier| && i < times && |copies| == times && m < |all| && all[m] == copies[i]
    requires Activation(d, input) == Ok(Some(times)) && Expand(d, input, names) == Ok(copies)
    requires RunUpTo(engine, start, all, m) == InterpretCopies(d, input, engine, db, names, earlier, times, i)
    ensures RunUpTo(engine, start, all, m + 1) == InterpretCopies(d, input, engine, db, names, earlier, times, i + 1)
  {
    var before := InterpretCopies(d, input, engine, db, names, earlier, times, i);
    if before.Going? {
      CopyAgrees(d, input, names, earlier, before.results, times, copies, i);
    }
  }

  lemma CopyAgrees(d: QueryDef, input: Input, names: seq<QueryName>, earlier: seq<Rows>, now: seq<Rows>, times: nat,
                   copies: seq<Query>, i: nat)
    requires |names| == |earlier| <= |now| && now[..|earlier|] == earlier && i < times
    requires Activation(d, input) == Ok(Some(times)) && Expand(d, input, names) == Ok(copies)
    ensures |copies| == times && copies[i].text == d.text
    ensures EvaluateAll(Params(copies[i]), now) == Arguments(d, input, names, earlier, now, times, i)
  {
    ArgumentsAgree(d, input, names, earlier, now, times, i);
  }

  predicate WhileRunning(e: Error) {
    e == Backreference || e.QueryExecution?
  }

  /** A compiled run and a direct run agree: same state, results and error; and a template
      that cannot be compiled dies when interpreted, of the same fault unless a statement
      executed before reaching it has already failed. */
  ghost predicate Agree<S>(plan: Result<Plan>, engine: Engine<S>, db: S, direct: Direct<S>) {
    match plan
    case Err(e) => direct.Dead? && (direct.error == e || WhileRunning(direct.error))
    case Ok(p) =>
      match RunAll(engine, db, p.queries)
      case Stopped(e) => direct == Dead(e)
      case Going(next, results) => direct == Live(next, p.names, results)
  }

  /** A run that has stopped stays as it is, whatever is compiled after it. */
  lemma StoppedAgrees<S>(t: Template, input: Input, engine: Engine<S>, start: S, k: nat)
    requires Defined(t) && k < |t.order|
    requires Agree(PlanUpTo(t, input, k), engine, start, InterpretUpTo(t, input, engine, start, k))
    requires PlanUpTo(t, input, k).Ok? && RunAll(engine, start, PlanUpTo(t, input, k).value.queries).Stopped?
    ensures Agree(PlanUpTo(t, input, k + 1), engine, start, InterpretUpTo(t, input, engine, start, k + 1))
  {
    var p := PlanUpTo(t, input, k).value;
    var copies := Expand(t.dict[t.order[k]], input, p.names);
    if copies.Ok? {
      RunPrefix(engine, start, p.queries, copies.value, |p.queries|);
      RunStaysStopped(engine, start, p.queries + copies.value, |p.queries|, |p.queries + copies.value|);
    }
  }

  /** One query more, compiled and run as against interpreted. */
  lemma GoingQuery<S>(q: QueryName, d: QueryDef, input: Input, engine: Engine<S>, start: S, p: Plan, db: S,
                      earlier: seq<Rows>)
    requires |p.names| == |p.queries| && RunAll(engine, start, p.queries) == Going(db, earlier)
    ensures var copies, direct := Expand(d, input, p.names), InterpretQuery(q, d, input, engine, db, p.names, earlier);
            match copies
            case Err(e) => direct == Dead(e)
            case Ok(more) =>
              match RunAll(engine, start, p.queries + more)
              case Stopped(e) => direct == Dead(e)
              case Going(next, results) => direct == Live(next, p.names + seq(|more|, i => q), results)
  {
    var active := Activation(d, input);
    if active.Ok? && active.value.None? {
      assert p.queries + [] == p.queries && p.names + [] == p.names;
    } else if active.Ok? {
      var times := active.value.value;
      if d.values.Some? {
        FaultsAgree(d.values.value, input, p.names, earlier, times, |d.values.value|);
        assert d.values.value[..|d.values.value|] == d.values.value;
      }
      var copies := Expand(d, input, p.names);
      if copies.Ok? {
        CopiesCounted(d, input, p.names, times, copies.value);
        CopiesAgree(d, input, engine, start, p.queries, db, p.names, earlier, times, copies.value, times);
      }
    }
  }

  lemma GoingAgrees<S>(t: Template, input: Input, engine: Engine<S>, start: S, k: nat)
    requires Defined(t) && k < |t.order|
    requires Agree(PlanUpTo(t, input, k), engine, start, InterpretUpTo(t, input, engine, start, k))
    requires PlanUpTo(t, input, k).Ok? && RunAll(engine, start, PlanUpTo(t, input, k).value.queries).Going?
    ensures Agree(PlanUpTo(t, input, k + 1), engine, start, InterpretUpTo(t, input, engine, start, k + 1))
  {
    var p, q := PlanUpTo(t, input, k).value, t.order[k];
    var ran := RunAll(engine, start, p.queries);
    GoingQuery(q, t.dict[q], input, engine, start, p, ran.db, ran.results);
    var copies := Expand(t.dict[q], input, p.names);
    if copies.Ok? {
      assert PlanUpTo(t, input, k + 1).value == Plan(p.names + seq(|copies.value|, i => q), p.queries + copies.value);
    }
  }

  lemma QueryAgrees<S>(t: Template, input: Input, engine: Engine<S>, start: S, k: nat)
    requires Defined(t) && k < |t.order|
    requires Agree(PlanUpTo(t, input, k), engine, start, InterpretUpTo(t, input, engine, start, k))
    ensures Agree(PlanUpTo(t, input, k + 1), engine, start, InterpretUpTo(t, input, engine, start, k + 1))
  {
    var plan := PlanUpTo(t, input, k);
    if plan.Ok? {
      if RunAll(engine, start, plan.value.queries).Stopped? {
        StoppedAgrees(t, input, engine, start, k);
      } else {
        GoingAgrees(t, input, engine, start, k);
      }
    }
  }

  lemma NothingAgrees<S>(t: Template, input: Input, engine: Engine<S>, db: S)
    requires Defined(t)
    ensures Agree(PlanUpTo(t, input, 0), engine, db, InterpretUpTo(t, input, engine, db, 0))
  {
  }

  lemma {:induction false} CompiledUpTo<S>(t: Template, input: Input, engine: Engine<S>, db: S, k: nat)
    requires Defined(t) && k <= |t.order|
    ensures Agree(PlanUpTo(t, input, k), engine, db, InterpretUpTo(t, input, engine, db, k))
  {
    if k == 0 {
      NothingAgrees(t, input, engine, db);
    } else {
      CompiledUpTo(t, input, engine, db, k - 1);
      QueryAgrees(t, input, engine, db, k - 1);
    }
  }

  /** Compiler correctness, for every template whose queries exist, every input and every
      database.  In the second clause the condition is the direct run's own: it dies of a
      fault of construction only if the compiler refuses the template. */
  lemma CompilerCorrect<S>(t: Template, input: Input, engine: Engine<S>, db: S)
    requires Defined(t)
    ensures Agree(PlanOf(t, input), engine, db, Interpret(t, input, engine, db))
    ensures var direct := Interpret(t, input, engine, db);
            direct.Dead? && !WhileRunning(direct.error) ==> PlanOf(t, input) == Err(direct.error)
  {
    CompiledUpTo(t, input, engine, db, |t.order|);
  }
}
