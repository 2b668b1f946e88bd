/** What executing a list of built queries means, whatever the database: the meaning
    that classes/database.js gives to a plan, without the transaction protocol. */
module Execution {
  import opened Values
  import opened Vocabulary
  import opened SqlTemplate

  /** The database's answer to one statement. */
  datatype Reply<+S> = Done(db: S, rows: Rows) | Refused(code: PgCode)

  /** A database: the n-th statement of a transaction, run on a state, either fails or
      yields the next state and the returned rows.  The position lets a database fail at
      any chosen point of a transaction. */
  type Engine<!S> = (nat, S, Sql, seq<Val>) -> Reply<S>

  datatype Progress<+S> = Going(db: S, results: seq<Rows>) | Stopped(error: Error)

  /** `rows[0][column]`, with both a TypeError and undefined as None. */
  function FirstCell(rows: Rows, column: Key): Option<Val> {
    if rows == [] || column !in rows[0] || rows[0][column].Undef? then None else Some(rows[0][column])
  }

  function Evaluate(p: Param, results: seq<Rows>): Option<Val> {
    match p
    case Plain(v) => Some(v)
    case Deferred(f) => if f(results) == Some(Undef) then None else f(results)
    case Ref(index, column) => if index < |results| then FirstCell(results[index], column) else None
  }

  function EvaluateAll(ps: seq<Param>, results: seq<Rows>): Option<seq<Val>> {
    if forall j :: 0 <= j < |ps| ==> Evaluate(ps[j], results).Some? then
      Some(seq(|ps|, j requires 0 <= j < |ps| && Evaluate(ps[j], results).Some? => Evaluate(ps[j], results).value))
    else None
  }

  function Params(q: Query): seq<Param> {
    if q.values.Some? then q.values.value else []
  }

  function RunStatement<S>(engine: Engine<S>, db: S, results: seq<Rows>, text: Sql,
                           args: Option<seq<Val>>): Progress<S> {
    if args.None? then Stopped(Backreference)
    else
      match engine(|results|, db, text, args.value)
      case Refused(code) => Stopped(QueryExecution(code))
      case Done(next, rows) => Going(next, results + [rows])
  }

  /** The first m queries, each on the results of those before it. */
  function RunUpTo<S>(engine: Engine<S>, db: S, queries: seq<Query>, m: nat): (r: Progress<S>)
    requires m <= |queries|
    ensures r.Going? ==> |r.results| == m
    ensures r.Stopped? ==> r.error == Backreference || r.error.QueryExecution?
  {
    if m == 0 then Going(db, []) else
      var before := RunUpTo(engine, db, queries, m - 1);
      if before.Stopped? then before
      else RunStatement(engine, before.db, before.results, queries[m - 1].text,
                        EvaluateAll(Params(queries[m - 1]), before.results))
  }

  function RunAll<S>(engine: Engine<S>, db: S, queries: seq<Query>): Progress<S> {
    RunUpTo(engine, db, queries, |queries|)
  }

  lemma {:induction false} RunPrefix<S>(engine: Engine<S>, db: S, queries: seq<Query>, more: seq<Query>, m: nat)
    requires m <= |queries|
    ensures RunUpTo(engine, db, queries + more, m) == RunUpTo(engine, db, queries, m)
  {
    if m > 0 {
      RunPrefix(engine, db, queries, more, m - 1);
      assert (queries + more)[m - 1] == queries[m - 1];
    }
  }

  lemma {:induction false} RunStaysStopped<S>(engine: Engine<S>, db: S, queries: seq<Query>, m: nat, n: nat)
    requires m <= n <= |queries|
    requires RunUpTo(engine, db, queries, m).Stopped?
    ensures RunUpTo(engine, db, queries, n) == RunUpTo(engine, db, queries, m)
    decreases n - m
  {
    if m < n {
      RunStaysStopped(engine, db, queries, m + 1, n);
    }
  }

  /** A run that got to n had got to every m before it, with a prefix of the results. */
  lemma {:induction false} RunWasGoing<S>(engine: Engine<S>, db: S, queries: seq<Query>, m: nat, n: nat)
    requires m <= n <= |queries|
    requires RunUpTo(engine, db, queries, n).Going?
    ensures RunUpTo(engine, db, queries, m).Going?
    ensures RunUpTo(engine, db, queries, n).results[..m] == RunUpTo(engine, db, queries, m).results
    decreases n - m
  {
    if m < n {
      RunWasGoing(engine, db, queries, m, n - 1);
    }
  }
}
