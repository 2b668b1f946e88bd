/** `Pipeline.Store` (classes/pipeline.js): build a template's transaction, run it, and
    filter its results. */
module Store {
  import opened Values
  import opened Vocabulary
  import opened SqlTemplate
  import opened Execution
  import opened Database
  import opened Interpreter
  import opened PlanShape

  /** `prepAndReject`: constraint violations get error classes of their own. */
  function Translated(e: Error): Error {
    match e
    case QueryExecution(ForeignKeyViolation) => ForeignKey
    case QueryExecution(OwnerAgrees) => ForeignKey
    case QueryExecution(UniqueViolation) => UniqueConstraint
    case _ => e
  }

  function Delivered(t: Template, names: seq<QueryName>, outcome: Outcome): Outcome
    requires outcome.Ok? ==> |names| == |outcome.value|
  {
    if outcome.Err? then Err(Translated(outcome.error)) else Prepared(t, names, outcome.value)
  }

  /** A plan of one query goes to `simpleQuery`, a longer one to `complexQuery`. */
  function Executed<S>(engine: Engine<S>, faults: Faults, queries: seq<Query>, db: S): (r: (S, Outcome))
    requires queries != []
    ensures r.1.Ok? ==> |r.1.value| == |queries|
    ensures r.1.Err? ==> r.0 == db && r.1.error != EmptyResponse
  {
    if |queries| == 1 then Simple(engine, queries[0], db) else Complex(engine, faults, queries, db)
  }

  /** The state and the outcome that `Store` leaves. */
  function StoreOf<S>(t: Template, input: Input, engine: Engine<S>, faults: Faults, db: S): (S, Outcome)
    requires Defined(t)
  {
    match PlanOf(t, input)
    case Err(e) => (db, Err(e))
    case Ok(p) =>
      if |p.queries| == 0 then (db, Ok([]))
      else
        var ran := Executed(engine, faults, p.queries, db);
        (ran.0, Delivered(t, p.names, ran.1))
  }

  method Store<S>(server: Server<S>, engine: Engine<S>, faults: Faults, t: SQLTemplate, input: Input)
    returns (outcome: Outcome)
    requires Defined(t.Value()) && server.working.None?
    modifies server
    ensures (server.committed, outcome) == StoreOf(t.Value(), input, engine, faults, old(server.committed))
    ensures t.Value() == old(t.Value()) && server.working.None?
  {
    var built := t.Build(input);
    if built.Err? {
      return Err(built.error);
    }
    var names, transaction := built.value.names, built.value.queries;
    if |transaction.items| == 0 {
      return Ok([]);
    }
    if |transaction.items| == 1 {
      var first := transaction.items[0];
      outcome := SimpleQuery(server, engine, first.text, if first.values.Some? then first.values.value else []);
    } else {
      outcome := ComplexQuery(server, engine, faults, transaction);
    }
    if outcome.Err? {
      return Err(Translated(outcome.error));
    }
    outcome := t.PrepareResults(names, outcome.value);
  }

  // ---------------------------------------------------------------- the one-query path

  lemma {:induction false} Locate(t: Template, input: Input, n: nat, at: nat) returns (k: nat, i: nat)
    requires Defined(t) && n <= |t.order| && at < Offset(t, input, n)
    ensures k < n && i < Copies(t, input, k) && Offset(t, input, k) + i == at
  {
    if at < Offset(t, input, n - 1) {
      k, i := Locate(t, input, n - 1, at);
    } else {
      k, i := n - 1, at - Offset(t, input, n - 1);
    }
  }

  /** With no query before it, no callable of the template returns a function. */
  ghost predicate DefersOnlyLater(t: Template, input: Input)
    requires Defined(t)
  {
    forall k, c :: 0 <= k < |t.order| && t.dict[t.order[k]].values.Some?
                   && c in t.dict[t.order[k]].values.value && c.Callable? ==>
      !(c.f(input, []).Some? && c.f(input, []).value.Closure?)
  }

  /** The query at place 0 of a plan refers to nothing. */
  lemma FirstQueryIsPlain(t: Template, input: Input)
    requires Defined(t) && PlanOf(t, input).Ok? && PlanOf(t, input).value.queries != []
    ensures forall j :: 0 <= j < |Params(PlanOf(t, input).value.queries[0])| ==>
              !Params(PlanOf(t, input).value.queries[0])[j].Ref?
    ensures DefersOnlyLater(t, input) ==> AllPlain(PlanOf(t, input).value.queries[0])
  {
    PlanLength(t, input);
    var plan := PlanOf(t, input).value;
    var k, i := Locate(t, input, |t.order|, 0);
    ParameterMatrix(t, input, k, i);
    var d := t.dict[t.order[k]];
    if d.values.Some? {
      forall j | 0 <= j < |d.values.value|
        ensures !plan.queries[0].values.value[j].Ref?
        ensures DefersOnlyLater(t, input) ==> plan.queries[0].values.value[j].Plain?
      {
        var c := d.values.value[j];
        assert CompiledTo(t, input, k, i, plan.names, c, plan.queries[0].values.value[j]);
        if c.Callable? {
          assert plan.names[..Offset(t, input, k)] == [];
        }
      }
    }
  }

  /** `Store` runs a plan of one query without a transaction; that changes nothing, for
      templates whose callables defer only when there is something to defer to. */
  lemma FastPathAgrees<S>(t: Template, input: Input, engine: Engine<S>, db: S)
    requires Defined(t) && PlanOf(t, input).Ok? && PlanOf(t, input).value.queries != []
    requires DefersOnlyLater(t, input)
    ensures var p := PlanOf(t, input).value;
            var ran := Complex(engine, NO_FAULTS, p.queries, db);
            StoreOf(t, input, engine, NO_FAULTS, db) == (ran.0, Delivered(t, p.names, ran.1))
  {
    var p := PlanOf(t, input).value;
    if |p.queries| == 1 {
      FirstQueryIsPlain(t, input);
      SimpleIsComplex(engine, p.queries[0], db);
      assert p.queries == [p.queries[0]];
    }
  }

  /** `Store` gives a template its direct meaning: it resolves with the kept results of a
      direct run and leaves its state, or it rejects and leaves the state as it was (with
      EmptyResponseError as the exception, raised when the state is already new). */
  lemma StoreMeansInterpretation<S>(t: Template, input: Input, engine: Engine<S>, db: S)
    requires Defined(t) && DefersOnlyLater(t, input)
    ensures var (db', outcome) := StoreOf(t, input, engine, NO_FAULTS, db);
            match Interpret(t, input, engine, db)
            case Live(next, names, results) =>
              |names| == |results| && db' == next
              && (if results == [] then outcome == Ok([]) else outcome == Prepared(t, names, results))
            case Dead(e) =>
              db' == db && outcome.Err? && (PlanOf(t, input).Ok? ==> outcome.error == Translated(e))
  {
    CompilerCorrect(t, input, engine, db);
    if PlanOf(t, input).Ok? && PlanOf(t, input).value.queries != [] {
      FastPathAgrees(t, input, engine, db);
    }
  }

  // ---------------------------------------------------------------- results and errors

  /** The places of the queries that are not dropped. */
  function KeptPlaces(t: Template, names: seq<QueryName>): (places: seq<nat>)
    ensures forall r :: 0 <= r < |places| ==> places[r] < |names| && !Dropped(t, names[places[r]])
    ensures forall r, s :: 0 <= r < s < |places| ==> places[r] < places[s]
    ensures forall n :: 0 <= n < |names| && !Dropped(t, names[n]) ==> n in places
  {
    if names == [] then [] else
      var last := |names| - 1;
      KeptPlaces(t, names[..last]) + if Dropped(t, names[last]) then [] else [last]
  }

  /** What is kept is exactly the results of the queries that are not dropped, in order. */
  lemma {:induction false} KeptAreThePlaces(t: Template, names: seq<QueryName>, results: seq<Rows>)
    requires |names| == |results|
    ensures |Kept(t, names, results)| == |KeptPlaces(t, names)|
    ensures forall r :: 0 <= r < |KeptPlaces(t, names)| ==>
              Kept(t, names, results)[r] == results[KeptPlaces(t, names)[r]]
  {
    if names != [] {
      KeptAreThePlaces(t, names[..|names| - 1], results[..|names| - 1]);
    }
  }

  /** Exactly when `Store` rejects with EmptyResponseError: the transaction took effect, and
      no query that is not dropped returned a row.  Every other error leaves the state alone. */
  lemma ErrorsAndEffects<S>(t: Template, input: Input, engine: Engine<S>, faults: Faults, db: S)
    requires Defined(t)
    ensures var (db', outcome) := StoreOf(t, input, engine, faults, db);
            && (outcome.Err? && outcome.error != EmptyResponse ==> db' == db)
            && (outcome == Err(EmptyResponse) <==>
                  && PlanOf(t, input).Ok? && PlanOf(t, input).value.queries != [] && t.errorOnEmptyResponse
                  && var p := PlanOf(t, input).value;
                     var ran := Executed(engine, faults, p.queries, db);
                     ran.1.Ok? && db' == ran.0
                     && forall n :: 0 <= n < |p.names| && !Dropped(t, p.names[n]) ==> ran.1.value[n] == [])
  {
    var plan := PlanOf(t, input);
    if plan.Err? {
      if PlanUpTo(t, input, |t.order|).Err? {
        FaultsOfBuild(t, input, |t.order|);
      }
    } else if plan.value.queries != [] {
      var ran := Executed(engine, faults, plan.value.queries, db);
      if ran.1.Ok? {
        EmptyExactly(t, plan.value.names, ran.1.value);
      }
    }
  }

  lemma EmptyExactly(t: Template, names: seq<QueryName>, results: seq<Rows>)
    requires |names| == |results|
    ensures Prepared(t, names, results) == Err(EmptyResponse) <==>
            t.errorOnEmptyResponse && forall n :: 0 <= n < |names| && !Dropped(t, names[n]) ==> results[n] == []
  {
    KeptAreThePlaces(t, names, results);
    var kept, places := Kept(t, names, results), KeptPlaces(t, names);
    if forall rows :: rows in kept ==> rows == [] {
      forall n | 0 <= n < |names| && !Dropped(t, names[n])
        ensures results[n] == []
      {
        var r :| 0 <= r < |places| && places[r] == n;
        assert kept[r] in kept;
      }
    } else {
      var r :| 0 <= r < |kept| && kept[r] != [];
      assert !Dropped(t, names[places[r]]);
    }
  }

  lemma {:induction false} FaultsOfBuild(t: Template, input: Input, k: nat)
    requires Defined(t) && k <= |t.order| && PlanUpTo(t, input, k).Err?
    ensures PlanUpTo(t, input, k).error.QueryConstruction?
  {
    if PlanUpTo(t, input, k - 1).Err? {
      FaultsOfBuild(t, input, k - 1);
    }
  }
}
