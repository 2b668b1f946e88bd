/** Requests that are answered otherwise than docs/oas.yaml says, and exactly when. */
module Deviations {
  import opened Values
  import opened Vocabulary
  import opened SqlTemplate
  import opened PlanShape
  import opened Execution
  import opened Database
  import opened Store
  import opened Schema
  import opened Statements
  import opened Invariants
  import opened Templates
  import opened Builds
  import opened Transactions
  import opened Closing
  import opened Listings
  import opened CreateAccount
  import opened ResponseSchemas
  import Response

  /** A database that refuses nothing of its own accord. */
  ghost predicate Unfailing(env: Env) {
    env.faults == NO_FAULTS && forall n, t, sql, ps :: env.refuse(n, t, sql, ps).None?
  }

  lemma StatementRuns(env: Env, t: Tables, queries: seq<Query>, m: nat, args: seq<Val>)
    requires Unfailing(env) && m < |queries| && RunUpTo(EngineOf(env), t, queries, m).Going?
    requires EvaluateAll(Params(queries[m]), RunUpTo(EngineOf(env), t, queries, m).results) == Some(args)
    ensures var before := RunUpTo(EngineOf(env), t, queries, m);
            var effect := Exec(env, before.db, queries[m].text, args);
            RunUpTo(EngineOf(env), t, queries, m + 1) ==
              match effect
              case Refused(code) => Stopped(QueryExecution(code))
              case Done(next, rows) => Going(next, before.results + [rows])
  {
  }

  /** On such a database `Store` is the run of its plan, whatever its length. */
  lemma StoreIsRun(template: Template, input: Input, env: Env, t: Tables)
    requires Unfailing(env) && Defined(template) && PlanOf(template, input).Ok?
    requires PlanOf(template, input).value.queries != [] && AllPlain(PlanOf(template, input).value.queries[0])
    ensures var plan := PlanOf(template, input).value;
            var run := RunAll(EngineOf(env), t, plan.queries);
            StoreOf(template, input, EngineOf(env), env.faults, t)
            == if run.Stopped? then (t, Err(Translated(run.error)))
               else (run.db, Prepared(template, plan.names, run.results))
  {
    var plan := PlanOf(template, input).value;
    if |plan.queries| == 1 {
      SimpleIsComplex(EngineOf(env), plan.queries[0], t);
      assert plan.queries == [plan.queries[0]];
    }
  }

  /** One statement more goes through. */
  lemma RunGoes(env: Env, t: Tables, qs: seq<Query>, m: nat, s: Tables, results: seq<Rows>, args: seq<Val>, s': Tables,
                rows: Rows)
    requires Unfailing(env) && m < |qs| && RunUpTo(EngineOf(env), t, qs, m) == Going(s, results)
    requires EvaluateAll(Params(qs[m]), results) == Some(args) && Exec(env, s, qs[m].text, args) == Done(s', rows)
    ensures RunUpTo(EngineOf(env), t, qs, m + 1) == Going(s', results + [rows])
  {
    StatementRuns(env, t, qs, m, args);
  }

  /** A statement that is refused is the end of the run. */
  lemma RunStops(env: Env, t: Tables, qs: seq<Query>, m: nat, s: Tables, results: seq<Rows>, args: seq<Val>,
                 code: PgCode)
    requires Unfailing(env) && m < |qs| && RunUpTo(EngineOf(env), t, qs, m) == Going(s, results)
    requires EvaluateAll(Params(qs[m]), results) == Some(args) && Exec(env, s, qs[m].text, args) == Refused(code)
    ensures forall n :: m < n <= |qs| ==> RunUpTo(EngineOf(env), t, qs, n) == Stopped(QueryExecution(code))
  {
    StatementRuns(env, t, qs, m, args);
    forall n | m < n <= |qs|
      ensures RunUpTo(EngineOf(env), t, qs, n) == Stopped(QueryExecution(code))
    {
      RunStaysStopped(EngineOf(env), t, qs, m + 1, n);
    }
  }

  /** All results are empty: `Store` rejects, after the fact. */
  lemma EmptyIsRejected(template: Template, input: Input, env: Env, t: Tables, t': Tables, results: seq<Rows>)
    requires Defined(template) && PlanOf(template, input).Ok? && PlanOf(template, input).value.queries != []
    requires template.errorOnEmptyResponse && forall n :: 0 <= n < |results| ==> results[n] == []
    requires Executed(EngineOf(env), env.faults, PlanOf(template, input).value.queries, t) == (t', Ok(results))
    ensures StoreOf(template, input, EngineOf(env), env.faults, t) == (t', Err(EmptyResponse))
  {
    EmptyExactly(template, PlanOf(template, input).value.names, results);
  }

  lemma FailureIsRejected(template: Template, input: Input, env: Env, t: Tables, e: Error)
    requires Defined(template) && PlanOf(template, input).Ok? && PlanOf(template, input).value.queries != []
    requires Executed(EngineOf(env), env.faults, PlanOf(template, input).value.queries, t) == (t, Err(e))
    ensures StoreOf(template, input, EngineOf(env), env.faults, t) == (t, Err(Translated(e)))
  {
  }

  // ---------------------------------------------------------------- close-account

  lemma CloseAccountBuilds(input: Input)
    requires Usable(input)
    ensures Defined(CloseAccountTemplate()) && PlanOf(CloseAccountTemplate(), input).Ok?
    ensures CloseAccountTemplate().errorOnEmptyResponse
  {
    ShippedTemplatesBuild(CloseAccountAction, input);
  }

  lemma DeletionRuns(env: Env, t: Tables, v: Val, n: int)
    requires AccountsOk(t) && AsInt(v) == Int(n)
    ensures Exec(env, t, DeleteAccount, [v])
         == if Live(t, n) then Done(Deleted(t, n, env.now), Returning(COL_USER_ID, n)) else Done(t, [])
  {
    if Live(t, n) {
      assert Filled(t.accounts.rows[n]);
    }
  }

  lemma ClosingsRun(env: Env, t: Tables, v: Val, n: int) returns (t1: Tables)
    requires ListingsOk(t) && AsInt(v) == Int(n)
    ensures Exec(env, t, CloseAccountListings, [v]) == Done(t1, [])
    ensures Exec(env, t1, CloseAccountConversations, [v]) == Done(Closings(t, n, env.now), [])
  {
    assert forall l :: l in t.listings.rows ==> ListingViolation(t, t.listings.rows[l]).None?;
    t1 := CloseListingsOf(t, Int(n), env.now).db;
    ClosingsAre(t, t1, CloseConversationsOf(t1, Int(n), env.now).db, n, env.now);
  }

  lemma DeletedListingsOk(t: Tables, n: int, now: nat)
    requires ListingsOk(t) && n in t.accounts.rows
    ensures ListingsOk(Deleted(t, n, now))
  {
    forall l | l in t.listings.rows
      ensures ListingViolation(Deleted(t, n, now), t.listings.rows[l]).None?
    {
      assert ListingViolation(t, t.listings.rows[l]).None?;
    }
  }

  lemma ClosingRuns(env: Env, t: Tables, qs: seq<Query>, v: Val, n: int)
    requires Unfailing(env) && AccountsOk(t) && ListingsOk(t) && |qs| == 3 && AsInt(v) == Int(n)
    requires qs[0].text == DeleteAccount && qs[1].text == CloseAccountListings
    requires qs[2].text == CloseAccountConversations
    requires Params(qs[0]) == Params(qs[1]) == Params(qs[2]) == [Plain(v)]
    ensures RunAll(EngineOf(env), t, qs)
         == Going(AfterClosing(t, n, env.now), [if Live(t, n) then Returning(COL_USER_ID, n) else [], [], []])
  {
    var one, first := [v], if Live(t, n) then Returning(COL_USER_ID, n) else [];
    var t0 := if Live(t, n) then Deleted(t, n, env.now) else t;
    forall results: seq<Rows>
      ensures EvaluateAll([Plain(v)], results) == Some(one)
    {
      assert EvaluateAll([Plain(v)], results).value == one;
    }
    DeletionRuns(env, t, v, n);
    if Live(t, n) {
      DeletedListingsOk(t, n, env.now);
    }
    var t1 := ClosingsRun(env, t0, v, n);
    assert RunUpTo(EngineOf(env), t, qs, 0) == Going(t, []);
    StatementRuns(env, t, qs, 0, one);
    assert RunUpTo(EngineOf(env), t, qs, 1) == Going(t0, [] + [first]);
    StatementRuns(env, t, qs, 1, one);
    StatementRuns(env, t, qs, 2, one);
  }

  predicate StampsListing(t: Tables, l: int, n: int, now: nat) {
    l in t.listings.rows && t.listings.rows[l].contributor == n && t.listings.rows[l].closed != Some(now)
  }

  /** Something of the account is open, or was closed at another time. */
  ghost predicate StillToClose(t: Tables, n: int, now: nat) {
    || (exists l :: StampsListing(t, l, n, now))
    || (exists c :: c in t.conversations.rows && PartyOf(t, c, n) && t.conversations.rows[c].closed != Some(now))
  }

  lemma SameDate(l: Listing, now: nat)
    ensures l.closed == Some(now) ==> l.(closed := Some(now)) == l
  {
  }

  lemma ClosingChanges(t: Tables, n: int, now: nat)
    ensures Closings(t, n, now) != t <==> StillToClose(t, n, now)
  {
    var t' := Closings(t, n, now);
    if !StillToClose(t, n, now) {
      forall l | l in t.listings.rows
        ensures t'.listings.rows[l] == t.listings.rows[l]
      {
        assert !StampsListing(t, l, n, now);
        SameDate(t.listings.rows[l], now);
      }
      forall c | c in t.conversations.rows
        ensures t'.conversations.rows[c] == t.conversations.rows[c]
      {
        assert PartyOf(t, c, n) ==> t.conversations.rows[c].closed == Some(now);
      }
      assert t'.listings.rows == t.listings.rows && t'.conversations.rows == t.conversations.rows;
    } else if exists l :: StampsListing(t, l, n, now) {
      var l :| StampsListing(t, l, n, now);
      assert t'.listings.rows[l] != t.listings.rows[l];
    } else {
      var c :| c in t.conversations.rows && PartyOf(t, c, n) && t.conversations.rows[c].closed != Some(now);
      assert t'.conversations.rows[c] != t.conversations.rows[c];
    }
  }

  /** The store stage for an id: it succeeds exactly for an account that is not deleted.  For
      any other the caller gets EmptyResponseError, that is 404 and not the documented 409; and
      yet the transaction took effect, as when two requests to close an account have passed the
      password check: it has closed whatever the account has opened in the meantime, and has
      stamped anew what was closed before. */
  lemma CloseAccountExactly(env: Env, input: Input, t: Tables, n: int)
    requires Unfailing(env) && Inv(t) && Usable(input) && AsInt(InputValue(input, ACCOUNT_ID, 1, 0)) == Int(n)
    ensures Defined(CloseAccountTemplate())
    ensures var (t', outcome) := StoreOf(CloseAccountTemplate(), input, EngineOf(env), env.faults, t);
            && (if Live(t, n) then outcome == Ok([Returning(COL_USER_ID, n)]) else outcome == Err(EmptyResponse))
            && t' == AfterClosing(t, n, env.now)
            && EverythingOfClosed(t, t', n, env.now) && OnlyAccountDeleted(t, t', n, env.now)
            && (outcome.Err? ==> (t' != t <==> StillToClose(t, n, env.now)))
    ensures Response.StatusOf(Statuses(CloseAccountAction), Some(EmptyResponse)) == 404
  {
    CloseAccountBuilds(input);
    CloseAccountStores(env, input, t, n);
    AgainIsNotFound();
    ClosingChanges(t, n, env.now);
    ClosingColumnByColumn(t, n, env.now);
  }

  lemma CloseAccountStores(env: Env, input: Input, t: Tables, n: int)
    requires Unfailing(env) && AccountsOk(t) && ListingsOk(t) && AsInt(InputValue(input, ACCOUNT_ID, 1, 0)) == Int(n)
    requires Defined(CloseAccountTemplate()) && PlanOf(CloseAccountTemplate(), input).Ok?
    requires CloseAccountTemplate().errorOnEmptyResponse
    ensures StoreOf(CloseAccountTemplate(), input, EngineOf(env), env.faults, t)
         == (AfterClosing(t, n, env.now), if Live(t, n) then Ok([Returning(COL_USER_ID, n)]) else Err(EmptyResponse))
  {
    var template := CloseAccountTemplate();
    var v := CloseAccountPlan(input);
    var plan := PlanOf(template, input).value;
    ClosingRuns(env, t, plan.queries, v, n);
    CloseAccountDrops(input);
    RunIsStored(template, env, input, t);
    PreparedFirst(template, plan.names, RunAll(EngineOf(env), t, plan.queries).results);
  }

  /** When only the first result is kept, it alone decides. */
  lemma PreparedFirst(template: Template, names: seq<QueryName>, results: seq<Rows>)
    requires template.errorOnEmptyResponse && |names| == |results| > 0
    requires forall k :: 0 <= k < |names| ==> (Dropped(template, names[k]) <==> k != 0)
    ensures Prepared(template, names, results) == if results[0] == [] then Err(EmptyResponse) else Ok([results[0]])
  {
    OnlyOneKept(template, names, results, 0);
    assert results[0] in [results[0]];
  }

  /** A run that gets through is committed, and its kept results decide. */
  lemma RunIsStored(template: Template, env: Env, input: Input, t: Tables)
    requires Unfailing(env) && Defined(template) && PlanOf(template, input).Ok?
    requires |PlanOf(template, input).value.queries| > 1
    requires RunAll(EngineOf(env), t, PlanOf(template, input).value.queries).Going?
    ensures var plan := PlanOf(template, input).value;
            var run := RunAll(EngineOf(env), t, plan.queries);
            StoreOf(template, input, EngineOf(env), env.faults, t)
            == (run.db, Prepared(template, plan.names, run.results))
  {
  }

  /** Only the result of close_account is not dropped. */
  lemma CloseAccountDrops(input: Input)
    requires Defined(CloseAccountTemplate()) && PlanOf(CloseAccountTemplate(), input).Ok?
    ensures var names := PlanOf(CloseAccountTemplate(), input).value.names;
            |names| == 3 && forall k :: 0 <= k < 3 ==> (Dropped(CloseAccountTemplate(), names[k]) <==> k != 0)
  {
    var t := CloseAccountTemplate();
    var v := CloseAccountPlan(input);
    PlanLength(t, input);
    assert Copies(t, input, 0) == 1;
    forall at | 0 <= at < 3
      ensures Dropped(t, PlanOf(t, input).value.names[at]) <==> at != 0
    {
      CloseAccountDropped(input, at);
    }
  }

  lemma CloseAccountDropped(input: Input, at: nat)
    requires Defined(CloseAccountTemplate()) && PlanOf(CloseAccountTemplate(), input).Ok?
    requires at < |PlanOf(CloseAccountTemplate(), input).value.names|
    ensures Dropped(CloseAccountTemplate(), PlanOf(CloseAccountTemplate(), input).value.names[at]) <==> at != 0
  {
    var t := CloseAccountTemplate();
    PlanLength(t, input);
    assert |t.order| == 3 && Copies(t, input, 0) == 1;
    var k, i := Locate(t, input, 3, at);
    ParameterMatrix(t, input, k, i);
  }

  /** And for what is not an id: nothing happens, and it fails as well. */
  lemma CloseAccountNeedsId(env: Env, input: Input, t: Tables)
    requires Usable(input) && !AsInt(InputValue(input, ACCOUNT_ID, 1, 0)).Int?
    ensures Defined(CloseAccountTemplate())
    ensures StoreOf(CloseAccountTemplate(), input, EngineOf(env), env.faults, t).0 == t
    ensures StoreOf(CloseAccountTemplate(), input, EngineOf(env), env.faults, t).1.Err?
  {
    CloseAccountBuilds(input);
    var (t', outcome) := StoreOf(CloseAccountTemplate(), input, EngineOf(env), env.faults, t);
    var plan := PlanOf(CloseAccountTemplate(), input).value;
    var v := CloseAccountPlan(input);
    StoreCommits(env, CloseAccountTemplate(), input, t);
    if t' != t || outcome.Ok? {
      CloseAccountLeaves(env, input, t, t');
      CloseAccountDrops(input);
      OnlyOneKept(CloseAccountTemplate(), plan.names, ResultsOf(env, t, plan.queries, t'), 0);
    }
  }

  lemma AgainIsNotFound()
    ensures Response.StatusOf(Statuses(CloseAccountAction), Some(EmptyResponse)) == 404
  {
  }

  /** Such a state: an account was closed, and has an open listing. */
  function ClosedAccountWithListing(): Tables {
    Tables(
      Table(map[1 := Account(Str("a"), Str("a@b"), Str("h"), Str("d"), Some(1))], 2),
      Table(map[1 := Schema.Address(Str("c"), Str("r"), Str("p"), 1)], 2),
      Table(map[1 := Listing(1, Str("t"), Str("d"), Str("new"), 1, None, None, None)], 2),
      Table(map[], 1), Table(map[], 1), {}, map[], map[], map[], 1, {})
  }

  lemma ClosedAccountInv()
    ensures Inv(ClosedAccountWithListing())
  {
  }

  /** An error response does not mean an unchanged database. */
  lemma ErrorAfterEffect(env: Env)
    requires Unfailing(env)
    ensures Defined(CloseAccountTemplate()) && Inv(ClosedAccountWithListing()) && Open(ClosedAccountWithListing(), 1)
    ensures var (t', outcome) := StoreOf(CloseAccountTemplate(), map[ACCOUNT_ID := Num(1)], EngineOf(env), env.faults,
                                         ClosedAccountWithListing());
            outcome == Err(EmptyResponse) && !Open(t', 1)
  {
    var t := ClosedAccountWithListing();
    ClosedAccountInv();
    CloseAccountExactly(env, map[ACCOUNT_ID := Num(1)], t, 1);
  }

  /** A live account, with a listing that was closed at time 1. */
  function AccountWithClosedListing(): Tables {
    var t := ClosedAccountWithListing();
    t.(accounts := Table(map[1 := t.accounts.rows[1].(deleted := None)], 2),
       listings := Table(map[1 := t.listings.rows[1].(closed := Some(1))], 2))
  }

  lemma ClosedListingInv()
    ensures Inv(AccountWithClosedListing()) && Live(AccountWithClosedListing(), 1)
    ensures AccountWithClosedListing().listings.rows[1].contributor == 1
  {
  }

  /** The date of closing is not final: closing the account overwrites it. */
  lemma ClosingDateMoves(env: Env)
    requires Unfailing(env)
    ensures Defined(CloseAccountTemplate()) && Inv(AccountWithClosedListing())
    ensures var t := AccountWithClosedListing();
            var (t', outcome) := StoreOf(CloseAccountTemplate(), map[ACCOUNT_ID := Num(1)], EngineOf(env), env.faults,
                                         t);
            outcome.Ok? && t.listings.rows[1].closed == Some(1) && 1 in t'.listings.rows
            && t'.listings.rows[1].closed == Some(env.now)
  {
    var t := AccountWithClosedListing();
    ClosedListingInv();
    CloseAccountExactly(env, map[ACCOUNT_ID := Num(1)], t, 1);
  }

  // ---------------------------------------------------------------- create-account

  /** What create-account is sent for a new account. */
  ghost predicate CompleteAccount(input: Input) {
    !IsNull(InputValue(input, NAME, 1, 0)) && !IsNull(InputValue(input, EMAIL, 1, 0))
    && !IsNull(InputValue(input, PASS_HASH, 1, 0)) && !IsNull(InputValue(input, DOB, 1, 0))
  }

  /** An email address that is taken: nothing happens, and the documented 409 is answered
      exactly if neither an address nor a picture came along; otherwise the reference to the
      id of the account that was not created fails, and 500 is answered. */
  lemma TakenEmail(env: Env, input: Input, t: Tables, a: int)
    requires Unfailing(env) && Usable(input) && CompleteAccount(input)
    requires a in t.accounts.rows && t.accounts.rows[a].email == InputValue(input, EMAIL, 1, 0)
    ensures Defined(CreateAccountTemplate())
    ensures var alone := ADDRESS !in input && URL !in input;
            var (t', outcome) := StoreOf(CreateAccountTemplate(), input, EngineOf(env), env.faults, t);
            t' == t && outcome.Err?
            && outcome.error == (if alone then EmptyResponse else Backreference)
            && Response.StatusOf(Statuses(CreateAccountAction), Some(outcome.error)) == (if alone then 409 else 500)
  {
    CreateAccountBuilds(input);
    CreateAccountPlan(input);
    TakenEmailRun(env, t, PlanOf(CreateAccountTemplate(), input).value.queries, input);
    TakenEmailStatus();
    if ADDRESS !in input && URL !in input {
      EmptyIsRejected(CreateAccountTemplate(), input, env, t, t, [[]]);
    } else {
      FailureIsRejected(CreateAccountTemplate(), input, env, t, Backreference);
    }
  }

  lemma CreateAccountBuilds(input: Input)
    requires Usable(input)
    ensures Defined(CreateAccountTemplate()) && PlanOf(CreateAccountTemplate(), input).Ok?
    ensures CreateAccountTemplate().errorOnEmptyResponse
  {
    ShippedTemplatesBuild(CreateAccountAction, input);
  }

  lemma TakenEmailStatus()
    ensures Response.StatusOf(Statuses(CreateAccountAction), Some(EmptyResponse)) == 409
    ensures Response.StatusOf(Statuses(CreateAccountAction), Some(Backreference)) == 500
  {
  }

  lemma NothingInserted(env: Env, t: Tables, args: seq<Val>)
    requires |args| == 4 && !IsNull(args[0]) && !IsNull(args[1]) && !IsNull(args[2]) && !IsNull(args[3])
    requires exists a :: a in t.accounts.rows && t.accounts.rows[a].email == args[1]
    ensures Exec(env, t, InsertAccount, args) == Done(t, [])
  {
  }

  lemma TakenEmailRun(env: Env, t: Tables, qs: seq<Query>, input: Input)
    requires Unfailing(env) && CompleteAccount(input) && CreatesAccount(qs, input)
    requires exists a :: a in t.accounts.rows && t.accounts.rows[a].email == InputValue(input, EMAIL, 1, 0)
    ensures Executed(EngineOf(env), env.faults, qs, t) == if |qs| == 1 then (t, Ok([[]])) else (t, Err(Backreference))
  {
    var args := [InputValue(input, NAME, 1, 0), InputValue(input, EMAIL, 1, 0), InputValue(input, PASS_HASH, 1, 0),
                 InputValue(input, DOB, 1, 0)];
    NothingInserted(env, t, args);
    if |qs| == 1 {
      assert RawAll(Params(qs[0])) == args;
    } else {
      assert EvaluateAll(Params(qs[0]), []).value == args;
      var ps := Params(qs[1]);
      assert ps[|ps| - 1] == Ref(0, COL_USER_ID);
      NothingToReferTo(env, t, qs, args, |ps| - 1);
    }
  }

  /** A first statement without a row, and a second one that refers to it. */
  lemma NothingToReferTo(env: Env, t: Tables, qs: seq<Query>, args: seq<Val>, j: nat)
    requires Unfailing(env) && |qs| > 1 && EvaluateAll(Params(qs[0]), []) == Some(args)
    requires Exec(env, t, qs[0].text, args) == Done(t, [])
    requires j < |Params(qs[1])| && Params(qs[1])[j].Ref? && Params(qs[1])[j].index == 0
    ensures RunAll(EngineOf(env), t, qs) == Stopped(Backreference)
  {
    assert RunUpTo(EngineOf(env), t, qs, 0) == Going(t, []);
    StatementRuns(env, t, qs, 0, args);
    assert Evaluate(Params(qs[1])[j], [[]]).None?;
    assert RunUpTo(EngineOf(env), t, qs, 2) == Stopped(Backreference);
    RunStaysStopped(EngineOf(env), t, qs, 2, |qs|);
  }
}
