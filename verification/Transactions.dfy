/** What the transactions of the shipped templates keep: the invariant of the tables, and
    everything that must never change. */
module Transactions {
  import opened Values
  import opened Vocabulary
  import opened SqlTemplate
  import opened PlanShape
  import opened Execution
  import opened Database
  import opened Store
  import opened Schema
  import opened Statements
  import opened Invariants
  import opened Runs
  import opened Templates
  import opened Builds

  // ---------------------------------------------------------------- harmless plans

  /** A statement that can neither leave an open conversation about a closed listing nor a
      gap between the media of a listing. */
  predicate Harmless(sql: Sql) {
    !sql.CloseListing? && !sql.CloseAccountListings? && !sql.InsertListingMedia? && !sql.UpsertListingMedia?
  }

  lemma HarmlessPrefix(env: Env, queries: seq<Query>, states: seq<Tables>, results: seq<Rows>, m: nat)
    requires Chain(env, queries, states, results) && Inv(states[0]) && m <= |queries|
    requires forall k :: 0 <= k < m ==> Harmless(queries[k].text)
    ensures Inv(states[m]) && Later(states[0], states[m])
  {
    ChainKeepsBase(env, queries, states, results, m);
    ChainKeeps(env, queries, states, results, m);
    ChainFollows(env, queries, states, results, m);
    ChainContiguous(env, queries, states, results, m);
  }

  lemma HarmlessStep(env: Env, t: Tables, sql: Sql, ps: seq<Val>)
    requires Inv(t) && Harmless(sql)
    ensures var effect := Exec(env, t, sql, ps); effect.Done? ==> Inv(effect.db) && Later(t, effect.db)
  {
    ExecKeeps(env, t, sql, ps);
    ExecFollows(env, t, sql, ps);
    ExecContiguous(env, t, sql, ps);
  }

  /** t' is what committing the plan on t leaves. */
  ghost predicate Commits(env: Env, t: Tables, queries: seq<Query>, t': Tables) {
    if |queries| == 1 then
      var effect := Exec(env, t, queries[0].text, RawAll(Params(queries[0])));
      effect.Done? && effect.db == t'
    else
      var r := RunAll(EngineOf(env), t, queries);
      |queries| > 0 && r.Going? && r.db == t'
  }

  /** The results of a committed plan. */
  ghost function ResultsOf(env: Env, t: Tables, queries: seq<Query>, t': Tables): (results: seq<Rows>)
    requires Commits(env, t, queries, t')
    ensures |results| == |queries|
  {
    if |queries| == 1 then [Exec(env, t, queries[0].text, RawAll(Params(queries[0]))).rows]
    else RunAll(EngineOf(env), t, queries).results
  }

  /** `Store` leaves the tables alone or commits the plan; and when it resolves, it has done
      so and returns the kept results. */
  lemma StoreCommits(env: Env, template: Template, input: Input, t: Tables)
    requires Defined(template)
    ensures var (t', outcome) := StoreOf(template, input, EngineOf(env), env.faults, t);
            t' == t || (PlanOf(template, input).Ok? && Commits(env, t, PlanOf(template, input).value.queries, t'))
    ensures var (t', outcome) := StoreOf(template, input, EngineOf(env), env.faults, t);
            outcome.Ok? && PlanOf(template, input).value.queries != [] ==>
              var p := PlanOf(template, input).value;
              Commits(env, t, p.queries, t') && outcome == Ok(Kept(template, p.names, ResultsOf(env, t, p.queries, t')))
  {
  }

  /** A committed transaction of several statements, as the states it went through. */
  lemma CommitIsChain(env: Env, t: Tables, queries: seq<Query>, t': Tables)
    returns (states: seq<Tables>, results: seq<Rows>)
    requires Commits(env, t, queries, t') && |queries| != 1
    ensures Chain(env, queries, states, results) && states[0] == t && states[|queries|] == t'
    ensures results == ResultsOf(env, t, queries, t')
  {
    states := RunIsChain(env, t, queries, |queries|);
    results := RunAll(EngineOf(env), t, queries).results;
    assert queries[..|queries|] == queries;
  }

  /** The same for a transaction of any length whose first query holds no function. */
  lemma CommitAsChain(env: Env, t: Tables, queries: seq<Query>, t': Tables)
    returns (states: seq<Tables>, results: seq<Rows>)
    requires Commits(env, t, queries, t') && AllPlain(queries[0])
    ensures Chain(env, queries, states, results) && states[0] == t && states[|queries|] == t'
    ensures results == ResultsOf(env, t, queries, t')
  {
    if |queries| == 1 {
      states, results := [t, t'], ResultsOf(env, t, queries, t');
      assert EvaluateAll(Params(queries[0]), results[..0]).value == RawAll(Params(queries[0]));
    } else {
      states, results := CommitIsChain(env, t, queries, t');
    }
  }

  lemma HarmlessCommit(env: Env, t: Tables, queries: seq<Query>, t': Tables)
    requires Inv(t) && Commits(env, t, queries, t')
    requires forall p :: 0 <= p < |queries| ==> Harmless(queries[p].text)
    ensures Inv(t') && Later(t, t')
  {
    if |queries| == 1 {
      HarmlessStep(env, t, queries[0].text, RawAll(Params(queries[0])));
    } else {
      var states, results := CommitIsChain(env, t, queries, t');
      HarmlessPrefix(env, queries, states, results, |queries|);
    }
  }

  /** Every text of a plan is the text of one of its template's queries. */
  lemma PlanTexts(t: Template, input: Input, at: nat)
    requires Defined(t) && PlanOf(t, input).Ok? && at < |PlanOf(t, input).value.queries|
    ensures exists q :: q in t.dict && t.dict[q].text == PlanOf(t, input).value.queries[at].text
  {
    PlanLength(t, input);
    var k, i := Locate(t, input, |t.order|, at);
    ParameterMatrix(t, input, k, i);
  }

  ghost predicate HarmlessTemplate(t: Template) {
    forall q :: q in t.dict ==> Harmless(t.dict[q].text)
  }

  /** The actions whose transactions need an argument of their own. */
  predicate Delicate(a: Action) {
    a.CloseAccountAction? || a.CreateListingAction? || a.ModifyListingAction? || a.CloseListingAction?
  }

  lemma ListingSearchesHarmless(a: Action)
    requires ListingSearches(a)
    ensures HarmlessTemplate(TemplateOf(a))
  {
  }

  lemma OtherSearchesHarmless(a: Action)
    requires Searches(a) && !ListingSearches(a)
    ensures HarmlessTemplate(TemplateOf(a))
  {
  }

  lemma ListingViewsHarmless(a: Action)
    requires ListingViews(a)
    ensures HarmlessTemplate(TemplateOf(a))
  {
  }

  lemma OtherViewsHarmless(a: Action)
    requires Views(a) && !ListingViews(a)
    ensures HarmlessTemplate(TemplateOf(a))
  {
  }

  lemma OthersHarmless(a: Action)
    requires !Searches(a) && !Views(a) && !Delicate(a)
    ensures HarmlessTemplate(TemplateOf(a))
  {
  }

  lemma IsHarmless(a: Action)
    requires !Delicate(a)
    ensures HarmlessTemplate(TemplateOf(a))
  {
    if ListingSearches(a) {
      ListingSearchesHarmless(a);
    } else if Searches(a) {
      OtherSearchesHarmless(a);
    } else if ListingViews(a) {
      ListingViewsHarmless(a);
    } else if Views(a) {
      OtherViewsHarmless(a);
    } else {
      OthersHarmless(a);
    }
  }

  lemma HarmlessStore(a: Action, env: Env, input: Input, t: Tables)
    requires !Delicate(a) && Defined(TemplateOf(a)) && Inv(t)
    ensures var t' := StoreOf(TemplateOf(a), input, EngineOf(env), env.faults, t).0; Inv(t') && Later(t, t')
  {
    IsHarmless(a);
    HarmlessTemplateStore(TemplateOf(a), env, input, t);
  }

  lemma HarmlessTemplateStore(template: Template, env: Env, input: Input, t: Tables)
    requires Defined(template) && HarmlessTemplate(template) && Inv(t)
    ensures var t' := StoreOf(template, input, EngineOf(env), env.faults, t).0; Inv(t') && Later(t, t')
  {
    var t' := StoreOf(template, input, EngineOf(env), env.faults, t).0;
    StoreCommits(env, template, input, t);
    LaterReflexive(t);
    if t' != t {
      var queries := PlanOf(template, input).value.queries;
      forall at | 0 <= at < |queries|
        ensures Harmless(queries[at].text)
      {
        PlanTexts(template, input, at);
      }
      HarmlessCommit(env, t, queries, t');
    }
  }
}
