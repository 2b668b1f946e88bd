/** What a rejection by `Store` says about the tables: only close-account can be rejected and
    have changed them. */
module Rejections {
  import opened Values
  import opened Vocabulary
  import opened SqlTemplate
  import opened PlanShape
  import opened Execution
  import opened Database
  import opened Store
  import opened Schema
  import opened Statements
  import opened Invariants
  import opened Runs
  import opened Templates
  import opened Builds
  import opened Transactions
  import opened Closing
  import opened Uploads
  import opened Listings
  import opened CreateListing
  import opened ModifyListing

  // ---------------------------------------------------------------- statements

  /** The statements that return no row whatever they do. */
  predicate Silent(sql: Sql) {
    sql.CloseAccountListings? || sql.CloseAccountConversations? || sql.CloseListingConversations? || sql.DropExtraMedia?
  }

  /** Any other statement that changes something returns a row. */
  lemma NoRowsNoChange(env: Env, t: Tables, sql: Sql, ps: seq<Val>)
    requires !Silent(sql)
    ensures var effect := Exec(env, t, sql, ps); effect.Done? && effect.rows == [] ==> effect.db == t
  {
  }

  lemma {:induction false} QuietChain(env: Env, qs: seq<Query>, states: seq<Tables>, results: seq<Rows>, m: nat)
    requires Chain(env, qs, states, results) && m <= |qs|
    requires forall k :: 0 <= k < m ==> !Silent(qs[k].text) && results[k] == []
    ensures states[m] == states[0]
  {
    if m > 0 {
      QuietChain(env, qs, states, results, m - 1);
      assert Link(env, qs, states, results, m - 1);
      NoRowsNoChange(env, states[m - 1], qs[m - 1].text, EvaluateAll(Params(qs[m - 1]), results[..m - 1]).value);
    }
  }

  // ---------------------------------------------------------------- rejected runs

  /** The plan was committed, and no query that is not dropped returned a row. */
  ghost predicate EmptyRun(template: Template, env: Env, input: Input, t: Tables, t': Tables) {
    && Defined(template) && PlanOf(template, input).Ok? && PlanOf(template, input).value.queries != []
    && var plan := PlanOf(template, input).value;
       && Commits(env, t, plan.queries, t') && AllPlain(plan.queries[0])
       && forall n :: 0 <= n < |plan.names| && !Dropped(template, plan.names[n]) ==>
            ResultsOf(env, t, plan.queries, t')[n] == []
  }

  /** A rejection with an effect is one for want of rows. */
  lemma RejectedRan(template: Template, env: Env, input: Input, t: Tables)
    requires Defined(template) && DefersOnlyLater(template, input)
    ensures var (t', outcome) := StoreOf(template, input, EngineOf(env), env.faults, t);
            outcome.Err? && t' != t ==> EmptyRun(template, env, input, t, t')
  {
    ErrorsAndEffects(template, input, EngineOf(env), env.faults, t);
    var (t', outcome) := StoreOf(template, input, EngineOf(env), env.faults, t);
    if outcome.Err? && t' != t {
      FirstQueryIsPlain(template, input);
      ExecutedResults(env, t, PlanOf(template, input).value.queries);
    }
  }

  /** Nothing is dropped and nothing is silent. */
  ghost predicate Outspoken(template: Template) {
    template.drop.None? && forall q :: q in template.dict ==> !Silent(template.dict[q].text)
  }

  lemma OutspokenUnchanged(template: Template, env: Env, input: Input, t: Tables, t': Tables)
    requires Outspoken(template) && EmptyRun(template, env, input, t, t')
    ensures t' == t
  {
    var qs := PlanOf(template, input).value.queries;
    var states, results := CommitAsChain(env, t, qs, t');
    forall k | 0 <= k < |qs|
      ensures !Silent(qs[k].text) && results[k] == []
    {
      PlanTexts(template, input, k);
    }
    QuietChain(env, qs, states, results, |qs|);
  }

  // ---------------------------------------------------------------- plans that refer to their first query

  /** The first query always runs, is not dropped and not silent, and all others refer to it. */
  ghost predicate AllRefer(template: Template) {
    && Sound(template, 0) && template.dict[template.order[0]].condition.None?
    && !Silent(template.dict[template.order[0]].text)
    && forall k :: 0 < k < |template.order| ==> Refers(template, k)
  }

  ghost predicate Refers(template: Template, k: nat)
    requires k < |template.order| && template.order[k] in template.dict
  {
    var d := template.dict[template.order[k]];
    && d.values.Some?
    && exists j :: 0 <= j < |d.values.value|
                   && d.values.value[j].FromQuery? && d.values.value[j].query == template.order[0]
  }

  /** A parameter that takes its value from the first result. */
  predicate TakesFirst(p: Param) {
    p.Ref? && p.index == 0
  }

  lemma LaterRefers(template: Template, input: Input, at: nat)
    requires AllRefer(template) && Defined(template) && PlanOf(template, input).Ok?
    requires 0 < at < |PlanOf(template, input).value.queries|
    ensures exists j :: 0 <= j < |Params(PlanOf(template, input).value.queries[at])|
                        && TakesFirst(Params(PlanOf(template, input).value.queries[at])[j])
  {
    PlanLength(template, input);
    var plan := PlanOf(template, input).value;
    assert Copies(template, input, 0) == 1;
    var k, i := Locate(template, input, |template.order|, at);
    ParameterMatrix(template, input, k, i);
    assert Refers(template, k);
    var cs, ps := template.dict[template.order[k]].values.value, Params(plan.queries[at]);
    var j :| 0 <= j < |cs| && cs[j].FromQuery? && cs[j].query == template.order[0];
    assert CompiledTo(template, input, k, i, plan.names, cs[j], ps[j]);
    FirstIsAtZero(template, input, ps[j].index);
    assert TakesFirst(ps[j]);
  }

  lemma FirstIsAtZero(template: Template, input: Input, at: nat)
    requires Sound(template, 0) && template.dict[template.order[0]].condition.None?
    requires Defined(template) && PlanOf(template, input).Ok?
    requires at < |PlanOf(template, input).value.names| && PlanOf(template, input).value.names[at] == template.order[0]
    ensures at == 0
  {
    PlanLength(template, input);
    assert Copies(template, input, 0) == 1;
    var k, i := Locate(template, input, |template.order|, at);
    ParameterMatrix(template, input, k, i);
  }

  lemma FirstQuery(template: Template, input: Input)
    requires AllRefer(template) && Defined(template) && PlanOf(template, input).Ok?
    requires PlanOf(template, input).value.queries != []
    ensures PlanOf(template, input).value.names[0] == template.order[0]
    ensures PlanOf(template, input).value.queries[0].text == template.dict[template.order[0]].text
  {
    assert Copies(template, input, 0) == 1;
    ParameterMatrix(template, input, 0, 0);
  }

  /** Without a first row the second statement has nothing to refer to. */
  lemma SecondNeedsFirst(env: Env, qs: seq<Query>, states: seq<Tables>, results: seq<Rows>, j: nat)
    requires Chain(env, qs, states, results) && |qs| > 1 && j < |Params(qs[1])| && TakesFirst(Params(qs[1])[j])
    ensures results[0] != []
  {
    assert Link(env, qs, states, results, 1);
    assert Evaluate(Params(qs[1])[j], results[..1]).Some?;
  }

  lemma ReferringUnchanged(template: Template, env: Env, input: Input, t: Tables, t': Tables)
    requires AllRefer(template) && EmptyRun(template, env, input, t, t')
    ensures t' == t
  {
    var plan := PlanOf(template, input).value;
    FirstQuery(template, input);
    assert !Dropped(template, plan.names[0]);
    var states, results := CommitAsChain(env, t, plan.queries, t');
    if |plan.queries| > 1 {
      LaterRefers(template, input, 1);
      var j :| 0 <= j < |Params(plan.queries[1])| && TakesFirst(Params(plan.queries[1])[j]);
      SecondNeedsFirst(env, plan.queries, states, results, j);
    } else {
      QuietChain(env, plan.queries, states, results, 1);
    }
  }

  // ---------------------------------------------------------------- the shipped templates

  lemma ListingSearchesOutspoken(a: Action)
    requires ListingSearches(a)
    ensures Outspoken(TemplateOf(a))
  {
  }

  lemma OtherSearchesOutspoken(a: Action)
    requires Searches(a) && !ListingSearches(a)
    ensures Outspoken(TemplateOf(a))
  {
  }

  lemma ListingViewsOutspoken(a: Action)
    requires ListingViews(a)
    ensures Outspoken(TemplateOf(a))
  {
  }

  lemma OtherViewsOutspoken(a: Action)
    requires Views(a) && !ListingViews(a)
    ensures Outspoken(TemplateOf(a))
  {
  }

  predicate Refer(a: Action) {
    a.CreateAccountAction? || a.CloseListingAction? || a.CreateMessageAction?
  }

  predicate OneByOne(a: Action) {
    a.CloseAccountAction? || a.CreateListingAction? || a.ModifyListingAction?
  }

  lemma WritesOutspoken(a: Action)
    requires !Searches(a) && !Views(a) && !Refer(a) && !OneByOne(a)
    ensures Outspoken(TemplateOf(a))
  {
  }

  lemma IsOutspoken(a: Action)
    requires !Refer(a) && !OneByOne(a)
    ensures Outspoken(TemplateOf(a))
  {
    if ListingSearches(a) {
      ListingSearchesOutspoken(a);
    } else if Searches(a) {
      OtherSearchesOutspoken(a);
    } else if ListingViews(a) {
      ListingViewsOutspoken(a);
    } else if Views(a) {
      OtherViewsOutspoken(a);
    } else {
      WritesOutspoken(a);
    }
  }

  lemma CreateAccountRefersToFirst()
    ensures AllRefer(TemplateOf(CreateAccountAction))
  {
    CreateAccountSound();
    var t := CreateAccountTemplate();
    assert t.dict[t.order[1]].values.value[3] == FromQuery(CREATE_ACCOUNT, COL_USER_ID);
    assert t.dict[t.order[2]].values.value[2] == FromQuery(CREATE_ACCOUNT, COL_USER_ID);
  }

  lemma CloseListingRefersToFirst()
    ensures AllRefer(TemplateOf(CloseListingAction))
  {
    CloseListingSound();
    var t := CloseListingTemplate();
    assert t.dict[t.order[1]].values.value[0] == FromQuery(CLOSE_LISTING, COL_LISTING_ID);
  }

  lemma CreateMessageRefersToFirst()
    ensures AllRefer(TemplateOf(CreateMessageAction))
  {
    CreateMessageSound();
    var t := CreateMessageTemplate();
    assert t.dict[t.order[1]].values.value[2] == FromQuery(CREATE_MESSAGE, COL_MESSAGE_ID);
  }

  lemma ReferToFirst(a: Action)
    requires Refer(a)
    ensures AllRefer(TemplateOf(a))
  {
    if a.CreateAccountAction? {
      CreateAccountRefersToFirst();
    } else if a.CloseListingAction? {
      CloseListingRefersToFirst();
    } else {
      CreateMessageRefersToFirst();
    }
  }

  lemma EmptyIsKept(template: Template, names: seq<QueryName>, results: seq<Rows>, rows: Rows)
    requires |names| == |results| && forall n :: 0 <= n < |names| && !Dropped(template, names[n]) ==> results[n] == []
    ensures Kept(template, names, results) == [rows] ==> rows == []
  {
    KeptAreThePlaces(template, names, results);
  }

  /** create-listing returns the row it adds. */
  lemma CreateListingReturnsRow(env: Env, input: Input, t: Tables, t': Tables)
    requires Usable(input) && Inv(t) && Defined(TemplateOf(CreateListingAction))
    ensures !EmptyRun(TemplateOf(CreateListingAction), env, input, t, t')
  {
    var template := CreateListingTemplate();
    if EmptyRun(template, env, input, t, t') {
      var plan := PlanOf(template, input).value;
      var l := RowFromInput(env, input, t, t');
      EmptyIsKept(template, plan.names, ResultsOf(env, t, plan.queries, t'), Returning(COL_LISTING_ID, l));
    }
  }

  lemma NothingIsDropped()
    ensures TemplateOf(ModifyListingAction).drop.None?
  {
  }

  /** modify-listing that returns no row has changed nothing. */
  lemma ModifyListingUnchanged(env: Env, input: Input, t: Tables, t': Tables)
    requires Usable(input) && EmptyRun(TemplateOf(ModifyListingAction), env, input, t, t')
    ensures t' == t
  {
    var plan := PlanOf(ModifyListingTemplate(), input).value;
    PlanModifies(input);
    NothingIsDropped();
    UnchangedByPlan(env, plan.queries, input, t, t');
  }

  lemma UnchangedByPlan(env: Env, qs: seq<Query>, input: Input, t: Tables, t': Tables)
    requires Modifies(qs, input) && Commits(env, t, qs, t') && ResultsOf(env, t, qs, t')[0] == []
    ensures t' == t
  {
    var states, results := CommitAsChain(env, t, qs, t');
    var found := Found(t, User(input), ListingAsked(input));
    if found.Some? || IsNewAddress(input) {
      FirstReturnsRow(env, qs, states, results, input, if found.Some? then found.value else 0);
    } else {
      NothingModified(env, qs, states, results, input, |qs|);
    }
  }

  /** The account that the input names is deleted, or was never there. */
  ghost predicate Gone(t: Tables, input: Input) {
    var account := AsInt(InputValue(input, ACCOUNT_ID, 1, 0));
    account.Int? && !Live(t, account.n)
  }

  lemma CloseAccountKeepsFirst(input: Input)
    requires Defined(TemplateOf(CloseAccountAction)) && PlanOf(TemplateOf(CloseAccountAction), input).Ok?
    requires |PlanOf(TemplateOf(CloseAccountAction), input).value.names| > 0
    ensures !Dropped(TemplateOf(CloseAccountAction), PlanOf(TemplateOf(CloseAccountAction), input).value.names[0])
  {
    var t := CloseAccountTemplate();
    assert Copies(t, input, 0) == 1;
    ParameterMatrix(t, input, 0, 0);
  }

  /** close-account that does not return the account has found none, and has closed things
      only if it was given the id of one. */
  lemma CloseAccountFindsNone(env: Env, input: Input, t: Tables, t': Tables)
    requires EmptyRun(TemplateOf(CloseAccountAction), env, input, t, t') && t' != t
    ensures Gone(t, input)
  {
    CloseAccountLeaves(env, input, t, t');
    CloseAccountKeepsFirst(input);
  }

  lemma OneByOneUnchanged(a: Action, env: Env, input: Input, t: Tables, t': Tables)
    requires OneByOne(a) && Usable(input) && Inv(t) && EmptyRun(TemplateOf(a), env, input, t, t') && t' != t
    ensures a.CloseAccountAction? && Gone(t, input)
  {
    if a.CloseAccountAction? {
      CloseAccountFindsNone(env, input, t, t');
    } else if a.CreateListingAction? {
      CreateListingReturnsRow(env, input, t, t');
    } else {
      ModifyListingUnchanged(env, input, t, t');
    }
  }

  /** Whatever the action, the input and the failures around it: if `Store` rejects, the tables
      are what they were, unless an account is closed that is not there or is closed already. */
  lemma RejectedWithEffect(a: Action, env: Env, input: Input, t: Tables)
    requires Usable(input) && Inv(t)
    ensures Defined(TemplateOf(a))
    ensures var (t', outcome) := StoreOf(TemplateOf(a), input, EngineOf(env), env.faults, t);
            outcome.Err? && t' != t ==> a.CloseAccountAction? && Gone(t, input)
  {
    ShippedDefined(a);
    ShippedOneQueryPlansArePlain(a, input);
    RejectedRan(TemplateOf(a), env, input, t);
    var (t', outcome) := StoreOf(TemplateOf(a), input, EngineOf(env), env.faults, t);
    if outcome.Err? && t' != t {
      if Refer(a) {
        ReferToFirst(a);
        ReferringUnchanged(TemplateOf(a), env, input, t, t');
      } else if OneByOne(a) {
        OneByOneUnchanged(a, env, input, t, t');
      } else {
        IsOutspoken(a);
        OutspokenUnchanged(TemplateOf(a), env, input, t, t');
      }
    }
  }
}
