/** The one thing about a closed listing that can change: the date of its closing. */
module ClosedDates {
  import opened Values
  import opened Vocabulary
  import opened SqlTemplate
  import opened PlanShape
  import opened Execution
  import opened Database
  import opened Store
  import opened Schema
  import opened Statements
  import opened Invariants
  import opened Runs
  import opened Templates
  import opened Builds
  import opened Transactions
  import opened Closing

  ghost predicate ClosedRowsStay(t: Tables, t': Tables) {
    forall l :: Closed(t, l) ==> Closed(t', l) && t'.listings.rows[l] == t.listings.rows[l]
  }

  lemma UpdateKeepsClosedRows(t: Tables, user: IntParam, listing: IntParam, change: ListingChange)
    ensures var effect := UpdateListingRow(t, user, listing, change); effect.Done? ==> ClosedRowsStay(t, effect.db)
  {
  }

  lemma InsertKeepsClosedRows(t: Tables, user: IntParam, title: Val, description: Val, condition: Val,
                              address: IntParam, category: IntParam)
    requires t.listings.Valid()
    ensures var effect := InsertListingRow(t, user, title, description, condition, address, category);
            effect.Done? ==> ClosedRowsStay(t, effect.db)
  {
  }

  /** No statement but the one that closes the listings of an account touches a closed row. */
  lemma StepKeepsClosedRows(env: Env, t: Tables, sql: Sql, ps: seq<Val>)
    requires t.listings.Valid() && !sql.CloseAccountListings?
    ensures var effect := Exec(env, t, sql, ps); effect.Done? ==> ClosedRowsStay(t, effect.db)
  {
    if Personal(sql) {
      PersonalExecFollows(env, t, sql, ps);
    } else if |ps| == Arity(sql) {
      match sql {
        case InsertListing => InsertKeepsClosedRows(t, AsInt(ps[0]), ps[1], ps[2], ps[3], AsInt(ps[4]), AsInt(ps[5]));
        case ChangeTitle => UpdateKeepsClosedRows(t, AsInt(ps[0]), AsInt(ps[1]), SetTitle(ps[2]));
        case ChangeDescription => UpdateKeepsClosedRows(t, AsInt(ps[0]), AsInt(ps[1]), SetDescription(ps[2]));
        case ChangeCondition => UpdateKeepsClosedRows(t, AsInt(ps[0]), AsInt(ps[1]), SetCondition(ps[2]));
        case ChangeAddress => UpdateKeepsClosedRows(t, AsInt(ps[0]), AsInt(ps[1]), SetAddress(AsInt(ps[2])));
        case ChangeCategory => UpdateKeepsClosedRows(t, AsInt(ps[0]), AsInt(ps[1]), SetCategory(AsInt(ps[2])));
        case CloseListing => UpdateKeepsClosedRows(t, AsInt(ps[0]), AsInt(ps[1]), SetClosed(env.now, AsInt(ps[2])));
        case _ =>
      }
    }
  }

  lemma {:induction false} ChainKeepsClosedRows(env: Env, queries: seq<Query>, states: seq<Tables>, results: seq<Rows>,
                                                m: nat)
    requires Chain(env, queries, states, results) && Base(states[0]) && m <= |queries|
    requires forall k :: 0 <= k < m ==> !queries[k].text.CloseAccountListings?
    ensures ClosedRowsStay(states[0], states[m])
  {
    if m > 0 {
      ChainKeepsClosedRows(env, queries, states, results, m - 1);
      ChainKeepsBase(env, queries, states, results, m - 1);
      assert Link(env, queries, states, results, m - 1);
      StepKeepsClosedRows(env, states[m - 1], queries[m - 1].text,
                          EvaluateAll(Params(queries[m - 1]), results[..m - 1]).value);
    }
  }

  ghost predicate ClosesNoAccount(template: Template) {
    forall q :: q in template.dict ==> !template.dict[q].text.CloseAccountListings?
  }

  lemma StoreKeepsClosedRows(template: Template, env: Env, input: Input, t: Tables)
    requires Defined(template) && ClosesNoAccount(template) && Base(t)
    ensures ClosedRowsStay(t, StoreOf(template, input, EngineOf(env), env.faults, t).0)
  {
    var t' := StoreOf(template, input, EngineOf(env), env.faults, t).0;
    StoreCommits(env, template, input, t);
    if t' != t {
      var queries := PlanOf(template, input).value.queries;
      forall at | 0 <= at < |queries|
        ensures !queries[at].text.CloseAccountListings?
      {
        PlanTexts(template, input, at);
      }
      CommitKeepsClosedRows(env, t, queries, t');
    }
  }

  lemma CommitKeepsClosedRows(env: Env, t: Tables, queries: seq<Query>, t': Tables)
    requires Commits(env, t, queries, t') && Base(t)
    requires forall at :: 0 <= at < |queries| ==> !queries[at].text.CloseAccountListings?
    ensures ClosedRowsStay(t, t')
  {
    if |queries| == 1 {
      StepKeepsClosedRows(env, t, queries[0].text, RawAll(Params(queries[0])));
    } else {
      var states, results := CommitIsChain(env, t, queries, t');
      ChainKeepsClosedRows(env, queries, states, results, |queries|);
    }
  }

  lemma ListingActionsCloseNoAccount(a: Action)
    requires a.CreateListingAction? || a.ModifyListingAction? || a.CloseListingAction?
    ensures ClosesNoAccount(TemplateOf(a))
  {
  }

  lemma OthersCloseNoAccount(a: Action)
    requires !a.CloseAccountAction?
    ensures ClosesNoAccount(TemplateOf(a))
  {
    if Delicate(a) {
      ListingActionsCloseNoAccount(a);
    } else {
      IsHarmless(a);
    }
  }

  /** The account that the input names is the contributor of the listing. */
  predicate IsContributor(t: Tables, l: int, input: Input)
    requires l in t.listings.rows
  {
    AsInt(InputValue(input, ACCOUNT_ID, 1, 0)) == Int(t.listings.rows[l].contributor)
  }

  lemma CloseAccountStamps(env: Env, input: Input, t: Tables, t': Tables, l: int)
    requires Defined(CloseAccountTemplate()) && PlanOf(CloseAccountTemplate(), input).Ok? && l in t.listings.rows
    requires Commits(env, t, PlanOf(CloseAccountTemplate(), input).value.queries, t')
    ensures l in t'.listings.rows
    ensures t'.listings.rows[l]
         == if IsContributor(t, l, input) then t.listings.rows[l].(closed := Some(env.now)) else t.listings.rows[l]
  {
    CloseAccountLeaves(env, input, t, t');
  }

  /** The row of a closed listing stays as it is, whatever the action and the input, except
      that close-account by its contributor gives it a new date. */
  ghost predicate OnlyDateMoves(a: Action, env: Env, input: Input, t: Tables, t': Tables, l: int)
    requires l in t.listings.rows
  {
    && l in t'.listings.rows
    && (|| t'.listings.rows[l] == t.listings.rows[l]
        || (a.CloseAccountAction? && IsContributor(t, l, input)
            && t'.listings.rows[l] == t.listings.rows[l].(closed := Some(env.now))))
  }

  lemma CloseAccountMovesDates(env: Env, input: Input, t: Tables, l: int)
    requires Defined(TemplateOf(CloseAccountAction)) && l in t.listings.rows
    ensures OnlyDateMoves(CloseAccountAction, env, input, t,
                          StoreOf(TemplateOf(CloseAccountAction), input, EngineOf(env), env.faults, t).0, l)
  {
    var t' := StoreOf(CloseAccountTemplate(), input, EngineOf(env), env.faults, t).0;
    StoreCommits(env, CloseAccountTemplate(), input, t);
    if t' != t {
      CloseAccountStamps(env, input, t, t', l);
    }
  }

  lemma DatesMoveOnlyThen(a: Action, env: Env, input: Input, t: Tables, l: int)
    requires Defined(TemplateOf(a)) && Base(t) && Closed(t, l)
    ensures OnlyDateMoves(a, env, input, t, StoreOf(TemplateOf(a), input, EngineOf(env), env.faults, t).0, l)
  {
    if a.CloseAccountAction? {
      CloseAccountMovesDates(env, input, t, l);
    } else {
      OthersCloseNoAccount(a);
      StoreKeepsClosedRows(TemplateOf(a), env, input, t);
    }
  }
}
