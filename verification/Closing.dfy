/** The two transactions that close listings: they close the conversations about them in
    the same transaction. */
module Closing {
  import opened Values
  import opened Vocabulary
  import opened SqlTemplate
  import opened PlanShape
  import opened Execution
  import opened Store
  import opened Schema
  import opened Statements
  import opened Invariants
  import opened Runs
  import opened Templates
  import opened Transactions

  // ---------------------------------------------------------------- close-listing

  lemma CloseListingPlan(input: Input)
    requires Defined(CloseListingTemplate()) && PlanOf(CloseListingTemplate(), input).Ok?
    ensures var qs := PlanOf(CloseListingTemplate(), input).value.queries;
            && |qs| == 2 && qs[0].text == CloseListing && qs[1].text == CloseListingConversations
            && Params(qs[1]) == [Ref(0, COL_LISTING_ID)]
  {
    var t := CloseListingTemplate();
    PlanLength(t, input);
    assert Copies(t, input, 0) == 1 && Copies(t, input, 1) == 1;
    assert Offset(t, input, 1) == 1 && Offset(t, input, 2) == 2;
    ParameterMatrix(t, input, 0, 0);
    ParameterMatrix(t, input, 1, 0);
    var plan, c := PlanOf(t, input).value, FromQuery(CLOSE_LISTING, COL_LISTING_ID);
    assert t.dict[t.order[1]].values == Some([c]);
    assert CompiledTo(t, input, 1, 0, plan.names, c, Params(plan.queries[1])[0]);
  }

  /** What the two statements do when neither fails. */
  lemma CloseListingRun(env: Env, t: Tables, qs: seq<Query>, t': Tables) returns (args: seq<Val>, t1: Tables, l: int)
    requires |qs| == 2 && qs[0].text == CloseListing && qs[1].text == CloseListingConversations
    requires Params(qs[1]) == [Ref(0, COL_LISTING_ID)]
    requires Commits(env, t, qs, t')
    ensures Exec(env, t, CloseListing, args) == Done(t1, Returning(COL_LISTING_ID, l))
    ensures Exec(env, t1, CloseListingConversations, [Num(l)]).Done?
    ensures Exec(env, t1, CloseListingConversations, [Num(l)]).db == t'
    ensures Open(t, l) && t1 == t.(listings := t1.listings)
    ensures t1.listings.rows.Keys == t.listings.rows.Keys && forall k :: k in t.listings.rows && k != l ==>
              t1.listings.rows[k] == t.listings.rows[k]
  {
    var states, results := CommitIsChain(env, t, qs, t');
    assert Link(env, qs, states, results, 0) && Link(env, qs, states, results, 1);
    args := EvaluateAll(Params(qs[0]), results[..0]).value;
    t1 := states[1];
    l := AsInt(args[1]).n;
    assert Evaluate(Params(qs[1])[0], results[..1]).Some?;
    assert results[0] == Returning(COL_LISTING_ID, l);
    assert EvaluateAll(Params(qs[1]), results[..1]).value == [Num(l)];
  }

  lemma CloseListingKeeps(env: Env, input: Input, t: Tables)
    requires Defined(CloseListingTemplate()) && Inv(t)
    ensures var t' := StoreOf(CloseListingTemplate(), input, EngineOf(env), env.faults, t).0; Inv(t') && Later(t, t')
  {
    var template := CloseListingTemplate();
    var t' := StoreOf(template, input, EngineOf(env), env.faults, t).0;
    StoreCommits(env, template, input, t);
    LaterReflexive(t);
    if t' != t {
      CloseListingPlan(input);
      var qs := PlanOf(template, input).value.queries;
      var args, t1, l := CloseListingRun(env, t, qs, t');
      ExecKeeps(env, t, CloseListing, args);
      ExecKeeps(env, t1, CloseListingConversations, [Num(l)]);
      LaterTransitive(t, t1, t');
      CloseListingFollows(env, t, t1, l, t');
    }
  }

  lemma CloseListingFollows(env: Env, t: Tables, t1: Tables, l: int, t': Tables)
    requires Inv(t)
    requires Exec(env, t1, CloseListingConversations, [Num(l)]).Done?
    requires Exec(env, t1, CloseListingConversations, [Num(l)]).db == t'
    requires t1 == t.(listings := t1.listings)
    requires t1.listings.rows.Keys == t.listings.rows.Keys && forall k :: k in t.listings.rows && k != l ==>
               t1.listings.rows[k] == t.listings.rows[k]
    ensures ConversationsFollow(t') && MediaContiguous(t')
  {
    assert t'.listings == t1.listings && t'.listingMedia == t.listingMedia;
    forall c | c in t'.conversations.rows && t'.conversations.rows[c].closed.None?
      ensures Open(t', t'.conversations.rows[c].listing)
    {
      assert t'.conversations.rows[c] == t.conversations.rows[c];
      assert Open(t, t.conversations.rows[c].listing);
    }
  }

  // ---------------------------------------------------------------- close-account

  lemma CloseAccountPlan(input: Input) returns (v: Val)
    requires Defined(CloseAccountTemplate()) && PlanOf(CloseAccountTemplate(), input).Ok?
    ensures var qs := PlanOf(CloseAccountTemplate(), input).value.queries;
            && |qs| == 3
            && qs[0].text == DeleteAccount && qs[1].text == CloseAccountListings
            && qs[2].text == CloseAccountConversations
            && Params(qs[0]) == Params(qs[1]) == Params(qs[2]) == [Plain(v)]
    ensures v == InputValue(input, ACCOUNT_ID, 1, 0)
  {
    var t := CloseAccountTemplate();
    PlanLength(t, input);
    assert Copies(t, input, 0) == 1 && Copies(t, input, 1) == 1 && Copies(t, input, 2) == 1;
    assert Offset(t, input, 1) == 1;
    assert Offset(t, input, 2) == 2;
    assert Offset(t, input, 3) == 3;
    var plan, c := PlanOf(t, input).value, FromInput(ACCOUNT_ID);
    v := InputValue(input, ACCOUNT_ID, 1, 0);
    forall k | 0 <= k < 3
      ensures Params(plan.queries[k]) == [Plain(v)] && plan.queries[k].text == t.dict[t.order[k]].text
    {
      ParameterMatrix(t, input, k, 0);
      assert t.dict[t.order[k]].values == Some([c]);
      assert CompiledTo(t, input, k, 0, plan.names, c, Params(plan.queries[k])[0]);
    }
  }

  lemma CloseAccountRun(env: Env, t: Tables, qs: seq<Query>, v: Val, t': Tables) returns (t1: Tables, t2: Tables)
    requires |qs| == 3
    requires qs[0].text == DeleteAccount && qs[1].text == CloseAccountListings
    requires qs[2].text == CloseAccountConversations
    requires Params(qs[0]) == Params(qs[1]) == Params(qs[2]) == [Plain(v)]
    requires Commits(env, t, qs, t')
    ensures Exec(env, t, DeleteAccount, [v]).Done? && t1 == Exec(env, t, DeleteAccount, [v]).db
    ensures Exec(env, t1, CloseAccountListings, [v]).Done? && t2 == Exec(env, t1, CloseAccountListings, [v]).db
    ensures Exec(env, t2, CloseAccountConversations, [v]).Done?
    ensures t' == Exec(env, t2, CloseAccountConversations, [v]).db
    ensures ResultsOf(env, t, qs, t')[0] == Exec(env, t, DeleteAccount, [v]).rows
  {
    var states, results := CommitIsChain(env, t, qs, t');
    forall k | 0 <= k < 3
      ensures Exec(env, states[k], qs[k].text, [v]) == Done(states[k + 1], results[k])
    {
      assert Link(env, qs, states, results, k);
      assert EvaluateAll([Plain(v)], results[..k]).value == [v];
    }
    t1, t2 := states[1], states[2];
  }

  lemma CloseAccountKeeps(env: Env, input: Input, t: Tables)
    requires Defined(CloseAccountTemplate()) && Inv(t)
    ensures var t' := StoreOf(CloseAccountTemplate(), input, EngineOf(env), env.faults, t).0; Inv(t') && Later(t, t')
  {
    var template := CloseAccountTemplate();
    var t' := StoreOf(template, input, EngineOf(env), env.faults, t).0;
    StoreCommits(env, template, input, t);
    LaterReflexive(t);
    if t' != t {
      var v := CloseAccountPlan(input);
      var t1, t2 := CloseAccountRun(env, t, PlanOf(template, input).value.queries, v, t');
      ExecKeeps(env, t, DeleteAccount, [v]);
      ExecKeeps(env, t1, CloseAccountListings, [v]);
      ExecKeeps(env, t2, CloseAccountConversations, [v]);
      LaterTransitive(t, t1, t2);
      LaterTransitive(t, t2, t');
      CloseAccountFollows(env, t, v, t1, t2, t');
    }
  }

  lemma CloseAccountFollows(env: Env, t: Tables, v: Val, t1: Tables, t2: Tables, t': Tables)
    requires Inv(t)
    requires Exec(env, t, DeleteAccount, [v]).Done? && t1 == Exec(env, t, DeleteAccount, [v]).db
    requires Exec(env, t1, CloseAccountListings, [v]).Done? && t2 == Exec(env, t1, CloseAccountListings, [v]).db
    requires Exec(env, t2, CloseAccountConversations, [v]).Done?
    requires t' == Exec(env, t2, CloseAccountConversations, [v]).db
    ensures ConversationsFollow(t') && MediaContiguous(t')
    ensures AsInt(v).Int? ==> NothingOpenOf(t', AsInt(v).n)
  {
    assert t1.listings == t.listings && t1.conversations == t.conversations && t1.listingMedia == t.listingMedia;
    assert CloseListingsOf(t1, AsInt(v), env.now) == Done(t2, []);
    assert CloseConversationsOf(t2, AsInt(v), env.now) == Done(t', []);
    if AsInt(v).Int? {
      ClosingsFollow(env, t, t1, t2, t', AsInt(v).n);
    }
  }

  /** No open listing of the account, and no open conversation that it takes part in. */
  ghost predicate NothingOpenOf(t: Tables, n: int) {
    && (forall l :: l in t.listings.rows && t.listings.rows[l].contributor == n ==> !Open(t, l))
    && (forall c :: c in t.conversations.rows && PartyOf(t, c, n) ==> t.conversations.rows[c].closed.Some?)
  }

  lemma ClosingsFollow(env: Env, t: Tables, t1: Tables, t2: Tables, t': Tables, n: int)
    requires ConversationsFollow(t) && MediaContiguous(t)
    requires t1.listings == t.listings && t1.conversations == t.conversations && t1.listingMedia == t.listingMedia
    requires CloseListingsOf(t1, Int(n), env.now) == Done(t2, [])
    requires CloseConversationsOf(t2, Int(n), env.now) == Done(t', [])
    ensures ConversationsFollow(t') && MediaContiguous(t') && NothingOpenOf(t', n)
  {
    forall c | c in t'.conversations.rows && t'.conversations.rows[c].closed.None?
      ensures Open(t', t'.conversations.rows[c].listing)
    {
      assert !TakesPart(t2, c, n) && t'.conversations.rows[c] == t.conversations.rows[c];
      assert Open(t, t.conversations.rows[c].listing);
    }
    forall c | c in t'.conversations.rows && PartyOf(t', c, n)
      ensures t'.conversations.rows[c].closed.Some?
    {
      assert TakesPart(t2, c, n);
    }
  }

  // ---------------------------------------------------------------- what a committed closing has done

  lemma CloseListingArguments(input: Input)
    requires Defined(CloseListingTemplate()) && PlanOf(CloseListingTemplate(), input).Ok?
    ensures |PlanOf(CloseListingTemplate(), input).value.queries| > 0
    ensures Params(PlanOf(CloseListingTemplate(), input).value.queries[0])
         == [Plain(InputValue(input, ACCOUNT_ID, 1, 0)), Plain(InputValue(input, LISTING_ID, 1, 0)),
             Plain(InputValue(input, RECEIVER_ID, 1, 0))]
  {
    var t := CloseListingTemplate();
    assert Copies(t, input, 0) == 1;
    ParameterMatrix(t, input, 0, 0);
    var plan := PlanOf(t, input).value;
    var ps, cs := Params(plan.queries[0]), t.dict[t.order[0]].values.value;
    assert CompiledTo(t, input, 0, 0, plan.names, cs[0], ps[0]);
    assert CompiledTo(t, input, 0, 0, plan.names, cs[1], ps[1]);
    assert CompiledTo(t, input, 0, 0, plan.names, cs[2], ps[2]);
  }

  /** t' is t with one listing closed, in favour of a receiver if there is one, and with it
      every conversation about it. */
  ghost predicate ListingIsClosed(env: Env, t: Tables, t': Tables, user: Val, listing: Val, receiver: Val) {
    && AsInt(user).Int? && AsInt(listing).Int? && OwnOpen(t, AsInt(user).n, AsInt(listing).n)
    && var l := AsInt(listing).n;
       && t' == t.(listings := t'.listings, conversations := t'.conversations)
       && t'.listings.rows
          == t.listings.rows[l := t.listings.rows[l].(closed := Some(env.now), receiver := AsColumn(AsInt(receiver)))]
       && t'.conversations.rows.Keys == t.conversations.rows.Keys
       && forall c :: c in t.conversations.rows ==>
            t'.conversations.rows[c] == if About(t, c, l) then t.conversations.rows[c].(closed := Some(env.now))
                                        else t.conversations.rows[c]
  }

  lemma ListingClosed(env: Env, input: Input, t: Tables, t': Tables)
    requires Defined(CloseListingTemplate()) && PlanOf(CloseListingTemplate(), input).Ok?
    requires Commits(env, t, PlanOf(CloseListingTemplate(), input).value.queries, t')
    ensures ListingIsClosed(env, t, t', InputValue(input, ACCOUNT_ID, 1, 0), InputValue(input, LISTING_ID, 1, 0),
                            InputValue(input, RECEIVER_ID, 1, 0))
  {
    CloseListingPlan(input);
    CloseListingArguments(input);
    ClosedByPlan(env, PlanOf(CloseListingTemplate(), input).value.queries, t, t', InputValue(input, ACCOUNT_ID, 1, 0),
                 InputValue(input, LISTING_ID, 1, 0), InputValue(input, RECEIVER_ID, 1, 0));
  }

  lemma ClosedByPlan(env: Env, qs: seq<Query>, t: Tables, t': Tables, user: Val, listing: Val, receiver: Val)
    requires |qs| == 2 && qs[0].text == CloseListing && qs[1].text == CloseListingConversations
    requires Params(qs[0]) == [Plain(user), Plain(listing), Plain(receiver)]
    requires Params(qs[1]) == [Ref(0, COL_LISTING_ID)]
    requires Commits(env, t, qs, t')
    ensures ListingIsClosed(env, t, t', user, listing, receiver)
  {
    var states, results := CommitIsChain(env, t, qs, t');
    assert Link(env, qs, states, results, 0) && Link(env, qs, states, results, 1);
    assert EvaluateAll(Params(qs[0]), results[..0]).value == [user, listing, receiver];
    var effect := UpdateListingRow(t, AsInt(user), AsInt(listing), SetClosed(env.now, AsInt(receiver)));
    assert effect == Done(states[1], results[0]);
    assert Evaluate(Params(qs[1])[0], results[..1]).Some?;
    assert EvaluateAll(Params(qs[1]), results[..1]).value == [Num(AsInt(listing).n)];
    assert CloseConversationsAbout(states[1], Int(AsInt(listing).n), env.now) == Done(t', results[1]);
  }

  predicate Live(t: Tables, n: int) {
    n in t.accounts.rows && t.accounts.rows[n].deleted.None?
  }

  /** The tables with the account deleted. */
  function Deleted(t: Tables, n: int, now: nat): Tables
    requires n in t.accounts.rows
  {
    t.(accounts := t.accounts.(rows := t.accounts.rows[n := t.accounts.rows[n].(deleted := Some(now))]))
  }

  /** The tables with every listing of the account and every conversation that it takes part
      in closed at this time, also those that were closed already. */
  ghost function Closings(t: Tables, n: int, now: nat): Tables {
    t.(listings := t.listings.(rows := map l | l in t.listings.rows ::
         if t.listings.rows[l].contributor == n then t.listings.rows[l].(closed := Some(now)) else t.listings.rows[l]),
       conversations := t.conversations.(rows := map c | c in t.conversations.rows ::
         if TakesPart(t, c, n) then t.conversations.rows[c].(closed := Some(now)) else t.conversations.rows[c]))
  }

  /** What closing account n leaves: the account may be gone already. */
  ghost function AfterClosing(t: Tables, n: int, now: nat): Tables {
    Closings(if Live(t, n) then Deleted(t, n, now) else t, n, now)
  }

  /** The user received conversation c, or contributed its listing. */
  predicate PartyOf(t: Tables, c: int, user: int)
    requires c in t.conversations.rows
  {
    var row := t.conversations.rows[c];
    || row.receiver == user
    || (row.listing in t.listings.rows && t.listings.rows[row.listing].contributor == user)
  }

  /** Column by column: of account n every listing and every conversation that it received or
      that is about one of its listings has this date, and all other rows are the same. */
  ghost predicate EverythingOfClosed(t: Tables, t': Tables, n: int, now: nat) {
    && t' == t.(accounts := t'.accounts, listings := t'.listings, conversations := t'.conversations)
    && t'.listings.rows.Keys == t.listings.rows.Keys
    && (forall l :: l in t.listings.rows ==>
          t'.listings.rows[l] == if t.listings.rows[l].contributor == n then t.listings.rows[l].(closed := Some(now))
                                 else t.listings.rows[l])
    && t'.conversations.rows.Keys == t.conversations.rows.Keys
    && (forall c :: c in t.conversations.rows ==>
          t'.conversations.rows[c] == if PartyOf(t, c, n) then t.conversations.rows[c].(closed := Some(now))
                                      else t.conversations.rows[c])
  }

  /** The account is deleted at this time, if it was not deleted before, and no other changes. */
  ghost predicate OnlyAccountDeleted(t: Tables, t': Tables, n: int, now: nat) {
    && t'.accounts.rows.Keys == t.accounts.rows.Keys
    && (forall a :: a in t.accounts.rows ==>
          t'.accounts.rows[a] == if a == n && t.accounts.rows[a].deleted.None?
                                 then t.accounts.rows[a].(deleted := Some(now)) else t.accounts.rows[a])
  }

  lemma ClosingColumnByColumn(t: Tables, n: int, now: nat)
    ensures EverythingOfClosed(t, AfterClosing(t, n, now), n, now)
    ensures OnlyAccountDeleted(t, AfterClosing(t, n, now), n, now)
  {
  }

  lemma AccountDeleted(t: Tables, n: int, now: nat, t': Tables, rows: Rows)
    requires UpdateAccountRow(t, Int(n), SetDeleted(now)) == Done(t', rows)
    ensures if Live(t, n) then t' == Deleted(t, n, now) && rows == Returning(COL_USER_ID, n) else t' == t && rows == []
  {
  }

  lemma ClosingsAre(t: Tables, t1: Tables, t2: Tables, n: int, now: nat)
    requires CloseListingsOf(t, Int(n), now) == Done(t1, []) && CloseConversationsOf(t1, Int(n), now) == Done(t2, [])
    ensures t2 == Closings(t, n, now)
  {
    assert forall c :: c in t.conversations.rows ==> TakesPart(t1, c, n) == TakesPart(t, c, n);
    assert t2.conversations == Closings(t, n, now).conversations;
  }

  lemma ClosingStatements(env: Env, t: Tables, v: Val, t1: Tables, t2: Tables, t': Tables)
    requires Exec(env, t, DeleteAccount, [v]).Done? && t1 == Exec(env, t, DeleteAccount, [v]).db
    requires Exec(env, t1, CloseAccountListings, [v]).Done? && t2 == Exec(env, t1, CloseAccountListings, [v]).db
    requires Exec(env, t2, CloseAccountConversations, [v]).Done?
    requires t' == Exec(env, t2, CloseAccountConversations, [v]).db
    ensures AsInt(v).NullInt? ==> t' == t && Exec(env, t, DeleteAccount, [v]).rows == []
    ensures AsInt(v).Int? ==> t' == AfterClosing(t, AsInt(v).n, env.now)
    ensures AsInt(v).Int? ==>
              Exec(env, t, DeleteAccount, [v]).rows == if Live(t, AsInt(v).n) then Returning(COL_USER_ID, AsInt(v).n)
                                                       else []
    ensures !AsInt(v).NotInt?
  {
    var rows := Exec(env, t, DeleteAccount, [v]).rows;
    assert UpdateAccountRow(t, AsInt(v), SetDeleted(env.now)) == Done(t1, rows);
    assert CloseListingsOf(t1, AsInt(v), env.now) == Done(t2, []);
    assert CloseConversationsOf(t2, AsInt(v), env.now) == Done(t', []);
    if AsInt(v).Int? {
      AccountDeleted(t, AsInt(v).n, env.now, t1, rows);
      ClosingsAre(t1, t2, t', AsInt(v).n, env.now);
    }
  }

  /** Whatever a committed close-account has found: exactly what it leaves, and whether its
      first statement returned the account. */
  lemma CloseAccountLeaves(env: Env, input: Input, t: Tables, t': Tables)
    requires Defined(CloseAccountTemplate()) && PlanOf(CloseAccountTemplate(), input).Ok?
    requires Commits(env, t, PlanOf(CloseAccountTemplate(), input).value.queries, t')
    ensures |PlanOf(CloseAccountTemplate(), input).value.queries| == 3
    ensures var account := AsInt(InputValue(input, ACCOUNT_ID, 1, 0));
            && !account.NotInt?
            && (account.NullInt? ==> t' == t)
            && (account.Int? ==> t' == AfterClosing(t, account.n, env.now))
            && (ResultsOf(env, t, PlanOf(CloseAccountTemplate(), input).value.queries, t')[0]
                == if account.Int? && Live(t, account.n) then Returning(COL_USER_ID, account.n) else [])
  {
    var v := CloseAccountPlan(input);
    var qs := PlanOf(CloseAccountTemplate(), input).value.queries;
    var t1, t2 := CloseAccountRun(env, t, qs, v, t');
    ClosingStatements(env, t, v, t1, t2, t');
  }

  lemma NothingStaysOpen(t: Tables, n: int, now: nat)
    ensures NothingOpenOf(AfterClosing(t, n, now), n)
  {
  }

  /** After close-account has succeeded the account is deleted, all of its listings and all of
      the conversations that it takes part in are closed, and nothing else has changed. */
  lemma AccountClosed(env: Env, input: Input, t: Tables, t': Tables) returns (n: int)
    requires Defined(CloseAccountTemplate()) && PlanOf(CloseAccountTemplate(), input).Ok?
    requires Commits(env, t, PlanOf(CloseAccountTemplate(), input).value.queries, t')
    requires |PlanOf(CloseAccountTemplate(), input).value.queries| > 0
    requires ResultsOf(env, t, PlanOf(CloseAccountTemplate(), input).value.queries, t')[0] != []
    ensures AsInt(InputValue(input, ACCOUNT_ID, 1, 0)) == Int(n) && Live(t, n)
    ensures t' == Closings(Deleted(t, n, env.now), n, env.now) && NothingOpenOf(t', n)
    ensures EverythingOfClosed(t, t', n, env.now) && OnlyAccountDeleted(t, t', n, env.now)
  {
    CloseAccountLeaves(env, input, t, t');
    n := AsInt(InputValue(input, ACCOUNT_ID, 1, 0)).n;
    ClosingColumnByColumn(t, n, env.now);
    NothingStaysOpen(t, n, env.now);
  }
}
