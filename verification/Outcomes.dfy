/** What the store stage answers and leaves on a database that does not fail, case by case, in
    terms of the columns of the tables: the actions of one statement. */
module Outcomes {
  import opened Values
  import opened Vocabulary
  import opened SqlTemplate
  import opened PlanShape
  import opened Execution
  import opened Database
  import opened Store
  import opened Schema
  import opened Search
  import opened Statements
  import opened Invariants
  import opened Templates
  import opened Builds
  import opened Transactions
  import opened Closing
  import opened Effects
  import opened Deviations

  /** What comes of one statement. */
  function Settled(t: Tables, effect: Effect): (Tables, Outcome) {
    if effect.Refused? then (t, Err(Translated(QueryExecution(effect.code))))
    else if effect.rows == [] then (effect.db, Err(EmptyResponse))
    else (effect.db, Ok([effect.rows]))
  }

  /** A plan of one query whose result is kept. */
  ghost predicate OneQuery(template: Template, input: Input, text: Sql, args: seq<Val>) {
    && Defined(template) && PlanOf(template, input).Ok? && template.errorOnEmptyResponse
    && var plan := PlanOf(template, input).value;
       && |plan.names| == 1 && !Dropped(template, plan.names[0])
       && |plan.queries| == 1 && plan.queries[0].text == text && RawAll(Params(plan.queries[0])) == args
  }

  lemma OneQueryStores(template: Template, text: Sql, args: seq<Val>, input: Input, env: Env, t: Tables)
    requires Unfailing(env) && OneQuery(template, input, text, args)
    ensures StoreOf(template, input, EngineOf(env), env.faults, t) == Settled(t, Exec(env, t, text, args))
  {
    var plan := PlanOf(template, input).value;
    var effect := Exec(env, t, text, args);
    if effect.Done? {
      PreparedOne(template, plan.names, effect.rows);
    }
  }

  lemma PreparedOne(template: Template, names: seq<QueryName>, rows: Rows)
    requires |names| == 1 && !Dropped(template, names[0]) && template.errorOnEmptyResponse
    ensures Prepared(template, names, [rows]) == if rows == [] then Err(EmptyResponse) else Ok([rows])
  {
    assert names == [names[0]];
    OneKept(template, names[0], rows);
    assert rows in [rows];
  }

  /** One statement that takes everything from the input, and what comes of it. */
  lemma OneStatementStores(template: Template, text: Sql, keys: seq<Key>, input: Input, env: Env, t: Tables)
    requires Unfailing(env) && OneStatement(template, text, keys) && Defined(template) && template.errorOnEmptyResponse
    ensures StoreOf(template, input, EngineOf(env), env.faults, t)
         == Settled(t, Exec(env, t, text, Arguments(input, keys)))
  {
    OneStatementPlan(template, text, keys, input);
    OneQueryStores(template, text, Arguments(input, keys), input, env, t);
  }

  lemma ConversationStatements(env: Env, t: Tables, args: seq<Val>, user: int, n: int)
    requires |args| == 2 && AsInt(args[0]) == Int(user) && AsInt(args[1]) == Int(n)
    ensures Exec(env, t, UpsertConversation, args) == UpsertConversationRow(t, Int(user), Int(n))
    ensures Exec(env, t, CloseConversation, args) == CloseConversationRow(t, Int(user), Int(n), env.now)
  {
  }

  lemma SavedStatements(env: Env, t: Tables, args: seq<Val>, user: int, n: int)
    requires |args| == 2 && AsInt(args[0]) == Int(user) && AsInt(args[1]) == Int(n)
    ensures Exec(env, t, InsertSavedListing, args) == InsertSavedRow(t, Int(user), Int(n))
    ensures Exec(env, t, DeleteSavedListing, args) == DeleteSavedRow(t, Int(user), Int(n))
  {
  }

  lemma MessageStatement(env: Env, t: Tables, args: seq<Val>, user: int, n: int)
    requires |args| == 3 && AsInt(args[0]) == Int(user) && AsInt(args[1]) == Int(n)
    ensures Exec(env, t, InsertMessage, args) == InsertMessageRow(t, Int(user), Int(n), args[2])
  {
  }

  // ---------------------------------------------------------------- create-conversation

  /** The listing is open, and someone else's. */
  predicate MayAsk(t: Tables, user: int, l: int) {
    l in t.listings.rows && t.listings.rows[l].closed.None? && t.listings.rows[l].contributor != user
  }

  /** Conversation c is this receiver's, about this listing. */
  predicate Asks(t: Tables, c: int, user: int, l: int) {
    c in t.conversations.rows && t.conversations.rows[c].receiver == user && t.conversations.rows[c].listing == l
  }

  /** What an upsert makes of the tables, and what it returns. */
  lemma Upsert(t: Tables, user: int, l: int)
    requires ConversationsOk(t)
    ensures var effect := UpsertConversationRow(t, Int(user), Int(l));
            && (!MayAsk(t, user, l) ==> effect == Done(t, []))
            && (MayAsk(t, user, l) ==>
                  && (forall c :: Asks(t, c, user, l) ==>
                        effect == Done(t.(conversations := t.conversations.(rows :=
                                            t.conversations.rows[c := Conversation(user, l, None)])),
                                       Returning(COL_CONVERSATION_ID, c)))
                  && ((forall c :: !Asks(t, c, user, l)) ==>
                        effect == if user !in t.accounts.rows then Refused(ForeignKeyViolation)
                                  else Done(t.(conversations := t.conversations.Insert(Conversation(user, l, None))),
                                            Returning(COL_CONVERSATION_ID, t.conversations.serial))))
  {
    var effect := UpsertConversationRow(t, Int(user), Int(l));
    forall c | MayAsk(t, user, l) && Asks(t, c, user, l)
      ensures effect == Done(t.(conversations := t.conversations.(rows :=
                                  t.conversations.rows[c := Conversation(user, l, None)])),
                             Returning(COL_CONVERSATION_ID, c))
    {
      var found := ExistingConversation(t, user, l);
      assert SamePair(t.conversations.rows[found.value], t.conversations.rows[c]);
    }
  }

  /** A conversation is begun, or reopened under the id it has, exactly if the listing is open
      and someone else's and the account exists; otherwise nothing changes, and the answer is
      that nothing was found, or that a reference is broken. */
  lemma CreateConversationExactly(env: Env, input: Input, t: Tables, user: int, l: int)
    requires Unfailing(env) && Inv(t)
    requires IntOf(input, ACCOUNT_ID) == Int(user) && IntOf(input, LISTING_ID) == Int(l)
    ensures Defined(CreateConversationTemplate())
    ensures var (t', outcome) := StoreOf(CreateConversationTemplate(), input, EngineOf(env), env.faults, t);
            AskedExactly(t, t', outcome, user, l)
  {
    var keys := [ACCOUNT_ID, LISTING_ID];
    ShippedDefined(CreateConversationAction);
    CreateConversationIsOne();
    OneStatementStores(CreateConversationTemplate(), UpsertConversation, keys, input, env, t);
    ConversationStatements(env, t, Arguments(input, keys), user, l);
    UpsertSettles(t, user, l);
  }

  /** The same of the statement. */
  ghost predicate AskedExactly(t: Tables, t': Tables, outcome: Outcome, user: int, l: int) {
    && (outcome.Ok? <==> MayAsk(t, user, l) && user in t.accounts.rows)
    && (outcome.Err? ==> t' == t && outcome.error == if MayAsk(t, user, l) then ForeignKey else EmptyResponse)
    && (outcome.Ok? ==>
          && (forall c :: Asks(t, c, user, l) ==> Begun(t, t', outcome.value, c, user, l))
          && ((forall c :: !Asks(t, c, user, l)) ==>
                && Begun(t, t', outcome.value, t.conversations.serial, user, l)
                && t.conversations.serial !in t.conversations.rows))
  }

  lemma UpsertSettles(t: Tables, user: int, l: int)
    requires Inv(t)
    ensures var (t', outcome) := Settled(t, UpsertConversationRow(t, Int(user), Int(l)));
            AskedExactly(t, t', outcome, user, l)
  {
    Upsert(t, user, l);
    if c :| Asks(t, c, user, l) {
      assert ConversationOk(t, t.conversations.rows[c]);
    }
  }

  /** Conversation c is open, and it was all that changed; and its id is the result. */
  ghost predicate Begun(t: Tables, t': Tables, results: seq<Rows>, c: int, user: int, l: int) {
    && results == [Returning(COL_CONVERSATION_ID, c)]
    && t' == t.(conversations := t'.conversations)
    && t'.conversations.rows == t.conversations.rows[c := Conversation(user, l, None)]
  }

  // ---------------------------------------------------------------- close-conversation, create-message

  predicate OpenTo(t: Tables, c: int, user: int) {
    c in t.conversations.rows && t.conversations.rows[c].closed.None? && PartyOf(t, c, user)
  }

  /** Either party of an open conversation can close it, and nobody else. */
  lemma CloseConversationExactly(env: Env, input: Input, t: Tables, user: int, c: int)
    requires Unfailing(env)
    requires IntOf(input, ACCOUNT_ID) == Int(user) && IntOf(input, CONVERSATION_ID) == Int(c)
    ensures Defined(CloseConversationTemplate())
    ensures StoreOf(CloseConversationTemplate(), input, EngineOf(env), env.faults, t)
         == if OpenTo(t, c, user)
            then (t.(conversations := t.conversations.(rows :=
                       t.conversations.rows[c := t.conversations.rows[c].(closed := Some(env.now))])),
                  Ok([Returning(COL_CONVERSATION_ID, c)]))
            else (t, Err(EmptyResponse))
  {
    var keys := [ACCOUNT_ID, CONVERSATION_ID];
    ShippedDefined(CloseConversationAction);
    CloseConversationIsOne();
    OneStatementStores(CloseConversationTemplate(), CloseConversation, keys, input, env, t);
    ConversationStatements(env, t, Arguments(input, keys), user, c);
    ClosingSettles(t, user, c, env.now);
  }

  lemma ClosingSettles(t: Tables, user: int, c: int, now: nat)
    ensures Settled(t, CloseConversationRow(t, Int(user), Int(c), now))
         == if OpenTo(t, c, user)
            then (t.(conversations := t.conversations.(rows :=
                       t.conversations.rows[c := t.conversations.rows[c].(closed := Some(now))])),
                  Ok([Returning(COL_CONVERSATION_ID, c)]))
            else (t, Err(EmptyResponse))
  {
  }

  /** Either party of an open conversation can send a message in it, and nobody else. */
  lemma CreateMessageExactly(env: Env, input: Input, t: Tables, user: int, c: int)
    requires Unfailing(env) && Inv(t) && URL !in input
    requires IntOf(input, ACCOUNT_ID) == Int(user) && IntOf(input, CONVERSATION_ID) == Int(c)
    requires !IsNull(InputValue(input, TEXT_CONTENT, 1, 0))
    ensures Defined(CreateMessageTemplate())
    ensures StoreOf(CreateMessageTemplate(), input, EngineOf(env), env.faults, t)
         == if OpenTo(t, c, user)
            then (t.(messages := t.messages.Insert(Message(user, c, InputValue(input, TEXT_CONTENT, 1, 0)))),
                  Ok([Returning(COL_MESSAGE_ID, t.messages.serial)]))
            else (t, Err(EmptyResponse))
  {
    var template, args := CreateMessageTemplate(), Arguments(input, [ACCOUNT_ID, CONVERSATION_ID, TEXT_CONTENT]);
    ShippedDefined(CreateMessageAction);
    CreateMessageIsOne(input);
    OneQueryStores(template, InsertMessage, args, input, env, t);
    MessageStatement(env, t, args, user, c);
    MessageSettles(t, user, c, args[2]);
  }

  lemma MessageSettles(t: Tables, user: int, c: int, text: Val)
    requires Inv(t) && !IsNull(text)
    ensures Settled(t, InsertMessageRow(t, Int(user), Int(c), text))
         == if OpenTo(t, c, user)
            then (t.(messages := t.messages.Insert(Message(user, c, text))),
                  Ok([Returning(COL_MESSAGE_ID, t.messages.serial)]))
            else (t, Err(EmptyResponse))
  {
    if OpenTo(t, c, user) {
      SenderExists(t, c, user);
    }
  }

  lemma CreateMessageIsOne(input: Input)
    requires URL !in input && Defined(CreateMessageTemplate())
    ensures OneQuery(CreateMessageTemplate(), input, InsertMessage,
                     Arguments(input, [ACCOUNT_ID, CONVERSATION_ID, TEXT_CONTENT]))
  {
    CreateMessagePlan(input);
    assert !Dropped(CreateMessageTemplate(), CREATE_MESSAGE);
  }

  /** The parties of a conversation have accounts. */
  lemma SenderExists(t: Tables, c: int, user: int)
    requires Inv(t) && c in t.conversations.rows && PartyOf(t, c, user)
    ensures user in t.accounts.rows && t.conversations.rows[c].listing in t.listings.rows
  {
    assert ConversationOk(t, t.conversations.rows[c]);
    assert ListingViolation(t, t.listings.rows[t.conversations.rows[c].listing]).None?;
  }

  // ---------------------------------------------------------------- saved listings

  /** A listing is saved exactly if it is open, not saved yet, and the account exists. */
  lemma SaveListingExactly(env: Env, input: Input, t: Tables, user: int, l: int)
    requires Unfailing(env)
    requires IntOf(input, ACCOUNT_ID) == Int(user) && IntOf(input, LISTING_ID) == Int(l)
    ensures Defined(SaveListingTemplate())
    ensures StoreOf(SaveListingTemplate(), input, EngineOf(env), env.faults, t)
         == if !(l in t.listings.rows && t.listings.rows[l].closed.None?) then (t, Err(EmptyResponse))
            else if (user, l) in t.saved then (t, Err(UniqueConstraint))
            else if user !in t.accounts.rows then (t, Err(ForeignKey))
            else (t.(saved := t.saved + {(user, l)}), Ok([Returning(COL_USER_ID, user)]))
  {
    var keys := [ACCOUNT_ID, LISTING_ID];
    ShippedDefined(CreateSavedListingAction);
    SaveListingIsOne();
    OneStatementStores(SaveListingTemplate(), InsertSavedListing, keys, input, env, t);
    SavedStatements(env, t, Arguments(input, keys), user, l);
  }

  /** A listing is forgotten exactly if it was saved, open or not. */
  lemma ForgetListingExactly(env: Env, input: Input, t: Tables, user: int, l: int)
    requires Unfailing(env)
    requires IntOf(input, ACCOUNT_ID) == Int(user) && IntOf(input, LISTING_ID) == Int(l)
    ensures Defined(ForgetListingTemplate())
    ensures StoreOf(ForgetListingTemplate(), input, EngineOf(env), env.faults, t)
         == if (user, l) in t.saved
            then (t.(saved := t.saved - {(user, l)}), Ok([Returning(COL_USER_ID, user)]))
            else (t, Err(EmptyResponse))
  {
    var keys := [ACCOUNT_ID, LISTING_ID];
    ShippedDefined(CloseSavedListingAction);
    SaveListingIsOne();
    OneStatementStores(ForgetListingTemplate(), DeleteSavedListing, keys, input, env, t);
    SavedStatements(env, t, Arguments(input, keys), user, l);
  }

  // ---------------------------------------------------------------- searching

  /** The parameters of a search can be read, and its page is one. */
  predicate SearchReadable(input: Input) {
    var limit, offset := IntOf(input, MAX_RESULTS), IntOf(input, START_RESULTS);
    && !IntOf(input, ACCOUNT_ID).NotInt? && !IntOf(input, CATEGORY_ID).NotInt?
    && !limit.NotInt? && !offset.NotInt? && (limit.Int? ==> limit.n >= 0) && (offset.Int? ==> offset.n >= 0)
  }

  /** What a search makes of the tables, and what it returns. */
  ghost predicate Searched(t: Tables, effect: Effect, input: Input) {
    && (effect.Done? <==> SearchReadable(input))
    && (effect.Done? ==> effect.db == t && IsPage(t, input, effect.rows))
  }

  lemma SearchSettles(t: Tables, input: Input)
    ensures Searched(t, SearchRows(t, InputValue(input, ACCOUNT_ID, 1, 0), InputValue(input, CATEGORY_ID, 1, 0),
                                   InputValue(input, REGION, 1, 0), InputValue(input, MAX_RESULTS, 1, 0),
                                   InputValue(input, START_RESULTS, 1, 0)), input)
  {
  }

  lemma SearchStatement(env: Env, t: Tables, input: Input)
    ensures Searched(t, Exec(env, t, SearchListing,
                             Arguments(input, [ACCOUNT_ID, CATEGORY_ID, REGION, MAX_RESULTS, START_RESULTS])), input)
  {
    var args := Arguments(input, [ACCOUNT_ID, CATEGORY_ID, REGION, MAX_RESULTS, START_RESULTS]);
    SearchSettles(t, input);
    assert Exec(env, t, SearchListing, args) == SearchRows(t, args[0], args[1], args[2], args[3], args[4]);
  }

  /** A search finds its page exactly if it can be read; and it changes nothing either way. */
  lemma SearchListingExactly(env: Env, input: Input, t: Tables)
    requires Unfailing(env)
    ensures Defined(SearchListingTemplate())
    ensures var (t', outcome) := StoreOf(SearchListingTemplate(), input, EngineOf(env), env.faults, t);
            && t' == t && (outcome.Ok? <==> SearchReadable(input))
            && (outcome.Ok? ==> |outcome.value| == 1 && IsPage(t, input, outcome.value[0]))
  {
    var template, keys := SearchListingTemplate(), [ACCOUNT_ID, CATEGORY_ID, REGION, MAX_RESULTS, START_RESULTS];
    ShippedDefined(SearchListingAction);
    SearchIsOne();
    OneStatementPlan(template, SearchListing, keys, input);
    SearchStatement(env, t, input);
    SearchStores(template, input, Arguments(input, keys), env, t);
  }

  lemma SearchStores(template: Template, input: Input, args: seq<Val>, env: Env, t: Tables)
    requires Unfailing(env) && Defined(template) && PlanOf(template, input).Ok? && !template.errorOnEmptyResponse
    requires |PlanOf(template, input).value.names| == |PlanOf(template, input).value.queries| == 1
    requires template.drop.None?
    requires PlanOf(template, input).value.queries[0].text == SearchListing
    requires RawAll(Params(PlanOf(template, input).value.queries[0])) == args
    ensures var effect := Exec(env, t, SearchListing, args);
            StoreOf(template, input, EngineOf(env), env.faults, t)
            == if effect.Refused? then (t, Err(Translated(QueryExecution(effect.code))))
               else (effect.db, Ok([effect.rows]))
  {
    var plan := PlanOf(template, input).value;
    var effect := Exec(env, t, SearchListing, args);
    if effect.Done? {
      assert plan.names == [plan.names[0]];
      OneKept(template, plan.names[0], effect.rows);
    }
  }
}
