/** What a successful request to each kind of pipeline has done to the tables, and what it
    answers. */
module Effects {
  import opened Values
  import opened Vocabulary
  import opened SqlTemplate
  import opened PlanShape
  import opened Execution
  import opened Database
  import opened Store
  import opened Schema
  import opened Search
  import opened Statements
  import opened Invariants
  import opened Templates
  import opened Builds
  import opened Transactions
  import opened Closing
  import opened RequestSchemas
  import opened ResponseSchemas
  import opened GeneralPipe
  import opened Requests
  import opened Reachability
  import Response

  ghost predicate Succeeds(v: Visit, t: Tables) {
    Possible(v) && Served(v, t).1.Some? && Response.IsSuccess(Served(v, t).1.value.status)
  }

  /** What a successful request gave to `Store`, and got back. */
  lemma SuccessMeans(v: Visit, t: Tables) returns (input: Input, results: seq<Rows>)
    requires Succeeds(v, t)
    ensures Prepare(PipeOf(v.action, v.w.oracle), v.req, v.w) == Ready(input) && Usable(input)
    ensures Defined(TemplateOf(v.action))
    ensures StoreOf(TemplateOf(v.action), input, EngineOf(v.env), v.env.faults, t) == (Served(v, t).0, Ok(results))
    ensures Served(v, t).1 == RespondTo(PipeOf(v.action, v.w.oracle), Ok(results))
  {
    var p := PipeOf(v.action, v.w.oracle);
    ShippedDefined(v.action);
    ShippedAreHonest(v.action, v.w.oracle);
    match Prepare(p, v.req, v.w) {
      case Rejected(e) => OutcomeAnswered(p, Err(e));
      case Ready(i) =>
        input := i;
        var stored := StoreOf(p.sql, input, EngineOf(v.env), v.env.faults, t);
        OutcomeAnswered(p, stored.1);
        results := stored.1.value;
        ReadyIsUsable(v.action, v.req, v.w);
    }
  }

  // ---------------------------------------------------------------- one statement

  /** A template of one statement that takes everything from the input. */
  ghost predicate OneStatement(t: Template, text: Sql, keys: seq<Key>) {
    && |t.order| == 1 && t.order[0] in t.dict && t.drop.None?
    && t.dict[t.order[0]].text == text && t.dict[t.order[0]].condition.None? && t.dict[t.order[0]].times.None?
    && t.dict[t.order[0]].values.Some? && |t.dict[t.order[0]].values.value| == |keys|
    && forall j :: 0 <= j < |keys| ==> t.dict[t.order[0]].values.value[j] == FromInput(keys[j])
  }

  function Arguments(input: Input, keys: seq<Key>): seq<Val> {
    seq(|keys|, j requires 0 <= j < |keys| => InputValue(input, keys[j], 1, 0))
  }

  lemma OneStatementPlan(t: Template, text: Sql, keys: seq<Key>, input: Input)
    requires OneStatement(t, text, keys) && Defined(t)
    ensures PlanOf(t, input).Ok? && PlanOf(t, input).value.names == [t.order[0]]
    ensures |PlanOf(t, input).value.queries| == 1
    ensures PlanOf(t, input).value.queries[0].text == text
    ensures RawAll(Params(PlanOf(t, input).value.queries[0])) == Arguments(input, keys)
  {
    assert Copies(t, input, 0) == 1;
    assert Buildable(t, input, 0);
    assert Offset(t, input, 1) == 1;
    BuildSucceedsIff(t, input);
    PlanLength(t, input);
    ParameterMatrix(t, input, 0, 0);
    var plan, cs := PlanOf(t, input).value, t.dict[t.order[0]].values.value;
    forall j | 0 <= j < |keys|
      ensures Params(plan.queries[0])[j] == Plain(InputValue(input, keys[j], 1, 0))
    {
      assert CompiledTo(t, input, 0, 0, plan.names, cs[j], Params(plan.queries[0])[j]);
    }
  }

  lemma OneStatementDone(t: Template, text: Sql, keys: seq<Key>, input: Input, env: Env, db: Tables, db': Tables,
                         results: seq<Rows>)
    requires OneStatement(t, text, keys) && Defined(t)
    requires StoreOf(t, input, EngineOf(env), env.faults, db) == (db', Ok(results))
    ensures |results| == 1 && Exec(env, db, text, Arguments(input, keys)) == Done(db', results[0])
    ensures t.errorOnEmptyResponse ==> results[0] != []
  {
    OneStatementPlan(t, text, keys, input);
    var plan := PlanOf(t, input).value;
    OneKept(t, plan.names[0], Executed(EngineOf(env), env.faults, plan.queries, db).1.value[0]);
  }

  lemma OneKept(t: Template, q: QueryName, rows: Rows)
    requires !Dropped(t, q)
    ensures Kept(t, [q], [rows]) == [rows]
  {
    assert [q][..0] == [] && [rows][..0] == [];
    assert Kept(t, [], []) == [];
  }

  /** A result with one id is answered with that id as `success`. */
  lemma IdIsAnswered(p: Pipe, column: Key, id: int)
    requires p.answers == [Response.Field(SUCCESS, column)] && p.statuses == Response.StatusMap(Some(201), map[])
    ensures RespondTo(p, Ok([Returning(column, id)])) == Some(Sent(201, Fields(map[SUCCESS := Num(id)])))
  {
    var row: Row := map[column := Num(id)];
    var results := [[row]];
    assert row.Keys == {column};
    assert Response.HasFields(row, [column]);
    assert Response.FirstRow([row], [column]) == Some(0);
    assert Response.Chosen(results, [column], 1) == Some((0, 0));
    assert Response.ValueOf(p.answers[0], results) == Num(id);
    assert Response.ResponseUpTo(p.answers, results, 0) == map[];
    assert Response.ResponseUpTo(p.answers, results, 1) == map[SUCCESS := Num(id)];
    var output: Response.Output := map[SUCCESS := Num(id)];
    assert SUCCESS in output;
  }

  // ---------------------------------------------------------------- conversations

  /** `Store` resolved with these results. */
  ghost predicate Resolved(template: Template, env: Env, input: Input, t: Tables, t': Tables, results: seq<Rows>) {
    Defined(template) && StoreOf(template, input, EngineOf(env), env.faults, t) == (t', Ok(results))
  }

  lemma Upserted(t: Tables, user: IntParam, listing: IntParam, t': Tables, rows: Rows) returns (c: int)
    requires UpsertConversationRow(t, user, listing) == Done(t', rows) && rows != []
    ensures rows == Returning(COL_CONVERSATION_ID, c)
    ensures user.Int? && listing.Int? && Open(t, listing.n) && t.listings.rows[listing.n].contributor != user.n
    ensures t' == t.(conversations := t'.conversations)
    ensures t'.conversations.rows == t.conversations.rows[c := Conversation(user.n, listing.n, None)]
    ensures t.conversations.Valid() && c in t.conversations.rows ==>
              SamePair(t.conversations.rows[c], t'.conversations.rows[c])
    ensures ConversationsOk(t) ==> OnlyAs(t, user.n, listing.n, c)
  {
    var existing := ExistingConversation(t, user.n, listing.n);
    c := if existing.Some? then existing.value else t.conversations.serial;
  }

  /** If this receiver has a conversation about this listing already, it is c. */
  ghost predicate OnlyAs(t: Tables, receiver: int, listing: int, c: int) {
    var asked := Conversation(receiver, listing, None);
    forall d :: d in t.conversations.rows && SamePair(t.conversations.rows[d], asked) ==> d == c
  }

  lemma CreateConversationIsOne()
    ensures OneStatement(CreateConversationTemplate(), UpsertConversation, [ACCOUNT_ID, LISTING_ID])
    ensures CreateConversationTemplate().errorOnEmptyResponse
  {
  }

  /** A conversation that was begun is open, on an open listing of someone else; if there
      was one already it keeps its id, and nothing else has changed. */
  lemma ConversationBegun(env: Env, input: Input, t: Tables, t': Tables, results: seq<Rows>) returns (c: int)
    requires Resolved(CreateConversationTemplate(), env, input, t, t', results) && ConversationsOk(t)
    ensures results == [Returning(COL_CONVERSATION_ID, c)]
    ensures var user, listing := AsInt(InputValue(input, ACCOUNT_ID, 1, 0)), AsInt(InputValue(input, LISTING_ID, 1, 0));
            && user.Int? && listing.Int? && Open(t, listing.n) && t.listings.rows[listing.n].contributor != user.n
            && t' == t.(conversations := t'.conversations)
            && t'.conversations.rows == t.conversations.rows[c := Conversation(user.n, listing.n, None)]
            && (c in t.conversations.rows ==> SamePair(t.conversations.rows[c], t'.conversations.rows[c]))
            && OnlyAs(t, user.n, listing.n, c)
  {
    var keys := [ACCOUNT_ID, LISTING_ID];
    CreateConversationIsOne();
    OneStatementDone(CreateConversationTemplate(), UpsertConversation, keys, input, env, t, t', results);
    var args := Arguments(input, keys);
    assert Exec(env, t, UpsertConversation, args) == UpsertConversationRow(t, AsInt(args[0]), AsInt(args[1]));
    c := Upserted(t, AsInt(args[0]), AsInt(args[1]), t', results[0]);
  }

  lemma CloseConversationIsOne()
    ensures OneStatement(CloseConversationTemplate(), CloseConversation, [ACCOUNT_ID, CONVERSATION_ID])
    ensures CloseConversationTemplate().errorOnEmptyResponse
  {
  }

  lemma ClosedRow(t: Tables, user: IntParam, conversation: IntParam, now: nat, t': Tables, rows: Rows)
    requires CloseConversationRow(t, user, conversation, now) == Done(t', rows) && rows != []
    ensures user.Int? && conversation.Int? && conversation.n in t.conversations.rows
    ensures t.conversations.rows[conversation.n].closed.None? && TakesPart(t, conversation.n, user.n)
    ensures t'.conversations.rows
            == t.conversations.rows[conversation.n := t.conversations.rows[conversation.n].(closed := Some(now))]
    ensures t' == t.(conversations := t'.conversations) && rows == Returning(COL_CONVERSATION_ID, conversation.n)
  {
  }

  /** A conversation is closed by one of its parties, and only that conversation. */
  lemma ConversationClosed(env: Env, input: Input, t: Tables, t': Tables, results: seq<Rows>)
    requires Resolved(CloseConversationTemplate(), env, input, t, t', results)
    ensures var user, c := AsInt(InputValue(input, ACCOUNT_ID, 1, 0)), AsInt(InputValue(input, CONVERSATION_ID, 1, 0));
            && user.Int? && c.Int? && c.n in t.conversations.rows
            && t.conversations.rows[c.n].closed.None? && PartyOf(t, c.n, user.n)
            && t' == t.(conversations := t'.conversations)
            && t'.conversations.rows == t.conversations.rows[c.n := t.conversations.rows[c.n].(closed := Some(env.now))]
            && results == [Returning(COL_CONVERSATION_ID, c.n)]
  {
    var keys := [ACCOUNT_ID, CONVERSATION_ID];
    CloseConversationIsOne();
    OneStatementDone(CloseConversationTemplate(), CloseConversation, keys, input, env, t, t', results);
    var args := Arguments(input, keys);
    assert Exec(env, t, CloseConversation, args) == CloseConversationRow(t, AsInt(args[0]), AsInt(args[1]), env.now);
    ClosedRow(t, AsInt(args[0]), AsInt(args[1]), env.now, t', results[0]);
  }

  // ---------------------------------------------------------------- messages

  lemma CreateMessagePlan(input: Input)
    requires URL !in input && Defined(CreateMessageTemplate())
    ensures var plan := PlanOf(CreateMessageTemplate(), input);
            && plan.Ok? && plan.value.names == [CREATE_MESSAGE] && |plan.value.queries| == 1
            && plan.value.queries[0].text == InsertMessage
            && RawAll(Params(plan.value.queries[0])) == Arguments(input, [ACCOUNT_ID, CONVERSATION_ID, TEXT_CONTENT])
  {
    var t, keys := CreateMessageTemplate(), [ACCOUNT_ID, CONVERSATION_ID, TEXT_CONTENT];
    assert Copies(t, input, 0) == 1 && Copies(t, input, 1) == 0;
    assert Buildable(t, input, 0) && Buildable(t, input, 1);
    assert Offset(t, input, 1) == 1;
    assert Offset(t, input, 2) == 1;
    BuildSucceedsIff(t, input);
    PlanLength(t, input);
    ParameterMatrix(t, input, 0, 0);
    var plan, cs := PlanOf(t, input).value, t.dict[t.order[0]].values.value;
    assert cs == [FromInput(ACCOUNT_ID), FromInput(CONVERSATION_ID), FromInput(TEXT_CONTENT)];
    forall j | 0 <= j < 3
      ensures Params(plan.queries[0])[j] == Plain(InputValue(input, keys[j], 1, 0))
    {
      assert CompiledTo(t, input, 0, 0, plan.names, cs[j], Params(plan.queries[0])[j]);
    }
  }

  lemma Messaged(t: Tables, user: IntParam, conversation: IntParam, text: Val, t': Tables, rows: Rows)
    requires InsertMessageRow(t, user, conversation, text) == Done(t', rows) && rows != []
    ensures user.Int? && conversation.Int? && conversation.n in t.conversations.rows
    ensures t.conversations.rows[conversation.n].closed.None? && TakesPart(t, conversation.n, user.n)
    ensures t' == t.(messages := t.messages.Insert(Message(user.n, conversation.n, text)))
    ensures rows == Returning(COL_MESSAGE_ID, t.messages.serial)
  {
  }

  /** A message that was sent is appended to an open conversation of its sender. */
  lemma MessageSent(env: Env, input: Input, t: Tables, t': Tables, results: seq<Rows>)
    requires URL !in input && Resolved(CreateMessageTemplate(), env, input, t, t', results)
    ensures var user, c, text := AsInt(InputValue(input, ACCOUNT_ID, 1, 0)),
                AsInt(InputValue(input, CONVERSATION_ID, 1, 0)),
                                 InputValue(input, TEXT_CONTENT, 1, 0);
            && user.Int? && c.Int? && c.n in t.conversations.rows
            && t.conversations.rows[c.n].closed.None? && PartyOf(t, c.n, user.n)
            && t' == t.(messages := t.messages.Insert(Message(user.n, c.n, text)))
            && results == [Returning(COL_MESSAGE_ID, t.messages.serial)]
  {
    var template, args := CreateMessageTemplate(), Arguments(input, [ACCOUNT_ID, CONVERSATION_ID, TEXT_CONTENT]);
    CreateMessagePlan(input);
    var plan := PlanOf(template, input).value;
    var rows := Executed(EngineOf(env), env.faults, plan.queries, t).1.value[0];
    assert !Dropped(template, CREATE_MESSAGE);
    OneKept(template, CREATE_MESSAGE, rows);
    assert Exec(env, t, InsertMessage, args) == InsertMessageRow(t, AsInt(args[0]), AsInt(args[1]), args[2]);
    Messaged(t, AsInt(args[0]), AsInt(args[1]), args[2], t', rows);
  }

  // ---------------------------------------------------------------- saved listings

  lemma SaveListingIsOne()
    ensures OneStatement(SaveListingTemplate(), InsertSavedListing, [ACCOUNT_ID, LISTING_ID])
    ensures SaveListingTemplate().errorOnEmptyResponse
    ensures OneStatement(ForgetListingTemplate(), DeleteSavedListing, [ACCOUNT_ID, LISTING_ID])
    ensures ForgetListingTemplate().errorOnEmptyResponse
  {
  }

  /** An open listing that was not saved is saved for its caller. */
  lemma ListingSaved(env: Env, input: Input, t: Tables, t': Tables, results: seq<Rows>)
    requires Resolved(SaveListingTemplate(), env, input, t, t', results)
    ensures var user, l := AsInt(InputValue(input, ACCOUNT_ID, 1, 0)), AsInt(InputValue(input, LISTING_ID, 1, 0));
            && user.Int? && l.Int? && Open(t, l.n) && (user.n, l.n) !in t.saved
            && t' == t.(saved := t.saved + {(user.n, l.n)})
  {
    var keys := [ACCOUNT_ID, LISTING_ID];
    SaveListingIsOne();
    OneStatementDone(SaveListingTemplate(), InsertSavedListing, keys, input, env, t, t', results);
    var args := Arguments(input, keys);
    assert Exec(env, t, InsertSavedListing, args) == InsertSavedRow(t, AsInt(args[0]), AsInt(args[1]));
  }

  /** A saved listing is forgotten, open or closed. */
  lemma ListingForgotten(env: Env, input: Input, t: Tables, t': Tables, results: seq<Rows>)
    requires Resolved(ForgetListingTemplate(), env, input, t, t', results)
    ensures var user, l := AsInt(InputValue(input, ACCOUNT_ID, 1, 0)), AsInt(InputValue(input, LISTING_ID, 1, 0));
            && user.Int? && l.Int? && (user.n, l.n) in t.saved
            && t' == t.(saved := t.saved - {(user.n, l.n)})
  {
    var keys := [ACCOUNT_ID, LISTING_ID];
    SaveListingIsOne();
    OneStatementDone(ForgetListingTemplate(), DeleteSavedListing, keys, input, env, t, t', results);
    var args := Arguments(input, keys);
    assert Exec(env, t, DeleteSavedListing, args) == DeleteSavedRow(t, AsInt(args[0]), AsInt(args[1]));
  }

  /** Saving a listing and forgetting it again leaves the tables as they were. */
  lemma ForgettingUndoesSaving(env: Env, env': Env, input: Input, t: Tables, t': Tables, t'': Tables, saved: seq<Rows>,
                               forgotten: seq<Rows>)
    requires Resolved(SaveListingTemplate(), env, input, t, t', saved)
    requires Resolved(ForgetListingTemplate(), env', input, t', t'', forgotten)
    ensures t'' == t
  {
    ListingSaved(env, input, t, t', saved);
    ListingForgotten(env', input, t', t'', forgotten);
    var p := (AsInt(InputValue(input, ACCOUNT_ID, 1, 0)).n, AsInt(InputValue(input, LISTING_ID, 1, 0)).n);
    assert t.saved + {p} - {p} == t.saved;
  }

  // ---------------------------------------------------------------- searching

  /** A field of the input, used as an integer. */
  function IntOf(input: Input, key: Key): IntParam {
    AsInt(InputValue(input, key, 1, 0))
  }

  lemma SearchIsOne()
    ensures OneStatement(SearchListingTemplate(), SearchListing,
                         [ACCOUNT_ID, CATEGORY_ID, REGION, MAX_RESULTS, START_RESULTS])
  {
  }

  /** One page of the matching open listings, as the input asks for them. */
  ghost predicate IsPage(t: Tables, input: Input, page: Rows) {
    var limit, offset := IntOf(input, MAX_RESULTS), IntOf(input, START_RESULTS);
    && !IntOf(input, ACCOUNT_ID).NotInt? && !IntOf(input, CATEGORY_ID).NotInt?
    && (limit.Int? ==> limit.n >= 0) && (offset.Int? ==> offset.n >= 0)
    && page == Page(Results(t, IntOf(input, ACCOUNT_ID), IntOf(input, CATEGORY_ID), InputValue(input, REGION, 1, 0)),
                    limit, offset)
  }

  /** search-listing changes nothing and finds one page. */
  lemma ListingsFound(env: Env, input: Input, t: Tables, t': Tables, results: seq<Rows>)
    requires Resolved(SearchListingTemplate(), env, input, t, t', results)
    ensures t' == t && |results| == 1 && IsPage(t, input, results[0])
  {
    var keys := [ACCOUNT_ID, CATEGORY_ID, REGION, MAX_RESULTS, START_RESULTS];
    SearchIsOne();
    OneStatementDone(SearchListingTemplate(), SearchListing, keys, input, env, t, t', results);
    var args := Arguments(input, keys);
    assert Exec(env, t, SearchListing, args) == SearchRows(t, args[0], args[1], args[2], args[3], args[4]);
  }

  lemma {:induction false} AllCollected(rows: Rows, fields: seq<Key>)
    requires forall i :: 0 <= i < |rows| ==> Response.HasFields(rows[i], fields)
    ensures Response.Collected(rows, fields) == seq(|rows|, i requires 0 <= i < |rows| => Obj(rows[i]))
  {
    if rows != [] {
      AllCollected(rows[..|rows| - 1], fields);
    }
  }

  function ListingsBody(page: Rows): Response.Output {
    map[LISTINGS := Arr(seq(|page|, i requires 0 <= i < |page| => Obj(page[i])))]
  }

  /** Every row found is in the response, in order: the list is there even when it is empty. */
  lemma FoundIsAnswered(p: Pipe, t: Tables, input: Input, results: seq<Rows>)
    requires p.answers == [Response.RowsWithFields(LISTINGS, [LISTING_ID])]
    requires p.statuses == Response.StatusMap(None, map[])
    requires |results| == 1 && IsPage(t, input, results[0])
    ensures RespondTo(p, Ok(results)) == Some(Sent(200, Fields(ListingsBody(results[0]))))
  {
    assert results == [results[0]];
    PagesHaveIds(t, IntOf(input, ACCOUNT_ID), IntOf(input, CATEGORY_ID), InputValue(input, REGION, 1, 0),
                 IntOf(input, MAX_RESULTS), IntOf(input, START_RESULTS));
    PageListed(p.answers, results[0]);
    assert LISTINGS in ListingsBody(results[0]);
  }

  lemma PagesHaveIds(t: Tables, user: IntParam, category: IntParam, region: Val, limit: IntParam, offset: IntParam)
    requires (limit.Int? ==> limit.n >= 0) && (offset.Int? ==> offset.n >= 0)
    ensures var page := Page(Results(t, user, category, region), limit, offset);
            forall i :: 0 <= i < |page| ==> Response.HasFields(page[i], [LISTING_ID])
  {
    var rows := Results(t, user, category, region);
    forall i | 0 <= i < |rows|
      ensures Response.HasFields(rows[i], [LISTING_ID])
    {
      assert LISTING_ID in rows[i];
    }
  }

  lemma PageListed(answers: seq<Response.Param>, page: Rows)
    requires answers == [Response.RowsWithFields(LISTINGS, [LISTING_ID])]
    requires forall i :: 0 <= i < |page| ==> Response.HasFields(page[i], [LISTING_ID])
    ensures Response.ResponseUpTo(answers, [page], 1) == ListingsBody(page)
  {
    AllCollected(page, [LISTING_ID]);
    assert Response.CollectedUpTo([page], [LISTING_ID], 0) == [];
    assert Response.CollectedUpTo([page], [LISTING_ID], 1) == Response.Collected(page, [LISTING_ID]);
    assert Response.ResponseUpTo(answers, [page], 0) == map[];
  }
}
