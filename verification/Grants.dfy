/** What a request that is answered with success was validated to, and what it has made of the
    tables. */
module Grants {
  import opened Values
  import opened Vocabulary
  import opened SqlTemplate
  import opened PlanShape
  import opened Execution
  import opened Database
  import opened Store
  import opened Schema
  import opened Search
  import opened SearchJoins
  import opened Statements
  import opened Invariants
  import opened Templates
  import opened Builds
  import opened Transactions
  import opened Closing
  import opened Uploads
  import opened Listings
  import opened RequestSchemas
  import opened ResponseSchemas
  import opened GeneralPipe
  import opened Requests
  import opened Reachability
  import opened Asked
  import opened Effects
  import opened CreateAccount
  import opened CreateListing
  import opened ModifyListing
  import opened Rejections
  import opened ClosedDates
  import opened Deviations
  import Response
  import Request

  /** A request that was answered with success: what it was validated to, what it has made of
      the tables, and its response. */
  ghost predicate Granted(v: Visit, t: Tables, asked: Input, t': Tables, response: Sent) {
    && Possible(v) && Served(v, t) == (t', Some(response)) && Response.IsSuccess(response.status)
    && Validation(PipeOf(v.action, v.w.oracle), v.req, v.w) == Ok(asked)
  }

  /** Every success is one of a request that was validated. */
  lemma SuccessIsGranted(v: Visit, t: Tables) returns (asked: Input)
    requires Succeeds(v, t)
    ensures Granted(v, t, asked, Served(v, t).0, Served(v, t).1.value)
  {
    var input, results := SuccessMeans(v, t);
    asked := Validation(PipeOf(v.action, v.w.oracle), v.req, v.w).value;
  }

  /** A successful request, taken apart: what the store stage got, and what it returned. */
  lemma GrantedInside(v: Visit, t: Tables, asked: Input, t': Tables, response: Sent)
    returns (input: Input, results: seq<Rows>)
    requires Granted(v, t, asked, t', response)
    ensures Validated(v.action, v.w.oracle, asked) && Brings(v.w, asked, input)
    ensures Usable(input) && (URL in input <==> Submitted(asked) != [])
    ensures Resolved(TemplateOf(v.action), v.env, input, t, t', results)
    ensures Some(response) == RespondTo(PipeOf(v.action, v.w.oracle), Ok(results))
  {
    input, results := SuccessMeans(v, t);
    var p := PipeOf(v.action, v.w.oracle);
    ProcessValidates(v.action, v.w.oracle, WithAccount(Gathered(p, v.req), v.w.security.value));
    UploadsInOrder(v.w, v.action, asked);
    BroughtIsUsable(v.w, v.action, asked, input);
  }

  /** The uploads only add the media fields. */
  lemma SameField(w: World, asked: Input, input: Input, key: Key)
    requires Brings(w, asked, input) && key != URL && key != MIME_TYPE && key != MEDIA_INDEX
    ensures InputValue(input, key, 1, 0) == InputValue(asked, key, 1, 0)
  {
  }

  /** With no fields to answer with, the answer is that it succeeded. */
  lemma SuccessIsAnswered(p: Pipe, results: seq<Rows>, status: int)
    requires p.answers == [] && Response.StatusOf(p.statuses, None) == status && Response.IsSuccess(status)
    ensures RespondTo(p, Ok(results)) == Some(Sent(status, Fields(SUCCESS_BODY)))
  {
  }

  // ---------------------------------------------------------------- accounts

  /** The account that was asked for under a new id, with the address that came along, and
      the upload of the picture that came along. */
  ghost predicate AccountAsAsked(t: Tables, t': Tables, w: World, asked: Input) {
    var n := t.accounts.serial;
    && t'.accounts == t.accounts.Insert(NewAccount(asked))
    && t'.addresses == (if ADDRESS !in asked then t.addresses
                        else t.addresses.Insert(Schema.Address(AddressPart(asked, COUNTRY), AddressPart(asked, REGION),
                                                               AddressPart(asked, POSTCODE), n)))
    && (if Submitted(asked) == [] then t'.userMedia == t.userMedia
        else n in t'.userMedia && t'.userMedia == t.userMedia[n := t'.userMedia[n]]
             && MediaItemFrom(t'.userMedia[n], w, 0, Submitted(asked)[0]))
    && t' == t.(accounts := t'.accounts, addresses := t'.addresses, userMedia := t'.userMedia,
                mediaSerial := t'.mediaSerial)
  }

  lemma AddedAsAsked(t: Tables, w: World, asked: Input, input: Input)
    requires Brings(w, asked, input) && (URL in input <==> Submitted(asked) != []) && |Submitted(asked)| <= 1
    ensures AccountAsAsked(t, AccountAdded(t, input), w, asked)
  {
    if URL in input {
      assert CarriesUpload(input, w, 0, Submitted(asked)[0]);
    }
  }

  lemma CreateAccountAnswers(o: Oracle)
    ensures PipeOf(CreateAccountAction, o).answers == []
    ensures Response.StatusOf(PipeOf(CreateAccountAction, o).statuses, None) == 201
  {
  }

  /** A create-account that is answered with success has added exactly that, and the answer is
      201. */
  lemma AccountGranted(v: Visit, t: Tables, asked: Input, t': Tables, response: Sent)
    requires v.action.CreateAccountAction? && Granted(v, t, asked, t', response)
    ensures AccountAsAsked(t, t', v.w, asked) && response == Sent(201, Fields(SUCCESS_BODY))
  {
    var input, results := GrantedInside(v, t, asked, t', response);
    AccountCreated(v.env, input, t, t', results);
    AddedAsAsked(t, v.w, asked, input);
    CreateAccountAnswers(v.w.oracle);
    SuccessIsAnswered(PipeOf(CreateAccountAction, v.w.oracle), results, 201);
  }

  lemma CloseAnswers(o: Oracle, a: Action)
    requires a.CloseAccountAction? || a.CloseListingAction? || a.ModifyListingAction?
    ensures PipeOf(a, o).answers == [] && Response.StatusOf(PipeOf(a, o).statuses, None) == 200
  {
  }

  lemma ResolvedClosing(env: Env, input: Input, t: Tables, t': Tables, results: seq<Rows>) returns (n: int)
    requires Usable(input) && Resolved(CloseAccountTemplate(), env, input, t, t', results)
    ensures AsInt(InputValue(input, ACCOUNT_ID, 1, 0)) == Int(n) && Live(t, n)
    ensures t' == Closings(Deleted(t, n, env.now), n, env.now)
  {
    var plan := PlanOf(CloseAccountTemplate(), input).value;
    var v := CloseAccountPlan(input);
    StoreCommits(env, CloseAccountTemplate(), input, t);
    var all := ResultsOf(env, t, plan.queries, t');
    CloseAccountBuilds(input);
    CloseAccountDrops(input);
    PreparedFirst(CloseAccountTemplate(), plan.names, all);
    n := AccountClosed(env, input, t, t');
  }

  /** A close-account that is answered with success has deleted the account, has closed all
      of its listings and all of the conversations that it takes part in, with the date of
      the request, and nothing else; and the answer is 200. */
  lemma ClosingGranted(v: Visit, t: Tables, asked: Input, t': Tables, response: Sent) returns (n: int)
    requires v.action.CloseAccountAction? && Granted(v, t, asked, t', response)
    ensures IntOf(asked, ACCOUNT_ID) == Int(n) && Live(t, n)
    ensures t' == Closings(Deleted(t, n, v.env.now), n, v.env.now) && response == Sent(200, Fields(SUCCESS_BODY))
  {
    var input, results := GrantedInside(v, t, asked, t', response);
    SameField(v.w, asked, input, ACCOUNT_ID);
    n := ResolvedClosing(v.env, input, t, t', results);
    CloseAnswers(v.w.oracle, CloseAccountAction);
    SuccessIsAnswered(PipeOf(CloseAccountAction, v.w.oracle), results, 200);
  }

  // ---------------------------------------------------------------- errors, and dates

  /** A request that changes the tables was validated, and its ids are those that were sent. */
  lemma ChangesAsAsked(v: Visit, t: Tables) returns (asked: Input, input: Input)
    requires Possible(v) && Served(v, t).0 != t
    ensures Accepts(v, asked) && Usable(input) && Defined(TemplateOf(v.action))
    ensures InputValue(input, ACCOUNT_ID, 1, 0) == InputValue(asked, ACCOUNT_ID, 1, 0)
    ensures Served(v, t).0 == StoreOf(TemplateOf(v.action), input, EngineOf(v.env), v.env.faults, t).0
    ensures Served(v, t).1
            == RespondTo(PipeOf(v.action, v.w.oracle),
                         StoreOf(TemplateOf(v.action), input, EngineOf(v.env), v.env.faults, t).1)
  {
    var p := PipeOf(v.action, v.w.oracle);
    input := ChangesInStore(v, t);
    asked := Validation(p, v.req, v.w).value;
    ProcessValidates(v.action, v.w.oracle, WithAccount(Gathered(p, v.req), v.w.security.value));
    UploadsInOrder(v.w, v.action, asked);
    SameField(v.w, asked, input, ACCOUNT_ID);
  }

  /** The account that a close-account is about is deleted, or was never there. */
  ghost predicate ClosesGoneAccount(v: Visit, t: Tables) {
    v.action.CloseAccountAction? && exists asked :: Accepts(v, asked) && Gone(t, asked)
  }

  /** A request that is answered with an error has changed nothing, unless it closes an account
      that is gone already. */
  lemma ErrorsAreHarmless(v: Visit, t: Tables)
    requires Possible(v) && Inv(t)
    requires Served(v, t).1.Some? && !Response.IsSuccess(Served(v, t).1.value.status)
    ensures Served(v, t).0 == t || ClosesGoneAccount(v, t)
  {
    if Served(v, t).0 != t {
      var asked, input := ChangesAsAsked(v, t);
      ShippedAreHonest(v.action, v.w.oracle);
      OutcomeAnswered(PipeOf(v.action, v.w.oracle),
                      StoreOf(TemplateOf(v.action), input, EngineOf(v.env), v.env.faults, t).1);
      RejectedWithEffect(v.action, v.env, input, t);
      assert Gone(t, asked);
    }
  }

  /** Its own contributor closes the account. */
  ghost predicate ClosesContributor(v: Visit, t: Tables, l: int)
    requires l in t.listings.rows
  {
    v.action.CloseAccountAction? && exists asked :: Accepts(v, asked) && IsContributor(t, l, asked)
  }

  /** A request changes nothing about the row of a closed listing but, if it closes the account
      of the contributor, the date of closing: that becomes the date of the request. */
  lemma ClosedRowsKeepAllButTheDate(v: Visit, t: Tables, l: int)
    requires Possible(v) && Inv(t) && Closed(t, l)
    ensures var t' := Served(v, t).0;
            && l in t'.listings.rows
            && (|| t'.listings.rows[l] == t.listings.rows[l]
                || (ClosesContributor(v, t, l)
                    && t'.listings.rows[l] == t.listings.rows[l].(closed := Some(v.env.now))))
  {
    if Served(v, t).0 != t {
      var asked, input := ChangesAsAsked(v, t);
      DatesMoveOnlyThen(v.action, v.env, input, t, l);
      assert IsContributor(t, l, input) == IsContributor(t, l, asked);
    }
  }

  // ---------------------------------------------------------------- create-listing

  lemma CreateListingAnswers(o: Oracle)
    ensures PipeOf(CreateListingAction, o).answers == [Response.Field(SUCCESS, COL_LISTING_ID)]
    ensures PipeOf(CreateListingAction, o).statuses == Response.StatusMap(Some(201), map[])
  {
  }

  lemma StoredAsRequested(env: Env, w: World, asked: Input, input: Input, t: Tables, t': Tables, results: seq<Rows>)
    returns (l: int)
    requires Brings(w, asked, input) && Usable(input) && (URL in input <==> Submitted(asked) != []) && Inv(t)
    requires Resolved(CreateListingTemplate(), env, input, t, t', results)
    ensures results == [Returning(COL_LISTING_ID, l)]
    ensures l !in t.listings.rows && Open(t', l) && RowIs(t, t', l, asked)
    ensures MediaFrom(t', l, w, Submitted(asked)) && OnlyListing(t, t', l)
  {
    l := StoredListing(env, input, t, t', results);
    RequestedRow(t, t', l, w, asked, input);
  }

  /** A create-listing that is answered with success has added an open listing that is what
      was asked for; its i-th media row is the upload of the i-th item sent, whatever the
      order in which the uploads were completed; nothing else has changed; and the answer is
      201 and its id. */
  lemma ListingGranted(v: Visit, t: Tables, asked: Input, t': Tables, response: Sent) returns (l: int)
    requires v.action.CreateListingAction? && Granted(v, t, asked, t', response) && Inv(t)
    ensures l !in t.listings.rows && Open(t', l) && RowIs(t, t', l, asked)
    ensures MediaFrom(t', l, v.w, Submitted(asked)) && OnlyListing(t, t', l)
    ensures response == Sent(201, Fields(map[SUCCESS := Num(l)]))
  {
    var input, results := GrantedInside(v, t, asked, t', response);
    l := StoredAsRequested(v.env, v.w, asked, input, t, t', results);
    CreateListingAnswers(v.w.oracle);
    IdIsAnswered(PipeOf(CreateListingAction, v.w.oracle), COL_LISTING_ID, l);
  }

  // ---------------------------------------------------------------- modify-listing, close-listing

  /** The media fields have no part in what happens to the row. */
  lemma SameColumns(t: Tables, s: Tables, l: int, input: Input, asked: Input)
    requires forall key :: key != URL && key != MIME_TYPE && key != MEDIA_INDEX ==>
               (key in input <==> key in asked) && (key in input ==> input[key] == asked[key])
    ensures User(input) == User(asked) && ListingAsked(input) == ListingAsked(asked)
    ensures l in t.listings.rows && RowAfter(t, s, l, input, 6) ==> RowAfter(t, s, l, asked, 6)
  {
  }

  lemma StoredModification(env: Env, input: Input, t: Tables, t': Tables, results: seq<Rows>, l: int)
    requires Usable(input) && Inv(t) && Resolved(ModifyListingTemplate(), env, input, t, t', results)
    requires Found(t, User(input), ListingAsked(input)) == Some(l)
    ensures l in t.listings.rows && RowAfter(t, t', l, input, 6) && OnlyListing(t, t', l)
    ensures if URL in input then MediaAre(t', l, input) else t'.listingMedia == t.listingMedia
  {
    PlanModifies(input);
    StoreCommits(env, ModifyListingTemplate(), input, t);
    ListingModified(env, input, t, t', l);
  }

  /** The columns that were sent are what was sent, the others are what they were, the media
      are the uploads in the order of the items, or untouched if none was sent, and nothing
      else has changed but that an address may have been added. */
  ghost predicate ModifiedAsAsked(t: Tables, t': Tables, l: int, w: World, asked: Input) {
    && l in t.listings.rows && RowAfter(t, t', l, asked, 6) && OnlyListing(t, t', l)
    && if Submitted(asked) != [] then MediaFrom(t', l, w, Submitted(asked)) else t'.listingMedia == t.listingMedia
  }

  lemma StoredAsAsked(env: Env, w: World, asked: Input, input: Input, t: Tables, t': Tables, results: seq<Rows>, l: int)
    requires Brings(w, asked, input) && Usable(input) && (URL in input <==> Submitted(asked) != []) && Inv(t)
    requires Resolved(ModifyListingTemplate(), env, input, t, t', results)
    requires Found(t, User(asked), ListingAsked(asked)) == Some(l)
    ensures ModifiedAsAsked(t, t', l, w, asked)
  {
    SameIds(w, asked, input);
    StoredModification(env, input, t, t', results, l);
    AsWasBrought(t, t', l, w, asked, input);
  }

  lemma SameIds(w: World, asked: Input, input: Input)
    requires Brings(w, asked, input)
    ensures User(input) == User(asked) && ListingAsked(input) == ListingAsked(asked)
  {
  }

  lemma AsWasBrought(t: Tables, t': Tables, l: int, w: World, asked: Input, input: Input)
    requires Brings(w, asked, input) && Usable(input) && (URL in input <==> Submitted(asked) != [])
    requires l in t.listings.rows && RowAfter(t, t', l, input, 6) && OnlyListing(t, t', l)
    requires if URL in input then MediaAre(t', l, input) else t'.listingMedia == t.listingMedia
    ensures ModifiedAsAsked(t, t', l, w, asked)
  {
    SameColumns(t, t', l, input, asked);
    AsWasAsked(t, t', l, w, asked, input);
  }

  lemma AsWasAsked(t: Tables, t': Tables, l: int, w: World, asked: Input, input: Input)
    requires Brings(w, asked, input) && Usable(input) && (URL in input <==> Submitted(asked) != [])
    requires l in t.listings.rows && RowAfter(t, t', l, asked, 6) && OnlyListing(t, t', l)
    requires if URL in input then MediaAre(t', l, input) else t'.listingMedia == t.listingMedia
    ensures ModifiedAsAsked(t, t', l, w, asked)
  {
    if URL in input {
      UploadsBecomeMedia(t', l, input, w, Submitted(asked));
    }
  }

  ghost predicate ModifiedIfFound(t: Tables, t': Tables, w: World, asked: Input) {
    match Found(t, User(asked), ListingAsked(asked))
    case Some(l) => ModifiedAsAsked(t, t', l, w, asked)
    case None => IsNewAddress(asked) && t' == OnlyAddress(t, asked)
  }

  lemma StoredIfFound(env: Env, w: World, asked: Input, input: Input, t: Tables, t': Tables, results: seq<Rows>)
    requires Brings(w, asked, input) && Usable(input) && (URL in input <==> Submitted(asked) != []) && Inv(t)
    requires Resolved(ModifyListingTemplate(), env, input, t, t', results)
    ensures ModifiedIfFound(t, t', w, asked)
  {
    var found := Found(t, User(asked), ListingAsked(asked));
    if found.Some? {
      StoredAsAsked(env, w, asked, input, t, t', results, found.value);
    } else {
      SameIds(w, asked, input);
      SameAddress(t, w, asked, input);
      StoredAddress(env, input, t, t', results);
    }
  }

  /** A modify-listing that is answered with success has done so to the open listing of the
      caller that was asked for; if there is none, it has added the address that was sent and
      done nothing else.  The answer is 200 in both cases. */
  lemma ModificationGranted(v: Visit, t: Tables, asked: Input, t': Tables, response: Sent)
    requires v.action.ModifyListingAction? && Granted(v, t, asked, t', response) && Inv(t)
    ensures ModifiedIfFound(t, t', v.w, asked)
    ensures response == Sent(200, Fields(SUCCESS_BODY))
  {
    var input, results := GrantedInside(v, t, asked, t', response);
    StoredIfFound(v.env, v.w, asked, input, t, t', results);
    CloseAnswers(v.w.oracle, ModifyListingAction);
    SuccessIsAnswered(PipeOf(ModifyListingAction, v.w.oracle), results, 200);
  }

  lemma SameAddress(t: Tables, w: World, asked: Input, input: Input)
    requires Brings(w, asked, input)
    ensures IsNewAddress(input) == IsNewAddress(asked) && OnlyAddress(t, input) == OnlyAddress(t, asked)
  {
  }

  lemma StoredAddress(env: Env, input: Input, t: Tables, t': Tables, results: seq<Rows>)
    requires Usable(input) && Resolved(ModifyListingTemplate(), env, input, t, t', results)
    requires Found(t, User(input), ListingAsked(input)).None?
    ensures IsNewAddress(input) && t' == OnlyAddress(t, input)
  {
    PlanModifies(input);
    ModifyListingAnswersIff(env, input, t);
  }

  /** A close-listing that is answered with success has closed that open listing of its caller
      and every conversation about it, and nothing else; and the answer is 200. */
  lemma ListingClosingGranted(v: Visit, t: Tables, asked: Input, t': Tables, response: Sent)
    requires v.action.CloseListingAction? && Granted(v, t, asked, t', response)
    ensures ListingIsClosed(v.env, t, t', InputValue(asked, ACCOUNT_ID, 1, 0), InputValue(asked, LISTING_ID, 1, 0),
                            InputValue(asked, RECEIVER_ID, 1, 0))
    ensures response == Sent(200, Fields(SUCCESS_BODY))
  {
    var input, results := GrantedInside(v, t, asked, t', response);
    SameField(v.w, asked, input, ACCOUNT_ID);
    SameField(v.w, asked, input, LISTING_ID);
    SameField(v.w, asked, input, RECEIVER_ID);
    CloseListingPlan(input);
    StoreCommits(v.env, CloseListingTemplate(), input, t);
    ListingClosed(v.env, input, t, t');
    CloseAnswers(v.w.oracle, CloseListingAction);
    SuccessIsAnswered(PipeOf(CloseListingAction, v.w.oracle), results, 200);
  }

  // ---------------------------------------------------------------- conversations, messages, search

  lemma ConversationAnswers(o: Oracle)
    ensures PipeOf(CreateConversationAction, o).answers == [Response.Field(SUCCESS, COL_CONVERSATION_ID)]
    ensures PipeOf(CreateConversationAction, o).statuses == Response.StatusMap(Some(201), map[])
  {
  }

  /** A create-conversation that is answered with success: the conversation of its caller
      about an open listing of someone else is open; reopened under its old id if there was
      one, so with all its messages; and the answer is 201 and that id. */
  lemma ConversationGranted(v: Visit, t: Tables, asked: Input, t': Tables, response: Sent) returns (c: int)
    requires v.action.CreateConversationAction? && Granted(v, t, asked, t', response) && Inv(t)
    ensures var user, listing := IntOf(asked, ACCOUNT_ID), IntOf(asked, LISTING_ID);
            && user.Int? && listing.Int? && Open(t, listing.n) && t.listings.rows[listing.n].contributor != user.n
            && t' == t.(conversations := t'.conversations)
            && t'.conversations.rows == t.conversations.rows[c := Conversation(user.n, listing.n, None)]
            && (c in t.conversations.rows ==> SamePair(t.conversations.rows[c], t'.conversations.rows[c]))
            && OnlyAs(t, user.n, listing.n, c)
    ensures response == Sent(201, Fields(map[SUCCESS := Num(c)]))
  {
    var input, results := GrantedInside(v, t, asked, t', response);
    SameField(v.w, asked, input, ACCOUNT_ID);
    SameField(v.w, asked, input, LISTING_ID);
    c := ConversationBegun(v.env, input, t, t', results);
    ConversationAnswers(v.w.oracle);
    IdIsAnswered(PipeOf(CreateConversationAction, v.w.oracle), COL_CONVERSATION_ID, c);
  }

  lemma MessageAnswers(o: Oracle)
    ensures PipeOf(CreateMessageAction, o).answers == [Response.Field(SUCCESS, COL_MESSAGE_ID)]
    ensures PipeOf(CreateMessageAction, o).statuses == Response.StatusMap(Some(201), map[])
  {
  }

  /** A create-message that is answered with success has appended one message of its caller
      to an open conversation that the caller takes part in, and nothing else: in particular
      no media. */
  lemma MessageGranted(v: Visit, t: Tables, asked: Input, t': Tables, response: Sent)
    requires v.action.CreateMessageAction? && Granted(v, t, asked, t', response)
    ensures var user, c, text := IntOf(asked, ACCOUNT_ID), IntOf(asked, CONVERSATION_ID),
                InputValue(asked, TEXT_CONTENT, 1, 0);
            && user.Int? && c.Int? && c.n in t.conversations.rows
            && t.conversations.rows[c.n].closed.None? && PartyOf(t, c.n, user.n)
            && t' == t.(messages := t.messages.Insert(Message(user.n, c.n, text)))
    ensures response == Sent(201, Fields(map[SUCCESS := Num(t.messages.serial)]))
  {
    var input, results := GrantedInside(v, t, asked, t', response);
    assert URL !in input;
    SameField(v.w, asked, input, ACCOUNT_ID);
    SameField(v.w, asked, input, CONVERSATION_ID);
    SameField(v.w, asked, input, TEXT_CONTENT);
    MessageSent(v.env, input, t, t', results);
    MessageAnswers(v.w.oracle);
    IdIsAnswered(PipeOf(CreateMessageAction, v.w.oracle), COL_MESSAGE_ID, t.messages.serial);
  }

  lemma SearchAnswers(o: Oracle)
    ensures PipeOf(SearchListingAction, o).answers == [Response.RowsWithFields(LISTINGS, [LISTING_ID])]
    ensures PipeOf(SearchListingAction, o).statuses == Response.StatusMap(None, map[])
  {
  }

  lemma SamePage(w: World, asked: Input, input: Input, t: Tables, page: Rows)
    requires Brings(w, asked, input) && IsPage(t, input, page)
    ensures IsPage(t, asked, page)
  {
    SameField(w, asked, input, ACCOUNT_ID);
    SameField(w, asked, input, CATEGORY_ID);
    SameField(w, asked, input, REGION);
    SameField(w, asked, input, MAX_RESULTS);
    SameField(w, asked, input, START_RESULTS);
  }

  /** A search-listing that is answered with success has changed nothing, and answers 200
      with one page of the open listings that match, in the order of their ids. */
  lemma SearchGranted(v: Visit, t: Tables, asked: Input, t': Tables, response: Sent) returns (page: Rows)
    requires v.action.SearchListingAction? && Granted(v, t, asked, t', response)
    ensures t' == t && response == Sent(200, Fields(ListingsBody(page))) && IsPage(t, asked, page)
  {
    var input, results := GrantedInside(v, t, asked, t', response);
    ListingsFound(v.env, input, t, t', results);
    page := results[0];
    SamePage(v.w, asked, input, t, page);
    SearchAnswers(v.w.oracle);
    FoundIsAnswered(PipeOf(SearchListingAction, v.w.oracle), t, input, results);
  }

  /** The rows as the joins produce them, in their order. */
  ghost function ShownRows(t: Tables, ordered: seq<Joined>): Rows
    requires forall i :: 0 <= i < |ordered| ==> Showable(t, ordered[i])
  {
    seq(|ordered|, i requires 0 <= i < |ordered| && Showable(t, ordered[i]) => Shown(t, ordered[i]))
  }

  /** That page is the one cut out of the joined rows, whatever the order in which the server
      scanned the tables and sorted equal rows. */
  lemma PageOfJoins(t: Tables, input: Input, page: Rows, ordered: seq<Joined>)
    requires Inv(t) && IsPage(t, input, page)
    requires Answers(t, ordered, IntOf(input, ACCOUNT_ID), IntOf(input, CATEGORY_ID), InputValue(input, REGION, 1, 0))
    ensures forall i :: 0 <= i < |ordered| ==> Showable(t, ordered[i])
    ensures page == Page(ShownRows(t, ordered), IntOf(input, MAX_RESULTS), IntOf(input, START_RESULTS))
  {
    SearchIsPlain(t, ordered, IntOf(input, ACCOUNT_ID), IntOf(input, CATEGORY_ID), InputValue(input, REGION, 1, 0));
    assert ShownRows(t, ordered)
           == Results(t, IntOf(input, ACCOUNT_ID), IntOf(input, CATEGORY_ID), InputValue(input, REGION, 1, 0));
  }
}
