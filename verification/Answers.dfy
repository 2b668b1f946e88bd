/** Whole requests on a database that does not fail: what is answered, and what is left, case by
    case, in terms of what was sent and of the rows that are there. */
module Answers {
  import opened Values
  import opened Vocabulary
  import opened SqlTemplate
  import opened Database
  import opened Store
  import opened Schema
  import opened Statements
  import opened Invariants
  import opened Templates
  import opened Builds
  import opened Closing
  import opened RequestSchemas
  import opened ResponseSchemas
  import opened GeneralPipe
  import opened Requests
  import opened Reachability
  import opened Effects
  import opened Asked
  import opened Grants
  import opened Deviations
  import opened ListingOutcomes
  import opened Outcomes
  import opened EndToEnd
  import Media = MediaHandle
  import Response
  import Request

  // ---------------------------------------------------------------- requests that are not accepted

  /** The caller is let in, and every field that was sent is as it should be. */
  ghost predicate Accepted(v: Visit) {
    exists asked :: Accepts(v, asked)
  }

  /** What is left, and what is answered. */
  ghost predicate AnsweredWith(v: Visit, t: Tables, t': Tables, response: Sent) {
    Possible(v) && Served(v, t) == (t', Some(response))
  }

  /** The request is refused, and nothing has changed. */
  ghost predicate Declined(v: Visit, t: Tables, status: int, e: Error) {
    AnsweredWith(v, t, t, Sent(status, Failure(e)))
  }

  lemma ErrorAnswer(a: Action, o: Oracle, e: Error)
    ensures RespondTo(PipeOf(a, o), Err(e)) == Some(Sent(Response.StatusOf(Statuses(a), Some(e)), Failure(e)))
  {
    StatusTellsSuccess(a, Some(e));
  }

  /** A caller who is not let in is told why, and nothing has changed. */
  lemma SecurityAnswered(v: Visit, t: Tables)
    requires Possible(v) && v.w.security.Err?
    ensures Declined(v, t, Response.StatusOf(Statuses(v.action), Some(v.w.security.error)), v.w.security.error)
    ensures forall name :: v.w.security.error == OtherError(name) && NotLetIn(name) ==>
              Declined(v, t, if name.UnauthorizedUserError? then 403 else 401, v.w.security.error)
  {
    ShippedDefined(v.action);
    ErrorAnswer(v.action, v.w.oracle, v.w.security.error);
    if v.w.security.error.OtherError? && NotLetIn(v.w.security.error.name) {
      SecurityErrorIsAnswered(v.action, v.w.security.error.name);
    }
  }

  /** Some field is not as it should be, or is missing, and this is the first one. */
  ghost predicate FirstFault(v: Visit, i: nat, e: Error)
    requires v.w.security.Ok?
  {
    var params := ParamsOf(v.action, v.w.oracle);
    && i < |params| && Request.RefusedFor(params[i], Whole(v), e)
    && forall h :: 0 <= h < i ==> Request.Passes(params[h], Whole(v))
  }

  lemma FirstRefused(params: seq<Request.Param>, sent: Input) returns (i: nat, e: Error)
    requires Request.DistinctNames(params) && Request.ProcessUpTo(params, sent, |params|).Err?
    ensures i < |params| && e == Request.ProcessUpTo(params, sent, |params|).error
    ensures Request.RefusedFor(params[i], sent, e) && forall h :: 0 <= h < i ==> Request.Passes(params[h], sent)
    ensures e.AbsentArgument? || e.InvalidArgument? || e.DirtyArgument? || e.UnprocessableArgument?
  {
    Request.ProcessExactly(params, sent);
    e := Request.ProcessUpTo(params, sent, |params|).error;
    i :| 0 <= i < |params| && Request.RefusedFor(params[i], sent, e)
         && forall h :: 0 <= h < i ==> Request.Passes(params[h], sent);
  }

  lemma FaultExists(v: Visit) returns (i: nat, e: Error)
    requires v.w.security.Ok? && !Accepted(v)
    ensures FirstFault(v, i, e) && Validation(PipeOf(v.action, v.w.oracle), v.req, v.w) == Err(e)
    ensures e.AbsentArgument? || e.InvalidArgument? || e.DirtyArgument? || e.UnprocessableArgument?
  {
    var r := Validation(PipeOf(v.action, v.w.oracle), v.req, v.w);
    assert r.Ok? ==> Accepts(v, r.value);
    NamesDistinct(v.action, v.w.oracle);
    i, e := FirstRefused(ParamsOf(v.action, v.w.oracle), Whole(v));
  }

  /** A request with a field that is not as it should be, or is missing, is answered 400 or
      422 for the first such field, and nothing has changed. */
  lemma FaultAnswered(v: Visit, t: Tables) returns (i: nat, e: Error)
    requires Possible(v) && v.w.security.Ok? && !Accepted(v)
    ensures FirstFault(v, i, e) && Declined(v, t, if e.UnprocessableArgument? then 422 else 400, e)
  {
    i, e := FaultExists(v);
    FaultIsAnswered(v, t, e);
  }

  lemma FaultIsAnswered(v: Visit, t: Tables, e: Error)
    requires Possible(v) && Validation(PipeOf(v.action, v.w.oracle), v.req, v.w) == Err(e)
    requires e.AbsentArgument? || e.InvalidArgument? || e.DirtyArgument? || e.UnprocessableArgument?
    ensures Declined(v, t, if e.UnprocessableArgument? then 422 else 400, e)
  {
    ShippedDefined(v.action);
    ErrorAnswer(v.action, v.w.oracle, e);
    ErrorIsAnswered(v.action, e);
  }

  // ---------------------------------------------------------------- requests that are

  /** Every stage before the database has gone through, and this is what it has brought. */
  ghost predicate Brought(v: Visit, asked: Input, input: Input) {
    && Possible(v) && Accepts(v, asked) && Prepare(PipeOf(v.action, v.w.oracle), v.req, v.w) == Ready(input)
    && Brings(v.w, asked, input) && Usable(input) && (URL in input <==> Submitted(asked) != [])
  }

  /** All the uploads have been completed, if there were any. */
  ghost predicate Uploaded(v: Visit)
    requires Possible(v)
  {
    Prepare(PipeOf(v.action, v.w.oracle), v.req, v.w).Ready?
  }

  lemma UploadedIsBrought(v: Visit) returns (asked: Input, input: Input)
    requires Possible(v) && Uploaded(v)
    ensures Brought(v, asked, input)
  {
    var p := PipeOf(v.action, v.w.oracle);
    asked := Validation(p, v.req, v.w).value;
    input := Prepare(p, v.req, v.w).input;
    ProcessValidates(v.action, v.w.oracle, WithAccount(Gathered(p, v.req), v.w.security.value));
    UploadsInOrder(v.w, v.action, asked);
    BroughtIsUsable(v.w, v.action, asked, input);
  }

  /** When no callback is outstanding any more, that is so if every upload has succeeded. */
  lemma UploadedWhen(v: Visit, asked: Input)
    requires Possible(v) && Accepts(v, asked) && UploadsDone(PipeOf(v.action, v.w.oracle), v.req, v.w)
    requires forall i :: 0 <= i < |Submitted(asked)| ==> v.w.upload(i, Submitted(asked)[i]).Succeeded?
    ensures Uploaded(v)
  {
    var p := PipeOf(v.action, v.w.oracle);
    ProcessValidates(v.action, v.w.oracle, WithAccount(Gathered(p, v.req), v.w.security.value));
    UploadingIsReady(v.w, v.action, asked);
  }

  lemma UploadingIsReady(w: World, a: Action, asked: Input)
    requires Validated(a, w.oracle, asked)
    requires MEDIA in asked ==> Media.Legal(Items(w, asked[MEDIA]), w.schedule)
    requires MEDIA in asked ==> Media.Complete(Items(w, asked[MEDIA]), Media.After(Items(w, asked[MEDIA]), w.schedule))
    requires forall i :: 0 <= i < |Submitted(asked)| ==> w.upload(i, Submitted(asked)[i]).Succeeded?
    ensures Uploading(w, asked).Ready?
  {
    if MEDIA in asked {
      assert Fits(a, MEDIA, asked[MEDIA], w.oracle);
      assert asked[MEDIA] == Arr(Submitted(asked));
      AllUploadsArrive(w, Submitted(asked));
    }
  }

  lemma AllUploadsArrive(w: World, media: seq<Val>)
    requires Media.Legal(Items(w, Arr(media)), w.schedule)
    requires forall i :: 0 <= i < |media| ==> MatchOf(w.oracle, media[i]).Some?
    requires Media.Complete(Items(w, Arr(media)), Media.After(Items(w, Arr(media)), w.schedule))
    requires forall i :: 0 <= i < |media| ==> w.upload(i, media[i]).Succeeded?
    ensures var s := Media.After(Items(w, Arr(media)), w.schedule); !s.lost && s.settled.Some? && s.settled.value.Ok?
  {
    var items := Items(w, Arr(media));
    assert forall i :: 0 <= i < |items| ==> items[i] == ItemOf(w, i, media[i]);
    NoneIsLost(items, w.schedule);
  }

  lemma NoneIsLost(items: seq<Media.Item>, events: seq<Media.Event>)
    requires Media.Legal(items, events) && Media.DataUris(items) && Media.AllSucceed(items)
    requires Media.Complete(items, Media.After(items, events))
    ensures var s := Media.After(items, events); !s.lost && s.settled.Some? && s.settled.value.Ok?
  {
    Media.Confluence(items, events);
    Media.LostIff(items, events);
    assert forall n :: 0 <= n < |events| ==> !Media.Fails(items, events[n]);
  }

  /** Without media there is nothing to wait for. */
  lemma NothingToUpload(v: Visit, asked: Input)
    requires Possible(v) && Accepts(v, asked) && MEDIA !in asked
    ensures Brought(v, asked, asked)
  {
    var p := PipeOf(v.action, v.w.oracle);
    ProcessValidates(v.action, v.w.oracle, WithAccount(Gathered(p, v.req), v.w.security.value));
    BroughtIsUsable(v.w, v.action, asked, asked);
  }

  /** The response is that of the store stage. */
  lemma StoredIsAnswered(v: Visit, t: Tables, asked: Input, input: Input)
    requires Brought(v, asked, input)
    ensures Defined(TemplateOf(v.action))
    ensures var (t', outcome) := StoreOf(TemplateOf(v.action), input, EngineOf(v.env), v.env.faults, t);
            Served(v, t) == (t', RespondTo(PipeOf(v.action, v.w.oracle), outcome))
  {
    ShippedDefined(v.action);
  }

  /** What an error of the store stage is answered with. */
  lemma StoreErrorAnswer(a: Action, o: Oracle, e: Error, status: int)
    requires !e.OtherError?
    requires status == (if OwnStatus(a, e).Some? then OwnStatus(a, e).value
                        else if e.EmptyResponse? || e.ForeignKey? then 404
                        else if e.UniqueConstraint? then 409 else 500)
    requires e.EmptyResponse? || e.ForeignKey? || e.UniqueConstraint? || e.EmptyQuery? || e.Backreference?
          || e.QueryExecution?
    ensures RespondTo(PipeOf(a, o), Err(e)) == Some(Sent(status, Failure(e)))
  {
    ErrorAnswer(a, o, e);
    ErrorIsAnswered(a, e);
  }

  /** Which actions take no media. */
  predicate NoMedia(a: Action) {
    || a.CreateConversationAction? || a.CloseConversationAction? || a.CreateMessageAction? || a.CloseAccountAction?
    || a.CloseListingAction? || a.CreateSavedListingAction? || a.CloseSavedListingAction? || a.SearchListingAction?
  }

  lemma NoMediaParams(a: Action, o: Oracle)
    requires NoMedia(a)
    ensures forall p :: p in ParamsOf(a, o) ==> p.outName != MEDIA
  {
  }

  lemma AcceptedIsBrought(v: Visit) returns (asked: Input)
    requires Possible(v) && Accepted(v) && NoMedia(v.action)
    ensures Brought(v, asked, asked) && Accepts(v, asked) && URL !in asked
  {
    asked :| Accepts(v, asked);
    NoMediaParams(v.action, v.w.oracle);
    AskedIsSent(v, asked);
    NothingToUpload(v, asked);
  }

  // ---------------------------------------------------------------- conversations

  /** What the store stage has made of the request. */
  ghost predicate StoredTo(v: Visit, t: Tables, t': Tables, outcome: Outcome) {
    Possible(v) && Served(v, t) == (t', RespondTo(PipeOf(v.action, v.w.oracle), outcome))
  }

  /** The response is the id of a new row. */
  ghost predicate CreatedAs(v: Visit, t: Tables, t': Tables, id: int) {
    AnsweredWith(v, t, t', Sent(201, Fields(map[SUCCESS := Num(id)])))
  }

  /** The answer of an action that answers nothing but that it succeeded. */
  ghost predicate Done(v: Visit, t: Tables, t': Tables) {
    AnsweredWith(v, t, t', Sent(200, Fields(SUCCESS_BODY)))
  }

  /** The conversation is open under this id, and it is all that has changed. */
  ghost predicate OpenedAs(v: Visit, t: Tables, c: int, user: int, l: int) {
    Possible(v) && var t' := Served(v, t).0;
      && CreatedAs(v, t, t', c) && t' == t.(conversations := t'.conversations)
      && t'.conversations.rows == t.conversations.rows[c := Conversation(user, l, None)]
  }

  /** A conversation is begun, or reopened under the id it has, exactly if the listing is open
      and someone else's and the caller has an account; otherwise nothing changes, and 404 is
      answered. */
  ghost predicate ConversationAnswer(v: Visit, t: Tables, user: int, l: int) {
    if MayAsk(t, user, l) && user in t.accounts.rows then
      && (forall c :: Outcomes.Asks(t, c, user, l) ==> OpenedAs(v, t, c, user, l))
      && ((forall c :: !Outcomes.Asks(t, c, user, l)) ==> OpenedAs(v, t, t.conversations.serial, user, l))
    else Declined(v, t, 404, if MayAsk(t, user, l) then ForeignKey else EmptyResponse)
  }

  lemma ConversationAnswered(v: Visit, t: Tables, user: int, l: int)
    requires v.action.CreateConversationAction? && Possible(v) && Accepted(v) && Unfailing(v.env) && Inv(t)
    requires SaidInt(v, ACCOUNT_ID) == Int(user) && SaidInt(v, LISTING_ID) == Int(l)
    ensures ConversationAnswer(v, t, user, l)
  {
    var asked := AcceptedIsBrought(v);
    ListingIdsSent(v, asked);
    FieldIsSaid(v, asked, ACCOUNT_ID);
    FieldIsSaid(v, asked, LISTING_ID);
    CreateConversationExactly(v.env, asked, t, user, l);
    StoredIsAnswered(v, t, asked, asked);
    var (t', outcome) := StoreOf(TemplateOf(v.action), asked, EngineOf(v.env), v.env.faults, t);
    ConversationOutcome(v, t, t', outcome, user, l);
  }

  lemma ConversationOutcome(v: Visit, t: Tables, t': Tables, outcome: Outcome, user: int, l: int)
    requires v.action.CreateConversationAction? && StoredTo(v, t, t', outcome) && AskedExactly(t, t', outcome, user, l)
    ensures ConversationAnswer(v, t, user, l)
  {
    var p := PipeOf(v.action, v.w.oracle);
    if outcome.Err? {
      StoreErrorAnswer(v.action, v.w.oracle, outcome.error, 404);
    } else {
      ConversationAnswers(v.w.oracle);
      forall c | outcome.value == [Returning(COL_CONVERSATION_ID, c)]
        ensures RespondTo(p, outcome) == Some(Sent(201, Fields(map[SUCCESS := Num(c)])))
      {
        IdIsAnswered(p, COL_CONVERSATION_ID, c);
      }
    }
  }

  lemma DoneIsAnswered(a: Action, o: Oracle, results: seq<Rows>)
    requires a.CloseAccountAction? || a.CloseListingAction? || a.CloseConversationAction? || a.CreateSavedListingAction?
          || a.CloseSavedListingAction? || a.ModifyAccountAction? || a.ModifyListingAction?
    ensures RespondTo(PipeOf(a, o), Ok(results)) == Some(Sent(200, Fields(SUCCESS_BODY)))
  {
    SuccessStatus(a);
    SuccessIsAnswered(PipeOf(a, o), results, 200);
  }

  /** Either party of an open conversation can close it, and nobody else. */
  lemma CloseConversationAnswered(v: Visit, t: Tables, user: int, c: int)
    requires v.action.CloseConversationAction? && Possible(v) && Accepted(v) && Unfailing(v.env)
    requires SaidInt(v, ACCOUNT_ID) == Int(user) && SaidInt(v, CONVERSATION_ID) == Int(c)
    ensures if OpenTo(t, c, user)
            then Done(v, t, t.(conversations := t.conversations.(rows :=
                              t.conversations.rows[c := t.conversations.rows[c].(closed := Some(v.env.now))])))
            else Declined(v, t, 404, EmptyResponse)
  {
    var asked := AcceptedIsBrought(v);
    CloseConversationSent(v, asked);
    FieldIsSaid(v, asked, ACCOUNT_ID);
    FieldIsSaid(v, asked, CONVERSATION_ID);
    CloseConversationExactly(v.env, asked, t, user, c);
    StoredIsAnswered(v, t, asked, asked);
    DoneIsAnswered(v.action, v.w.oracle, [Returning(COL_CONVERSATION_ID, c)]);
    StoreErrorAnswer(v.action, v.w.oracle, EmptyResponse, 404);
  }

  /** Either party of an open conversation can send a message in it, and nobody else. */
  lemma MessageAnswered(v: Visit, t: Tables, user: int, c: int)
    requires v.action.CreateMessageAction? && Possible(v) && Accepted(v) && Unfailing(v.env) && Inv(t)
    requires SaidInt(v, ACCOUNT_ID) == Int(user) && SaidInt(v, CONVERSATION_ID) == Int(c)
    ensures MessageAnswer(v, t, user, c)
  {
    var asked := AcceptedIsBrought(v);
    MessageFields(v, asked, user);
    CreateMessageExactly(v.env, asked, t, user, c);
    StoredIsAnswered(v, t, asked, asked);
    var (t', outcome) := StoreOf(TemplateOf(v.action), asked, EngineOf(v.env), v.env.faults, t);
    MessageStored(v, t, t', outcome, user, c);
  }

  lemma MessageStored(v: Visit, t: Tables, t': Tables, outcome: Outcome, user: int, c: int)
    requires v.action.CreateMessageAction? && StoredTo(v, t, t', outcome)
    requires (t', outcome)
          == if OpenTo(t, c, user)
             then (t.(messages := t.messages.Insert(Message(user, c, BodyField(v, TEXT_CONTENT)))),
                   Ok([Returning(COL_MESSAGE_ID, t.messages.serial)]))
             else (t, Err(EmptyResponse))
    ensures MessageAnswer(v, t, user, c)
  {
    MessageOutcome(v.w.oracle, t.messages.serial);
  }

  ghost predicate MessageAnswer(v: Visit, t: Tables, user: int, c: int) {
    if OpenTo(t, c, user)
    then CreatedAs(v, t, t.(messages := t.messages.Insert(Message(user, c, BodyField(v, TEXT_CONTENT)))),
                   t.messages.serial)
    else Declined(v, t, 404, EmptyResponse)
  }

  lemma MessageFields(v: Visit, asked: Input, user: int)
    requires v.action.CreateMessageAction? && Accepts(v, asked) && SaidInt(v, ACCOUNT_ID) == Int(user)
    ensures IntOf(asked, ACCOUNT_ID) == Int(user) && IntOf(asked, CONVERSATION_ID) == SaidInt(v, CONVERSATION_ID)
    ensures InputValue(asked, TEXT_CONTENT, 1, 0) == BodyField(v, TEXT_CONTENT)
    ensures NonEmptyString(BodyField(v, TEXT_CONTENT))
  {
    CreateMessageSent(v, asked);
    FieldIsSaid(v, asked, ACCOUNT_ID);
    MessageIsSaid(v, asked, user);
  }

  lemma MessageOutcome(o: Oracle, id: int)
    ensures RespondTo(PipeOf(CreateMessageAction, o), Ok([Returning(COL_MESSAGE_ID, id)]))
         == Some(Sent(201, Fields(map[SUCCESS := Num(id)])))
    ensures RespondTo(PipeOf(CreateMessageAction, o), Err(EmptyResponse)) == Some(Sent(404, Failure(EmptyResponse)))
  {
    MessageAnswers(o);
    IdIsAnswered(PipeOf(CreateMessageAction, o), COL_MESSAGE_ID, id);
    StoreErrorAnswer(CreateMessageAction, o, EmptyResponse, 404);
  }

  // ---------------------------------------------------------------- saved listings

  /** A listing is saved exactly if it is open, not saved yet, and the caller has an account. */
  lemma SaveAnswered(v: Visit, t: Tables, user: int, l: int)
    requires v.action.CreateSavedListingAction? && Possible(v) && Accepted(v) && Unfailing(v.env)
    requires SaidInt(v, ACCOUNT_ID) == Int(user) && SaidInt(v, LISTING_ID) == Int(l)
    ensures if !(l in t.listings.rows && t.listings.rows[l].closed.None?) then Declined(v, t, 404, EmptyResponse)
            else if (user, l) in t.saved then Declined(v, t, 409, UniqueConstraint)
            else if user !in t.accounts.rows then Declined(v, t, 404, ForeignKey)
            else Done(v, t, t.(saved := t.saved + {(user, l)}))
  {
    var asked := AcceptedIsBrought(v);
    ListingIdsSent(v, asked);
    FieldIsSaid(v, asked, ACCOUNT_ID);
    FieldIsSaid(v, asked, LISTING_ID);
    SaveListingExactly(v.env, asked, t, user, l);
    StoredIsAnswered(v, t, asked, asked);
    DoneIsAnswered(v.action, v.w.oracle, [Returning(COL_USER_ID, user)]);
    StoreErrorAnswer(v.action, v.w.oracle, EmptyResponse, 404);
    StoreErrorAnswer(v.action, v.w.oracle, UniqueConstraint, 409);
    StoreErrorAnswer(v.action, v.w.oracle, ForeignKey, 404);
  }

  /** A listing is forgotten exactly if it was saved, open or not. */
  lemma ForgetAnswered(v: Visit, t: Tables, user: int, l: int)
    requires v.action.CloseSavedListingAction? && Possible(v) && Accepted(v) && Unfailing(v.env)
    requires SaidInt(v, ACCOUNT_ID) == Int(user) && SaidInt(v, LISTING_ID) == Int(l)
    ensures if (user, l) in t.saved then Done(v, t, t.(saved := t.saved - {(user, l)}))
            else Declined(v, t, 404, EmptyResponse)
  {
    var asked := AcceptedIsBrought(v);
    ListingIdsSent(v, asked);
    FieldIsSaid(v, asked, ACCOUNT_ID);
    FieldIsSaid(v, asked, LISTING_ID);
    ForgetListingExactly(v.env, asked, t, user, l);
    StoredIsAnswered(v, t, asked, asked);
    DoneIsAnswered(v.action, v.w.oracle, [Returning(COL_USER_ID, user)]);
    StoreErrorAnswer(v.action, v.w.oracle, EmptyResponse, 404);
  }

  // ---------------------------------------------------------------- closing

  /** An account that is not deleted can be closed by its owner; for one that is gone 404 is
      answered, and yet what it still has, or has had, is closed now. */
  lemma CloseAccountAnswered(v: Visit, t: Tables, n: int)
    requires v.action.CloseAccountAction? && Possible(v) && Accepted(v) && Unfailing(v.env) && Inv(t)
    requires SaidInt(v, ACCOUNT_ID) == Int(n)
    ensures var t' := Served(v, t).0;
            && EverythingOfClosed(t, t', n, v.env.now) && OnlyAccountDeleted(t, t', n, v.env.now)
            && if n in t.accounts.rows && t.accounts.rows[n].deleted.None? then Done(v, t, t')
               else AnsweredWith(v, t, t', Sent(404, Failure(EmptyResponse)))
  {
    var asked := AcceptedIsBrought(v);
    CloseAccountSent(v, asked);
    FieldIsSaid(v, asked, ACCOUNT_ID);
    CloseAccountExactly(v.env, asked, t, n);
    StoredIsAnswered(v, t, asked, asked);
    CloseAccountOutcome(v.w.oracle, n);
  }

  lemma CloseAccountOutcome(o: Oracle, n: int)
    ensures RespondTo(PipeOf(CloseAccountAction, o), Ok([Returning(COL_USER_ID, n)]))
            == Some(Sent(200, Fields(SUCCESS_BODY)))
    ensures RespondTo(PipeOf(CloseAccountAction, o), Err(EmptyResponse)) == Some(Sent(404, Failure(EmptyResponse)))
  {
    DoneIsAnswered(CloseAccountAction, o, [Returning(COL_USER_ID, n)]);
    StoreErrorAnswer(CloseAccountAction, o, EmptyResponse, 404);
  }

  /** A listing is closed, with every conversation about it, exactly if it is an open one of
      the caller and the receiver, if one is said, has an account; otherwise 404 is answered
      and nothing changes. */
  lemma CloseListingAnswered(v: Visit, t: Tables, user: int, l: int)
    requires v.action.CloseListingAction? && Possible(v) && Accepted(v) && Unfailing(v.env) && Inv(t)
    requires SaidInt(v, ACCOUNT_ID) == Int(user) && SaidInt(v, LISTING_ID) == Int(l) && !SaidInt(v, RECEIVER_ID).NotInt?
    ensures CloseListingAnswer(v, t, user, l)
  {
    var asked := AcceptedIsBrought(v);
    CloseListingFields(v, asked);
    CloseListingExactly(v.env, asked, t, user, l);
    StoredIsAnswered(v, t, asked, asked);
    var (t', outcome) := StoreOf(TemplateOf(v.action), asked, EngineOf(v.env), v.env.faults, t);
    CloseListingStored(v, t, t', outcome, user, l);
  }

  ghost predicate CloseListingAnswer(v: Visit, t: Tables, user: int, l: int) {
    Possible(v) &&
    if !OpenOf(t, user, l) then Declined(v, t, 404, Backreference)
    else if !ReceiverThere(t, SaidInt(v, RECEIVER_ID)) then Declined(v, t, 404, ForeignKey)
    else var t' := Served(v, t).0;
         Done(v, t, t') && ClosedNow(t, t', l, AsColumn(SaidInt(v, RECEIVER_ID)), v.env.now)
  }

  lemma CloseListingStored(v: Visit, t: Tables, t': Tables, outcome: Outcome, user: int, l: int)
    requires v.action.CloseListingAction? && StoredTo(v, t, t', outcome)
    requires if !OpenOf(t, user, l) then t' == t && outcome == Err(Backreference)
             else if !ReceiverThere(t, SaidInt(v, RECEIVER_ID)) then t' == t && outcome == Err(ForeignKey)
             else outcome == Ok([Returning(COL_LISTING_ID, l)])
                  && ClosedNow(t, t', l, AsColumn(SaidInt(v, RECEIVER_ID)), v.env.now)
    ensures CloseListingAnswer(v, t, user, l)
  {
    CloseListingOutcome(v.w.oracle, l);
  }

  lemma CloseListingFields(v: Visit, asked: Input)
    requires v.action.CloseListingAction? && Accepts(v, asked)
    ensures IntOf(asked, ACCOUNT_ID) == SaidInt(v, ACCOUNT_ID) && IntOf(asked, LISTING_ID) == SaidInt(v, LISTING_ID)
    ensures IntOf(asked, RECEIVER_ID) == SaidInt(v, RECEIVER_ID)
  {
    CloseListingSent(v, asked);
    FieldIsSaid(v, asked, ACCOUNT_ID);
    FieldIsSaid(v, asked, LISTING_ID);
    FieldIsSaid(v, asked, RECEIVER_ID);
  }

  lemma CloseListingOutcome(o: Oracle, l: int)
    ensures RespondTo(PipeOf(CloseListingAction, o), Ok([Returning(COL_LISTING_ID, l)]))
         == Some(Sent(200, Fields(SUCCESS_BODY)))
    ensures RespondTo(PipeOf(CloseListingAction, o), Err(Backreference)) == Some(Sent(404, Failure(Backreference)))
    ensures RespondTo(PipeOf(CloseListingAction, o), Err(ForeignKey)) == Some(Sent(404, Failure(ForeignKey)))
  {
    DoneIsAnswered(CloseListingAction, o, [Returning(COL_LISTING_ID, l)]);
    StoreErrorAnswer(CloseListingAction, o, Backreference, 404);
    StoreErrorAnswer(CloseListingAction, o, ForeignKey, 404);
  }

  // ---------------------------------------------------------------- searching

  /** What is said can be read, and the page is one. */
  predicate SearchSaid(v: Visit) {
    var limit, offset := SaidInt(v, MAX_RESULTS), SaidInt(v, START_RESULTS);
    && !SaidInt(v, ACCOUNT_ID).NotInt? && !SaidInt(v, CATEGORY_ID).NotInt?
    && !limit.NotInt? && !offset.NotInt? && (limit.Int? ==> limit.n >= 0) && (offset.Int? ==> offset.n >= 0)
  }

  lemma SearchFields(v: Visit, asked: Input)
    requires v.action.SearchListingAction? && Accepts(v, asked)
    ensures IntOf(asked, ACCOUNT_ID) == SaidInt(v, ACCOUNT_ID) && IntOf(asked, CATEGORY_ID) == SaidInt(v, CATEGORY_ID)
    ensures IntOf(asked, MAX_RESULTS) == SaidInt(v, MAX_RESULTS)
    ensures IntOf(asked, START_RESULTS) == SaidInt(v, START_RESULTS)
  {
    SearchListingSent(v, asked);
    FieldIsSaid(v, asked, ACCOUNT_ID);
    FieldIsSaid(v, asked, CATEGORY_ID);
    FieldIsSaid(v, asked, MAX_RESULTS);
    FieldIsSaid(v, asked, START_RESULTS);
  }

  lemma StoresSearch(v: Visit, t: Tables, asked: Input) returns (t': Tables, outcome: Outcome)
    requires v.action.SearchListingAction? && Brought(v, asked, asked) && Unfailing(v.env)
    ensures StoredTo(v, t, t', outcome) && t' == t && (outcome.Ok? <==> SearchReadable(asked))
    ensures outcome.Ok? ==> |outcome.value| == 1 && IsPage(t, asked, outcome.value[0])
  {
    SearchListingExactly(v.env, asked, t);
    StoredIsAnswered(v, t, asked, asked);
    t', outcome := Served(v, t).0, StoreOf(TemplateOf(v.action), asked, EngineOf(v.env), v.env.faults, t).1;
  }

  lemma SearchAnswer(v: Visit, t: Tables, asked: Input, outcome: Outcome)
    requires v.action.SearchListingAction? && StoredTo(v, t, t, outcome)
    requires outcome.Ok? ==> |outcome.value| == 1 && IsPage(t, asked, outcome.value[0])
    ensures outcome.Ok? ==> AnsweredWith(v, t, t, Sent(200, Fields(ListingsBody(outcome.value[0]))))
  {
    if outcome.Ok? {
      SearchAnswers(v.w.oracle);
      FoundIsAnswered(PipeOf(v.action, v.w.oracle), t, asked, outcome.value);
    }
  }

  /** A search that says what can be read is answered with its page, and changes nothing. */
  lemma SearchAnswered(v: Visit, t: Tables) returns (page: Rows)
    requires v.action.SearchListingAction? && Possible(v) && Accepted(v) && Unfailing(v.env) && SearchSaid(v)
    ensures IsPageSaid(t, v, page) && AnsweredWith(v, t, t, Sent(200, Fields(ListingsBody(page))))
  {
    var asked := AcceptedIsBrought(v);
    SearchFields(v, asked);
    var t', outcome := StoresSearch(v, t, asked);
    page := outcome.value[0];
    SearchIsSaid(t, v, asked, page);
    SearchAnswer(v, t, asked, outcome);
  }
}
