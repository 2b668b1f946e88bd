/** create-listing and modify-listing on a database that does not fail, from what was sent to
    what is answered. */
module ListingAnswers {
  import opened Values
  import opened Vocabulary
  import opened SqlTemplate
  import opened Database
  import opened Store
  import opened Schema
  import opened Statements
  import opened Invariants
  import opened Templates
  import opened Builds
  import opened Uploads
  import opened RequestSchemas
  import opened ResponseSchemas
  import opened GeneralPipe
  import opened Requests
  import opened Reachability
  import opened Effects
  import opened CreateListing
  import opened ModifyListing
  import opened Asked
  import opened Grants
  import opened Deviations
  import opened ListingOutcomes
  import opened ModifyOutcomes
  import opened EndToEnd
  import opened Answers
  import Response

  // ---------------------------------------------------------------- what was sent

  /** The location is an address, or reads as the id of one. */
  predicate PlaceSaid(v: Visit) {
    BodyField(v, LOCATION).Obj? || AsInt(BodyField(v, LOCATION)).Int?
  }

  /** The category that is said, if any, is there. */
  predicate CategoryThere(t: Tables, v: Visit) {
    SaidInt(v, CATEGORY_ID).Int? ==> SaidInt(v, CATEGORY_ID).n in t.categories
  }

  /** The address whose id was sent, if it was an id, is there and is this user's. */
  predicate PlaceThere(t: Tables, v: Visit, user: int) {
    var place := BodyField(v, LOCATION);
    !place.Obj? ==>
      AsInt(place).Int? && AsInt(place).n in t.addresses.rows && t.addresses.rows[AsInt(place).n].user == user
  }

  /** Every item was uploaded to somewhere. */
  predicate HasUrls(v: Visit) {
    forall i :: 0 <= i < |MediaSent(v)| ==> HasUrl(v, i, MediaSent(v)[i])
  }

  predicate HasUrl(v: Visit, i: nat, item: Val) {
    && v.w.upload(i, item).Succeeded? && !IsNull(v.w.upload(i, item).url)
    && MatchOf(v.w.oracle, item).Some? && !IsNull(MatchOf(v.w.oracle, item).value.mimetype)
  }

  lemma UploadsAreGiven(v: Visit, asked: Input, input: Input)
    requires Brings(v.w, asked, input) && (URL in input <==> Submitted(asked) != []) && Submitted(asked) == MediaSent(v)
    requires URL in input ==> MediaFields(input, |MediaUrls(input)|)
    ensures (URL in input ==> GivenUpTo(input, |MediaUrls(input)|)) <==> HasUrls(v)
  {
    if URL in input {
      forall i: nat | i < |MediaSent(v)|
        ensures UploadGiven(input, i) <==> HasUrl(v, i, MediaSent(v)[i])
      {
        assert CarriesUpload(input, v.w, i, MediaSent(v)[i]);
      }
    }
  }

  /** What the templates are given but the uploads is what was sent. */
  lemma FieldIsBrought(v: Visit, asked: Input, input: Input, key: Key)
    requires Brings(v.w, asked, input) && key != URL && key != MIME_TYPE && key != MEDIA_INDEX
    ensures (key in input <==> key in asked) && (key in asked ==> input[key] == asked[key])
    ensures Field(input, key) == InputValue(asked, key, 1, 0) && IntOf(input, key) == IntOf(asked, key)
  {
  }

  // ---------------------------------------------------------------- create-listing

  /** An address that was sent has all its parts. */
  lemma PlaceIsWhole(v: Visit, asked: Input)
    requires v.action.CreateListingAction? && Accepts(v, asked)
    ensures LOCATION in asked && (asked[LOCATION].Obj? ==> FullAddress(asked[LOCATION].fields))
  {
    CreateListingParams(v.w.oracle);
    TakesRequired(v, asked, LOCATION, IsPosIntOrLocation(v.w.oracle));
    if asked[LOCATION].Obj? {
      AddressIsWhole(v.w.oracle, asked[LOCATION], Whole(v));
    }
  }

  lemma AddressIsWhole(o: Oracle, place: Val, sent: Input)
    requires place.Obj? && IsPosIntOrLocation(o)(place, sent) == Some(true)
    ensures FullAddress(place.fields)
  {
    assert Location(place) == Some(true);
  }

  lemma TextsAreBrought(v: Visit, asked: Input, input: Input)
    requires ListingSent(v, asked) && Brings(v.w, asked, input)
    ensures !IsNull(Field(input, TITLE)) && !IsNull(Field(input, DESCRIPTION)) && !IsNull(Field(input, CONDITION))
  {
    FieldIsBrought(v, asked, input, TITLE);
    FieldIsBrought(v, asked, input, DESCRIPTION);
    FieldIsBrought(v, asked, input, CONDITION);
  }

  lemma IdsAreBrought(v: Visit, asked: Input, input: Input)
    requires v.action.CreateListingAction? && ListingSent(v, asked) && Brings(v.w, asked, input)
    ensures IntOf(input, ACCOUNT_ID) == SaidInt(v, ACCOUNT_ID) && IntOf(input, CATEGORY_ID) == SaidInt(v, CATEGORY_ID)
    ensures LOCATION in input && input[LOCATION] == asked[LOCATION] == BodyField(v, LOCATION)
  {
    FieldIsBrought(v, asked, input, ACCOUNT_ID);
    FieldIsBrought(v, asked, input, CATEGORY_ID);
    FieldIsBrought(v, asked, input, LOCATION);
    FieldIsSaid(v, asked, ACCOUNT_ID);
    FieldIsSaid(v, asked, CATEGORY_ID);
    SaidIsBody(v, asked, LOCATION);
  }

  /** The conditions of the store stage, in terms of what was sent. */
  lemma CreateConditions(v: Visit, t: Tables, asked: Input, input: Input, user: int)
    requires v.action.CreateListingAction? && Brought(v, asked, input) && SaidInt(v, ACCOUNT_ID) == Int(user)
    requires !SaidInt(v, CATEGORY_ID).NotInt? && PlaceSaid(v)
    ensures ListingGiven(input) && (MediaGiven(input) <==> HasUrls(v))
    ensures ReferencesThere(t, input) <==> user in t.accounts.rows && CategoryThere(t, v) && PlaceThere(t, v, user)
  {
    CreateListingSent(v, asked);
    PlaceIsWhole(v, asked);
    TextsAreBrought(v, asked, input);
    IdsAreBrought(v, asked, input);
    SameMediaSent(v, asked);
    UploadsAreGiven(v, asked, input);
  }

  /** The answer, and what is left. */
  ghost predicate CreateListingAnswer(v: Visit, t: Tables, user: int) {
    Possible(v) &&
    var t' := Served(v, t).0;
    if !(user in t.accounts.rows && CategoryThere(t, v) && PlaceThere(t, v, user)) then Declined(v, t, 404, ForeignKey)
    else if !HasUrls(v) then t' == t && Served(v, t).1.Some? && !Response.IsSuccess(Served(v, t).1.value.status)
    else CreatedAs(v, t, t', t.listings.serial)
  }

  lemma ListingOutcome(o: Oracle, id: int)
    ensures RespondTo(PipeOf(CreateListingAction, o), Ok([Returning(COL_LISTING_ID, id)]))
         == Some(Sent(201, Fields(map[SUCCESS := Num(id)])))
    ensures RespondTo(PipeOf(CreateListingAction, o), Err(ForeignKey)) == Some(Sent(404, Failure(ForeignKey)))
    ensures forall e :: var r := RespondTo(PipeOf(CreateListingAction, o), Err(e));
                        r.Some? && !Response.IsSuccess(r.value.status)
  {
    CreateListingAnswers(o);
    IdIsAnswered(PipeOf(CreateListingAction, o), COL_LISTING_ID, id);
    StoreErrorAnswer(CreateListingAction, o, ForeignKey, 404);
    forall e
      ensures var r := RespondTo(PipeOf(CreateListingAction, o), Err(e));
              r.Some? && !Response.IsSuccess(r.value.status)
    {
      ErrorAnswer(CreateListingAction, o, e);
      StatusTellsSuccess(CreateListingAction, Some(e));
    }
  }

  /** How the store stage has ended. */
  ghost predicate CreationEnded(t: Tables, t': Tables, outcome: Outcome, there: bool, urls: bool) {
    && (outcome.Ok? <==> there && urls)
    && (outcome.Ok? ==> outcome.value == [Returning(COL_LISTING_ID, t.listings.serial)])
    && (outcome.Err? ==> t' == t) && (!there ==> outcome == Err(ForeignKey))
  }

  lemma StoresCreation(v: Visit, t: Tables, asked: Input, input: Input) returns (t': Tables, outcome: Outcome)
    requires v.action.CreateListingAction? && Brought(v, asked, input) && Unfailing(v.env)
    requires Inv(t) && ListingGiven(input)
    ensures StoredTo(v, t, t', outcome) && CreationEnded(t, t', outcome, ReferencesThere(t, input), MediaGiven(input))
  {
    CreateListingExactly(v.env, input, t);
    StoredIsAnswered(v, t, asked, input);
    t', outcome := Served(v, t).0, StoreOf(TemplateOf(v.action), input, EngineOf(v.env), v.env.faults, t).1;
  }

  lemma CreateListingStored(v: Visit, t: Tables, t': Tables, outcome: Outcome, user: int)
    requires v.action.CreateListingAction? && StoredTo(v, t, t', outcome)
    requires CreationEnded(t, t', outcome, user in t.accounts.rows && CategoryThere(t, v) && PlaceThere(t, v, user),
                           HasUrls(v))
    ensures CreateListingAnswer(v, t, user)
  {
    ListingOutcome(v.w.oracle, t.listings.serial);
  }

  /** A listing is created, and is what was sent, exactly if the caller has an account, there
      is such a category, and the location is a full address or the id of one of the caller's;
      otherwise 404 is answered, and nothing has changed.  (The last case is an uploader that
      has answered without a url.) */
  lemma CreateListingAnswered(v: Visit, t: Tables, user: int)
    requires v.action.CreateListingAction? && Possible(v) && Uploaded(v) && Unfailing(v.env) && Inv(t)
    requires SaidInt(v, ACCOUNT_ID) == Int(user) && !SaidInt(v, CATEGORY_ID).NotInt? && PlaceSaid(v)
    ensures CreateListingAnswer(v, t, user)
  {
    var asked, input := UploadedIsBrought(v);
    CreateConditions(v, t, asked, input, user);
    var t', outcome := StoresCreation(v, t, asked, input);
    CreateListingStored(v, t, t', outcome, user);
  }

  /** What was created is what was sent. */
  lemma CreatedListingIsSent(v: Visit, t: Tables, user: int)
    requires v.action.CreateListingAction? && Possible(v) && Uploaded(v) && Unfailing(v.env) && Inv(t)
    requires SaidInt(v, ACCOUNT_ID) == Int(user) && !SaidInt(v, CATEGORY_ID).NotInt? && PlaceSaid(v)
    requires user in t.accounts.rows && CategoryThere(t, v) && PlaceThere(t, v, user) && HasUrls(v)
    ensures var t', l := Served(v, t).0, t.listings.serial;
            && Served(v, t).1 == Some(Sent(201, Fields(map[SUCCESS := Num(l)])))
            && l !in t.listings.rows && l in t'.listings.rows && ListingAsSent(t, t', t'.listings.rows[l], v)
            && MediaFrom(t', l, v.w, MediaSent(v)) && OnlyListing(t, t', l)
  {
    CreateListingAnswered(v, t, user);
    var response := Served(v, t).1.value;
    var l := CreateListingEndToEnd(v, t, Served(v, t).0, response);
    assert map[SUCCESS := Num(l)][SUCCESS] == map[SUCCESS := Num(t.listings.serial)][SUCCESS];
  }

  // ---------------------------------------------------------------- modify-listing

  predicate SomethingSent(v: Visit) {
    TITLE in v.req.body || DESCRIPTION in v.req.body || LOCATION in v.req.body || CATEGORY_ID in v.req.body
    || CONDITION in v.req.body || MediaSent(v) != []
  }

  /** The ids are said, one by one, and can be read. */
  predicate ModifyIdsSaid(v: Visit, user: int, l: int) {
    && SaidInt(v, ACCOUNT_ID) == Int(user) && SaidInt(v, LISTING_ID) == Int(l)
    && NotAList(v, ACCOUNT_ID) && NotAList(v, LISTING_ID)
    && (CATEGORY_ID in v.req.body ==> !SaidInt(v, CATEGORY_ID).NotInt?) && (LOCATION in v.req.body ==> PlaceSaid(v))
  }

  predicate NotAList(v: Visit, key: Key) {
    SentUnder(v, key).Some? && !SentUnder(v, key).value.Arr?
  }

  predicate NewAddressSent(v: Visit) {
    LOCATION in v.req.body && v.req.body[LOCATION].Obj?
  }

  /** The category and the address that were sent are there, and the address is this user's. */
  predicate NewOnesThere(t: Tables, v: Visit, user: int) {
    && (CATEGORY_ID in v.req.body ==> CategoryThere(t, v))
    && (LOCATION in v.req.body ==> PlaceThere(t, v, user))
  }

  lemma OptionalHolds(v: Visit, asked: Input, name: Key, condition: Condition)
    requires Accepts(v, asked) && Optional(name, condition) in ParamsOf(v.action, v.w.oracle) && name in asked
    ensures v.w.security.Ok? && condition(asked[name], Whole(v)) == Some(true)
  {
    AskedIsSent(v, asked);
    OptionalIsSent(v, asked, name, condition);
  }

  lemma OptionalIsSent(v: Visit, asked: Input, name: Key, condition: Condition)
    requires v.w.security.Ok? && AsSent(v, asked, Optional(name, condition)) && name in asked
    ensures condition(asked[name], Whole(v)) == Some(true)
  {
    assert condition in Optional(name, condition).conditions;
  }

  lemma NewTitle(v: Visit, asked: Input)
    requires v.action.ModifyListingAction? && Accepts(v, asked)
    ensures TITLE in asked ==> NonEmptyString(asked[TITLE])
  {
    ModifyListingParams(v.w.oracle);
    if TITLE in asked {
      OptionalHolds(v, asked, TITLE, IsNonEmptyString());
    }
  }

  lemma NewDescription(v: Visit, asked: Input)
    requires v.action.ModifyListingAction? && Accepts(v, asked)
    ensures DESCRIPTION in asked ==> NonEmptyString(asked[DESCRIPTION])
  {
    ModifyListingParams(v.w.oracle);
    if DESCRIPTION in asked {
      OptionalHolds(v, asked, DESCRIPTION, IsNonEmptyString());
    }
  }

  lemma NewCondition(v: Visit, asked: Input)
    requires v.action.ModifyListingAction? && Accepts(v, asked)
    ensures CONDITION in asked ==> NonEmptyString(asked[CONDITION])
  {
    ModifyListingParams(v.w.oracle);
    if CONDITION in asked {
      OptionalHolds(v, asked, CONDITION, IsCondition());
      ConditionIsText(asked[CONDITION], Whole(v));
    }
  }

  lemma NewPlace(v: Visit, asked: Input)
    requires v.action.ModifyListingAction? && Accepts(v, asked)
    ensures LOCATION in asked && asked[LOCATION].Obj? ==> FullAddress(asked[LOCATION].fields)
  {
    ModifyListingParams(v.w.oracle);
    if LOCATION in asked && asked[LOCATION].Obj? {
      OptionalHolds(v, asked, LOCATION, IsPosIntOrLocation(v.w.oracle));
      AddressIsWhole(v.w.oracle, asked[LOCATION], Whole(v));
    }
  }

  /** What modify-listing is given, in terms of what was sent. */
  ghost predicate GivesChanges(v: Visit, input: Input) {
    && User(input) == Said(v, ACCOUNT_ID) && ListingAsked(input) == Said(v, LISTING_ID)
    && (TITLE in input <==> TITLE in v.req.body) && (DESCRIPTION in input <==> DESCRIPTION in v.req.body)
    && (CONDITION in input <==> CONDITION in v.req.body) && (CATEGORY_ID in input <==> CATEGORY_ID in v.req.body)
    && (LOCATION in input <==> LOCATION in v.req.body)
    && (LOCATION in input ==> input[LOCATION] == v.req.body[LOCATION])
    && IntOf(input, CATEGORY_ID) == SaidInt(v, CATEGORY_ID)
  }

  lemma ChangesAreBrought(v: Visit, asked: Input, input: Input)
    requires v.action.ModifyListingAction? && ChangesSent(v, asked) && Brings(v.w, asked, input)
    ensures GivesChanges(v, input)
  {
    FieldIsBrought(v, asked, input, ACCOUNT_ID);
    FieldIsBrought(v, asked, input, LISTING_ID);
    FieldIsBrought(v, asked, input, CATEGORY_ID);
    FieldIsBrought(v, asked, input, LOCATION);
    FieldIsSaid(v, asked, ACCOUNT_ID);
    FieldIsSaid(v, asked, LISTING_ID);
    FieldIsSaid(v, asked, CATEGORY_ID);
    SameKeys(v, asked, input);
  }

  lemma SameKeys(v: Visit, asked: Input, input: Input)
    requires v.action.ModifyListingAction? && ChangesSent(v, asked) && Brings(v.w, asked, input)
    ensures TITLE in input <==> TITLE in v.req.body
    ensures DESCRIPTION in input <==> DESCRIPTION in v.req.body
    ensures CONDITION in input <==> CONDITION in v.req.body
    ensures CATEGORY_ID in input <==> CATEGORY_ID in v.req.body
    ensures LOCATION in input <==> LOCATION in v.req.body
  {
    SaidIsBody(v, asked, TITLE);
    SaidIsBody(v, asked, DESCRIPTION);
    SaidIsBody(v, asked, CONDITION);
    SaidIsBody(v, asked, CATEGORY_ID);
    SaidIsBody(v, asked, LOCATION);
  }

  /** What was sent for a column that must not be NULL is not NULL. */
  ghost predicate NewTextsGiven(input: Input) {
    && (TITLE in input ==> !IsNull(Field(input, TITLE)))
    && (DESCRIPTION in input ==> !IsNull(Field(input, DESCRIPTION)))
    && (CONDITION in input ==> !IsNull(Field(input, CONDITION)))
    && (LOCATION in input && input[LOCATION].Obj? ==> FullAddress(input[LOCATION].fields))
  }

  lemma NewTextsAreGiven(v: Visit, asked: Input, input: Input)
    requires v.action.ModifyListingAction? && Accepts(v, asked) && Brings(v.w, asked, input)
    ensures NewTextsGiven(input)
  {
    NewTitle(v, asked);
    NewDescription(v, asked);
    NewCondition(v, asked);
    NewPlace(v, asked);
    TextsStay(v, asked, input);
  }

  lemma TextsStay(v: Visit, asked: Input, input: Input)
    requires NewTextsGiven(asked) && Brings(v.w, asked, input)
    ensures NewTextsGiven(input)
  {
  }

  lemma IdsForAllCopies(v: Visit, asked: Input, input: Input)
    requires ChangesSent(v, asked) && Brings(v.w, asked, input) && NotAList(v, ACCOUNT_ID) && NotAList(v, LISTING_ID)
    requires !SaidInt(v, ACCOUNT_ID).NotInt? && !SaidInt(v, LISTING_ID).NotInt?
    ensures IdsForCopies(input)
  {
    FieldIsBrought(v, asked, input, ACCOUNT_ID);
    FieldIsBrought(v, asked, input, LISTING_ID);
  }

  /** The conditions of the store stage, in terms of what was sent. */
  ghost predicate ModifyConditions(t: Tables, v: Visit, input: Input, user: int, l: int) {
    && (SomethingToChange(input) <==> SomethingSent(v))
    && Found(t, User(input), ListingAsked(input)) == (if OpenOf(t, user, l) then Some(l) else None)
    && AsInt(User(input)) == Int(user) && ChangesGiven(input) && UploadsGiven(input) && ChangesReadable(input)
    && (NewReferencesThere(t, input, user) <==> NewOnesThere(t, v, user))
    && (IsNewAddress(input) <==> NewAddressSent(v))
    && (AddressGoes(t, input) <==> (NewAddressSent(v) ==> user in t.accounts.rows))
  }

  lemma ModifyConditionsHold(t: Tables, v: Visit, asked: Input, input: Input, user: int, l: int)
    requires v.action.ModifyListingAction? && Brought(v, asked, input) && ModifyIdsSaid(v, user, l) && HasUrls(v)
    ensures ModifyConditions(t, v, input, user, l)
  {
    ModifyListingSent(v, asked);
    ChangesAreBrought(v, asked, input);
    NewTextsAreGiven(v, asked, input);
    SameMediaSent(v, asked);
    UploadsAreGiven(v, asked, input);
    IdsForAllCopies(v, asked, input);
    ConditionsFollow(t, v, input, user, l);
  }

  lemma ConditionsFollow(t: Tables, v: Visit, input: Input, user: int, l: int)
    requires GivesChanges(v, input) && ModifyIdsSaid(v, user, l) && IdsForCopies(input)
    requires URL in input ==> GivenUpTo(input, |MediaUrls(input)|)
    requires URL in input <==> MediaSent(v) != []
    requires NewTextsGiven(input)
    ensures ModifyConditions(t, v, input, user, l)
  {
  }

  /** The answer, and what is left. */
  ghost predicate ModifyListingAnswer(v: Visit, t: Tables, user: int, l: int) {
    Possible(v) &&
    var (t', sent) := Served(v, t);
    if !SomethingSent(v) then Declined(v, t, 400, EmptyQuery)
    else if OpenOf(t, user, l) then
      if NewOnesThere(t, v, user) then Done(v, t, t') else Declined(v, t, 404, ForeignKey)
    else if !NewAddressSent(v) then Declined(v, t, 404, EmptyResponse)
    else if user in t.accounts.rows then Done(v, t, t')
    else t' == t && sent.Some? && !Response.IsSuccess(sent.value.status)
  }

  lemma ModificationOutcome(o: Oracle)
    ensures forall results ::
              RespondTo(PipeOf(ModifyListingAction, o), Ok(results)) == Some(Sent(200, Fields(SUCCESS_BODY)))
    ensures RespondTo(PipeOf(ModifyListingAction, o), Err(ForeignKey)) == Some(Sent(404, Failure(ForeignKey)))
    ensures RespondTo(PipeOf(ModifyListingAction, o), Err(EmptyResponse)) == Some(Sent(404, Failure(EmptyResponse)))
    ensures RespondTo(PipeOf(ModifyListingAction, o), Err(EmptyQuery)) == Some(Sent(400, Failure(EmptyQuery)))
    ensures forall e :: var r := RespondTo(PipeOf(ModifyListingAction, o), Err(e));
                        r.Some? && !Response.IsSuccess(r.value.status)
  {
    forall results
      ensures RespondTo(PipeOf(ModifyListingAction, o), Ok(results)) == Some(Sent(200, Fields(SUCCESS_BODY)))
    {
      DoneIsAnswered(ModifyListingAction, o, results);
    }
    StoreErrorAnswer(ModifyListingAction, o, ForeignKey, 404);
    StoreErrorAnswer(ModifyListingAction, o, EmptyResponse, 404);
    StoreErrorAnswer(ModifyListingAction, o, EmptyQuery, 400);
    forall e
      ensures var r := RespondTo(PipeOf(ModifyListingAction, o), Err(e));
              r.Some? && !Response.IsSuccess(r.value.status)
    {
      ErrorAnswer(ModifyListingAction, o, e);
      StatusTellsSuccess(ModifyListingAction, Some(e));
    }
  }

  /** How the store stage has ended. */
  ghost predicate ModificationEnded(t: Tables, t': Tables, outcome: Outcome, input: Input) {
    && (outcome.Ok? <==> SomethingToChange(input) && ModificationSucceeds(t, input)) && (outcome.Err? ==> t' == t)
    && (!SomethingToChange(input) ==> outcome == Err(EmptyQuery))
    && (SomethingToChange(input) && ReferenceMissing(t, input) ==> outcome == Err(ForeignKey))
    && (SomethingToChange(input) && ListingMissing(t, input) ==> outcome == Err(EmptyResponse))
  }

  lemma StoresModification(v: Visit, t: Tables, asked: Input, input: Input) returns (t': Tables, outcome: Outcome)
    requires v.action.ModifyListingAction? && Brought(v, asked, input) && Unfailing(v.env) && Inv(t)
    ensures StoredTo(v, t, t', outcome) && ModificationEnded(t, t', outcome, input)
  {
    ModifyListingExactly(v.env, input, t);
    StoredIsAnswered(v, t, asked, input);
    t', outcome := Served(v, t).0, StoreOf(TemplateOf(v.action), input, EngineOf(v.env), v.env.faults, t).1;
  }

  lemma ModificationStored(v: Visit, t: Tables, t': Tables, outcome: Outcome, input: Input, user: int, l: int)
    requires v.action.ModifyListingAction? && StoredTo(v, t, t', outcome) && ModifyConditions(t, v, input, user, l)
    requires ModificationEnded(t, t', outcome, input)
    ensures ModifyListingAnswer(v, t, user, l)
  {
    ModificationOutcome(v.w.oracle);
  }

  /** An open listing of the caller is changed exactly if the category and the address that
      were sent are there, and the address is the caller's; otherwise 404 is answered and
      nothing changes.  For any other listing 404 is answered too, unless an address was sent:
      then that is added, and 200 is answered. */
  lemma ModifyListingAnswered(v: Visit, t: Tables, user: int, l: int)
    requires v.action.ModifyListingAction? && Possible(v) && Uploaded(v) && Unfailing(v.env) && Inv(t)
    requires ModifyIdsSaid(v, user, l) && HasUrls(v)
    ensures ModifyListingAnswer(v, t, user, l)
  {
    var asked, input := UploadedIsBrought(v);
    ModifyConditionsHold(t, v, asked, input, user, l);
    var t', outcome := StoresModification(v, t, asked, input);
    ModificationStored(v, t, t', outcome, input, user, l);
  }
}
