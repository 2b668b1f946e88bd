/** create-account and modify-account on a database that does not fail, from what was sent to
    what is answered. */
module AccountAnswers {
  import opened Values
  import opened Vocabulary
  import opened SqlTemplate
  import opened Database
  import opened Store
  import opened Schema
  import opened Statements
  import opened Invariants
  import opened Templates
  import opened Builds
  import opened Closing
  import opened RequestSchemas
  import opened ResponseSchemas
  import opened GeneralPipe
  import opened Requests
  import opened Reachability
  import opened Effects
  import opened CreateAccount
  import opened CreateListing
  import opened Asked
  import opened Grants
  import opened Deviations
  import opened ListingOutcomes
  import opened AccountOutcomes
  import opened ModifyAccount
  import opened EndToEnd
  import opened Answers
  import opened ListingAnswers
  import Request
  import Response

  // ---------------------------------------------------------------- what was sent

  /** The picture that was sent, if any, was uploaded to somewhere. */
  predicate PictureHasUrl(v: Visit) {
    PICTURE in v.req.body ==> HasUrl(v, 0, v.req.body[PICTURE])
  }

  /** What a sanitiser makes of a field that was sent is not NULL. */
  predicate Sanitises(v: Visit, key: Key, sanitise: Val -> Option<Val>) {
    key in v.req.body ==>
      sanitise(v.req.body[key]).Some? && !IsNull(Plainly(sanitise(v.req.body[key]).value))
  }

  predicate SanitisersGive(v: Visit, password: Key) {
    Sanitises(v, password, v.w.oracle.hash) && Sanitises(v, DOB, v.w.oracle.day)
  }

  lemma CleanedIsGiven(v: Visit, asked: Input, inName: Key, outName: Key, sanitise: Val -> Option<Val>)
    requires !ReadsUrl(v.action) && inName != ACCOUNT_ID && Cleaned(v, asked, inName, outName, sanitise)
    requires Sanitises(v, inName, sanitise)
    ensures outName in asked <==> inName in v.req.body
    ensures outName in asked ==> !IsNull(InputValue(asked, outName, 1, 0))
                                 && InputValue(asked, outName, 1, 0) == Plainly(sanitise(v.req.body[inName]).value)
  {
  }

  /** A picture is a list of one. */
  lemma PictureIsBrought(v: Visit, asked: Input, input: Input)
    requires v.action.CreateAccountAction? || v.action.ModifyAccountAction?
    requires if SentUnder(v, PICTURE).None? then MEDIA !in asked
             else MEDIA in asked && asked[MEDIA] == Arr([SentUnder(v, PICTURE).value])
    requires URL !in asked && MIME_TYPE !in asked && Brings(v.w, asked, input)
    requires URL in input <==> Submitted(asked) != []
    ensures (URL in input <==> PICTURE in v.req.body) && (MIME_TYPE in input <==> PICTURE in v.req.body)
    ensures PICTURE in v.req.body ==>
              && (!IsNull(Field(input, MIME_TYPE)) && !IsNull(Field(input, URL)) <==> PictureHasUrl(v))
              && v.w.upload(0, v.req.body[PICTURE]).Succeeded?
              && Field(input, URL) == v.w.upload(0, v.req.body[PICTURE]).url
              && MatchOf(v.w.oracle, v.req.body[PICTURE]).Some?
              && Field(input, MIME_TYPE) == MatchOf(v.w.oracle, v.req.body[PICTURE]).value.mimetype
  {
    if PICTURE in v.req.body {
      assert Submitted(asked) == [v.req.body[PICTURE]];
      assert CarriesUpload(input, v.w, 0, Submitted(asked)[0]);
    }
  }

  lemma NoMediaFields(v: Visit, asked: Input)
    requires Accepts(v, asked)
    ensures URL !in asked && MIME_TYPE !in asked
  {
    ProcessValidates(v.action, v.w.oracle,
                     WithAccount(Gathered(PipeOf(v.action, v.w.oracle), v.req), v.w.security.value));
  }

  // ---------------------------------------------------------------- create-account

  lemma NameAndEmail(v: Visit, asked: Input)
    requires v.action.CreateAccountAction? && Accepts(v, asked)
    ensures NAME in asked && NonEmptyString(asked[NAME]) && EMAIL in asked && NonEmptyString(asked[EMAIL])
  {
    var ps := ParamsOf(CreateAccountAction, v.w.oracle);
    assert ps[1] == Required(NAME, IsNonEmptyString()) && ps[1] in ps;
    TakesRequired(v, asked, NAME, IsNonEmptyString());
    CreateAccountSent(v, asked);
    assert ps[0].conditions[0] == IsNonEmptyString() && ps[0] in ps;
    FirstConditionHolds(v, asked, ps[0], IsNonEmptyString());
  }

  lemma AddressIsFull(v: Visit, asked: Input)
    requires v.action.CreateAccountAction? && Accepts(v, asked) && ADDRESS in asked
    ensures asked[ADDRESS].Obj? && FullAddress(asked[ADDRESS].fields)
  {
    var ps := ParamsOf(CreateAccountAction, v.w.oracle);
    assert ps[4] == Optional(ADDRESS, IsLocation()) && ps[4] in ps;
    OptionalHolds(v, asked, ADDRESS, IsLocation());
    assert Location(asked[ADDRESS]) == Some(true);
  }

  lemma AddressIsGiven(v: Visit, asked: Input, input: Input)
    requires v.action.CreateAccountAction? && Accepts(v, asked) && Brings(v.w, asked, input)
    ensures AddressGiven(input) && (ADDRESS in input <==> ADDRESS in asked)
  {
    FieldIsBrought(v, asked, input, ADDRESS);
    if ADDRESS in asked {
      AddressIsFull(v, asked);
      FullIsGiven(input);
    }
  }

  lemma FullIsGiven(input: Input)
    requires ADDRESS in input && input[ADDRESS].Obj? && FullAddress(input[ADDRESS].fields)
    ensures AddressGiven(input)
  {
  }

  /** What create-account is given, in terms of what was sent. */
  lemma AccountConditions(v: Visit, asked: Input, input: Input)
    requires v.action.CreateAccountAction? && Brought(v, asked, input) && SanitisersGive(v, PASSWORD)
    ensures CompleteAccount(input) && Field(input, EMAIL) == Said(v, EMAIL)
    ensures AddressGiven(input) && (PictureGiven(input) <==> PictureHasUrl(v))
    ensures (ADDRESS in input <==> ADDRESS in v.req.body) && (URL in input <==> PICTURE in v.req.body)
  {
    CreateAccountSent(v, asked);
    NameAndEmail(v, asked);
    AddressIsGiven(v, asked, input);
    NoMediaFields(v, asked);
    PictureIsBrought(v, asked, input);
    FieldsAreComplete(v, asked, input);
  }

  lemma FieldsAreComplete(v: Visit, asked: Input, input: Input)
    requires v.action.CreateAccountAction? && AccountSent(v, asked) && Brings(v.w, asked, input)
    requires NonEmptyString(asked[NAME]) && NonEmptyString(asked[EMAIL]) && SanitisersGive(v, PASSWORD)
    ensures CompleteAccount(input) && Field(input, EMAIL) == Said(v, EMAIL)
  {
    CleanedIsGiven(v, asked, PASSWORD, PASS_HASH, v.w.oracle.hash);
    CleanedIsGiven(v, asked, DOB, DOB, v.w.oracle.day);
    FieldIsSaid(v, asked, EMAIL);
    FieldIsBrought(v, asked, input, NAME);
    FieldIsBrought(v, asked, input, EMAIL);
    FieldIsBrought(v, asked, input, PASS_HASH);
    FieldIsBrought(v, asked, input, DOB);
  }

  /** The answer, and what is left. */
  ghost predicate CreateAccountAnswer(v: Visit, t: Tables) {
    Possible(v) &&
    var (t', sent) := Served(v, t);
    if !EmailFree(t, Said(v, EMAIL)) then
      if ADDRESS !in v.req.body && PICTURE !in v.req.body then Declined(v, t, 409, EmptyResponse)
      else Declined(v, t, 500, Backreference)
    else if PictureHasUrl(v) then AnsweredWith(v, t, t', Sent(201, Fields(SUCCESS_BODY)))
    else t' == t && sent.Some? && !Response.IsSuccess(sent.value.status)
  }

  /** How the store stage has ended. */
  ghost predicate AccountEnded(t: Tables, t': Tables, outcome: Outcome, free: bool, picture: bool, alone: bool) {
    && (outcome.Ok? <==> free && picture) && (outcome.Err? ==> t' == t)
    && (!free ==> outcome == Err(if alone then EmptyResponse else Backreference))
  }

  lemma AccountOutcome(o: Oracle, results: seq<Rows>)
    ensures RespondTo(PipeOf(CreateAccountAction, o), Ok(results)) == Some(Sent(201, Fields(SUCCESS_BODY)))
    ensures RespondTo(PipeOf(CreateAccountAction, o), Err(EmptyResponse)) == Some(Sent(409, Failure(EmptyResponse)))
    ensures RespondTo(PipeOf(CreateAccountAction, o), Err(Backreference)) == Some(Sent(500, Failure(Backreference)))
    ensures forall e :: var r := RespondTo(PipeOf(CreateAccountAction, o), Err(e));
                        r.Some? && !Response.IsSuccess(r.value.status)
  {
    CreateAccountAnswers(o);
    SuccessIsAnswered(PipeOf(CreateAccountAction, o), results, 201);
    StoreErrorAnswer(CreateAccountAction, o, EmptyResponse, 409);
    StoreErrorAnswer(CreateAccountAction, o, Backreference, 500);
    forall e
      ensures var r := RespondTo(PipeOf(CreateAccountAction, o), Err(e));
              r.Some? && !Response.IsSuccess(r.value.status)
    {
      ErrorAnswer(CreateAccountAction, o, e);
      StatusTellsSuccess(CreateAccountAction, Some(e));
    }
  }

  lemma StoresAccount(v: Visit, t: Tables, asked: Input, input: Input) returns (t': Tables, outcome: Outcome)
    requires v.action.CreateAccountAction? && Brought(v, asked, input) && Unfailing(v.env) && Inv(t)
    requires CompleteAccount(input) && AddressGiven(input)
    ensures StoredTo(v, t, t', outcome)
    ensures AccountEnded(t, t', outcome, EmailFree(t, Field(input, EMAIL)), PictureGiven(input),
                         ADDRESS !in input && URL !in input)
  {
    CreateAccountExactly(v.env, input, t);
    if !EmailFree(t, Field(input, EMAIL)) {
      var a :| a in t.accounts.rows && t.accounts.rows[a].email == Field(input, EMAIL);
      TakenEmail(v.env, input, t, a);
    }
    StoredIsAnswered(v, t, asked, input);
    t', outcome := Served(v, t).0, StoreOf(TemplateOf(v.action), input, EngineOf(v.env), v.env.faults, t).1;
  }

  lemma AccountStored(v: Visit, t: Tables, t': Tables, outcome: Outcome)
    requires v.action.CreateAccountAction? && StoredTo(v, t, t', outcome)
    requires AccountEnded(t, t', outcome, EmailFree(t, Said(v, EMAIL)), PictureHasUrl(v),
                          ADDRESS !in v.req.body && PICTURE !in v.req.body)
    ensures CreateAccountAnswer(v, t)
  {
    AccountOutcome(v.w.oracle, if outcome.Ok? then outcome.value else []);
  }

  /** An account is created exactly if no account has its email address, deleted ones included
      (and its picture, if any, was uploaded to somewhere); otherwise nothing has changed, and
      the answer is 409, or 500 if an address or a picture came along. */
  lemma CreateAccountAnswered(v: Visit, t: Tables)
    requires v.action.CreateAccountAction? && Possible(v) && Uploaded(v) && Unfailing(v.env) && Inv(t)
    requires SanitisersGive(v, PASSWORD)
    ensures CreateAccountAnswer(v, t)
  {
    var asked, input := UploadedIsBrought(v);
    AccountConditions(v, asked, input);
    var t', outcome := StoresAccount(v, t, asked, input);
    AccountStored(v, t, t', outcome);
  }

  // ---------------------------------------------------------------- modify-account

  predicate NewFieldSent(v: Visit) {
    NAME in v.req.body || EMAIL in v.req.body || NEW_PASSWORD in v.req.body || DOB in v.req.body
    || PICTURE in v.req.body
  }

  /** The email address that was sent, if any, is not that of another account. */
  predicate SentEmailFree(t: Tables, n: int, v: Visit) {
    EMAIL in v.req.body ==> forall a :: a in t.accounts.rows && a != n ==> t.accounts.rows[a].email != Said(v, EMAIL)
  }

  /** What modify-account is given, in terms of what was sent. */
  ghost predicate GivesNew(v: Visit, input: Input) {
    && IntOf(input, ACCOUNT_ID) == SaidInt(v, ACCOUNT_ID)
    && (NAME in input <==> NAME in v.req.body) && (EMAIL in input <==> EMAIL in v.req.body)
    && (PASS_HASH in input <==> NEW_PASSWORD in v.req.body) && (DOB in input <==> DOB in v.req.body)
    && (MIME_TYPE in input <==> PICTURE in v.req.body)
    && Field(input, NAME) == Said(v, NAME) && Field(input, EMAIL) == Said(v, EMAIL)
    && (PASS_HASH in input ==> SanitisedFrom(Field(input, PASS_HASH), v.w.oracle.hash(BodyField(v, NEW_PASSWORD))))
    && (DOB in input ==> SanitisedFrom(Field(input, DOB), v.w.oracle.day(BodyField(v, DOB))))
    && (MIME_TYPE in input ==> IsPictureOf(v, Field(input, MIME_TYPE), Field(input, URL)))
    && ColumnsGiven(input) && (NewPictureGiven(input) <==> PictureHasUrl(v))
  }

  /** These are the type of the picture that was sent, and where it was uploaded to. */
  predicate IsPictureOf(v: Visit, mimetype: Val, url: Val) {
    && PICTURE in v.req.body && v.w.upload(0, v.req.body[PICTURE]).Succeeded?
    && url == v.w.upload(0, v.req.body[PICTURE]).url
    && MatchOf(v.w.oracle, v.req.body[PICTURE]).Some?
    && mimetype == MatchOf(v.w.oracle, v.req.body[PICTURE]).value.mimetype
  }

  lemma NewName(v: Visit, asked: Input)
    requires v.action.ModifyAccountAction? && Accepts(v, asked) && NAME in asked
    ensures NonEmptyString(asked[NAME])
  {
    var ps := ParamsOf(ModifyAccountAction, v.w.oracle);
    assert ps[1] == Optional(NAME, IsNonEmptyString()) && ps[1] in ps;
    OptionalHolds(v, asked, NAME, IsNonEmptyString());
  }

  /** A parameter of two conditions, as they are those of an email address. */
  lemma FirstConditionHolds(v: Visit, asked: Input, p: Request.Param, condition: Condition)
    requires Accepts(v, asked) && p in ParamsOf(v.action, v.w.oracle) && p.outName == p.inName && p.sanitise == Same()
    requires condition in p.conditions && p.outName in asked
    ensures v.w.security.Ok? && condition(asked[p.outName], Whole(v)) == Some(true)
  {
    AskedIsSent(v, asked);
    assert AsSent(v, asked, p);
  }

  lemma NewEmail(v: Visit, asked: Input)
    requires v.action.ModifyAccountAction? && Accepts(v, asked) && EMAIL in asked
    ensures NonEmptyString(asked[EMAIL])
  {
    var p := ParamsOf(ModifyAccountAction, v.w.oracle)[2];
    assert p.conditions[0] == IsNonEmptyString();
    FirstConditionHolds(v, asked, p, IsNonEmptyString());
  }

  lemma NewNameAndEmail(v: Visit, asked: Input)
    requires v.action.ModifyAccountAction? && Accepts(v, asked)
    ensures NAME in asked ==> NonEmptyString(asked[NAME])
    ensures EMAIL in asked ==> NonEmptyString(asked[EMAIL])
  {
    if NAME in asked {
      NewName(v, asked);
    }
    if EMAIL in asked {
      NewEmail(v, asked);
    }
  }

  lemma NewFieldsGiven(v: Visit, asked: Input, input: Input)
    requires v.action.ModifyAccountAction? && AccountChangesSent(v, asked) && Brings(v.w, asked, input)
    requires NAME in asked ==> NonEmptyString(asked[NAME])
    requires EMAIL in asked ==> NonEmptyString(asked[EMAIL])
    requires SanitisersGive(v, NEW_PASSWORD)
    requires (MIME_TYPE in input <==> PICTURE in v.req.body)
    requires PICTURE in v.req.body ==> IsPictureOf(v, Field(input, MIME_TYPE), Field(input, URL))
    requires PICTURE in v.req.body ==>
               (!IsNull(Field(input, MIME_TYPE)) && !IsNull(Field(input, URL)) <==> PictureHasUrl(v))
    ensures GivesNew(v, input)
  {
    CleanedIsGiven(v, asked, NEW_PASSWORD, PASS_HASH, v.w.oracle.hash);
    CleanedIsGiven(v, asked, DOB, DOB, v.w.oracle.day);
    FieldIsSaid(v, asked, ACCOUNT_ID);
    FieldIsSaid(v, asked, NAME);
    FieldIsSaid(v, asked, EMAIL);
    SaidIsBody(v, asked, NAME);
    SaidIsBody(v, asked, EMAIL);
    FieldIsBrought(v, asked, input, ACCOUNT_ID);
    FieldIsBrought(v, asked, input, NAME);
    FieldIsBrought(v, asked, input, EMAIL);
    FieldIsBrought(v, asked, input, PASS_HASH);
    FieldIsBrought(v, asked, input, DOB);
  }

  lemma NewConditions(v: Visit, asked: Input, input: Input)
    requires v.action.ModifyAccountAction? && Brought(v, asked, input) && SanitisersGive(v, NEW_PASSWORD)
    ensures GivesNew(v, input)
  {
    ModifyAccountSent(v, asked);
    NewNameAndEmail(v, asked);
    NoMediaFields(v, asked);
    PictureIsBrought(v, asked, input);
    NewFieldsGiven(v, asked, input);
  }

  /** Column by column: what was sent has its new value if the account is not deleted, the
      picture is the one that was sent, even if it is, and all the rest is as it was. */
  ghost predicate AccountChangedAsSent(t: Tables, t': Tables, n: int, v: Visit) {
    && n in t.accounts.rows && n in t'.accounts.rows
    && t' == t.(accounts := t'.accounts, userMedia := t'.userMedia, mediaSerial := t'.mediaSerial)
    && t'.accounts == t.accounts.(rows := t.accounts.rows[n := t'.accounts.rows[n]])
    && var row, was := t'.accounts.rows[n], t.accounts.rows[n];
       && row.deleted == was.deleted && (was.deleted.Some? ==> row == was)
       && (was.deleted.None? ==>
             && row.name == (if NAME in v.req.body then Said(v, NAME) else was.name)
             && row.email == (if EMAIL in v.req.body then Said(v, EMAIL) else was.email)
             && (if NEW_PASSWORD in v.req.body
                 then SanitisedFrom(row.passhash, v.w.oracle.hash(v.req.body[NEW_PASSWORD]))
                 else row.passhash == was.passhash)
             && (if DOB in v.req.body then SanitisedFrom(row.dob, v.w.oracle.day(v.req.body[DOB]))
                 else row.dob == was.dob))
       && if PICTURE in v.req.body then
            && n in t'.userMedia && t'.userMedia == t.userMedia[n := t'.userMedia[n]]
            && IsPictureOf(v, t'.userMedia[n].mimetype, t'.userMedia[n].url)
          else t'.userMedia == t.userMedia && t'.mediaSerial == t.mediaSerial
  }

  lemma ChangedIsSent(t: Tables, t': Tables, n: int, v: Visit, input: Input)
    requires GivesNew(v, input) && AccountIsChanged(t, t', n, input)
    ensures AccountChangedAsSent(t, t', n, v)
  {
  }

  /** The answer, and what is left. */
  ghost predicate ModifyAccountAnswer(v: Visit, t: Tables, n: int) {
    Possible(v) &&
    var (t', sent) := Served(v, t);
    if !NewFieldSent(v) then Declined(v, t, 400, EmptyQuery)
    else if Live(t, n) then
      if !SentEmailFree(t, n, v) then Declined(v, t, 409, UniqueConstraint)
      else if PictureHasUrl(v) then Done(v, t, t') && AccountChangedAsSent(t, t', n, v)
      else t' == t && sent.Some? && !Response.IsSuccess(sent.value.status)
    else if PICTURE !in v.req.body then Declined(v, t, 403, EmptyResponse)
    else if n in t.accounts.rows && PictureHasUrl(v) then Done(v, t, t') && AccountChangedAsSent(t, t', n, v)
    else t' == t && sent.Some? && !Response.IsSuccess(sent.value.status)
  }

  /** How the store stage has ended. */
  ghost predicate AccountChangeEnded(t: Tables, t': Tables, outcome: Outcome, n: int, input: Input) {
    && (outcome.Ok? <==> SomethingNew(input) && n in t.accounts.rows && NewPictureGiven(input)
                         && if Live(t, n) then ColumnsGiven(input) && NewEmailFree(t, n, input) else MIME_TYPE in input)
    && (outcome.Ok? ==> AccountIsChanged(t, t', n, input)) && (outcome.Err? ==> t' == t)
    && (!SomethingNew(input) ==> outcome == Err(EmptyQuery))
    && (Live(t, n) && ColumnsGiven(input) && !NewEmailFree(t, n, input) ==> outcome == Err(UniqueConstraint))
    && (SomethingNew(input) && !Live(t, n) && MIME_TYPE !in input ==> outcome == Err(EmptyResponse))
  }

  lemma StoresAccountChange(v: Visit, t: Tables, asked: Input, input: Input, n: int)
    returns (t': Tables, outcome: Outcome)
    requires v.action.ModifyAccountAction? && Brought(v, asked, input) && Unfailing(v.env) && Inv(t)
    requires IntOf(input, ACCOUNT_ID) == Int(n)
    ensures StoredTo(v, t, t', outcome) && AccountChangeEnded(t, t', outcome, n, input)
  {
    ModifyAccountExactly(v.env, input, t, n);
    StoredIsAnswered(v, t, asked, input);
    t', outcome := Served(v, t).0, StoreOf(TemplateOf(v.action), input, EngineOf(v.env), v.env.faults, t).1;
  }

  lemma AccountChangeOutcome(o: Oracle, results: seq<Rows>)
    ensures RespondTo(PipeOf(ModifyAccountAction, o), Ok(results)) == Some(Sent(200, Fields(SUCCESS_BODY)))
    ensures RespondTo(PipeOf(ModifyAccountAction, o), Err(EmptyResponse)) == Some(Sent(403, Failure(EmptyResponse)))
    ensures RespondTo(PipeOf(ModifyAccountAction, o), Err(EmptyQuery)) == Some(Sent(400, Failure(EmptyQuery)))
    ensures RespondTo(PipeOf(ModifyAccountAction, o), Err(UniqueConstraint))
            == Some(Sent(409, Failure(UniqueConstraint)))
    ensures forall e :: var r := RespondTo(PipeOf(ModifyAccountAction, o), Err(e));
                        r.Some? && !Response.IsSuccess(r.value.status)
  {
    DoneIsAnswered(ModifyAccountAction, o, results);
    StoreErrorAnswer(ModifyAccountAction, o, EmptyResponse, 403);
    StoreErrorAnswer(ModifyAccountAction, o, EmptyQuery, 400);
    StoreErrorAnswer(ModifyAccountAction, o, UniqueConstraint, 409);
    forall e
      ensures var r := RespondTo(PipeOf(ModifyAccountAction, o), Err(e));
              r.Some? && !Response.IsSuccess(r.value.status)
    {
      ErrorAnswer(ModifyAccountAction, o, e);
      StatusTellsSuccess(ModifyAccountAction, Some(e));
    }
  }

  lemma AccountChangeStored(v: Visit, t: Tables, t': Tables, outcome: Outcome, n: int, input: Input)
    requires v.action.ModifyAccountAction? && StoredTo(v, t, t', outcome) && GivesNew(v, input)
    requires AccountChangeEnded(t, t', outcome, n, input)
    ensures ModifyAccountAnswer(v, t, n)
  {
    AccountChangeOutcome(v.w.oracle, if outcome.Ok? then outcome.value else []);
    if outcome.Ok? {
      ChangedIsSent(t, t', n, v, input);
    }
  }

  /** An account is changed exactly if it is not deleted and its new email address, if it gets
      one, is not that of another account: 403 and 409 are the answers otherwise.  But the
      picture of a deleted account is changed all the same. */
  lemma ModifyAccountAnswered(v: Visit, t: Tables, n: int)
    requires v.action.ModifyAccountAction? && Possible(v) && Uploaded(v) && Unfailing(v.env) && Inv(t)
    requires SanitisersGive(v, NEW_PASSWORD) && SaidInt(v, ACCOUNT_ID) == Int(n)
    ensures ModifyAccountAnswer(v, t, n)
  {
    var asked, input := UploadedIsBrought(v);
    NewConditions(v, asked, input);
    var t', outcome := StoresAccountChange(v, t, asked, input, n);
    AccountChangeStored(v, t, t', outcome, n, input);
  }
}
