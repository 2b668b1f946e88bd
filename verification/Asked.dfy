/** From what was sent to what is asked for: the caller is who the token says, and every other
    field is the one of the body, or of the path or the query. */
module Asked {
  import opened Values
  import opened SqlTemplate
  import opened Schema
  import opened Templates
  import opened RequestSchemas
  import opened GeneralPipe
  import opened Reachability
  import opened Effects
  import Request

  /** The pipelines that read the path and the query. */
  predicate ReadsUrl(a: Action) {
    || a.SearchCategoryAction? || a.SearchAccountListingAction? || a.SearchSavedListingAction?
    || a.SearchAddressAction? || a.SearchListingAction? || a.SearchConversationAction?
    || a.ViewAccountListingAction? || a.ViewAccountAction? || a.ViewListingAction? || a.ViewConversationAction?
  }

  /** What a request says under a name: a token speaks for the caller; the path comes before
      the query. */
  function SentUnder(v: Visit, key: Key): Option<Val> {
    if key == ACCOUNT_ID && v.w.security.Ok? && Truthy(v.w.security.value) then Some(v.w.security.value)
    else if ReadsUrl(v.action) then
      if key in v.req.params then Some(v.req.params[key])
      else if key in v.req.query then Some(v.req.query[key])
      else None
    else if key in v.req.body then Some(v.req.body[key])
    else None
  }

  /** A list of one stands for its element. */
  function Plainly(value: Val): Val {
    if value.Arr? && |value.items| == 1 then value.items[0] else value
  }

  /** The value that a request says under a name, or NULL. */
  function Said(v: Visit, key: Key): Val {
    if SentUnder(v, key).Some? then Plainly(SentUnder(v, key).value) else Null
  }

  /** The same, used as an integer. */
  function SaidInt(v: Visit, key: Key): IntParam {
    AsInt(Said(v, key))
  }

  /** Whose id a token carries, that is the caller, whatever was sent; without a token it is
      what was sent. */
  lemma TokenIsCaller(v: Visit)
    ensures forall n :: v.w.security == Ok(Num(n)) && n != 0 ==> SaidInt(v, ACCOUNT_ID) == Int(n)
    ensures v.w.security == Ok(Null) && !ReadsUrl(v.action) ==>
              SentUnder(v, ACCOUNT_ID) == if ACCOUNT_ID in v.req.body then Some(v.req.body[ACCOUNT_ID]) else None
  {
  }

  /** What was validated, when something was. */
  ghost predicate Accepts(v: Visit, asked: Input) {
    Validation(PipeOf(v.action, v.w.oracle), v.req, v.w) == Ok(asked)
  }

  /** Everything that was sent, with the caller. */
  function Whole(v: Visit): Input
    requires v.w.security.Ok?
  {
    WithAccount(Gathered(PipeOf(v.action, v.w.oracle), v.req), v.w.security.value)
  }

  lemma ReadsUrlExactly(a: Action, o: Oracle)
    ensures PipeOf(a, o).readsQuery <==> ReadsUrl(a)
  {
  }

  lemma WholeIsSent(v: Visit, key: Key)
    requires v.w.security.Ok?
    ensures SentUnder(v, key) == if key in Whole(v) then Some(Whole(v)[key]) else None
  {
    ReadsUrlExactly(v.action, v.w.oracle);
    GatheredIsSent(v, PipeOf(v.action, v.w.oracle), key);
  }

  lemma GatheredIsSent(v: Visit, p: Pipe, key: Key)
    requires v.w.security.Ok? && (p.readsQuery <==> ReadsUrl(v.action))
    ensures var sent := WithAccount(Gathered(p, v.req), v.w.security.value);
            SentUnder(v, key) == if key in sent then Some(sent[key]) else None
  {
  }

  // ---------------------------------------------------------------- names

  lemma SearchNamesDistinct(a: Action, o: Oracle)
    requires Searches(a)
    ensures Request.DistinctNames(ParamsOf(a, o))
  {
  }

  lemma ViewNamesDistinct(a: Action, o: Oracle)
    requires Views(a)
    ensures Request.DistinctNames(ParamsOf(a, o))
  {
  }

  lemma IdNamesDistinct(a: Action, o: Oracle)
    requires a.CloseAccountAction? || a.CreateSavedListingAction? || a.CloseSavedListingAction? || a.CloseListingAction?
          || a.CreateConversationAction? || a.CloseConversationAction? || a.CreateMessageAction?
    ensures Request.DistinctNames(ParamsOf(a, o))
  {
  }

  lemma AccountNamesDistinct(a: Action, o: Oracle)
    requires a.CreateAccountAction? || a.ModifyAccountAction? || a.LoginAction?
    ensures Request.DistinctNames(ParamsOf(a, o))
  {
  }

  lemma ListingNamesDistinct(a: Action, o: Oracle)
    requires a.CreateListingAction? || a.ModifyListingAction?
    ensures Request.DistinctNames(ParamsOf(a, o))
  {
  }

  /** No request template uses a name twice. */
  lemma NamesDistinct(a: Action, o: Oracle)
    ensures Request.DistinctNames(ParamsOf(a, o))
  {
    if Searches(a) {
      SearchNamesDistinct(a, o);
    } else if Views(a) {
      ViewNamesDistinct(a, o);
    } else if a.CreateAccountAction? || a.ModifyAccountAction? || a.LoginAction? {
      AccountNamesDistinct(a, o);
    } else if a.CreateListingAction? || a.ModifyListingAction? {
      ListingNamesDistinct(a, o);
    } else {
      IdNamesDistinct(a, o);
    }
  }

  // ---------------------------------------------------------------- every field

  /** A declared field of what is asked for is the sanitised one that was sent, and it meets
      its conditions; one that was not sent need not be, and is not asked for. */
  ghost predicate AsSent(v: Visit, asked: Input, p: Request.Param)
    requires v.w.security.Ok?
  {
    var sent := SentUnder(v, p.inName);
    if sent.None? then !p.required && p.outName !in asked
    else
      && p.outName in asked && Some(asked[p.outName]) == p.sanitise(sent.value)
      && forall c :: c in p.conditions ==> c(sent.value, Whole(v)) == Some(true)
  }

  /** What is validated is exactly what was sent under the declared names, of the caller that
      the token names. */
  lemma AskedIsSent(v: Visit, asked: Input)
    requires Accepts(v, asked)
    ensures v.w.security.Ok?
    ensures forall p :: p in ParamsOf(v.action, v.w.oracle) ==> AsSent(v, asked, p)
    ensures forall key :: key in asked ==> exists p :: p in ParamsOf(v.action, v.w.oracle) && p.outName == key
  {
    var params := ParamsOf(v.action, v.w.oracle);
    NamesDistinct(v.action, v.w.oracle);
    Request.ProcessExactly(params, Whole(v));
    forall p | p in params
      ensures AsSent(v, asked, p)
    {
      assert Request.Passes(p, Whole(v)) && Request.Yields(p, Whole(v), asked);
      WholeIsSent(v, p.inName);
    }
  }

  /** A request is validated exactly if the caller is let in and every parameter passes. */
  lemma AcceptedIff(v: Visit)
    ensures (exists asked :: Accepts(v, asked)) <==>
              v.w.security.Ok? && forall p :: p in ParamsOf(v.action, v.w.oracle) ==> Request.Passes(p, Whole(v))
  {
    var r := Validation(PipeOf(v.action, v.w.oracle), v.req, v.w);
    if v.w.security.Ok? {
      NamesDistinct(v.action, v.w.oracle);
      Request.ProcessExactly(ParamsOf(v.action, v.w.oracle), Whole(v));
    }
    if r.Ok? {
      assert Accepts(v, r.value);
    }
  }

  // ---------------------------------------------------------------- the caller, for every action

  /** The account id is asked for under its own name, and as it is. */
  ghost predicate CallerAsIs(params: seq<Request.Param>) {
    forall p :: p in params && p.inName == ACCOUNT_ID ==> p.outName == ACCOUNT_ID && p.sanitise == Same()
  }

  lemma SearchCallerAsIs(a: Action, o: Oracle)
    requires Searches(a)
    ensures CallerAsIs(ParamsOf(a, o))
  {
  }

  lemma ViewCallerAsIs(a: Action, o: Oracle)
    requires Views(a)
    ensures CallerAsIs(ParamsOf(a, o))
  {
  }

  lemma IdCallerAsIs(a: Action, o: Oracle)
    requires a.CloseAccountAction? || a.CreateSavedListingAction? || a.CloseSavedListingAction? || a.CloseListingAction?
          || a.CreateConversationAction? || a.CloseConversationAction? || a.CreateMessageAction?
    ensures CallerAsIs(ParamsOf(a, o))
  {
  }

  lemma AccountCallerAsIs(a: Action, o: Oracle)
    requires a.CreateAccountAction? || a.ModifyAccountAction? || a.LoginAction?
    ensures CallerAsIs(ParamsOf(a, o))
  {
  }

  lemma ListingCallerAsIs(a: Action, o: Oracle)
    requires a.CreateListingAction? || a.ModifyListingAction?
    ensures CallerAsIs(ParamsOf(a, o))
  {
  }

  lemma AllCallersAsIs(a: Action, o: Oracle)
    ensures CallerAsIs(ParamsOf(a, o))
  {
    if Searches(a) {
      SearchCallerAsIs(a, o);
    } else if Views(a) {
      ViewCallerAsIs(a, o);
    } else if a.CreateAccountAction? || a.ModifyAccountAction? || a.LoginAction? {
      AccountCallerAsIs(a, o);
    } else if a.CreateListingAction? || a.ModifyListingAction? {
      ListingCallerAsIs(a, o);
    } else {
      IdCallerAsIs(a, o);
    }
  }

  /** Whatever the action and whatever was sent: an action that takes an account id takes the
      one of the token, if there is a token. */
  lemma CallerIsTokens(v: Visit, asked: Input, n: int)
    requires Accepts(v, asked) && v.w.security == Ok(Num(n)) && n != 0
    requires exists p :: p in ParamsOf(v.action, v.w.oracle) && p.inName == ACCOUNT_ID
    ensures ACCOUNT_ID in asked && asked[ACCOUNT_ID] == Num(n)
  {
    var p :| p in ParamsOf(v.action, v.w.oracle) && p.inName == ACCOUNT_ID;
    AllCallersAsIs(v.action, v.w.oracle);
    AskedIsSent(v, asked);
    assert AsSent(v, asked, p);
  }

  // ---------------------------------------------------------------- action by action

  /** A field that has to be sent, and is asked for as it was sent. */
  predicate WasSent(v: Visit, asked: Input, key: Key) {
    key in asked && SentUnder(v, key) == Some(asked[key])
  }

  /** The same of one that may be left out. */
  predicate WasSentIfAny(v: Visit, asked: Input, key: Key) {
    if key in asked then SentUnder(v, key) == Some(asked[key]) else SentUnder(v, key).None?
  }

  /** The templates take from what is asked for what the request says. */
  lemma FieldIsSaid(v: Visit, asked: Input, key: Key)
    requires WasSentIfAny(v, asked, key)
    ensures InputValue(asked, key, 1, 0) == Said(v, key) && IntOf(asked, key) == SaidInt(v, key)
  {
  }

  lemma TakesRequired(v: Visit, asked: Input, name: Key, condition: Condition)
    requires Accepts(v, asked) && Required(name, condition) in ParamsOf(v.action, v.w.oracle)
    ensures WasSent(v, asked, name) && v.w.security.Ok? && condition(asked[name], Whole(v)) == Some(true)
  {
    AskedIsSent(v, asked);
    RequiredIsSent(v, asked, name, condition);
  }

  lemma RequiredIsSent(v: Visit, asked: Input, name: Key, condition: Condition)
    requires v.w.security.Ok? && AsSent(v, asked, Required(name, condition))
    ensures WasSent(v, asked, name) && condition(asked[name], Whole(v)) == Some(true)
  {
    assert condition in Required(name, condition).conditions;
  }

  lemma TakesOptional(v: Visit, asked: Input, p: Request.Param)
    requires Accepts(v, asked) && p in ParamsOf(v.action, v.w.oracle)
    requires p.inName == p.outName && p.sanitise == Same()
    ensures WasSentIfAny(v, asked, p.inName)
  {
    AskedIsSent(v, asked);
    assert AsSent(v, asked, p);
  }

  /** The fields of a create-listing. */
  ghost predicate ListingSent(v: Visit, asked: Input) {
    && WasSent(v, asked, ACCOUNT_ID) && WasSent(v, asked, TITLE) && WasSent(v, asked, DESCRIPTION)
    && WasSent(v, asked, LOCATION) && WasSent(v, asked, CATEGORY_ID) && WasSent(v, asked, CONDITION)
    && WasSentIfAny(v, asked, MEDIA)
    && NonEmptyString(asked[TITLE]) && NonEmptyString(asked[DESCRIPTION]) && NonEmptyString(asked[CONDITION])
  }

  lemma CreateListingParams(o: Oracle)
    ensures var ps := ParamsOf(CreateListingAction, o);
            && Required(ACCOUNT_ID, IsPosInt(o)) in ps && Required(TITLE, IsNonEmptyString()) in ps
            && Required(DESCRIPTION, IsNonEmptyString()) in ps && Required(LOCATION, IsPosIntOrLocation(o)) in ps
            && Required(CATEGORY_ID, IsPosInt(o)) in ps && Required(CONDITION, IsCondition()) in ps
            && MediaList(MEDIA, o) in ps
  {
    var ps := ParamsOf(CreateListingAction, o);
    assert ps[0].inName == ACCOUNT_ID && ps[1].inName == TITLE && ps[2].inName == DESCRIPTION;
    assert ps[3].inName == LOCATION && ps[4].inName == CATEGORY_ID && ps[5].inName == CONDITION;
    assert ps[6].inName == MEDIA;
  }

  lemma CreateListingTexts(v: Visit, asked: Input)
    requires v.action.CreateListingAction? && Accepts(v, asked)
    ensures WasSent(v, asked, TITLE) && WasSent(v, asked, DESCRIPTION) && WasSent(v, asked, CONDITION)
    ensures NonEmptyString(asked[TITLE]) && NonEmptyString(asked[DESCRIPTION]) && NonEmptyString(asked[CONDITION])
  {
    CreateListingParams(v.w.oracle);
    TakesRequired(v, asked, TITLE, IsNonEmptyString());
    TakesRequired(v, asked, DESCRIPTION, IsNonEmptyString());
    TakesRequired(v, asked, CONDITION, IsCondition());
    ConditionIsText(asked[CONDITION], Whole(v));
  }

  lemma ConditionIsText(c: Val, sent: Input)
    requires IsCondition()(c, sent) == Some(true)
    ensures NonEmptyString(c)
  {
  }

  lemma CreateListingSent(v: Visit, asked: Input)
    requires v.action.CreateListingAction? && Accepts(v, asked)
    ensures ListingSent(v, asked)
  {
    CreateListingParams(v.w.oracle);
    CreateListingTexts(v, asked);
    TakesRequired(v, asked, ACCOUNT_ID, IsPosInt(v.w.oracle));
    TakesRequired(v, asked, LOCATION, IsPosIntOrLocation(v.w.oracle));
    TakesRequired(v, asked, CATEGORY_ID, IsPosInt(v.w.oracle));
    TakesOptional(v, asked, MediaList(MEDIA, v.w.oracle));
  }

  /** The fields of a modify-listing: all but the ids may be left out. */
  ghost predicate ChangesSent(v: Visit, asked: Input) {
    && WasSent(v, asked, ACCOUNT_ID) && WasSent(v, asked, LISTING_ID) && WasSentIfAny(v, asked, TITLE)
    && WasSentIfAny(v, asked, DESCRIPTION) && WasSentIfAny(v, asked, LOCATION) && WasSentIfAny(v, asked, CATEGORY_ID)
    && WasSentIfAny(v, asked, CONDITION) && WasSentIfAny(v, asked, MEDIA)
  }

  lemma ModifyListingParams(o: Oracle)
    ensures var ps := ParamsOf(ModifyListingAction, o);
            && Required(ACCOUNT_ID, IsPosInt(o)) in ps && Required(LISTING_ID, IsPosInt(o)) in ps
            && Optional(TITLE, IsNonEmptyString()) in ps && Optional(DESCRIPTION, IsNonEmptyString()) in ps
            && Optional(LOCATION, IsPosIntOrLocation(o)) in ps && Optional(CATEGORY_ID, IsPosInt(o)) in ps
            && Optional(CONDITION, IsCondition()) in ps && MediaList(MEDIA, o) in ps
  {
    var ps := ParamsOf(ModifyListingAction, o);
    assert ps[0].inName == ACCOUNT_ID && ps[1].inName == LISTING_ID && ps[2].inName == TITLE;
    assert ps[3].inName == DESCRIPTION && ps[4].inName == LOCATION && ps[5].inName == CATEGORY_ID;
    assert ps[6].inName == CONDITION && ps[7].inName == MEDIA;
  }

  lemma ModifyListingSent(v: Visit, asked: Input)
    requires v.action.ModifyListingAction? && Accepts(v, asked)
    ensures ChangesSent(v, asked)
  {
    ModifyListingParams(v.w.oracle);
    TakesRequired(v, asked, ACCOUNT_ID, IsPosInt(v.w.oracle));
    TakesRequired(v, asked, LISTING_ID, IsPosInt(v.w.oracle));
    TakesOptional(v, asked, Optional(TITLE, IsNonEmptyString()));
    TakesOptional(v, asked, Optional(DESCRIPTION, IsNonEmptyString()));
    TakesOptional(v, asked, Optional(LOCATION, IsPosIntOrLocation(v.w.oracle)));
    TakesOptional(v, asked, Optional(CATEGORY_ID, IsPosInt(v.w.oracle)));
    TakesOptional(v, asked, Optional(CONDITION, IsCondition()));
    TakesOptional(v, asked, MediaList(MEDIA, v.w.oracle));
  }

  lemma IdIsRequired(names: seq<Key>, o: Oracle, i: nat)
    requires i < |names|
    ensures Required(names[i], IsPosInt(o)) in Ids(names, o)
  {
    assert Ids(names, o)[i] == Required(names[i], IsPosInt(o));
  }

  lemma CloseAccountSent(v: Visit, asked: Input)
    requires v.action.CloseAccountAction? && Accepts(v, asked)
    ensures WasSent(v, asked, ACCOUNT_ID)
  {
    IdIsRequired([ACCOUNT_ID], v.w.oracle, 0);
    TakesRequired(v, asked, ACCOUNT_ID, IsPosInt(v.w.oracle));
  }

  /** Saving and forgetting a listing, and asking about one. */
  lemma ListingIdsSent(v: Visit, asked: Input)
    requires v.action.CreateSavedListingAction? || v.action.CloseSavedListingAction?
             || v.action.CreateConversationAction?
    requires Accepts(v, asked)
    ensures WasSent(v, asked, ACCOUNT_ID) && WasSent(v, asked, LISTING_ID)
  {
    IdIsRequired([ACCOUNT_ID, LISTING_ID], v.w.oracle, 0);
    IdIsRequired([ACCOUNT_ID, LISTING_ID], v.w.oracle, 1);
    TakesRequired(v, asked, ACCOUNT_ID, IsPosInt(v.w.oracle));
    TakesRequired(v, asked, LISTING_ID, IsPosInt(v.w.oracle));
  }

  lemma CloseConversationSent(v: Visit, asked: Input)
    requires v.action.CloseConversationAction? && Accepts(v, asked)
    ensures WasSent(v, asked, ACCOUNT_ID) && WasSent(v, asked, CONVERSATION_ID)
  {
    IdIsRequired([ACCOUNT_ID, CONVERSATION_ID], v.w.oracle, 0);
    IdIsRequired([ACCOUNT_ID, CONVERSATION_ID], v.w.oracle, 1);
    TakesRequired(v, asked, ACCOUNT_ID, IsPosInt(v.w.oracle));
    TakesRequired(v, asked, CONVERSATION_ID, IsPosInt(v.w.oracle));
  }

  lemma CreateMessageSent(v: Visit, asked: Input)
    requires v.action.CreateMessageAction? && Accepts(v, asked)
    ensures WasSent(v, asked, ACCOUNT_ID) && WasSent(v, asked, CONVERSATION_ID) && WasSent(v, asked, TEXT_CONTENT)
    ensures NonEmptyString(asked[TEXT_CONTENT])
  {
    var o := v.w.oracle;
    var ids, more := Ids([ACCOUNT_ID, CONVERSATION_ID], o),
        [Required(TEXT_CONTENT, IsNonEmptyString()), MediaList(MEDIA_CONTENT, o)];
    assert ParamsOf(CreateMessageAction, o) == ids + more && more[0] in more;
    IdIsRequired([ACCOUNT_ID, CONVERSATION_ID], o, 0);
    IdIsRequired([ACCOUNT_ID, CONVERSATION_ID], o, 1);
    TakesRequired(v, asked, ACCOUNT_ID, IsPosInt(o));
    TakesRequired(v, asked, CONVERSATION_ID, IsPosInt(o));
    TakesRequired(v, asked, TEXT_CONTENT, IsNonEmptyString());
  }

  lemma CloseListingSent(v: Visit, asked: Input)
    requires v.action.CloseListingAction? && Accepts(v, asked)
    ensures WasSent(v, asked, ACCOUNT_ID) && WasSent(v, asked, LISTING_ID) && WasSentIfAny(v, asked, RECEIVER_ID)
  {
    var o := v.w.oracle;
    var ids, more := Ids([ACCOUNT_ID, LISTING_ID], o),
        [Request.Param(RECEIVER_ID, RECEIVER_ID, false, [IsPosInt(o), IsNotAccount(o)], Same())];
    assert ParamsOf(CloseListingAction, o) == ids + more && more[0] in more;
    IdIsRequired([ACCOUNT_ID, LISTING_ID], o, 0);
    IdIsRequired([ACCOUNT_ID, LISTING_ID], o, 1);
    TakesRequired(v, asked, ACCOUNT_ID, IsPosInt(o));
    TakesRequired(v, asked, LISTING_ID, IsPosInt(o));
    TakesOptional(v, asked, more[0]);
  }

  lemma SearchListingSent(v: Visit, asked: Input)
    requires v.action.SearchListingAction? && Accepts(v, asked)
    ensures WasSent(v, asked, MAX_RESULTS) && WasSent(v, asked, START_RESULTS)
    ensures WasSentIfAny(v, asked, ACCOUNT_ID) && WasSentIfAny(v, asked, CATEGORY_ID) && WasSentIfAny(v, asked, REGION)
  {
    var o := v.w.oracle;
    var first, ids, more := [Optional(ACCOUNT_ID, IsPosInt(o))], Ids([MAX_RESULTS, START_RESULTS], o),
        [Optional(CATEGORY_ID, IsPosInt(o)), Optional(REGION, IsNonEmptyString())];
    assert ParamsOf(SearchListingAction, o) == first + ids + more;
    assert first[0] in first && more[0] in more && more[1] in more;
    IdIsRequired([MAX_RESULTS, START_RESULTS], o, 0);
    IdIsRequired([MAX_RESULTS, START_RESULTS], o, 1);
    TakesRequired(v, asked, MAX_RESULTS, IsPosInt(o));
    TakesRequired(v, asked, START_RESULTS, IsPosInt(o));
    TakesOptional(v, asked, first[0]);
    TakesOptional(v, asked, more[0]);
    TakesOptional(v, asked, more[1]);
  }

  // ---------------------------------------------------------------- accounts

  /** A field that is asked for as it was sanitised, under another name perhaps. */
  ghost predicate Cleaned(v: Visit, asked: Input, inName: Key, outName: Key, sanitise: Val -> Option<Val>) {
    if SentUnder(v, inName).None? then outName !in asked
    else outName in asked && Some(asked[outName]) == sanitise(SentUnder(v, inName).value)
  }

  lemma TakesCleaned(v: Visit, asked: Input, p: Request.Param)
    requires Accepts(v, asked) && p in ParamsOf(v.action, v.w.oracle)
    ensures Cleaned(v, asked, p.inName, p.outName, p.sanitise)
    ensures p.required ==> SentUnder(v, p.inName).Some?
  {
    AskedIsSent(v, asked);
    assert AsSent(v, asked, p);
  }

  /** What is sent for a new account: the password is hashed, the date of birth is read as a
      date, and the picture is a list of one. */
  ghost predicate AccountSent(v: Visit, asked: Input) {
    && WasSent(v, asked, EMAIL) && WasSent(v, asked, NAME) && WasSentIfAny(v, asked, ADDRESS)
    && SentUnder(v, PASSWORD).Some? && Cleaned(v, asked, PASSWORD, PASS_HASH, v.w.oracle.hash)
    && SentUnder(v, DOB).Some? && Cleaned(v, asked, DOB, DOB, v.w.oracle.day)
    && (if SentUnder(v, PICTURE).None? then MEDIA !in asked
        else MEDIA in asked && asked[MEDIA] == Arr([SentUnder(v, PICTURE).value]))
  }

  lemma CreateAccountSent(v: Visit, asked: Input)
    requires v.action.CreateAccountAction? && Accepts(v, asked)
    ensures AccountSent(v, asked)
  {
    var ps := ParamsOf(CreateAccountAction, v.w.oracle);
    assert ps[0] in ps && ps[1] in ps && ps[2] in ps && ps[3] in ps && ps[4] in ps && ps[5] in ps;
    TakesCleaned(v, asked, ps[0]);
    TakesCleaned(v, asked, ps[1]);
    TakesCleaned(v, asked, ps[2]);
    TakesCleaned(v, asked, ps[3]);
    TakesCleaned(v, asked, ps[4]);
    TakesCleaned(v, asked, ps[5]);
  }

  ghost predicate AccountChangesSent(v: Visit, asked: Input) {
    && WasSent(v, asked, ACCOUNT_ID) && WasSentIfAny(v, asked, NAME) && WasSentIfAny(v, asked, EMAIL)
    && Cleaned(v, asked, NEW_PASSWORD, PASS_HASH, v.w.oracle.hash) && Cleaned(v, asked, DOB, DOB, v.w.oracle.day)
    && (if SentUnder(v, PICTURE).None? then MEDIA !in asked
        else MEDIA in asked && asked[MEDIA] == Arr([SentUnder(v, PICTURE).value]))
  }

  lemma ModifyAccountSent(v: Visit, asked: Input)
    requires v.action.ModifyAccountAction? && Accepts(v, asked)
    ensures AccountChangesSent(v, asked)
  {
    var ps := ParamsOf(ModifyAccountAction, v.w.oracle);
    assert ps[0] in ps && ps[1] in ps && ps[2] in ps && ps[3] in ps && ps[4] in ps && ps[5] in ps;
    TakesCleaned(v, asked, ps[0]);
    TakesCleaned(v, asked, ps[1]);
    TakesCleaned(v, asked, ps[2]);
    TakesCleaned(v, asked, ps[3]);
    TakesCleaned(v, asked, ps[4]);
    TakesCleaned(v, asked, ps[5]);
  }
}
