/** schemas/response-schemas.js: what each action answers. */
module ResponseSchemas {
  import opened Values
  import opened Templates
  import opened Response

  function AccountDetails(): seq<Param> {
    [Field(NAME, NAME), Field(MIME_TYPE, PFP_MIME_TYPE), Field(URL, PFP_URL), RowsWithFields(LISTINGS, [LISTING_ID])]
  }

  function ListingDetails(): seq<Param> {
    [Field(LISTING_ID, COL_LISTING_ID),
     Field(CONTRIBUTOR_ID, COL_CONTRIBUTOR_ID),
     Field(TITLE, TITLE),
     Field(DESCRIPTION, DESCRIPTION),
     Field(CONDITION, CONDITION),
     OneRowWithFields(LOCATION, [COUNTRY]),
     Field(CATEGORY_ID, COL_CATEGORY_ID),
     RowsWithFields(MEDIA, [MIME_TYPE, URL]),
     Field(CREATION_DATE, COL_CREATION_DATE),
     Field(MODIFICATION_DATE, COL_MODIFICATION_DATE),
     Field(CLOSED_DATE, COL_CLOSED_DATE),
     Field(RECEIVER_ID, COL_RECEIVER_ID)]
  }

  function ConversationDetails(): seq<Param> {
    [Field(LISTING_ID, LISTING_ID),
     Field(TITLE, TITLE),
     Field(MIME_TYPE, MIME_TYPE_MAIN),
     Field(URL, URL_MAIN),
     Field(RECEIVER_ID, RECEIVER_ID),
     Field(RECEIVER_NAME, RECEIVER_NAME),
     Field(CONTRIBUTOR_ID, CONTRIBUTOR_ID),
     Field(CONTRIBUTOR_NAME, CONTRIBUTOR_NAME),
     Field(CLOSED_DATE, CLOSED_DATE),
     RowsWithFields(MESSAGES, [SENDER_ID])]
  }

  function AnswersOf(a: Action): seq<Param> {
    match a
    case SearchCategoryAction => [RowsWithFields(CATEGORIES, [CATEGORY_ID])]
    case SearchAccountListingAction => [RowsWithFields(LISTINGS, [LISTING_ID])]
    case SearchSavedListingAction => [RowsWithFields(LISTINGS, [LISTING_ID])]
    case SearchListingAction => [RowsWithFields(LISTINGS, [LISTING_ID])]
    case SearchAddressAction => [RowsWithFields(ADDRESSES, [ADDRESS_ID])]
    case SearchConversationAction => [RowsWithFields(CONVERSATIONS, [CONVERSATION_ID])]
    case ViewAccountAction => AccountDetails()
    case ViewAccountListingAction => ListingDetails()
    case ViewListingAction => ListingDetails()
    case ViewConversationAction => ConversationDetails()
    case CreateListingAction => [Field(SUCCESS, COL_LISTING_ID)]
    case CreateConversationAction => [Field(SUCCESS, COL_CONVERSATION_ID)]
    case CreateMessageAction => [Field(SUCCESS, COL_MESSAGE_ID)]
    case _ => []
  }

  /** No response template uses a name twice. */
  lemma NamesAreDistinct(a: Action)
    ensures DistinctNames(AnswersOf(a))
  {
    ListingNamesAreDistinct();
    OtherNamesAreDistinct();
  }

  lemma ListingNamesAreDistinct()
    ensures DistinctNames(ListingDetails())
  {
  }

  lemma OtherNamesAreDistinct()
    ensures DistinctNames(AccountDetails()) && DistinctNames(ConversationDetails())
  {
  }

  /** The `errorMap` of each action. */
  function Statuses(a: Action): StatusMap {
    match a
    case CreateAccountAction => StatusMap(Some(201), map[EmptyResponseError := 409])
    case ModifyAccountAction => StatusMap(None, map[EmptyQueryError := 400, EmptyResponseError := 403])
    case ModifyListingAction => StatusMap(None, map[EmptyQueryError := 400])
    case ViewAccountListingAction => StatusMap(None, map[EmptyResponseError := 404, BackreferenceError := 404])
    case ViewListingAction => StatusMap(None, map[EmptyResponseError := 404, BackreferenceError := 404])
    case ViewAccountAction => StatusMap(None, map[BackreferenceError := 404])
    case ViewConversationAction => StatusMap(None, map[BackreferenceError := 404])
    case CloseListingAction => StatusMap(None, map[BackreferenceError := 404])
    case CreateListingAction => StatusMap(Some(201), map[])
    case CreateConversationAction => StatusMap(Some(201), map[])
    case CreateMessageAction => StatusMap(Some(201), map[])
    case _ => StatusMap(None, map[])
  }

  /** Whatever the action and the error: the status is 2xx exactly if there is no error. */
  lemma StatusTellsSuccess(a: Action, err: Option<Error>)
    ensures IsSuccess(StatusOf(Statuses(a), err)) <==> err.None?
  {
    HonestStatus(Statuses(a), err);
  }

  // ---------------------------------------------------------------- the statuses, one by one

  /** What a nothing found, a broken reference of the template and an empty plan mean depends
      on the action. */
  function OwnStatus(a: Action, e: Error): Option<int> {
    if e.EmptyResponse? && a.CreateAccountAction? then Some(409)
    else if e.EmptyResponse? && a.ModifyAccountAction? then Some(403)
    else if e.EmptyQuery? && (a.ModifyAccountAction? || a.ModifyListingAction?) then Some(400)
    else if e.Backreference? && (Views(a) || a.CloseListingAction?) then Some(404)
    else None
  }

  /** The status of every error that the pipeline itself raises. */
  lemma ErrorIsAnswered(a: Action, e: Error)
    requires !e.OtherError?
    ensures var status := StatusOf(Statuses(a), Some(e));
            && (OwnStatus(a, e).Some? ==> status == OwnStatus(a, e).value)
            && (OwnStatus(a, e).None? ==>
                  && (e.EmptyResponse? || e.ForeignKey? ==> status == 404)
                  && (e.UniqueConstraint? ==> status == 409)
                  && (e.AbsentArgument? || e.InvalidArgument? || e.DirtyArgument? ==> status == 400)
                  && (e.UnprocessableArgument? ==> status == 422)
                  && (e.EmptyQuery? || e.Backreference? || e.QueryExecution? || e.QueryConstruction? ==> status == 500)
                  && (e.ClientNotAvailable? || e.FailedUpload? || e.NotAnError? ==> status == 500))
  {
    if !e.NotAnError? {
      OwnEntry(a, e);
      DefaultEntry(e);
    }
  }

  lemma OwnEntry(a: Action, e: Error)
    requires !e.OtherError? && !e.NotAnError?
    ensures Entry(Statuses(a).onError, NameOf(e)) == OwnStatus(a, e)
            || (e.EmptyResponse? && Views(a) && Entry(Statuses(a).onError, NameOf(e)) == Some(404))
  {
  }

  lemma DefaultEntry(e: Error)
    requires !e.OtherError?
    ensures var d := DefaultStatus(NameOf(e));
            && (e.EmptyResponse? || e.ForeignKey? ==> d == Some(404))
            && (e.UniqueConstraint? ==> d == Some(409))
            && (e.AbsentArgument? || e.InvalidArgument? || e.DirtyArgument? ==> d == Some(400))
            && (e.UnprocessableArgument? ==> d == Some(422))
            && (e.EmptyQuery? || e.Backreference? || e.QueryExecution? || e.QueryConstruction? ==> d == Some(500))
            && (e.ClientNotAvailable? ==> d == Some(500)) && (e.FailedUpload? || e.NotAnError? ==> d.None?)
  {
  }

  /** The errors with which a caller is not let in. */
  predicate NotLetIn(name: ErrorName) {
    || name.AlreadyAuthenticatedError? || name.UnauthenticatedUserError? || name.UnauthorizedUserError?
    || name.InvalidCredentialsError? || name.InvalidTokenError? || name.TamperedTokenError? || name.ExpiredTokenError?
    || name.NotBeforeTokenError?
  }

  /** And of those: 403 for a caller who may not, 401 for one who is not known. */
  lemma SecurityErrorIsAnswered(a: Action, name: ErrorName)
    requires NotLetIn(name)
    ensures StatusOf(Statuses(a), Some(OtherError(name))) == if name.UnauthorizedUserError? then 403 else 401
  {
    assert Entry(Statuses(a).onError, name).None?;
  }

  /** And of success. */
  lemma SuccessStatus(a: Action)
    ensures StatusOf(Statuses(a), None)
         == if a.CreateAccountAction? || a.CreateListingAction? || a.CreateConversationAction? || a.CreateMessageAction?
            then 201 else 200
  {
  }

  // ---------------------------------------------------------------- the values, one by one

  /** Every action answers every field that it declares with the value it is declared to have. */
  lemma EveryValueIs(a: Action, results: seq<Rows>, p: Param)
    requires p in AnswersOf(a)
    ensures ValueIs(ResponseUpTo(AnswersOf(a), results, |AnswersOf(a)|), p, results)
  {
    NamesAreDistinct(a);
    DeclaredValueIs(AnswersOf(a), results, p);
  }

  lemma DeclaredValueIs(params: seq<Param>, results: seq<Rows>, p: Param)
    requires DistinctNames(params) && p in params
    ensures ValueIs(ResponseUpTo(params, results, |params|), p, results)
  {
    var k :| 0 <= k < |params| && params[k] == p;
    ValuesOfResponse(params, results, k);
  }

  /** What a listing is declared to be answered as. */
  lemma ListingDeclares()
    ensures Field(LISTING_ID, COL_LISTING_ID) in ListingDetails() && Field(TITLE, TITLE) in ListingDetails()
    ensures Field(CONTRIBUTOR_ID, COL_CONTRIBUTOR_ID) in ListingDetails()
    ensures Field(DESCRIPTION, DESCRIPTION) in ListingDetails() && Field(CONDITION, CONDITION) in ListingDetails()
    ensures OneRowWithFields(LOCATION, [COUNTRY]) in ListingDetails()
    ensures RowsWithFields(MEDIA, [MIME_TYPE, URL]) in ListingDetails()
  {
    var params := ListingDetails();
    assert params[0] == Field(LISTING_ID, COL_LISTING_ID) && params[2] == Field(TITLE, TITLE);
    assert params[1] == Field(CONTRIBUTOR_ID, COL_CONTRIBUTOR_ID) && params[3] == Field(DESCRIPTION, DESCRIPTION);
    assert params[4] == Field(CONDITION, CONDITION) && params[5] == OneRowWithFields(LOCATION, [COUNTRY]);
    assert params[7] == RowsWithFields(MEDIA, [MIME_TYPE, URL]);
  }

  /** A listing as it is answered: its columns are cells, its address is one row, and its
      media are all the rows that have a type and a url. */
  ghost predicate IsListing(output: Output, results: seq<Rows>) {
    && CellIs(output, LISTING_ID, results, COL_LISTING_ID) && CellIs(output, TITLE, results, TITLE)
    && CellIs(output, CONTRIBUTOR_ID, results, COL_CONTRIBUTOR_ID)
    && CellIs(output, DESCRIPTION, results, DESCRIPTION) && CellIs(output, CONDITION, results, CONDITION)
    && OneRowIs(output, LOCATION, results, [COUNTRY]) && RowsIn(output, MEDIA, results, [MIME_TYPE, URL])
  }

  lemma ListingIsAnswered(a: Action, results: seq<Rows>)
    requires a.ViewListingAction? || a.ViewAccountListingAction?
    ensures IsListing(ResponseUpTo(AnswersOf(a), results, |AnswersOf(a)|), results)
  {
    ListingDeclares();
    ListingNamesAreDistinct();
    DeclaredIsListing(AnswersOf(a), results);
  }

  lemma DeclaredIsListing(params: seq<Param>, results: seq<Rows>)
    requires DistinctNames(params)
    requires Field(LISTING_ID, COL_LISTING_ID) in params && Field(TITLE, TITLE) in params
    requires Field(CONTRIBUTOR_ID, COL_CONTRIBUTOR_ID) in params
    requires Field(DESCRIPTION, DESCRIPTION) in params && Field(CONDITION, CONDITION) in params
    requires OneRowWithFields(LOCATION, [COUNTRY]) in params && RowsWithFields(MEDIA, [MIME_TYPE, URL]) in params
    ensures IsListing(ResponseUpTo(params, results, |params|), results)
  {
    forall p | p in params
      ensures ValueIs(ResponseUpTo(params, results, |params|), p, results)
    {
      DeclaredValueIs(params, results, p);
    }
  }
}
