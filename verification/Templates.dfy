/** schemas/sql-templates.js: the templates of every action. */
module Templates {
  import opened Values
  import opened Vocabulary
  import opened SqlTemplate

  /** The action types of the schema dictionaries. */
  datatype Action =
    | SearchCategoryAction | CreateAccountAction | CloseAccountAction | LoginAction | ModifyAccountAction
    | ViewAccountListingAction | SearchAccountListingAction | SearchSavedListingAction
    | CreateSavedListingAction | CloseSavedListingAction | SearchAddressAction | ViewAccountAction
    | ViewListingAction | SearchListingAction | CreateListingAction | ModifyListingAction | CloseListingAction
    | CreateConversationAction | CloseConversationAction | CreateMessageAction
    | SearchConversationAction | ViewConversationAction

  // ---------------------------------------------------------------- the callables

  /** The condition that a field was sent. */
  function Has(key: Key): Input -> Option<bool> {
    (input: Input) => Some(key in input)
  }

  /** A member of an object that was sent. */
  function Member(field: Key, key: Key): ValueCons {
    Callable((input: Input, names: seq<QueryName>) =>
               match Property(Lookup(input, field), key)
               case None => None
               case Some(v) => Some(Value(v)))
  }

  /** `v.length` */
  function Length(v: Val): Option<Val> {
    match v
    case Undef => None
    case Null => None
    case Arr(items) => Some(Num(|items|))
    case Str(s) => Some(Num(|s|))
    case _ => Some(Undef)
  }

  function UrlCount(): Input -> Times {
    (input: Input) =>
      match Length(Lookup(input, URL))
      case None => TimesThrows
      case Some(Num(n)) => Integer(n)
      case Some(_) => NotAnInteger
  }

  function UrlLength(): ValueCons {
    Callable((input: Input, names: seq<QueryName>) =>
               match Length(Lookup(input, URL))
               case None => None
               case Some(v) => Some(Value(v)))
  }

  /** The address id in the first row of the first result. */
  function FirstAddress(results: seq<Rows>): Option<Val> {
    if results == [] || results[0] == [] then None
    else if COL_ADDRESS_ID in results[0][0] then Some(results[0][0][COL_ADDRESS_ID])
    else Some(Undef)
  }

  /** The address a listing gets: the one just created, or the one given. */
  function AddressToUse(): ValueCons {
    Callable((input: Input, names: seq<QueryName>) =>
               if CREATE_ADDRESS in names then Some(Closure(FirstAddress)) else Some(Value(Lookup(input, LOCATION))))
  }

  // ---------------------------------------------------------------- shorthands

  function Always(text: Sql, values: seq<ValueCons>): QueryDef {
    QueryDef(text, None, None, Some(values))
  }

  function When(condition: Input -> Option<bool>, text: Sql, values: seq<ValueCons>): QueryDef {
    QueryDef(text, Some(condition), None, Some(values))
  }

  function PerUrl(text: Sql, values: seq<ValueCons>): QueryDef {
    QueryDef(text, Some(Has(URL)), Some(UrlCount()), Some(values))
  }

  // ---------------------------------------------------------------- the templates

  function ListCategoryTemplate(): Template {
    Template(
      map[
        GET_CATEGORIES := QueryDef(Read(SelectCategories), None, None, None)],
      [GET_CATEGORIES],
      false, false, None)
  }

  function CreateAccountTemplate(): Template {
    Template(
      map[
        CREATE_ACCOUNT := Always(InsertAccount,
                                 [FromInput(NAME), FromInput(EMAIL), FromInput(PASS_HASH), FromInput(DOB)]),
        STORE_ADDRESS := When(Has(ADDRESS), InsertAddress,
          [Member(ADDRESS, COUNTRY), Member(ADDRESS, REGION), Member(ADDRESS, POSTCODE),
          FromQuery(CREATE_ACCOUNT, COL_USER_ID)]),
        INSERT_PFP := When(Has(URL), InsertUserMedia,
                           [FromInput(MIME_TYPE), FromInput(URL), FromQuery(CREATE_ACCOUNT, COL_USER_ID)])],
      [CREATE_ACCOUNT, STORE_ADDRESS, INSERT_PFP],
      true, false, Some([STORE_ADDRESS, INSERT_PFP]))
  }

  function CloseAccountTemplate(): Template {
    Template(
      map[
        CLOSE_ACCOUNT := Always(DeleteAccount, [FromInput(ACCOUNT_ID)]),
        CLOSE_LISTINGS := Always(CloseAccountListings, [FromInput(ACCOUNT_ID)]),
        CLOSE_CONVERSATIONS := Always(CloseAccountConversations, [FromInput(ACCOUNT_ID)])],
      [CLOSE_ACCOUNT, CLOSE_LISTINGS, CLOSE_CONVERSATIONS],
      true, false, Some([CLOSE_LISTINGS, CLOSE_CONVERSATIONS]))
  }

  function LoginTemplate(): Template {
    Template(
      map[
        GET_ID := When(Has(DEVICE_TOKEN_SNAKE), Read(SelectAccountByEmail), [FromInput(EMAIL)]),
        STORE_TOKEN := When(Has(DEVICE_TOKEN_SNAKE), StorePushToken,
                            [FromInput(DEVICE_TOKEN_SNAKE), FromQuery(GET_ID, COL_USER_ID)])],
      [GET_ID, STORE_TOKEN],
      false, false, None)
  }

  function ModifyAccountTemplate(): Template {
    Template(
      map[
        CHANGE_NAME := When(Has(NAME), ChangeName, [FromInput(ACCOUNT_ID), FromInput(NAME)]),
        CHANGE_EMAIL := When(Has(EMAIL), ChangeEmail, [FromInput(ACCOUNT_ID), FromInput(EMAIL)]),
        CHANGE_PASSWORD := When(Has(PASS_HASH), ChangePassHash, [FromInput(ACCOUNT_ID), FromInput(PASS_HASH)]),
        CHANGE_DOB := When(Has(DOB), ChangeDob, [FromInput(ACCOUNT_ID), FromInput(DOB)]),
        CHANGE_PFP := When(Has(MIME_TYPE), UpsertUserMedia,
                           [FromInput(ACCOUNT_ID), FromInput(MIME_TYPE), FromInput(URL)])],
      [CHANGE_NAME, CHANGE_EMAIL, CHANGE_PASSWORD, CHANGE_DOB, CHANGE_PFP],
      true, true, None)
  }

  function ViewAccountListingTemplate(): Template {
    Template(
      map[
        GET_LISTING := Always(Read(SelectOwnListing), [FromInput(LISTING_ID), FromInput(ACCOUNT_ID)]),
        GET_LOCATION := Always(Read(SelectAddress), [FromQuery(GET_LISTING, COL_ADDRESS_ID)]),
        GET_MEDIA := Always(Read(SelectListingMedia), [FromInput(LISTING_ID)])],
      [GET_LISTING, GET_LOCATION, GET_MEDIA],
      true, false, None)
  }

  function SearchAccountListingTemplate(): Template {
    Template(
      map[
        GET_LISTING := Always(Read(SelectOwnListings),
          [FromInput(ACCOUNT_ID), FromInput(CATEGORY_ID), FromInput(MAX_RESULTS), FromInput(START_RESULTS)])],
      [GET_LISTING],
      false, false, None)
  }

  function SearchSavedListingTemplate(): Template {
    Template(
      map[
        GET_LISTING := Always(Read(SelectSavedListings),
          [FromInput(ACCOUNT_ID), FromInput(CATEGORY_ID), FromInput(REGION), FromInput(MAX_RESULTS),
           FromInput(START_RESULTS)])],
      [GET_LISTING],
      false, false, None)
  }

  function SaveListingTemplate(): Template {
    Template(
      map[
        SAVE_LISTING := Always(InsertSavedListing, [FromInput(ACCOUNT_ID), FromInput(LISTING_ID)])],
      [SAVE_LISTING],
      true, false, None)
  }

  function ForgetListingTemplate(): Template {
    Template(
      map[
        FORGET_LISTING := Always(DeleteSavedListing, [FromInput(ACCOUNT_ID), FromInput(LISTING_ID)])],
      [FORGET_LISTING],
      true, false, None)
  }

  function AddressTemplate(): Template {
    Template(
      map[
        GET_ADDRESSES := Always(Read(SelectAddresses), [FromInput(ACCOUNT_ID)])],
      [GET_ADDRESSES],
      false, false, None)
  }

  function ViewAccountTemplate(): Template {
    Template(
      map[
        GET_ACCOUNT := Always(Read(SelectAccount), [FromInput(USER_ID)]),
        GET_PICTURE := Always(Read(SelectPicture), [FromQuery(GET_ACCOUNT, COL_USER_ID)]),
        GET_LISTINGS := Always(Read(SelectAccountListings),
          [FromQuery(GET_ACCOUNT, COL_USER_ID), FromInput(MAX_RESULTS), FromInput(START_RESULTS)])],
      [GET_ACCOUNT, GET_PICTURE, GET_LISTINGS],
      true, false, None)
  }

  function ViewListingTemplate(): Template {
    Template(
      map[
        GET_LISTING := Always(Read(SelectOpenListing), [FromInput(LISTING_ID)]),
        GET_LOCATION := Always(Read(SelectAddress), [FromQuery(GET_LISTING, COL_ADDRESS_ID)]),
        GET_MEDIA := Always(Read(SelectListingMedia), [FromInput(LISTING_ID)])],
      [GET_LISTING, GET_LOCATION, GET_MEDIA],
      true, false, None)
  }

  function SearchListingTemplate(): Template {
    Template(
      map[
        GET_LISTING := Always(SearchListing,
          [FromInput(ACCOUNT_ID), FromInput(CATEGORY_ID), FromInput(REGION), FromInput(MAX_RESULTS),
           FromInput(START_RESULTS)])],
      [GET_LISTING],
      false, false, None)
  }

  function CreateListingTemplate(): Template {
    Template(
      map[
        CREATE_ADDRESS := When((input: Input) => Some(IsObjectType(Lookup(input, LOCATION))), InsertAddress,
          [Member(LOCATION, COUNTRY), Member(LOCATION, REGION), Member(LOCATION, POSTCODE), FromInput(ACCOUNT_ID)]),
        CREATE_LISTING := Always(InsertListing,
          [FromInput(ACCOUNT_ID), FromInput(TITLE), FromInput(DESCRIPTION), FromInput(CONDITION),
          AddressToUse(), FromInput(CATEGORY_ID)]),
        INSERT_MEDIA := PerUrl(InsertListingMedia,
          [FromInput(MIME_TYPE), FromInput(URL), FromInput(MEDIA_INDEX), FromQuery(CREATE_LISTING, COL_LISTING_ID)])],
      [CREATE_ADDRESS, CREATE_LISTING, INSERT_MEDIA],
      true, false, Some([CREATE_ADDRESS, INSERT_MEDIA]))
  }

  function ModifyListingTemplate(): Template {
    Template(
      map[
        CREATE_ADDRESS := When((input: Input) => Some(LOCATION in input && IsObjectType(input[LOCATION])),
                               InsertAddress,
          [Member(LOCATION, COUNTRY), Member(LOCATION, REGION), Member(LOCATION, POSTCODE), FromInput(ACCOUNT_ID)]),
        CHANGE_TITLE := When(Has(TITLE), ChangeTitle, [FromInput(ACCOUNT_ID), FromInput(LISTING_ID), FromInput(TITLE)]),
        CHANGE_DESCRIPTION := When(Has(DESCRIPTION), ChangeDescription,
                                   [FromInput(ACCOUNT_ID), FromInput(LISTING_ID), FromInput(DESCRIPTION)]),
        CHANGE_LOCATION := When(Has(LOCATION), ChangeAddress,
                                [FromInput(ACCOUNT_ID), FromInput(LISTING_ID), AddressToUse()]),
        CHANGE_CATEGORY := When(Has(CATEGORY_ID), ChangeCategory,
                                [FromInput(ACCOUNT_ID), FromInput(LISTING_ID), FromInput(CATEGORY_ID)]),
        CHANGE_CONDITION := When(Has(CONDITION), ChangeCondition,
                                 [FromInput(ACCOUNT_ID), FromInput(LISTING_ID), FromInput(CONDITION)]),
        CHANGE_MEDIA := PerUrl(UpsertListingMedia,
          [FromInput(ACCOUNT_ID), FromInput(LISTING_ID), FromInput(MIME_TYPE), FromInput(URL), FromInput(MEDIA_INDEX)]),
        DROP_EXTRA_MEDIA := When(Has(URL), DropExtraMedia,
                                 [FromInput(ACCOUNT_ID), FromInput(LISTING_ID), UrlLength()])],
      [CREATE_ADDRESS, CHANGE_TITLE, CHANGE_DESCRIPTION, CHANGE_LOCATION, CHANGE_CATEGORY, CHANGE_CONDITION,
       CHANGE_MEDIA, DROP_EXTRA_MEDIA],
      true, true, None)
  }

  function CloseListingTemplate(): Template {
    Template(
      map[
        CLOSE_LISTING := Always(CloseListing, [FromInput(ACCOUNT_ID), FromInput(LISTING_ID), FromInput(RECEIVER_ID)]),
        CLOSE_CONVERSATIONS := Always(CloseListingConversations, [FromQuery(CLOSE_LISTING, COL_LISTING_ID)])],
      [CLOSE_LISTING, CLOSE_CONVERSATIONS],
      true, false, Some([CLOSE_CONVERSATIONS]))
  }

  function CreateConversationTemplate(): Template {
    Template(
      map[
        CREATE_CONVERSATION := Always(UpsertConversation, [FromInput(ACCOUNT_ID), FromInput(LISTING_ID)])],
      [CREATE_CONVERSATION],
      true, false, None)
  }

  function CloseConversationTemplate(): Template {
    Template(
      map[
        CLOSE_CONVERSATION := Always(CloseConversation, [FromInput(ACCOUNT_ID), FromInput(CONVERSATION_ID)])],
      [CLOSE_CONVERSATION],
      true, false, None)
  }

  function CreateMessageTemplate(): Template {
    Template(
      map[
        CREATE_MESSAGE := Always(InsertMessage,
                                 [FromInput(ACCOUNT_ID), FromInput(CONVERSATION_ID), FromInput(TEXT_CONTENT)]),
        INSERT_MEDIA := When(Has(URL), InsertMessageMedia,
                             [FromInput(MIME_TYPE), FromInput(URL), FromQuery(CREATE_MESSAGE, COL_MESSAGE_ID)])],
      [CREATE_MESSAGE, INSERT_MEDIA],
      true, false, Some([INSERT_MEDIA]))
  }

  function ListConversationTemplate(): Template {
    Template(
      map[
        GET_CONVERSATIONS := Always(Read(SelectConversations),
                                    [FromInput(ACCOUNT_ID), FromInput(START_RESULTS), FromInput(MAX_RESULTS)])],
      [GET_CONVERSATIONS],
      false, false, None)
  }

  function ViewConversationTemplate(): Template {
    Template(
      map[
        GET_CONVERSATION := Always(Read(SelectConversation), [FromInput(ACCOUNT_ID), FromInput(CONVERSATION_ID)]),
        GET_MESSAGES := Always(Read(SelectMessages),
          [FromQuery(GET_CONVERSATION, CONVERSATION_ID), FromInput(START_RESULTS), FromInput(MAX_RESULTS)])],
      [GET_CONVERSATION, GET_MESSAGES],
      true, false, None)
  }

  /** `sqlTemplatesDict` */
  function TemplateOf(a: Action): Template {
    match a
    case SearchCategoryAction => ListCategoryTemplate()
    case CreateAccountAction => CreateAccountTemplate()
    case CloseAccountAction => CloseAccountTemplate()
    case LoginAction => LoginTemplate()
    case ModifyAccountAction => ModifyAccountTemplate()
    case ViewAccountListingAction => ViewAccountListingTemplate()
    case SearchAccountListingAction => SearchAccountListingTemplate()
    case SearchSavedListingAction => SearchSavedListingTemplate()
    case CreateSavedListingAction => SaveListingTemplate()
    case CloseSavedListingAction => ForgetListingTemplate()
    case SearchAddressAction => AddressTemplate()
    case ViewAccountAction => ViewAccountTemplate()
    case ViewListingAction => ViewListingTemplate()
    case SearchListingAction => SearchListingTemplate()
    case CreateListingAction => CreateListingTemplate()
    case ModifyListingAction => ModifyListingTemplate()
    case CloseListingAction => CloseListingTemplate()
    case CreateConversationAction => CreateConversationTemplate()
    case CloseConversationAction => CloseConversationTemplate()
    case CreateMessageAction => CreateMessageTemplate()
    case SearchConversationAction => ListConversationTemplate()
    case ViewConversationAction => ViewConversationTemplate()
  }

  // ---------------------------------------------------------------- their references

  /** Every reference is to the query at position m, from a query after it that does not run
      unless that one does. */
  ghost predicate RefersOnlyTo(t: Template, m: nat)
    requires m < |t.order| && t.order[m] in t.dict
  {
    var target := t.dict[t.order[m]];
    forall q, c :: q in t.dict && t.dict[q].values.Some? && c in t.dict[q].values.value && c.FromQuery? ==>
      && c.query == t.order[m]
      && (forall k :: 0 <= k <= m ==> t.order[k] != q)
      && (target.condition.None? || target.condition == t.dict[q].condition)
  }

  /** A template all of whose references are to the query at position m, which it names once
      and runs at most once. */
  ghost predicate Sound(t: Template, m: nat) {
    && m < |t.order| && (forall k :: 0 <= k < |t.order| ==> t.order[k] in t.dict)
    && (forall k :: 0 <= k < |t.order| && k != m ==> t.order[k] != t.order[m])
    && RefersOnlyTo(t, m)
    && t.dict[t.order[m]].times.None?
    && (t.drop.Some? ==> t.order[m] !in t.drop.value && forall q :: q in t.drop.value ==> q in t.order)
  }

  /** The position that every reference of a template points to. */
  function Target(a: Action): nat {
    if a.CreateListingAction? then 1 else 0
  }

  lemma ListCategorySound()
    ensures Sound(TemplateOf(SearchCategoryAction), Target(SearchCategoryAction))
  {
  }

  lemma CreateAccountRefers()
    ensures RefersOnlyTo(CreateAccountTemplate(), 0)
  {
  }

  lemma CreateAccountSound()
    ensures Sound(TemplateOf(CreateAccountAction), Target(CreateAccountAction))
  {
    CreateAccountRefers();
  }

  lemma CloseAccountRefers()
    ensures RefersOnlyTo(CloseAccountTemplate(), 0)
  {
  }

  lemma CloseAccountSound()
    ensures Sound(TemplateOf(CloseAccountAction), Target(CloseAccountAction))
  {
    CloseAccountRefers();
  }

  lemma LoginSound()
    ensures Sound(TemplateOf(LoginAction), Target(LoginAction))
  {
  }

  lemma ModifyAccountRefers()
    ensures RefersOnlyTo(ModifyAccountTemplate(), 0)
  {
  }

  lemma ModifyAccountSound()
    ensures Sound(TemplateOf(ModifyAccountAction), Target(ModifyAccountAction))
  {
    ModifyAccountRefers();
  }

  lemma ViewAccountListingRefers()
    ensures RefersOnlyTo(ViewAccountListingTemplate(), 0)
  {
  }

  lemma ViewAccountListingSound()
    ensures Sound(TemplateOf(ViewAccountListingAction), Target(ViewAccountListingAction))
  {
    ViewAccountListingRefers();
  }

  lemma SearchAccountListingSound()
    ensures Sound(TemplateOf(SearchAccountListingAction), Target(SearchAccountListingAction))
  {
  }

  lemma SearchSavedListingSound()
    ensures Sound(TemplateOf(SearchSavedListingAction), Target(SearchSavedListingAction))
  {
  }

  lemma SaveListingSound()
    ensures Sound(TemplateOf(CreateSavedListingAction), Target(CreateSavedListingAction))
  {
  }

  lemma ForgetListingSound()
    ensures Sound(TemplateOf(CloseSavedListingAction), Target(CloseSavedListingAction))
  {
  }

  lemma AddressSound()
    ensures Sound(TemplateOf(SearchAddressAction), Target(SearchAddressAction))
  {
  }

  lemma ViewAccountRefers()
    ensures RefersOnlyTo(ViewAccountTemplate(), 0)
  {
  }

  lemma ViewAccountSound()
    ensures Sound(TemplateOf(ViewAccountAction), Target(ViewAccountAction))
  {
    ViewAccountRefers();
  }

  lemma ViewListingRefers()
    ensures RefersOnlyTo(ViewListingTemplate(), 0)
  {
  }

  lemma ViewListingSound()
    ensures Sound(TemplateOf(ViewListingAction), Target(ViewListingAction))
  {
    ViewListingRefers();
  }

  lemma SearchListingSound()
    ensures Sound(TemplateOf(SearchListingAction), Target(SearchListingAction))
  {
  }

  lemma CreateListingRefers()
    ensures RefersOnlyTo(CreateListingTemplate(), 1)
  {
  }

  lemma CreateListingSound()
    ensures Sound(TemplateOf(CreateListingAction), Target(CreateListingAction))
  {
    CreateListingRefers();
  }

  lemma ModifyListingRefers()
    ensures RefersOnlyTo(ModifyListingTemplate(), 0)
  {
  }

  lemma ModifyListingSound()
    ensures Sound(TemplateOf(ModifyListingAction), Target(ModifyListingAction))
  {
    ModifyListingRefers();
  }

  lemma CloseListingSound()
    ensures Sound(TemplateOf(CloseListingAction), Target(CloseListingAction))
  {
  }

  lemma CreateConversationSound()
    ensures Sound(TemplateOf(CreateConversationAction), Target(CreateConversationAction))
  {
  }

  lemma CloseConversationSound()
    ensures Sound(TemplateOf(CloseConversationAction), Target(CloseConversationAction))
  {
  }

  lemma CreateMessageRefers()
    ensures RefersOnlyTo(CreateMessageTemplate(), 0)
  {
  }

  lemma CreateMessageSound()
    ensures Sound(TemplateOf(CreateMessageAction), Target(CreateMessageAction))
  {
    CreateMessageRefers();
  }

  lemma ListConversationSound()
    ensures Sound(TemplateOf(SearchConversationAction), Target(SearchConversationAction))
  {
  }

  lemma ViewConversationRefers()
    ensures RefersOnlyTo(ViewConversationTemplate(), 0)
  {
  }

  lemma ViewConversationSound()
    ensures Sound(TemplateOf(ViewConversationAction), Target(ViewConversationAction))
  {
    ViewConversationRefers();
  }

  predicate ListingSearches(a: Action) {
    a.SearchAccountListingAction? || a.SearchSavedListingAction? || a.SearchListingAction?
  }

  predicate Searches(a: Action) {
    ListingSearches(a) || a.SearchCategoryAction? || a.SearchAddressAction? || a.SearchConversationAction?
  }

  predicate ListingViews(a: Action) {
    a.ViewAccountListingAction? || a.ViewListingAction?
  }

  predicate Views(a: Action) {
    ListingViews(a) || a.ViewAccountAction? || a.ViewConversationAction?
  }

  predicate OnAccounts(a: Action) {
    || a.CreateAccountAction?
    || a.CloseAccountAction?
    || a.ModifyAccountAction?
    || a.LoginAction?
    || a.CreateSavedListingAction?
    || a.CloseSavedListingAction?
  }

  lemma TemplateSound(a: Action)
    ensures Sound(TemplateOf(a), Target(a))
  {
    match a {
      case SearchCategoryAction => ListCategorySound();
      case CreateAccountAction => CreateAccountSound();
      case CloseAccountAction => CloseAccountSound();
      case LoginAction => LoginSound();
      case ModifyAccountAction => ModifyAccountSound();
      case ViewAccountListingAction => ViewAccountListingSound();
      case SearchAccountListingAction => SearchAccountListingSound();
      case SearchSavedListingAction => SearchSavedListingSound();
      case CreateSavedListingAction => SaveListingSound();
      case CloseSavedListingAction => ForgetListingSound();
      case SearchAddressAction => AddressSound();
      case ViewAccountAction => ViewAccountSound();
      case ViewListingAction => ViewListingSound();
      case SearchListingAction => SearchListingSound();
      case CreateListingAction => CreateListingSound();
      case ModifyListingAction => ModifyListingSound();
      case CloseListingAction => CloseListingSound();
      case CreateConversationAction => CreateConversationSound();
      case CloseConversationAction => CloseConversationSound();
      case CreateMessageAction => CreateMessageSound();
      case SearchConversationAction => ListConversationSound();
      case ViewConversationAction => ViewConversationSound();
    }
  }

  /** Every shipped template passes the constructor. */
  lemma TemplatesAccepted(a: Action)
    ensures Accepted(TemplateOf(a))
  {
    TemplateSound(a);
    SoundIsAccepted(TemplateOf(a), Target(a));
  }

  lemma SoundIsAccepted(t: Template, m: nat)
    requires Sound(t, m)
    ensures Accepted(t)
  {
    forall k, c | 0 <= k < |t.order| && t.dict[t.order[k]].values.Some? && c in t.dict[t.order[k]].values.value
      ensures ReferencesEarlier(c, t.order, k)
    {
      if c.FromQuery? {
        assert t.order[..k][m] == c.query;
      }
    }
  }
}
