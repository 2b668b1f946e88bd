/** Whole requests, from what was sent to the rows that are left and the response: what a
    success has done, in terms of the token, the body, the path and the query. */
module EndToEnd {
  import opened Values
  import opened Vocabulary
  import opened SqlTemplate
  import opened Schema
  import opened Search
  import opened Statements
  import opened Invariants
  import opened Templates
  import opened Closing
  import opened Uploads
  import opened RequestSchemas
  import opened GeneralPipe
  import opened Requests
  import opened Reachability
  import opened Effects
  import opened CreateAccount
  import opened CreateListing
  import opened ModifyListing
  import opened Asked
  import opened Grants
  import opened ListingOutcomes
  import opened Outcomes
  import Response

  /** The request was answered with a 2xx status. */
  ghost predicate Succeeded(v: Visit, t: Tables, t': Tables, response: Sent) {
    Possible(v) && Served(v, t) == (t', Some(response)) && 200 <= response.status < 300
  }

  lemma SucceededIsGranted(v: Visit, t: Tables, t': Tables, response: Sent) returns (asked: Input)
    requires Succeeded(v, t, t', response)
    ensures Granted(v, t, asked, t', response) && Accepts(v, asked)
  {
    asked := SuccessIsGranted(v, t);
  }

  /** The caller is who the token says. */
  ghost predicate Caller(v: Visit, user: int) {
    SaidInt(v, ACCOUNT_ID) == Int(user) && forall n :: v.w.security == Ok(Num(n)) && n != 0 ==> user == n
  }

  lemma CallerIs(v: Visit, user: int)
    requires SaidInt(v, ACCOUNT_ID) == Int(user)
    ensures Caller(v, user)
  {
    TokenIsCaller(v);
  }

  /** What a body holds under a name. */
  function BodyField(v: Visit, key: Key): Val {
    if key in v.req.body then v.req.body[key] else Null
  }

  function Part(value: Val, key: Key): Val {
    if value.Obj? && key in value.fields then value.fields[key] else Undef
  }

  /** The items of the list of media that was sent, if any was. */
  function MediaSent(v: Visit): seq<Val> {
    if BodyField(v, MEDIA).Arr? then BodyField(v, MEDIA).items else []
  }

  /** The actions that read the body take every field but the caller from it. */
  lemma SaidIsBody(v: Visit, asked: Input, key: Key)
    requires !ReadsUrl(v.action) && key != ACCOUNT_ID
    ensures WasSentIfAny(v, asked, key) ==> (key in asked <==> key in v.req.body)
                                            && (key in asked ==> asked[key] == v.req.body[key])
    ensures Said(v, key) == Plainly(BodyField(v, key))
  {
  }

  lemma SameMediaSent(v: Visit, asked: Input)
    requires !ReadsUrl(v.action) && WasSentIfAny(v, asked, MEDIA)
    ensures Submitted(asked) == MediaSent(v)
  {
    SaidIsBody(v, asked, MEDIA);
  }

  lemma SameParts(v: Visit, asked: Input)
    requires !ReadsUrl(v.action) && WasSentIfAny(v, asked, LOCATION)
    ensures IsNewAddress(asked) <==> LOCATION in v.req.body && IsObjectType(v.req.body[LOCATION])
    ensures forall key :: BodyField(v, LOCATION).Obj? || BodyField(v, LOCATION).Arr? ==>
              PartOf(asked, key) == Part(BodyField(v, LOCATION), key)
  {
    SaidIsBody(v, asked, LOCATION);
  }

  // ---------------------------------------------------------------- create-listing

  /** The row and its address are what the body says. */
  ghost predicate ListingAsSent(t: Tables, t': Tables, row: Listing, v: Visit) {
    && Caller(v, row.contributor)
    && row.title == BodyField(v, TITLE) && row.description == BodyField(v, DESCRIPTION)
    && row.condition == BodyField(v, CONDITION)
    && row.category == AsColumn(SaidInt(v, CATEGORY_ID)) && row.closed.None? && row.receiver.None?
    && var place := BodyField(v, LOCATION);
       if IsObjectType(place) then
         && row.address == t.addresses.serial && row.address !in t.addresses.rows
         && t'.addresses == t.addresses.Insert(
              Schema.Address(Part(place, COUNTRY), Part(place, REGION), Part(place, POSTCODE), row.contributor))
       else AsInt(place) == Int(row.address) && t'.addresses == t.addresses
  }

  lemma RowIsAsSent(t: Tables, t': Tables, l: int, v: Visit, asked: Input)
    requires v.action.CreateListingAction? && ListingSent(v, asked) && RowIs(t, t', l, asked)
    requires !asked[LOCATION].Null?
    ensures l in t'.listings.rows && ListingAsSent(t, t', t'.listings.rows[l], v)
  {
    FieldIsSaid(v, asked, ACCOUNT_ID);
    FieldIsSaid(v, asked, CATEGORY_ID);
    FieldIsSaid(v, asked, TITLE);
    FieldIsSaid(v, asked, DESCRIPTION);
    FieldIsSaid(v, asked, CONDITION);
    SaidIsBody(v, asked, TITLE);
    SaidIsBody(v, asked, DESCRIPTION);
    SaidIsBody(v, asked, CONDITION);
    SaidIsBody(v, asked, LOCATION);
    SameParts(v, asked);
    CallerIs(v, t'.listings.rows[l].contributor);
  }

  lemma LocationIsNotNull(v: Visit, asked: Input)
    requires Accepts(v, asked) && LOCATION in asked
    ensures !asked[LOCATION].Null? && !asked[LOCATION].Undef?
  {
    ProcessValidates(v.action, v.w.oracle,
                     WithAccount(Gathered(PipeOf(v.action, v.w.oracle), v.req), v.w.security.value));
  }

  /** A create-listing that is answered with success has added an open listing of the caller
      that is what the body says; its i-th media row is the upload of the i-th item that was
      sent, whatever the order in which the uploads were completed; nothing else has changed;
      and the answer is 201 and its id. */
  lemma CreateListingEndToEnd(v: Visit, t: Tables, t': Tables, response: Sent) returns (l: int)
    requires v.action.CreateListingAction? && Succeeded(v, t, t', response) && Inv(t)
    ensures l !in t.listings.rows && l in t'.listings.rows && ListingAsSent(t, t', t'.listings.rows[l], v)
    ensures MediaFrom(t', l, v.w, MediaSent(v)) && OnlyListing(t, t', l)
    ensures response == Sent(201, Fields(map[SUCCESS := Num(l)]))
  {
    var asked := SucceededIsGranted(v, t, t', response);
    l := ListingGranted(v, t, asked, t', response);
    CreatedAsSent(t, t', l, v, asked);
  }

  lemma CreatedAsSent(t: Tables, t': Tables, l: int, v: Visit, asked: Input)
    requires v.action.CreateListingAction? && Accepts(v, asked) && RowIs(t, t', l, asked)
    requires MediaFrom(t', l, v.w, Submitted(asked))
    ensures l in t'.listings.rows && ListingAsSent(t, t', t'.listings.rows[l], v) && MediaFrom(t', l, v.w, MediaSent(v))
  {
    CreateListingSent(v, asked);
    LocationIsNotNull(v, asked);
    RowIsAsSent(t, t', l, v, asked);
    SameMediaSent(v, asked);
  }

  // ---------------------------------------------------------------- modify-listing, close-listing

  /** The columns that were sent are what was sent, the others are what they were. */
  ghost predicate RowAsSent(t: Tables, t': Tables, was: Listing, row: Listing, v: Visit) {
    && row.contributor == was.contributor && row.closed == was.closed && row.receiver == was.receiver
    && row.title == (if TITLE in v.req.body then Said(v, TITLE) else was.title)
    && row.description == (if DESCRIPTION in v.req.body then Said(v, DESCRIPTION) else was.description)
    && row.condition == (if CONDITION in v.req.body then Said(v, CONDITION) else was.condition)
    && row.category == (if CATEGORY_ID in v.req.body then AsColumn(SaidInt(v, CATEGORY_ID)) else was.category)
    && var place := BodyField(v, LOCATION);
       if LOCATION in v.req.body && IsObjectType(place) then
         row.address == t.addresses.serial && AddressAsSent(t, t', place, row.contributor)
       else
         && t'.addresses == t.addresses
         && if LOCATION in v.req.body then AsInt(place) == Int(row.address) else row.address == was.address
  }

  /** The address that was sent has been added, as this user's. */
  predicate AddressAsSent(t: Tables, t': Tables, place: Val, user: int) {
    t'.addresses == t.addresses.Insert(
      Schema.Address(Part(place, COUNTRY), Part(place, REGION), Part(place, POSTCODE), user))
  }

  lemma ChangesAreAsSent(t: Tables, t': Tables, l: int, v: Visit, asked: Input)
    requires v.action.ModifyListingAction? && ChangesSent(v, asked) && l in t.listings.rows && l in t'.listings.rows
    requires RowAfter(t, t', l, asked, 6) && Found(t, User(asked), ListingAsked(asked)) == Some(l)
    requires LOCATION in asked ==> !asked[LOCATION].Null?
    ensures RowAsSent(t, t', t.listings.rows[l], t'.listings.rows[l], v)
  {
    FieldIsSaid(v, asked, ACCOUNT_ID);
    FieldIsSaid(v, asked, TITLE);
    FieldIsSaid(v, asked, DESCRIPTION);
    FieldIsSaid(v, asked, CONDITION);
    FieldIsSaid(v, asked, CATEGORY_ID);
    SaidIsBody(v, asked, TITLE);
    SaidIsBody(v, asked, DESCRIPTION);
    SaidIsBody(v, asked, CONDITION);
    SaidIsBody(v, asked, CATEGORY_ID);
    SaidIsBody(v, asked, LOCATION);
    SameParts(v, asked);
  }

  /** The listing that is said is an open one of the caller. */
  ghost predicate CallersOpen(t: Tables, v: Visit, l: int) {
    && SaidInt(v, LISTING_ID) == Int(l) && l in t.listings.rows && t.listings.rows[l].closed.None?
    && Caller(v, t.listings.rows[l].contributor)
  }

  /** What modify-listing has made of it. */
  ghost predicate ListingChangedAsSent(t: Tables, t': Tables, l: int, v: Visit) {
    && l in t.listings.rows && l in t'.listings.rows
    && RowAsSent(t, t', t.listings.rows[l], t'.listings.rows[l], v) && OnlyListing(t, t', l)
    && if MediaSent(v) != [] then MediaFrom(t', l, v.w, MediaSent(v)) else t'.listingMedia == t.listingMedia
  }

  /** Nothing but that the address was added. */
  ghost predicate OnlyAddressAdded(t: Tables, t': Tables, v: Visit) {
    && LOCATION in v.req.body && IsObjectType(v.req.body[LOCATION]) && t' == t.(addresses := t'.addresses)
    && (SaidInt(v, ACCOUNT_ID).Int? ==> AddressAsSent(t, t', v.req.body[LOCATION], SaidInt(v, ACCOUNT_ID).n))
  }

  lemma ModifiedAsSent(t: Tables, t': Tables, v: Visit, asked: Input)
    requires v.action.ModifyListingAction? && Accepts(v, asked) && ModifiedIfFound(t, t', v.w, asked)
    ensures forall l :: CallersOpen(t, v, l) ==> ListingChangedAsSent(t, t', l, v)
    ensures (forall l :: !CallersOpen(t, v, l)) ==> OnlyAddressAdded(t, t', v)
  {
    ModifyListingSent(v, asked);
    FieldIsSaid(v, asked, ACCOUNT_ID);
    FieldIsSaid(v, asked, LISTING_ID);
    SameMediaSent(v, asked);
    var found := Found(t, User(asked), ListingAsked(asked));
    if LOCATION in asked {
      LocationIsNotNull(v, asked);
    }
    if found.Some? {
      CallerIs(v, t.listings.rows[found.value].contributor);
      assert CallersOpen(t, v, found.value);
      ChangesAreAsSent(t, t', found.value, v, asked);
    } else {
      SameParts(v, asked);
    }
  }

  /** A modify-listing that is answered with success has done so to the open listing of the
      caller that is said; if there is none, it has added the address that was sent and done
      nothing else.  The answer is 200 in both cases. */
  lemma ModifyListingEndToEnd(v: Visit, t: Tables, t': Tables, response: Sent)
    requires v.action.ModifyListingAction? && Succeeded(v, t, t', response) && Inv(t)
    ensures forall l :: CallersOpen(t, v, l) ==> ListingChangedAsSent(t, t', l, v)
    ensures (forall l :: !CallersOpen(t, v, l)) ==> OnlyAddressAdded(t, t', v)
    ensures response == Sent(200, Fields(SUCCESS_BODY))
  {
    var asked := SucceededIsGranted(v, t, t', response);
    ModificationGranted(v, t, asked, t', response);
    ModifiedAsSent(t, t', v, asked);
  }

  /** A close-listing that is answered with success has closed the open listing of its caller
      that is said, in favour of the receiver that is said, and every conversation about it;
      and nothing else. */
  lemma CloseListingEndToEnd(v: Visit, t: Tables, t': Tables, response: Sent) returns (l: int)
    requires v.action.CloseListingAction? && Succeeded(v, t, t', response)
    ensures CallersOpen(t, v, l) && ClosedNow(t, t', l, AsColumn(SaidInt(v, RECEIVER_ID)), v.env.now)
    ensures response == Sent(200, Fields(SUCCESS_BODY))
  {
    var asked := SucceededIsGranted(v, t, t', response);
    ListingClosingGranted(v, t, asked, t', response);
    l := ClosedAsSent(t, t', v, asked);
  }

  lemma ClosedAsSent(t: Tables, t': Tables, v: Visit, asked: Input) returns (l: int)
    requires v.action.CloseListingAction? && Accepts(v, asked)
    requires ListingIsClosed(v.env, t, t', InputValue(asked, ACCOUNT_ID, 1, 0), InputValue(asked, LISTING_ID, 1, 0),
                             InputValue(asked, RECEIVER_ID, 1, 0))
    ensures CallersOpen(t, v, l) && ClosedNow(t, t', l, AsColumn(SaidInt(v, RECEIVER_ID)), v.env.now)
  {
    CloseListingSent(v, asked);
    FieldIsSaid(v, asked, ACCOUNT_ID);
    FieldIsSaid(v, asked, LISTING_ID);
    FieldIsSaid(v, asked, RECEIVER_ID);
    l := IntOf(asked, LISTING_ID).n;
    CallerIs(v, t.listings.rows[l].contributor);
  }

  // ---------------------------------------------------------------- close-account

  /** A close-account that is answered with success: the account of the caller is deleted, all
      of its listings and all of the conversations that it has received or that are about one
      of its listings have the date of the request, and nothing else has changed. */
  lemma CloseAccountEndToEnd(v: Visit, t: Tables, t': Tables, response: Sent) returns (n: int)
    requires v.action.CloseAccountAction? && Succeeded(v, t, t', response)
    ensures Caller(v, n) && n in t.accounts.rows && t.accounts.rows[n].deleted.None?
    ensures n in t'.accounts.rows && t'.accounts.rows[n] == t.accounts.rows[n].(deleted := Some(v.env.now))
    ensures OnlyAccountDeleted(t, t', n, v.env.now) && EverythingOfClosed(t, t', n, v.env.now)
    ensures response == Sent(200, Fields(SUCCESS_BODY))
  {
    var asked := SucceededIsGranted(v, t, t', response);
    n := ClosingGranted(v, t, asked, t', response);
    ClosingColumnByColumn(t, n, v.env.now);
    CloserIsCaller(v, asked, n);
  }

  lemma CloserIsCaller(v: Visit, asked: Input, n: int)
    requires v.action.CloseAccountAction? && Accepts(v, asked) && IntOf(asked, ACCOUNT_ID) == Int(n)
    ensures Caller(v, n)
  {
    CloseAccountSent(v, asked);
    FieldIsSaid(v, asked, ACCOUNT_ID);
    CallerIs(v, n);
  }

  // ---------------------------------------------------------------- conversations and messages

  /** A create-conversation that is answered with success: the listing that is said is open and
      not the caller's, and the conversation of the caller about it is open, under the id it
      had if there was one; nothing else has changed; and the answer is 201 and that id. */
  lemma ConversationEndToEnd(v: Visit, t: Tables, t': Tables, response: Sent) returns (user: int, l: int, c: int)
    requires v.action.CreateConversationAction? && Succeeded(v, t, t', response) && Inv(t)
    ensures Caller(v, user) && SaidInt(v, LISTING_ID) == Int(l) && MayAsk(t, user, l)
    ensures forall d :: Asks(t, d, user, l) ==> d == c
    ensures t' == t.(conversations := t'.conversations)
    ensures t'.conversations.rows == t.conversations.rows[c := Conversation(user, l, None)]
    ensures c in t.conversations.rows ==> Asks(t, c, user, l)
    ensures response == Sent(201, Fields(map[SUCCESS := Num(c)]))
  {
    var asked := SucceededIsGranted(v, t, t', response);
    c := ConversationGranted(v, t, asked, t', response);
    user, l := IntOf(asked, ACCOUNT_ID).n, IntOf(asked, LISTING_ID).n;
    ListingIdsAreSaid(v, asked, user);
    OnlyOneAsks(t, user, l, c);
  }

  lemma ListingIdsAreSaid(v: Visit, asked: Input, user: int)
    requires v.action.CreateSavedListingAction? || v.action.CloseSavedListingAction?
             || v.action.CreateConversationAction?
    requires Accepts(v, asked) && IntOf(asked, ACCOUNT_ID) == Int(user)
    ensures Caller(v, user) && SaidInt(v, LISTING_ID) == IntOf(asked, LISTING_ID)
  {
    ListingIdsSent(v, asked);
    FieldIsSaid(v, asked, ACCOUNT_ID);
    FieldIsSaid(v, asked, LISTING_ID);
    CallerIs(v, user);
  }

  lemma OnlyOneAsks(t: Tables, user: int, l: int, c: int)
    requires OnlyAs(t, user, l, c)
    ensures forall d :: Asks(t, d, user, l) ==> d == c
  {
    forall d | Asks(t, d, user, l)
      ensures d == c
    {
      assert SamePair(t.conversations.rows[d], Conversation(user, l, None));
    }
  }

  /** A create-message that is answered with success: the caller has received the conversation
      that is said, which is open, or has contributed its listing, and one message of the
      caller with the text of the body has been added to it; and nothing else. */
  lemma MessageEndToEnd(v: Visit, t: Tables, t': Tables, response: Sent) returns (user: int, c: int)
    requires v.action.CreateMessageAction? && Succeeded(v, t, t', response)
    ensures Caller(v, user) && SaidInt(v, CONVERSATION_ID) == Int(c) && OpenTo(t, c, user)
    ensures t' == t.(messages := t.messages.Insert(Message(user, c, BodyField(v, TEXT_CONTENT))))
    ensures response == Sent(201, Fields(map[SUCCESS := Num(t.messages.serial)]))
  {
    var asked := SucceededIsGranted(v, t, t', response);
    MessageGranted(v, t, asked, t', response);
    user, c := IntOf(asked, ACCOUNT_ID).n, IntOf(asked, CONVERSATION_ID).n;
    MessageIsSaid(v, asked, user);
  }

  lemma MessageIsSaid(v: Visit, asked: Input, user: int)
    requires v.action.CreateMessageAction? && Accepts(v, asked) && IntOf(asked, ACCOUNT_ID) == Int(user)
    ensures Caller(v, user) && SaidInt(v, CONVERSATION_ID) == IntOf(asked, CONVERSATION_ID)
    ensures InputValue(asked, TEXT_CONTENT, 1, 0) == BodyField(v, TEXT_CONTENT)
    ensures NonEmptyString(BodyField(v, TEXT_CONTENT))
  {
    CreateMessageSent(v, asked);
    FieldIsSaid(v, asked, ACCOUNT_ID);
    FieldIsSaid(v, asked, CONVERSATION_ID);
    SaidIsBody(v, asked, TEXT_CONTENT);
    CallerIs(v, user);
  }

  lemma CloseConversationAnswers(o: Oracle)
    ensures PipeOf(CloseConversationAction, o).answers == []
    ensures Response.StatusOf(PipeOf(CloseConversationAction, o).statuses, None) == 200
  {
  }

  /** A close-conversation that is answered with success: the caller has received the
      conversation that is said, which was open, or has contributed its listing, and now it is
      closed; and nothing else has changed. */
  lemma CloseConversationEndToEnd(v: Visit, t: Tables, t': Tables, response: Sent) returns (user: int, c: int)
    requires v.action.CloseConversationAction? && Succeeded(v, t, t', response)
    ensures Caller(v, user) && SaidInt(v, CONVERSATION_ID) == Int(c) && OpenTo(t, c, user)
    ensures t' == t.(conversations := t'.conversations)
    ensures t'.conversations.rows == t.conversations.rows[c := t.conversations.rows[c].(closed := Some(v.env.now))]
    ensures response == Sent(200, Fields(SUCCESS_BODY))
  {
    var asked := SucceededIsGranted(v, t, t', response);
    var input, results := GrantedInside(v, t, asked, t', response);
    SameField(v.w, asked, input, ACCOUNT_ID);
    SameField(v.w, asked, input, CONVERSATION_ID);
    ConversationClosed(v.env, input, t, t', results);
    user, c := IntOf(asked, ACCOUNT_ID).n, IntOf(asked, CONVERSATION_ID).n;
    ConversationIsSaid(v, asked, user);
    CloseConversationAnswers(v.w.oracle);
    SuccessIsAnswered(PipeOf(CloseConversationAction, v.w.oracle), results, 200);
  }

  lemma ConversationIsSaid(v: Visit, asked: Input, user: int)
    requires v.action.CloseConversationAction? && Accepts(v, asked) && IntOf(asked, ACCOUNT_ID) == Int(user)
    ensures Caller(v, user) && SaidInt(v, CONVERSATION_ID) == IntOf(asked, CONVERSATION_ID)
  {
    CloseConversationSent(v, asked);
    FieldIsSaid(v, asked, ACCOUNT_ID);
    FieldIsSaid(v, asked, CONVERSATION_ID);
    CallerIs(v, user);
  }

  // ---------------------------------------------------------------- create-account

  /** The column is what the sanitiser makes of the field. */
  predicate SanitisedFrom(column: Val, sanitised: Option<Val>) {
    sanitised.Some? && column == Plainly(sanitised.value)
  }

  /** The new account is what the body says, with the password hashed. */
  ghost predicate AccountAsSent(row: Account, v: Visit) {
    && row.name == Said(v, NAME) && row.email == Said(v, EMAIL) && row.deleted.None?
    && SanitisedFrom(row.passhash, v.w.oracle.hash(BodyField(v, PASSWORD)))
    && SanitisedFrom(row.dob, v.w.oracle.day(BodyField(v, DOB)))
  }

  /** The address and the picture that came along are attached to it. */
  ghost predicate ExtrasAsSent(t: Tables, t': Tables, n: int, v: Visit) {
    && (if ADDRESS in v.req.body then AddressAsSent(t, t', BodyField(v, ADDRESS), n) else t'.addresses == t.addresses)
    && (if PICTURE in v.req.body then
          n in t'.userMedia && t'.userMedia == t.userMedia[n := t'.userMedia[n]]
          && MediaItemFrom(t'.userMedia[n], v.w, 0, BodyField(v, PICTURE))
        else t'.userMedia == t.userMedia)
  }

  lemma NewAccountIsAsSent(v: Visit, asked: Input)
    requires v.action.CreateAccountAction? && AccountSent(v, asked)
    ensures AccountAsSent(NewAccount(asked), v)
  {
    FieldIsSaid(v, asked, NAME);
    FieldIsSaid(v, asked, EMAIL);
  }

  lemma ExtrasAreAsSent(t: Tables, t': Tables, v: Visit, asked: Input)
    requires v.action.CreateAccountAction? && AccountSent(v, asked) && AccountAsAsked(t, t', v.w, asked)
    requires ADDRESS in asked ==> !asked[ADDRESS].Null? && !asked[ADDRESS].Undef?
    ensures ExtrasAsSent(t, t', t.accounts.serial, v)
  {
    SaidIsBody(v, asked, ADDRESS);
    assert PICTURE in v.req.body ==> Submitted(asked) == [BodyField(v, PICTURE)];
  }

  lemma AddedAsSent(t: Tables, t': Tables, v: Visit, asked: Input)
    requires v.action.CreateAccountAction? && Accepts(v, asked) && AccountAsAsked(t, t', v.w, asked)
    ensures AccountAsSent(NewAccount(asked), v) && ExtrasAsSent(t, t', t.accounts.serial, v)
  {
    CreateAccountSent(v, asked);
    ProcessValidates(v.action, v.w.oracle,
                     WithAccount(Gathered(PipeOf(v.action, v.w.oracle), v.req), v.w.security.value));
    NewAccountIsAsSent(v, asked);
    ExtrasAreAsSent(t, t', v, asked);
  }

  /** A create-account that is answered with success has added the account that the body says
      under a new id, with the address and the picture that came along; nothing else has
      changed; and the answer is 201. */
  lemma CreateAccountEndToEnd(v: Visit, t: Tables, t': Tables, response: Sent) returns (row: Account)
    requires v.action.CreateAccountAction? && Succeeded(v, t, t', response)
    ensures t'.accounts == t.accounts.Insert(row) && AccountAsSent(row, v)
    ensures ExtrasAsSent(t, t', t.accounts.serial, v)
    ensures t' == t.(accounts := t'.accounts, addresses := t'.addresses, userMedia := t'.userMedia,
                     mediaSerial := t'.mediaSerial)
    ensures response == Sent(201, Fields(SUCCESS_BODY))
  {
    var asked := SucceededIsGranted(v, t, t', response);
    AccountGranted(v, t, asked, t', response);
    AddedAsSent(t, t', v, asked);
    row := NewAccount(asked);
  }

  // ---------------------------------------------------------------- search-listing

  /** The page of this length, from this row on, of the open listings that match what is said. */
  ghost predicate IsPageSaid(t: Tables, v: Visit, page: Rows) {
    var limit, offset := SaidInt(v, MAX_RESULTS), SaidInt(v, START_RESULTS);
    && !SaidInt(v, ACCOUNT_ID).NotInt? && !SaidInt(v, CATEGORY_ID).NotInt?
    && (limit.Int? ==> limit.n >= 0) && (offset.Int? ==> offset.n >= 0)
    && page == Page(Results(t, SaidInt(v, ACCOUNT_ID), SaidInt(v, CATEGORY_ID), Said(v, REGION)), limit, offset)
  }

  lemma SearchIsSaid(t: Tables, v: Visit, asked: Input, page: Rows)
    requires v.action.SearchListingAction? && Accepts(v, asked) && IsPage(t, asked, page)
    ensures IsPageSaid(t, v, page)
  {
    SearchListingSent(v, asked);
    FieldIsSaid(v, asked, ACCOUNT_ID);
    FieldIsSaid(v, asked, CATEGORY_ID);
    FieldIsSaid(v, asked, MAX_RESULTS);
    FieldIsSaid(v, asked, START_RESULTS);
    FieldIsSaid(v, asked, REGION);
  }

  /** A search-listing that is answered with success has changed nothing, and answers 200 with
      the page that is said of the open listings that match what is said. */
  lemma SearchEndToEnd(v: Visit, t: Tables, t': Tables, response: Sent) returns (page: Rows)
    requires v.action.SearchListingAction? && Succeeded(v, t, t', response)
    ensures t' == t && response == Sent(200, Fields(ListingsBody(page))) && IsPageSaid(t, v, page)
  {
    var asked := SucceededIsGranted(v, t, t', response);
    page := SearchGranted(v, t, asked, t', response);
    SearchIsSaid(t, v, asked, page);
  }
}
