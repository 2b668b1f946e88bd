/** The statements of schemas/sql-templates.js as operations on the tables: each either is
    refused or yields the next tables and the returned rows. */
module Statements {
  import opened Values
  import opened Vocabulary
  import opened Execution
  import opened Database
  import opened Schema
  import opened Search

  type Effect = Reply<Tables>

  /** What the database is free to do: the time, the rows of plain reads, statements
      it refuses for reasons of its own, and failures around them. */
  datatype Env = Env(
    now: nat,
    select: (ReadStatement, Tables, seq<Val>) -> Option<Rows>,
    refuse: (nat, Tables, Sql, seq<Val>) -> Option<PgCode>,
    faults: Faults)

  function Returning(column: Key, id: int): Rows {
    [map[column := Num(id)]]
  }

  // ---------------------------------------------------------------- accounts

  ghost function InsertAccountRow(t: Tables, name: Val, email: Val, passhash: Val, dob: Val): Effect {
    if IsNull(name) || IsNull(email) || IsNull(passhash) || IsNull(dob) then Refused(NOT_NULL_VIOLATION)
    else if exists a :: a in t.accounts.rows && t.accounts.rows[a].email == email then Done(t, [])
    else Done(t.(accounts := t.accounts.Insert(Account(name, email, passhash, dob, None))),
              Returning(COL_USER_ID, t.accounts.serial))
  }

  ghost function InsertAddressRow(t: Tables, country: Val, region: Val, postcode: Val, user: IntParam): Effect {
    if user.NotInt? then Refused(INVALID_TEXT)
    else if IsNull(country) || IsNull(region) || IsNull(postcode) || user.NullInt? then Refused(NOT_NULL_VIOLATION)
    else if user.n !in t.accounts.rows then Refused(ForeignKeyViolation)
    else Done(t.(addresses := t.addresses.Insert(Schema.Address(country, region, postcode, user.n))),
              Returning(COL_ADDRESS_ID, t.addresses.serial))
  }

  /** What the statements that update one account or one open listing change. */
  datatype AccountChange =
    | SetName(v: Val)
    | SetEmail(v: Val)
    | SetPassHash(v: Val)
    | SetDob(v: Val)
    | SetDeleted(at: nat)

  datatype ListingChange =
    | SetTitle(v: Val)
    | SetDescription(v: Val)
    | SetCondition(v: Val)
    | SetAddress(id: IntParam)
    | SetCategory(id: IntParam)
    | SetClosed(at: nat, to: IntParam)

  function ChangedAccount(a: Account, change: AccountChange): Account {
    match change
    case SetName(v) => a.(name := v)
    case SetEmail(v) => a.(email := v)
    case SetPassHash(v) => a.(passhash := v)
    case SetDob(v) => a.(dob := v)
    case SetDeleted(at) => a.(deleted := Some(at))
  }

  function AsColumn(p: IntParam): Option<int> {
    if p.Int? then Some(p.n) else None
  }

  /** None when a NOT NULL column would become NULL. */
  function ChangedListing(l: Listing, change: ListingChange): Option<Listing> {
    match change
    case SetTitle(v) => if IsNull(v) then None else Some(l.(title := v))
    case SetDescription(v) => if IsNull(v) then None else Some(l.(description := v))
    case SetCondition(v) => if IsNull(v) then None else Some(l.(condition := v))
    case SetAddress(id) => if id.Int? then Some(l.(address := id.n)) else None
    case SetCategory(id) => Some(l.(category := AsColumn(id)))
    case SetClosed(at, to) => Some(l.(closed := Some(at), receiver := AsColumn(to)))
  }

  predicate Malformed(change: ListingChange) {
    || (change.SetAddress? && change.id.NotInt?)
    || (change.SetCategory? && change.id.NotInt?)
    || (change.SetClosed? && change.to.NotInt?)
  }

  /** Changes one column of an account that is not deleted, and returns its id; finding no such
      account is no error. */
  ghost function UpdateAccountRow(t: Tables, user: IntParam, change: AccountChange): Effect {
    if user.NotInt? then Refused(INVALID_TEXT)
    else if user.NullInt? || user.n !in t.accounts.rows || t.accounts.rows[user.n].deleted.Some? then Done(t, [])
    else
      var a := ChangedAccount(t.accounts.rows[user.n], change);
      if IsNull(a.name) || IsNull(a.email) || IsNull(a.passhash) || IsNull(a.dob) then Refused(NOT_NULL_VIOLATION)
      else if exists b :: b in t.accounts.rows && b != user.n && t.accounts.rows[b].email == a.email then
        Refused(UniqueViolation)
      else Done(t.(accounts := t.accounts.(rows := t.accounts.rows[user.n := a])), Returning(COL_USER_ID, user.n))
  }

  ghost function CloseListingsOf(t: Tables, user: IntParam, now: nat): Effect {
    if user.NotInt? then Refused(INVALID_TEXT)
    else if user.NullInt? then Done(t, [])
    else if exists l :: l in t.listings.rows && t.listings.rows[l].contributor == user.n
                        && !IsAddressOwnedBy(t, t.listings.rows[l].address, user.n) then Refused(OwnerAgrees)
    else
      Done(t.(listings := t.listings.(rows := map l | l in t.listings.rows ::
             if t.listings.rows[l].contributor == user.n then t.listings.rows[l].(closed := Some(now))
             else t.listings.rows[l])), [])
  }

  /** The two parties of a conversation: its receiver, and the contributor of its listing. */
  ghost predicate TakesPart(t: Tables, c: int, user: int)
    requires c in t.conversations.rows
  {
    var conversation := t.conversations.rows[c];
    || conversation.receiver == user
    || (conversation.listing in t.listings.rows && t.listings.rows[conversation.listing].contributor == user)
  }

  ghost function CloseConversationsOf(t: Tables, user: IntParam, now: nat): Effect {
    if user.NotInt? then Refused(INVALID_TEXT)
    else if user.NullInt? then Done(t, [])
    else
      Done(t.(conversations := t.conversations.(rows := map c | c in t.conversations.rows ::
             if TakesPart(t, c, user.n) then t.conversations.rows[c].(closed := Some(now))
             else t.conversations.rows[c])), [])
  }

  // ---------------------------------------------------------------- media

  ghost function InsertUserMediaRow(t: Tables, mimetype: Val, url: Val, user: IntParam): Effect {
    if user.NotInt? then Refused(INVALID_TEXT)
    else if IsNull(mimetype) || IsNull(url) then Refused(NOT_NULL_VIOLATION)
    else if user.NullInt? then Refused(CHECK_VIOLATION)
    else if user.n in t.userMedia then Refused(UniqueViolation)
    else if user.n !in t.accounts.rows then Refused(ForeignKeyViolation)
    else Done(t.(userMedia := t.userMedia[user.n := MediaItem(t.mediaSerial, mimetype, url)],
                 mediaSerial := t.mediaSerial + 1),
              Returning(COL_MEDIA_ID, t.mediaSerial))
  }

  ghost function UpsertUserMediaRow(t: Tables, user: IntParam, mimetype: Val, url: Val): Effect {
    if user.Int? && !IsNull(mimetype) && !IsNull(url) && user.n in t.userMedia then
      Done(t.(userMedia := t.userMedia[user.n := MediaItem(t.userMedia[user.n].id, mimetype, url)]),
           Returning(COL_MEDIA_ID, t.userMedia[user.n].id))
    else InsertUserMediaRow(t, mimetype, url, user)
  }

  ghost function InsertListingMediaRow(t: Tables, mimetype: Val, url: Val, index: IntParam, listing: IntParam): Effect {
    if index.NotInt? || listing.NotInt? then Refused(INVALID_TEXT)
    else if IsNull(mimetype) || IsNull(url) || index.NullInt? then Refused(NOT_NULL_VIOLATION)
    else if listing.NullInt? then Refused(CHECK_VIOLATION)
    else if (listing.n, index.n) in t.listingMedia then Refused(UniqueViolation)
    else if listing.n !in t.listings.rows then Refused(ForeignKeyViolation)
    else Done(t.(listingMedia := t.listingMedia[(listing.n, index.n) := MediaItem(t.mediaSerial, mimetype, url)],
                 mediaSerial := t.mediaSerial + 1),
              Returning(COL_MEDIA_ID, t.mediaSerial))
  }

  /** Stores one media row of an open listing of the caller, over the one that has its index
      already, if there is one; and does nothing for any other listing. */
  ghost function UpsertListingMediaRow(t: Tables, user: IntParam, listing: IntParam, mimetype: Val, url: Val,
                                       index: IntParam): Effect {
    if user.NotInt? || listing.NotInt? || index.NotInt? then Refused(INVALID_TEXT)
    else if user.NullInt? || listing.NullInt? || !OwnOpen(t, user.n, listing.n) then Done(t, [])
    else if index.Int? && !IsNull(mimetype) && !IsNull(url) && (listing.n, index.n) in t.listingMedia then
      var id := t.listingMedia[(listing.n, index.n)].id;
      Done(t.(listingMedia := t.listingMedia[(listing.n, index.n) := MediaItem(id, mimetype, url)]),
           Returning(COL_MEDIA_ID, id))
    else InsertListingMediaRow(t, mimetype, url, index, listing)
  }

  ghost function DropExtraMediaRows(t: Tables, user: IntParam, listing: IntParam, from: IntParam): Effect {
    if user.NotInt? || listing.NotInt? || from.NotInt? then Refused(INVALID_TEXT)
    else if user.NullInt? || listing.NullInt? || from.NullInt? || !OwnOpen(t, user.n, listing.n) then Done(t, [])
    else
      Done(t.(listingMedia := map k | k in t.listingMedia && !(k.0 == listing.n && k.1 >= from.n) :: t.listingMedia[k]),
           [])
  }

  ghost function InsertMessageMediaRow(t: Tables, mimetype: Val, url: Val, message: IntParam): Effect {
    if message.NotInt? then Refused(INVALID_TEXT)
    else if IsNull(mimetype) || IsNull(url) then Refused(NOT_NULL_VIOLATION)
    else if message.NullInt? then Refused(CHECK_VIOLATION)
    else if message.n in t.messageMedia then Refused(UniqueViolation)
    else if message.n !in t.messages.rows then Refused(ForeignKeyViolation)
    else Done(t.(messageMedia := t.messageMedia[message.n := MediaItem(t.mediaSerial, mimetype, url)],
                 mediaSerial := t.mediaSerial + 1),
              Returning(COL_MEDIA_ID, t.mediaSerial))
  }

  // ---------------------------------------------------------------- listings

  /** The CHECK and the foreign keys of a listing row. */
  ghost function ListingViolation(t: Tables, row: Listing): Option<PgCode> {
    if !IsAddressOwnedBy(t, row.address, row.contributor) then Some(OwnerAgrees)
    else if row.contributor !in t.accounts.rows then Some(ForeignKeyViolation)
    else if row.category.Some? && row.category.value !in t.categories then Some(ForeignKeyViolation)
    else if row.receiver.Some? && row.receiver.value !in t.accounts.rows then Some(ForeignKeyViolation)
    else None
  }

  ghost function InsertListingRow(t: Tables, user: IntParam, title: Val, description: Val, condition: Val,
                                  address: IntParam, category: IntParam): Effect {
    if user.NotInt? || address.NotInt? || category.NotInt? then Refused(INVALID_TEXT)
    else if user.NullInt? || IsNull(title) || IsNull(description) || IsNull(condition) || address.NullInt? then
      Refused(NOT_NULL_VIOLATION)
    else
      var row := Listing(user.n, title, description, condition, address.n, AsColumn(category), None, None);
      if ListingViolation(t, row).Some? then Refused(ListingViolation(t, row).value)
      else Done(t.(listings := t.listings.Insert(row)), Returning(COL_LISTING_ID, t.listings.serial))
  }

  /** Changes an open listing of the caller, and returns its id; finding none is no error. */
  ghost function UpdateListingRow(t: Tables, user: IntParam, listing: IntParam, change: ListingChange): Effect {
    if user.NotInt? || listing.NotInt? || Malformed(change) then Refused(INVALID_TEXT)
    else if user.NullInt? || listing.NullInt? || !OwnOpen(t, user.n, listing.n) then Done(t, [])
    else
      match ChangedListing(t.listings.rows[listing.n], change)
      case None => Refused(NOT_NULL_VIOLATION)
      case Some(r) =>
        if ListingViolation(t, r).Some? then Refused(ListingViolation(t, r).value)
        else Done(t.(listings := t.listings.(rows := t.listings.rows[listing.n := r])),
                  Returning(COL_LISTING_ID, listing.n))
  }

  ghost function CloseConversationsAbout(t: Tables, listing: IntParam, now: nat): Effect {
    if listing.NotInt? then Refused(INVALID_TEXT)
    else if listing.NullInt? then Done(t, [])
    else
      Done(t.(conversations := t.conversations.(rows := map c | c in t.conversations.rows ::
             if t.conversations.rows[c].listing == listing.n then t.conversations.rows[c].(closed := Some(now))
             else t.conversations.rows[c])), [])
  }

  ghost function InsertSavedRow(t: Tables, user: IntParam, listing: IntParam): Effect {
    if user.NotInt? || listing.NotInt? then Refused(INVALID_TEXT)
    else if listing.NullInt? || !Open(t, listing.n) then Done(t, [])
    else if user.NullInt? then Refused(NOT_NULL_VIOLATION)
    else if (user.n, listing.n) in t.saved then Refused(UniqueViolation)
    else if user.n !in t.accounts.rows then Refused(ForeignKeyViolation)
    else Done(t.(saved := t.saved + {(user.n, listing.n)}), Returning(COL_USER_ID, user.n))
  }

  ghost function DeleteSavedRow(t: Tables, user: IntParam, listing: IntParam): Effect {
    if user.NotInt? || listing.NotInt? then Refused(INVALID_TEXT)
    else if user.NullInt? || listing.NullInt? || (user.n, listing.n) !in t.saved then Done(t, [])
    else Done(t.(saved := t.saved - {(user.n, listing.n)}), Returning(COL_USER_ID, user.n))
  }

  // ---------------------------------------------------------------- conversations

  /** The conversation that this receiver already has about this listing, if any. */
  ghost function ExistingConversation(t: Tables, receiver: int, listing: int): (r: Option<int>)
    ensures r.Some? ==> r.value in t.conversations.rows
                        && t.conversations.rows[r.value].receiver == receiver
                        && t.conversations.rows[r.value].listing == listing
    ensures r.None? ==> forall c :: c in t.conversations.rows ==>
                          !(t.conversations.rows[c].receiver == receiver && t.conversations.rows[c].listing == listing)
  {
    if c :| c in t.conversations.rows
            && t.conversations.rows[c].receiver == receiver && t.conversations.rows[c].listing == listing
    then Some(c) else None
  }

  ghost function UpsertConversationRow(t: Tables, user: IntParam, listing: IntParam): Effect {
    if user.NotInt? || listing.NotInt? then Refused(INVALID_TEXT)
    else if user.NullInt? || listing.NullInt? || !Open(t, listing.n) then Done(t, [])
    else if t.listings.rows[listing.n].contributor == user.n then Done(t, [])
    else
      match ExistingConversation(t, user.n, listing.n)
      case Some(c) =>
        var reopened := t.conversations.rows[c].(closed := None);
        Done(t.(conversations := t.conversations.(rows := t.conversations.rows[c := reopened])),
             Returning(COL_CONVERSATION_ID, c))
      case None =>
        if user.n !in t.accounts.rows then Refused(ForeignKeyViolation)
        else Done(t.(conversations := t.conversations.Insert(Conversation(user.n, listing.n, None))),
                  Returning(COL_CONVERSATION_ID, t.conversations.serial))
  }

  ghost function CloseConversationRow(t: Tables, user: IntParam, conversation: IntParam, now: nat): Effect {
    if user.NotInt? || conversation.NotInt? then Refused(INVALID_TEXT)
    else if user.NullInt? || conversation.NullInt? || conversation.n !in t.conversations.rows
         || t.conversations.rows[conversation.n].closed.Some? || !TakesPart(t, conversation.n, user.n) then Done(t, [])
    else
      var closed := t.conversations.rows[conversation.n].(closed := Some(now));
      Done(t.(conversations := t.conversations.(rows := t.conversations.rows[conversation.n := closed])),
           Returning(COL_CONVERSATION_ID, conversation.n))
  }

  ghost function InsertMessageRow(t: Tables, user: IntParam, conversation: IntParam, text: Val): Effect {
    if user.NotInt? || conversation.NotInt? then Refused(INVALID_TEXT)
    else if user.NullInt? || conversation.NullInt? || conversation.n !in t.conversations.rows
         || t.conversations.rows[conversation.n].closed.Some?
         || t.conversations.rows[conversation.n].listing !in t.listings.rows
         || !TakesPart(t, conversation.n, user.n) then Done(t, [])
    else if IsNull(text) then Refused(NOT_NULL_VIOLATION)
    else if user.n !in t.accounts.rows then Refused(ForeignKeyViolation)
    else Done(t.(messages := t.messages.Insert(Message(user.n, conversation.n, text))),
              Returning(COL_MESSAGE_ID, t.messages.serial))
  }

  // ---------------------------------------------------------------- dispatch

  function Arity(sql: Sql): nat {
    match sql
    case InsertAccount => 4
    case InsertAddress => 4
    case InsertUserMedia => 3
    case UpsertUserMedia => 3
    case DeleteAccount => 1
    case CloseAccountListings => 1
    case CloseAccountConversations => 1
    case ChangeName => 2
    case ChangeEmail => 2
    case ChangePassHash => 2
    case ChangeDob => 2
    case StorePushToken => 2
    case InsertSavedListing => 2
    case DeleteSavedListing => 2
    case InsertListing => 6
    case InsertListingMedia => 4
    case ChangeTitle => 3
    case ChangeDescription => 3
    case ChangeAddress => 3
    case ChangeCategory => 3
    case ChangeCondition => 3
    case UpsertListingMedia => 5
    case DropExtraMedia => 3
    case CloseListing => 3
    case CloseListingConversations => 1
    case UpsertConversation => 2
    case CloseConversation => 2
    case InsertMessage => 3
    case InsertMessageMedia => 3
    case SearchListing => 5
    case Read(_) => 0
    case OtherText(_) => 0
  }

  /** One statement with its parameters. */
  ghost function Exec(env: Env, t: Tables, sql: Sql, ps: seq<Val>): Effect {
    if sql.Read? then
      var rows := env.select(sql.statement, t, ps);
      if rows.None? then Refused(SYNTAX_ERROR) else Done(t, rows.value)
    else if sql.OtherText? then Refused(SYNTAX_ERROR)
    else if |ps| != Arity(sql) then Refused(PROTOCOL_VIOLATION)
    else
      match sql
      case InsertAccount => InsertAccountRow(t, ps[0], ps[1], ps[2], ps[3])
      case InsertAddress => InsertAddressRow(t, ps[0], ps[1], ps[2], AsInt(ps[3]))
      case InsertUserMedia => InsertUserMediaRow(t, ps[0], ps[1], AsInt(ps[2]))
      case UpsertUserMedia => UpsertUserMediaRow(t, AsInt(ps[0]), ps[1], ps[2])
      case DeleteAccount => UpdateAccountRow(t, AsInt(ps[0]), SetDeleted(env.now))
      case CloseAccountListings => CloseListingsOf(t, AsInt(ps[0]), env.now)
      case CloseAccountConversations => CloseConversationsOf(t, AsInt(ps[0]), env.now)
      case ChangeName => UpdateAccountRow(t, AsInt(ps[0]), SetName(ps[1]))
      case ChangeEmail => UpdateAccountRow(t, AsInt(ps[0]), SetEmail(ps[1]))
      case ChangePassHash => UpdateAccountRow(t, AsInt(ps[0]), SetPassHash(ps[1]))
      case ChangeDob => UpdateAccountRow(t, AsInt(ps[0]), SetDob(ps[1]))
      case StorePushToken => Done(t, [])
      case InsertSavedListing => InsertSavedRow(t, AsInt(ps[0]), AsInt(ps[1]))
      case DeleteSavedListing => DeleteSavedRow(t, AsInt(ps[0]), AsInt(ps[1]))
      case InsertListing => InsertListingRow(t, AsInt(ps[0]), ps[1], ps[2], ps[3], AsInt(ps[4]), AsInt(ps[5]))
      case InsertListingMedia => InsertListingMediaRow(t, ps[0], ps[1], AsInt(ps[2]), AsInt(ps[3]))
      case ChangeTitle => UpdateListingRow(t, AsInt(ps[0]), AsInt(ps[1]), SetTitle(ps[2]))
      case ChangeDescription => UpdateListingRow(t, AsInt(ps[0]), AsInt(ps[1]), SetDescription(ps[2]))
      case ChangeCondition => UpdateListingRow(t, AsInt(ps[0]), AsInt(ps[1]), SetCondition(ps[2]))
      case ChangeAddress => UpdateListingRow(t, AsInt(ps[0]), AsInt(ps[1]), SetAddress(AsInt(ps[2])))
      case ChangeCategory => UpdateListingRow(t, AsInt(ps[0]), AsInt(ps[1]), SetCategory(AsInt(ps[2])))
      case UpsertListingMedia => UpsertListingMediaRow(t, AsInt(ps[0]), AsInt(ps[1]), ps[2], ps[3], AsInt(ps[4]))
      case DropExtraMedia => DropExtraMediaRows(t, AsInt(ps[0]), AsInt(ps[1]), AsInt(ps[2]))
      case CloseListing => UpdateListingRow(t, AsInt(ps[0]), AsInt(ps[1]), SetClosed(env.now, AsInt(ps[2])))
      case CloseListingConversations => CloseConversationsAbout(t, AsInt(ps[0]), env.now)
      case UpsertConversation => UpsertConversationRow(t, AsInt(ps[0]), AsInt(ps[1]))
      case CloseConversation => CloseConversationRow(t, AsInt(ps[0]), AsInt(ps[1]), env.now)
      case InsertMessage => InsertMessageRow(t, AsInt(ps[0]), AsInt(ps[1]), ps[2])
      case InsertMessageMedia => InsertMessageMediaRow(t, ps[0], ps[1], AsInt(ps[2]))
      case SearchListing => SearchRows(t, ps[0], ps[1], ps[2], ps[3], ps[4])
  }

  ghost function EngineOf(env: Env): Engine<Tables> {
    (n: nat, t: Tables, sql: Sql, ps: seq<Val>) =>
      if env.refuse(n, t, sql, ps).Some? then Refused(env.refuse(n, t, sql, ps).value) else Exec(env, t, sql, ps)
  }
}
