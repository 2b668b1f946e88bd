/** What single statements keep, whatever their parameters. */
module Invariants {
  import opened Values
  import opened Vocabulary
  import opened Execution
  import opened Schema
  import opened Statements

  // ---------------------------------------------------------------- state invariants

  predicate Filled(a: Account) {
    !IsNull(a.name) && !IsNull(a.email) && !IsNull(a.passhash) && !IsNull(a.dob)
  }

  ghost predicate AccountsOk(t: Tables) {
    && t.accounts.Valid()
    && (forall a :: a in t.accounts.rows ==> Filled(t.accounts.rows[a]))
    && (var rows := t.accounts.rows;
        forall a, b :: a in rows && b in rows && rows[a].email == rows[b].email ==> a == b)
  }

  ghost predicate AddressesOk(t: Tables) {
    t.addresses.Valid() && forall a :: a in t.addresses.rows ==> t.addresses.rows[a].user in t.accounts.rows
  }

  /** In particular the address of every listing belongs to its contributor. */
  ghost predicate ListingsOk(t: Tables) {
    t.listings.Valid() && forall l :: l in t.listings.rows ==> ListingViolation(t, t.listings.rows[l]).None?
  }

  ghost predicate ConversationOk(t: Tables, c: Conversation) {
    && c.receiver in t.accounts.rows
    && c.listing in t.listings.rows
    && t.listings.rows[c.listing].contributor != c.receiver
  }

  predicate SamePair(c: Conversation, d: Conversation) {
    c.receiver == d.receiver && c.listing == d.listing
  }

  /** At most one conversation per receiver and listing, never with oneself. */
  ghost predicate ConversationsOk(t: Tables) {
    && t.conversations.Valid()
    && (forall c :: c in t.conversations.rows ==> ConversationOk(t, t.conversations.rows[c]))
    && (var rows := t.conversations.rows;
        forall c, d :: c in rows && d in rows && SamePair(rows[c], rows[d]) ==> c == d)
  }

  /** Every message comes from one of the two parties of its conversation. */
  ghost predicate MessageOk(t: Tables, m: Message) {
    && m.sender in t.accounts.rows
    && m.conversation in t.conversations.rows
    && TakesPart(t, m.conversation, m.sender)
  }

  ghost predicate MessagesOk(t: Tables) {
    t.messages.Valid() && forall m :: m in t.messages.rows ==> MessageOk(t, t.messages.rows[m])
  }

  ghost predicate SavedOk(t: Tables) {
    forall p :: p in t.saved ==> p.0 in t.accounts.rows && p.1 in t.listings.rows
  }

  ghost predicate MediaOk(t: Tables) {
    && MediaKeys(t)
    && (forall u :: u in t.userMedia ==> u in t.accounts.rows)
    && (forall k :: k in t.listingMedia ==> k.0 in t.listings.rows)
    && (forall m :: m in t.messageMedia ==> m in t.messages.rows)
  }

  ghost predicate Base(t: Tables) {
    AccountsOk(t) && AddressesOk(t) && ListingsOk(t) && ConversationsOk(t) && MessagesOk(t) && SavedOk(t) && MediaOk(t)
  }

  /** Every open conversation is about an open listing. */
  ghost predicate ConversationsFollow(t: Tables) {
    forall c :: c in t.conversations.rows && t.conversations.rows[c].closed.None? ==>
      Open(t, t.conversations.rows[c].listing)
  }

  /** The media indexes of every listing are downward closed from zero. */
  ghost predicate MediaContiguous(t: Tables) {
    && (forall l, i :: (l, i) in t.listingMedia ==> i >= 0)
    && (forall l, i, j :: (l, i) in t.listingMedia && 0 <= j < i ==> (l, j) in t.listingMedia)
  }

  ghost predicate Inv(t: Tables) {
    Base(t) && ConversationsFollow(t) && MediaContiguous(t)
  }

  // ---------------------------------------------------------------- what never changes

  ghost predicate Closed(t: Tables, l: int) {
    l in t.listings.rows && t.listings.rows[l].closed.Some?
  }

  ghost predicate About(t: Tables, c: int, l: int) {
    c in t.conversations.rows && t.conversations.rows[c].listing == l
  }

  /** Closed, with every conversation about it closed. */
  ghost predicate Dormant(t: Tables, l: int) {
    Closed(t, l) && forall c :: About(t, c, l) ==> t.conversations.rows[c].closed.Some?
  }

  /** The same listing, whatever its closing date. */
  predicate SameContent(a: Listing, b: Listing) {
    a.(closed := None) == b.(closed := None)
  }

  ghost predicate SameMedia(t: Tables, t': Tables, l: int) {
    forall i :: ((l, i) in t.listingMedia <==> (l, i) in t'.listingMedia)
                && ((l, i) in t.listingMedia ==> t.listingMedia[(l, i)] == t'.listingMedia[(l, i)])
  }

  /** t' is a possible future of t, as far as accounts, addresses and listings go. */
  ghost predicate ListingsLater(t: Tables, t': Tables) {
    && t'.categories == t.categories && t.accounts.rows.Keys <= t'.accounts.rows.Keys
    && (forall a :: a in t.addresses.rows ==> a in t'.addresses.rows && t'.addresses.rows[a] == t.addresses.rows[a])
    && (forall l :: l in t.listings.rows ==>
          l in t'.listings.rows && t'.listings.rows[l].contributor == t.listings.rows[l].contributor)
    && (forall l :: Closed(t, l) ==>
          Closed(t', l) && SameContent(t.listings.rows[l], t'.listings.rows[l]) && SameMedia(t, t', l))
  }

  /** Conversations keep their id, receiver and listing, and messages stay as they are. */
  ghost predicate ConversationsLater(t: Tables, t': Tables) {
    && (forall c :: c in t.conversations.rows ==>
          && c in t'.conversations.rows
          && t'.conversations.rows[c].receiver == t.conversations.rows[c].receiver
          && t'.conversations.rows[c].listing == t.conversations.rows[c].listing)
    && (forall m :: m in t.messages.rows ==> m in t'.messages.rows && t'.messages.rows[m] == t.messages.rows[m])
  }

  /** Dormant listings stay dormant: no conversation about them is begun or reopened, and
      none of their conversations receives a message. */
  ghost predicate DormantLater(t: Tables, t': Tables) {
    forall l :: Dormant(t, l) ==>
      && Dormant(t', l)
      && (forall c :: About(t', c, l) ==> About(t, c, l))
      && (forall m :: m in t'.messages.rows && About(t', t'.messages.rows[m].conversation, l) ==> m in t.messages.rows)
  }

  ghost predicate Later(t: Tables, t': Tables) {
    ListingsLater(t, t') && ConversationsLater(t, t') && DormantLater(t, t')
  }

  lemma LaterReflexive(t: Tables)
    ensures Later(t, t)
  {
  }

  lemma LaterTransitive(t: Tables, t': Tables, t'': Tables)
    requires Later(t, t') && Later(t', t'')
    ensures Later(t, t'')
  {
    forall l | Dormant(t, l)
      ensures Dormant(t'', l)
      ensures forall c :: About(t'', c, l) ==> About(t, c, l)
      ensures forall m :: m in t''.messages.rows && About(t'', t''.messages.rows[m].conversation, l) ==>
                m in t.messages.rows
    {
      assert Dormant(t', l);
      forall m | m in t''.messages.rows && About(t'', t''.messages.rows[m].conversation, l)
        ensures m in t.messages.rows
      {
        assert m in t'.messages.rows && t''.messages.rows[m] == t'.messages.rows[m];
        assert About(t', t'.messages.rows[m].conversation, l);
      }
    }
    forall l | Closed(t, l)
      ensures Closed(t'', l) && SameContent(t.listings.rows[l], t''.listings.rows[l]) && SameMedia(t, t'', l)
    {
      assert Closed(t', l);
    }
  }

  // ---------------------------------------------------------------- table by table

  lemma AccountsChange(t: Tables, accounts: Table<Account>)
    requires Base(t)
    requires t.accounts.rows.Keys <= accounts.rows.Keys && AccountsOk(t.(accounts := accounts))
    ensures Base(t.(accounts := accounts))
    ensures Later(t, t.(accounts := accounts))
  {
    var t' := t.(accounts := accounts);
    forall l | l in t.listings.rows
      ensures ListingViolation(t', t.listings.rows[l]).None?
    {
      assert ListingViolation(t, t.listings.rows[l]).None?;
    }
    assert forall c :: c in t.conversations.rows && ConversationOk(t, t.conversations.rows[c]) ==>
             ConversationOk(t', t.conversations.rows[c]);
    forall m | m in t.messages.rows
      ensures MessageOk(t', t.messages.rows[m])
    {
      assert MessageOk(t, t.messages.rows[m]);
    }
    MediaStays(t, t');
    SameDormant(t, t');
  }

  lemma MediaStays(t: Tables, t': Tables)
    requires MediaKeys(t) && t'.userMedia == t.userMedia && t'.listingMedia == t.listingMedia
    requires t'.messageMedia == t.messageMedia
    requires t'.mediaSerial == t.mediaSerial
    ensures MediaKeys(t')
  {
    forall r | HasMedia(t', r)
      ensures HasMedia(t, r) && MediaAt(t', r) == MediaAt(t, r)
    {
    }
  }

  /** Nothing about listings, conversations, messages and listing media differs. */
  lemma SameDormant(t: Tables, t': Tables)
    requires t'.listings == t.listings && t'.conversations == t.conversations && t'.messages == t.messages
    ensures DormantLater(t, t') && ConversationsLater(t, t')
  {
    forall l, c
      ensures About(t, c, l) == About(t', c, l)
    {
    }
    forall l
      ensures Dormant(t, l) == Dormant(t', l)
    {
    }
  }

  lemma AddressesChange(t: Tables, row: Address)
    requires Base(t) && row.user in t.accounts.rows
    ensures Base(t.(addresses := t.addresses.Insert(row)))
    ensures Later(t, t.(addresses := t.addresses.Insert(row)))
  {
    var t' := t.(addresses := t.addresses.Insert(row));
    forall l | l in t.listings.rows
      ensures ListingViolation(t', t.listings.rows[l]).None?
    {
      assert ListingViolation(t, t.listings.rows[l]).None?;
    }
    forall c | c in t.conversations.rows
      ensures ConversationOk(t', t.conversations.rows[c])
    {
      assert ConversationOk(t, t.conversations.rows[c]);
    }
    forall m | m in t.messages.rows
      ensures MessageOk(t', t.messages.rows[m])
    {
      assert MessageOk(t, t.messages.rows[m]);
    }
    MediaStays(t, t');
    SameDormant(t, t');
  }

  /** Listings may be added and changed, except for their contributors and the content of
      closed ones. */
  ghost predicate ListingsMayBecome(t: Tables, listings: Table<Listing>) {
    && listings.Valid()
    && t.listings.rows.Keys <= listings.rows.Keys
    && (forall l :: l in t.listings.rows ==>
          l in listings.rows && listings.rows[l].contributor == t.listings.rows[l].contributor)
    && (forall l :: l in listings.rows ==> ListingViolation(t, listings.rows[l]).None?)
    && (forall l :: Closed(t, l) ==> listings.rows[l].closed.Some? && SameContent(t.listings.rows[l], listings.rows[l]))
  }

  lemma ListingsChange(t: Tables, listings: Table<Listing>)
    requires Base(t) && ListingsMayBecome(t, listings)
    ensures Base(t.(listings := listings))
    ensures Later(t, t.(listings := listings))
  {
    var t' := t.(listings := listings);
    forall l | l in listings.rows
      ensures ListingViolation(t', listings.rows[l]).None?
    {
      assert ListingViolation(t, listings.rows[l]).None?;
    }
    forall c | c in t.conversations.rows
      ensures ConversationOk(t', t.conversations.rows[c])
    {
      assert ConversationOk(t, t.conversations.rows[c]);
    }
    forall m | m in t.messages.rows
      ensures MessageOk(t', t.messages.rows[m])
    {
      var row := t.messages.rows[m];
      assert MessageOk(t, row);
      assert ConversationOk(t, t.conversations.rows[row.conversation]);
    }
    MediaStays(t, t');
    forall l, c
      ensures About(t, c, l) == About(t', c, l)
    {
    }
  }

  /** Conversations may be added, closed and reopened, except about dormant listings. */
  ghost predicate ConversationsMayBecome(t: Tables, conversations: Table<Conversation>) {
    && conversations.Valid()
    && (forall c :: c in t.conversations.rows ==>
          c in conversations.rows && SamePair(conversations.rows[c], t.conversations.rows[c]))
    && (forall c :: c in conversations.rows && c !in t.conversations.rows ==>
          && ConversationOk(t, conversations.rows[c])
          && (forall d :: d in conversations.rows && SamePair(conversations.rows[c], conversations.rows[d]) ==> c == d))
    && (forall c :: c in conversations.rows && Dormant(t, conversations.rows[c].listing) ==>
          c in t.conversations.rows && conversations.rows[c].closed.Some?)
  }

  lemma ConversationsChange(t: Tables, conversations: Table<Conversation>)
    requires Base(t) && ConversationsMayBecome(t, conversations)
    ensures Base(t.(conversations := conversations))
    ensures Later(t, t.(conversations := conversations))
  {
    var t' := t.(conversations := conversations);
    forall l | l in t.listings.rows
      ensures ListingViolation(t', t.listings.rows[l]).None?
    {
      assert ListingViolation(t, t.listings.rows[l]).None?;
    }
    forall c | c in conversations.rows
      ensures ConversationOk(t', conversations.rows[c])
    {
      if c in t.conversations.rows {
        assert ConversationOk(t, t.conversations.rows[c]);
      } else {
        assert ConversationOk(t, conversations.rows[c]);
      }
    }
    forall c, d | c in conversations.rows && d in conversations.rows
        && SamePair(conversations.rows[c], conversations.rows[d])
      ensures c == d
    {
      if c in t.conversations.rows && d in t.conversations.rows {
        assert SamePair(t.conversations.rows[c], t.conversations.rows[d]);
      } else if d !in t.conversations.rows {
        assert SamePair(conversations.rows[d], conversations.rows[c]);
      }
    }
    forall m | m in t.messages.rows
      ensures MessageOk(t', t.messages.rows[m])
    {
      assert MessageOk(t, t.messages.rows[m]);
    }
    MediaStays(t, t');
    forall l | Dormant(t, l)
      ensures Dormant(t', l)
      ensures forall c :: About(t', c, l) ==> About(t, c, l)
      ensures forall m :: m in t'.messages.rows && About(t', t'.messages.rows[m].conversation, l) ==>
                m in t.messages.rows
    {
      forall c | About(t', c, l)
        ensures About(t, c, l) && conversations.rows[c].closed.Some?
      {
        assert Dormant(t, conversations.rows[c].listing);
      }
    }
  }

  lemma MessagesChange(t: Tables, row: Message)
    requires Base(t) && MessageOk(t, row) && t.conversations.rows[row.conversation].closed.None?
    ensures Base(t.(messages := t.messages.Insert(row)))
    ensures Later(t, t.(messages := t.messages.Insert(row)))
  {
    var t' := t.(messages := t.messages.Insert(row));
    CoreStays(t, t');
    MediaStays(t, t');
    MessageWakesNothing(t, t', row);
  }

  lemma MessageWakesNothing(t: Tables, t': Tables, row: Message)
    requires row.conversation in t.conversations.rows && t.conversations.rows[row.conversation].closed.None?
    requires t'.listings == t.listings && t'.conversations == t.conversations
    requires t'.messages.rows == t.messages.rows[t.messages.serial := row] && t.messages.Valid()
    ensures DormantLater(t, t')
  {
    forall l, c
      ensures About(t', c, l) == About(t, c, l)
    {
    }
    forall l | Dormant(t, l)
      ensures Dormant(t', l)
      ensures forall m :: m in t'.messages.rows && About(t', t'.messages.rows[m].conversation, l) ==>
                m in t.messages.rows
    {
      assert !About(t, row.conversation, l);
    }
  }

  lemma SavedChange(t: Tables, saved: set<(int, int)>)
    requires Base(t) && SavedOk(t.(saved := saved))
    ensures Base(t.(saved := saved))
    ensures Later(t, t.(saved := saved))
  {
    OnlyMediaOrSaved(t, t.(saved := saved));
    MediaStays(t, t.(saved := saved));
  }

  /** Everything but messages, media and saved listings is the same. */
  lemma CoreStays(t: Tables, t': Tables)
    requires Base(t)
    requires t'.accounts == t.accounts && t'.addresses == t.addresses && t'.listings == t.listings
    requires t'.categories == t.categories
    requires t'.conversations == t.conversations
    ensures AccountsOk(t') && AddressesOk(t') && ListingsOk(t') && ConversationsOk(t')
    ensures forall m :: MessageOk(t, m) ==> MessageOk(t', m)
  {
    forall l | l in t.listings.rows
      ensures ListingViolation(t', t.listings.rows[l]).None?
    {
      assert ListingViolation(t, t.listings.rows[l]).None?;
    }
    forall c | c in t.conversations.rows
      ensures ConversationOk(t', t.conversations.rows[c])
    {
      assert ConversationOk(t, t.conversations.rows[c]);
    }
  }

  /** Everything but media and saved listings is the same. */
  lemma OnlyMediaOrSaved(t: Tables, t': Tables)
    requires Base(t)
    requires t'.accounts == t.accounts && t'.addresses == t.addresses && t'.listings == t.listings
    requires t'.categories == t.categories
    requires t'.conversations == t.conversations && t'.messages == t.messages
    ensures AccountsOk(t') && AddressesOk(t') && ListingsOk(t') && ConversationsOk(t') && MessagesOk(t')
    ensures ConversationsLater(t, t') && DormantLater(t, t')
  {
    CoreStays(t, t');
    SameDormant(t, t');
  }

  lemma MediaChange(t: Tables, t': Tables)
    requires Base(t) && MediaOk(t')
    requires t' == t.(userMedia := t'.userMedia, listingMedia := t'.listingMedia, messageMedia := t'.messageMedia,
                      mediaSerial := t'.mediaSerial)
    ensures Base(t')
    ensures (forall l :: Closed(t, l) ==> SameMedia(t, t', l)) ==> Later(t, t')
  {
    OnlyMediaOrSaved(t, t');
  }

  /** One media row more, under a fresh id. */
  lemma MediaInserted(t: Tables, t': Tables, r: MediaRef)
    requires MediaKeys(t) && HasMedia(t', r) && MediaAt(t', r).id == t.mediaSerial
    requires t'.mediaSerial == t.mediaSerial + 1
    requires forall s :: s != r ==>
               (HasMedia(t', s) <==> HasMedia(t, s)) && (HasMedia(t, s) ==> MediaAt(t', s) == MediaAt(t, s))
    ensures MediaKeys(t')
  {
  }

  /** One media row replaced under its own id. */
  lemma MediaReplaced(t: Tables, t': Tables, r: MediaRef)
    requires MediaKeys(t) && HasMedia(t, r) && HasMedia(t', r)
    requires MediaAt(t', r).id == MediaAt(t, r).id && t'.mediaSerial == t.mediaSerial
    requires forall s :: s != r ==>
               (HasMedia(t', s) <==> HasMedia(t, s)) && (HasMedia(t, s) ==> MediaAt(t', s) == MediaAt(t, s))
    ensures MediaKeys(t')
  {
  }

  // ---------------------------------------------------------------- statement by statement

  /** A statement that did not fail keeps the invariant and allows only legal change. */
  ghost predicate Keeps(t: Tables, effect: Effect) {
    effect.Done? ==> Base(effect.db) && Later(t, effect.db)
  }

  lemma AccountInserted(t: Tables, row: Account)
    requires Base(t) && Filled(row) && !(exists a :: a in t.accounts.rows && t.accounts.rows[a].email == row.email)
    ensures Base(t.(accounts := t.accounts.Insert(row))) && Later(t, t.(accounts := t.accounts.Insert(row)))
  {
    EmailsStayUnique(t, row);
    AccountsChange(t, t.accounts.Insert(row));
  }

  lemma EmailsStayUnique(t: Tables, row: Account)
    requires AccountsOk(t) && Filled(row)
    requires !(exists a :: a in t.accounts.rows && t.accounts.rows[a].email == row.email)
    ensures AccountsOk(t.(accounts := t.accounts.Insert(row)))
  {
  }

  lemma InsertAccountKeeps(t: Tables, name: Val, email: Val, passhash: Val, dob: Val)
    requires Base(t)
    ensures Keeps(t, InsertAccountRow(t, name, email, passhash, dob))
  {
    var effect := InsertAccountRow(t, name, email, passhash, dob);
    if effect.Done? {
      if effect.rows == [] {
        LaterReflexive(t);
      } else {
        AccountInserted(t, Account(name, email, passhash, dob, None));
      }
    }
  }

  lemma UpdateAccountKeeps(t: Tables, user: IntParam, change: AccountChange)
    requires Base(t)
    ensures Keeps(t, UpdateAccountRow(t, user, change))
  {
    var effect := UpdateAccountRow(t, user, change);
    if effect.Done? {
      if effect.rows == [] {
        LaterReflexive(t);
      } else {
        AccountUpdated(t, user.n, ChangedAccount(t.accounts.rows[user.n], change));
      }
    }
  }

  lemma AccountUpdated(t: Tables, n: int, a: Account)
    requires Base(t) && n in t.accounts.rows && Filled(a)
    requires !(exists b :: b in t.accounts.rows && b != n && t.accounts.rows[b].email == a.email)
    ensures var accounts := t.accounts.(rows := t.accounts.rows[n := a]);
            Base(t.(accounts := accounts)) && Later(t, t.(accounts := accounts))
  {
    AccountsChange(t, t.accounts.(rows := t.accounts.rows[n := a]));
  }

  lemma InsertAddressKeeps(t: Tables, country: Val, region: Val, postcode: Val, user: IntParam)
    requires Base(t)
    ensures Keeps(t, InsertAddressRow(t, country, region, postcode, user))
  {
    if user.Int? && user.n in t.accounts.rows {
      AddressesChange(t, Schema.Address(country, region, postcode, user.n));
    }
  }

  lemma InsertListingKeeps(t: Tables, user: IntParam, title: Val, description: Val, condition: Val, address: IntParam,
                           category: IntParam)
    requires Base(t)
    ensures Keeps(t, InsertListingRow(t, user, title, description, condition, address, category))
  {
    if user.Int? && address.Int? {
      var row := Listing(user.n, title, description, condition, address.n, AsColumn(category), None, None);
      if ListingViolation(t, row).None? {
        ListingsChange(t, t.listings.Insert(row));
      }
    }
  }

  lemma UpdateListingKeeps(t: Tables, user: IntParam, listing: IntParam, change: ListingChange)
    requires Base(t)
    ensures Keeps(t, UpdateListingRow(t, user, listing, change))
  {
    LaterReflexive(t);
    if user.Int? && listing.Int? && OwnOpen(t, user.n, listing.n) {
      var r := ChangedListing(t.listings.rows[listing.n], change);
      if r.Some? && ListingViolation(t, r.value).None? {
        ListingsChange(t, t.listings.(rows := t.listings.rows[listing.n := r.value]));
      }
    }
  }

  lemma CloseListingsKeeps(t: Tables, user: IntParam, now: nat)
    requires Base(t)
    ensures Keeps(t, CloseListingsOf(t, user, now))
  {
    LaterReflexive(t);
    var effect := CloseListingsOf(t, user, now);
    if user.Int? && effect.Done? {
      var listings := effect.db.listings;
      forall l | l in listings.rows
        ensures ListingViolation(t, listings.rows[l]).None?
      {
        assert ListingViolation(t, t.listings.rows[l]).None?;
      }
      ListingsChange(t, listings);
    }
  }

  lemma CloseConversationsOfKeeps(t: Tables, user: IntParam, now: nat)
    requires Base(t)
    ensures Keeps(t, CloseConversationsOf(t, user, now))
  {
    LaterReflexive(t);
    if user.Int? {
      ConversationsOnlyClose(t, CloseConversationsOf(t, user, now).db.conversations);
    }
  }

  lemma CloseConversationsAboutKeeps(t: Tables, listing: IntParam, now: nat)
    requires Base(t)
    ensures Keeps(t, CloseConversationsAbout(t, listing, now))
  {
    LaterReflexive(t);
    if listing.Int? {
      ConversationsOnlyClose(t, CloseConversationsAbout(t, listing, now).db.conversations);
    }
  }

  lemma CloseConversationKeeps(t: Tables, user: IntParam, conversation: IntParam, now: nat)
    requires Base(t)
    ensures Keeps(t, CloseConversationRow(t, user, conversation, now))
  {
    LaterReflexive(t);
    var effect := CloseConversationRow(t, user, conversation, now);
    if effect.Done? && effect.db != t {
      ConversationsOnlyClose(t, effect.db.conversations);
    }
  }

  lemma ConversationsOnlyClose(t: Tables, conversations: Table<Conversation>)
    requires Base(t)
    requires conversations.serial == t.conversations.serial && conversations.rows.Keys == t.conversations.rows.Keys
    requires forall c :: c in t.conversations.rows ==>
               || conversations.rows[c] == t.conversations.rows[c]
               || (conversations.rows[c].closed.Some? && SamePair(conversations.rows[c], t.conversations.rows[c]))
    ensures ConversationsMayBecome(t, conversations)
    ensures Base(t.(conversations := conversations))
    ensures Later(t, t.(conversations := conversations))
  {
    forall c | c in conversations.rows && Dormant(t, conversations.rows[c].listing)
      ensures conversations.rows[c].closed.Some?
    {
      assert About(t, c, conversations.rows[c].listing);
    }
    ConversationsChange(t, conversations);
  }

  /** A conversation begun or reopened about a listing that is open. */
  lemma ConversationOpened(t: Tables, conversations: Table<Conversation>, c: int, listing: int)
    requires Base(t) && conversations.Valid() && Open(t, listing)
    requires c in conversations.rows && conversations.rows == t.conversations.rows[c := conversations.rows[c]]
    requires conversations.rows[c].listing == listing && ConversationOk(t, conversations.rows[c])
    requires c in t.conversations.rows ==> SamePair(conversations.rows[c], t.conversations.rows[c])
    requires c !in t.conversations.rows ==>
               forall d :: d in t.conversations.rows ==> !SamePair(conversations.rows[c], t.conversations.rows[d])
    ensures Base(t.(conversations := conversations)) && Later(t, t.(conversations := conversations))
  {
    forall d | d in conversations.rows && Dormant(t, conversations.rows[d].listing)
      ensures d in t.conversations.rows && conversations.rows[d].closed.Some?
    {
      assert d != c && About(t, d, conversations.rows[d].listing);
    }
    ConversationsChange(t, conversations);
  }

  lemma UpsertConversationKeeps(t: Tables, user: IntParam, listing: IntParam)
    requires Base(t)
    ensures Keeps(t, UpsertConversationRow(t, user, listing))
  {
    var effect := UpsertConversationRow(t, user, listing);
    if effect.Done? {
      if effect.rows == [] {
        LaterReflexive(t);
      } else {
        var existing := ExistingConversation(t, user.n, listing.n);
        var c := if existing.Some? then existing.value else t.conversations.serial;
        if existing.Some? {
          assert ConversationOk(t, t.conversations.rows[c]);
        }
        ConversationOpened(t, effect.db.conversations, c, listing.n);
      }
    }
  }

  lemma InsertMessageKeeps(t: Tables, user: IntParam, conversation: IntParam, text: Val)
    requires Base(t)
    ensures Keeps(t, InsertMessageRow(t, user, conversation, text))
  {
    LaterReflexive(t);
    var effect := InsertMessageRow(t, user, conversation, text);
    if effect.Done? && effect.db != t {
      MessagesChange(t, Message(user.n, conversation.n, text));
    }
  }

  lemma SavedKeeps(t: Tables, user: IntParam, listing: IntParam)
    requires Base(t)
    ensures Keeps(t, InsertSavedRow(t, user, listing)) && Keeps(t, DeleteSavedRow(t, user, listing))
  {
    LaterReflexive(t);
    var inserted, deleted := InsertSavedRow(t, user, listing), DeleteSavedRow(t, user, listing);
    if inserted.Done? {
      SavedChange(t, inserted.db.saved);
    }
    if deleted.Done? {
      SavedChange(t, deleted.db.saved);
    }
  }

  lemma InsertUserMediaKeeps(t: Tables, mimetype: Val, url: Val, user: IntParam)
    requires Base(t)
    ensures Keeps(t, InsertUserMediaRow(t, mimetype, url, user))
  {
    var effect := InsertUserMediaRow(t, mimetype, url, user);
    if effect.Done? {
      MediaInserted(t, effect.db, OfUser(user.n));
      MediaChange(t, effect.db);
    }
  }

  lemma UpsertUserMediaKeeps(t: Tables, user: IntParam, mimetype: Val, url: Val)
    requires Base(t)
    ensures Keeps(t, UpsertUserMediaRow(t, user, mimetype, url))
  {
    if user.Int? && !IsNull(mimetype) && !IsNull(url) && user.n in t.userMedia {
      UserMediaReplaced(t, UpsertUserMediaRow(t, user, mimetype, url).db, user.n);
    } else {
      InsertUserMediaKeeps(t, mimetype, url, user);
    }
  }

  lemma UserMediaReplaced(t: Tables, t': Tables, u: int)
    requires Base(t) && u in t.userMedia
    requires u in t'.userMedia && t' == t.(userMedia := t.userMedia[u := t'.userMedia[u]])
    requires t'.userMedia[u].id == t.userMedia[u].id
    ensures Base(t') && Later(t, t')
  {
    MediaReplaced(t, t', OfUser(u));
    MediaChange(t, t');
  }

  lemma InsertMessageMediaKeeps(t: Tables, mimetype: Val, url: Val, message: IntParam)
    requires Base(t)
    ensures Keeps(t, InsertMessageMediaRow(t, mimetype, url, message))
  {
    var effect := InsertMessageMediaRow(t, mimetype, url, message);
    if effect.Done? {
      MediaInserted(t, effect.db, OfMessage(message.n));
      MediaChange(t, effect.db);
    }
  }

  /** The one statement that could touch the media of a closed listing. */
  lemma InsertListingMediaKeeps(t: Tables, mimetype: Val, url: Val, index: IntParam, listing: IntParam)
    requires Base(t)
    ensures var effect := InsertListingMediaRow(t, mimetype, url, index, listing);
            effect.Done? ==> Base(effect.db) && (Open(t, listing.n) ==> Later(t, effect.db))
  {
    var effect := InsertListingMediaRow(t, mimetype, url, index, listing);
    if effect.Done? {
      MediaInserted(t, effect.db, OfListing(listing.n, index.n));
      MediaChange(t, effect.db);
    }
  }

  lemma UpsertListingMediaKeeps(t: Tables, user: IntParam, listing: IntParam, mimetype: Val, url: Val, index: IntParam)
    requires Base(t)
    ensures Keeps(t, UpsertListingMediaRow(t, user, listing, mimetype, url, index))
  {
    LaterReflexive(t);
    if user.Int? && listing.Int? && OwnOpen(t, user.n, listing.n) && index.Int? {
      if !IsNull(mimetype) && !IsNull(url) && (listing.n, index.n) in t.listingMedia {
        ListingMediaReplaced(t, UpsertListingMediaRow(t, user, listing, mimetype, url, index).db, listing.n, index.n);
      } else {
        InsertListingMediaKeeps(t, mimetype, url, index, listing);
      }
    }
  }

  lemma ListingMediaReplaced(t: Tables, t': Tables, l: int, i: int)
    requires Base(t) && Open(t, l) && (l, i) in t.listingMedia
    requires (l, i) in t'.listingMedia && t' == t.(listingMedia := t.listingMedia[(l, i) := t'.listingMedia[(l, i)]])
    requires t'.listingMedia[(l, i)].id == t.listingMedia[(l, i)].id
    ensures Base(t') && Later(t, t')
  {
    MediaReplaced(t, t', OfListing(l, i));
    MediaChange(t, t');
  }

  lemma DropExtraMediaKeeps(t: Tables, user: IntParam, listing: IntParam, from: IntParam)
    requires Base(t)
    ensures Keeps(t, DropExtraMediaRows(t, user, listing, from))
  {
    LaterReflexive(t);
    var effect := DropExtraMediaRows(t, user, listing, from);
    if effect.Done? && effect.db != t {
      var t' := effect.db;
      forall r | HasMedia(t', r)
        ensures HasMedia(t, r) && MediaAt(t', r) == MediaAt(t, r)
      {
      }
      MediaChange(t, t');
    }
  }

  /** Statements about accounts, addresses, saved listings and messages. */
  predicate Personal(sql: Sql) {
    || sql.InsertAccount? || sql.InsertAddress? || sql.InsertUserMedia? || sql.UpsertUserMedia? || sql.DeleteAccount?
    || sql.ChangeName? || sql.ChangeEmail? || sql.ChangePassHash? || sql.ChangeDob? || sql.InsertSavedListing?
    || sql.DeleteSavedListing? || sql.InsertMessage? || sql.InsertMessageMedia?
  }

  lemma PersonalExecKeeps(env: Env, t: Tables, sql: Sql, ps: seq<Val>)
    requires Base(t) && Personal(sql)
    ensures Keeps(t, Exec(env, t, sql, ps))
  {
    LaterReflexive(t);
    if |ps| == Arity(sql) {
      match sql {
        case InsertAccount => InsertAccountKeeps(t, ps[0], ps[1], ps[2], ps[3]);
        case InsertAddress => InsertAddressKeeps(t, ps[0], ps[1], ps[2], AsInt(ps[3]));
        case InsertUserMedia => InsertUserMediaKeeps(t, ps[0], ps[1], AsInt(ps[2]));
        case UpsertUserMedia => UpsertUserMediaKeeps(t, AsInt(ps[0]), ps[1], ps[2]);
        case DeleteAccount => UpdateAccountKeeps(t, AsInt(ps[0]), SetDeleted(env.now));
        case ChangeName => UpdateAccountKeeps(t, AsInt(ps[0]), SetName(ps[1]));
        case ChangeEmail => UpdateAccountKeeps(t, AsInt(ps[0]), SetEmail(ps[1]));
        case ChangePassHash => UpdateAccountKeeps(t, AsInt(ps[0]), SetPassHash(ps[1]));
        case ChangeDob => UpdateAccountKeeps(t, AsInt(ps[0]), SetDob(ps[1]));
        case InsertSavedListing => SavedKeeps(t, AsInt(ps[0]), AsInt(ps[1]));
        case DeleteSavedListing => SavedKeeps(t, AsInt(ps[0]), AsInt(ps[1]));
        case InsertMessage => InsertMessageKeeps(t, AsInt(ps[0]), AsInt(ps[1]), ps[2]);
        case InsertMessageMedia => InsertMessageMediaKeeps(t, ps[0], ps[1], AsInt(ps[2]));
        case _ =>
      }
    }
  }

  lemma ListingExecKeeps(env: Env, t: Tables, sql: Sql, ps: seq<Val>)
    requires Base(t) && !Personal(sql)
    requires sql.InsertListingMedia? && |ps| == 4 && AsInt(ps[3]).Int? ==> Open(t, AsInt(ps[3]).n)
    ensures Keeps(t, Exec(env, t, sql, ps))
  {
    LaterReflexive(t);
    if |ps| == Arity(sql) {
      match sql {
        case CloseAccountListings => CloseListingsKeeps(t, AsInt(ps[0]), env.now);
        case CloseAccountConversations => CloseConversationsOfKeeps(t, AsInt(ps[0]), env.now);
        case InsertListing => InsertListingKeeps(t, AsInt(ps[0]), ps[1], ps[2], ps[3], AsInt(ps[4]), AsInt(ps[5]));
        case InsertListingMedia => InsertListingMediaKeeps(t, ps[0], ps[1], AsInt(ps[2]), AsInt(ps[3]));
        case ChangeTitle => UpdateListingKeeps(t, AsInt(ps[0]), AsInt(ps[1]), SetTitle(ps[2]));
        case ChangeDescription => UpdateListingKeeps(t, AsInt(ps[0]), AsInt(ps[1]), SetDescription(ps[2]));
        case ChangeCondition => UpdateListingKeeps(t, AsInt(ps[0]), AsInt(ps[1]), SetCondition(ps[2]));
        case ChangeAddress => UpdateListingKeeps(t, AsInt(ps[0]), AsInt(ps[1]), SetAddress(AsInt(ps[2])));
        case ChangeCategory => UpdateListingKeeps(t, AsInt(ps[0]), AsInt(ps[1]), SetCategory(AsInt(ps[2])));
        case CloseListing => UpdateListingKeeps(t, AsInt(ps[0]), AsInt(ps[1]), SetClosed(env.now, AsInt(ps[2])));
        case UpsertListingMedia => UpsertListingMediaKeeps(t, AsInt(ps[0]), AsInt(ps[1]), ps[2], ps[3], AsInt(ps[4]));
        case DropExtraMedia => DropExtraMediaKeeps(t, AsInt(ps[0]), AsInt(ps[1]), AsInt(ps[2]));
        case CloseListingConversations => CloseConversationsAboutKeeps(t, AsInt(ps[0]), env.now);
        case UpsertConversation => UpsertConversationKeeps(t, AsInt(ps[0]), AsInt(ps[1]));
        case CloseConversation => CloseConversationKeeps(t, AsInt(ps[0]), AsInt(ps[1]), env.now);
        case _ =>
      }
    }
  }

  /** Every statement, with any parameters: refused, or the invariant is kept and nothing
      changes that must not; unless it adds a media row to a listing that is not open. */
  lemma ExecKeeps(env: Env, t: Tables, sql: Sql, ps: seq<Val>)
    requires Base(t)
    requires sql.InsertListingMedia? && |ps| == 4 && AsInt(ps[3]).Int? ==> Open(t, AsInt(ps[3]).n)
    ensures Keeps(t, Exec(env, t, sql, ps))
  {
    if Personal(sql) {
      PersonalExecKeeps(env, t, sql, ps);
    } else {
      ListingExecKeeps(env, t, sql, ps);
    }
  }
}
