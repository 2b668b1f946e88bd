/** The two transactions that store a listing's media: create-listing inserts one row per
    upload, modify-listing upserts one row per upload and drops the rest.  Both amount to
    "these are the listing's media now". */
module Uploads {
  import opened Values
  import opened Vocabulary
  import opened SqlTemplate
  import opened PlanShape
  import opened Execution
  import opened Store
  import opened Schema
  import opened Statements
  import opened Invariants
  import opened Runs
  import opened Templates
  import opened Builds
  import opened Transactions

  /** t' is t with the first n of the uploads stored as media 0..n-1 of listing l. */
  ghost predicate Stored(t: Tables, t': Tables, l: int, input: Input, n: nat) {
    && MediaFields(input, |MediaUrls(input)|) && n <= |MediaUrls(input)|
    && t' == t.(listingMedia := t'.listingMedia, mediaSerial := t'.mediaSerial)
    && (forall k: (int, int) :: k.0 == l && 0 <= k.1 < n ==>
          k in t'.listingMedia && IsUpload(t'.listingMedia[k], input, k.1))
    && (forall k: (int, int) :: !(k.0 == l && 0 <= k.1 < n) ==>
          (k in t'.listingMedia <==> k in t.listingMedia)
          && (k in t.listingMedia ==> t'.listingMedia[k] == t.listingMedia[k]))
  }

  /** The row holds the i-th upload. */
  ghost predicate IsUpload(item: MediaItem, input: Input, i: nat)
    requires MediaFields(input, |MediaUrls(input)|) && i < |MediaUrls(input)|
  {
    item.mimetype == input[MIME_TYPE].items[i] && item.url == input[URL].items[i]
  }

  /** The media of listing l are exactly the uploads, in order. */
  ghost predicate MediaAre(t: Tables, l: int, input: Input)
    requires MediaFields(input, |MediaUrls(input)|)
  {
    forall i :: ((l, i) in t.listingMedia <==> 0 <= i < |MediaUrls(input)|)
                && ((l, i) in t.listingMedia ==> IsUpload(t.listingMedia[(l, i)], input, i))
  }

  /** The media of all other listings are the same. */
  ghost predicate OtherMediaStay(t: Tables, t': Tables, l: int) {
    forall k: (int, int) :: k.0 != l ==>
      (k in t'.listingMedia <==> k in t.listingMedia)
      && (k in t.listingMedia ==> t'.listingMedia[k] == t.listingMedia[k])
  }

  /** t' differs from t in one listing and its media at most, and in the addresses. */
  ghost predicate OnlyListing(t: Tables, t': Tables, l: int) {
    && l in t'.listings.rows && t'.listings.rows == t.listings.rows[l := t'.listings.rows[l]]
    && OtherMediaStay(t, t', l)
    && t' == t.(listings := t'.listings, addresses := t'.addresses, listingMedia := t'.listingMedia,
                mediaSerial := t'.mediaSerial)
  }

  /** t' differs from t in the media of one listing at most. */
  ghost predicate OnlyMediaOf(t: Tables, t': Tables, l: int) {
    OtherMediaStay(t, t', l) && t' == t.(listingMedia := t'.listingMedia, mediaSerial := t'.mediaSerial)
  }

  lemma OnlyListingStill(t: Tables, t': Tables, t'': Tables, l: int, input: Input, n: nat)
    requires OnlyListing(t, t', l) && Stored(t', t'', l, input, n)
    ensures OnlyListing(t, t'', l)
  {
  }

  lemma PlainArguments(ps: seq<Param>, vs: seq<Val>, results: seq<Rows>)
    requires |ps| == |vs| && forall j :: 0 <= j < |ps| ==> ps[j] == Plain(vs[j])
    ensures EvaluateAll(ps, results) == Some(vs)
  {
    assert EvaluateAll(ps, results).value == vs;
  }

  // ---------------------------------------------------------------- modify-listing

  /** The open listing of this user with this id, as the statements look for it. */
  ghost function Found(t: Tables, user: Val, listing: Val): Option<int> {
    var u, l := AsInt(user), AsInt(listing);
    if u.Int? && l.Int? && OwnOpen(t, u.n, l.n) then Some(l.n) else None
  }

  ghost predicate Changed(t: Tables, t': Tables, user: Val, listing: Val, input: Input, n: nat) {
    match Found(t, user, listing)
    case Some(l) => Stored(t, t', l, input, n)
    case None => t' == t
  }

  lemma UpsertStores(env: Env, t: Tables, t': Tables, user: Val, listing: Val, input: Input, i: nat)
    requires MediaFields(input, |MediaUrls(input)|) && i < |MediaUrls(input)|
    requires Changed(t, t', user, listing, input, i)
    ensures var effect := Exec(env, t', UpsertListingMedia,
                               [user, listing, input[MIME_TYPE].items[i], input[URL].items[i], Num(i)]);
            effect.Done? ==> Changed(t, effect.db, user, listing, input, i + 1)
  {
    var args := [user, listing, input[MIME_TYPE].items[i], input[URL].items[i], Num(i)];
    var effect := Exec(env, t', UpsertListingMedia, args);
    assert effect == UpsertListingMediaRow(t', AsInt(user), AsInt(listing), args[2], args[3], Int(i));
    if effect.Done? {
      if Found(t, user, listing).Some? {
        UpsertedRow(t', AsInt(user), AsInt(listing), args[2], args[3], i);
        OneMoreStored(t, t', effect.db, AsInt(listing).n, input, i);
      } else {
        assert effect.db == t;
      }
    }
  }

  /** An upsert on the caller's listing leaves the row with what was sent, and changes no other. */
  lemma UpsertedRow(t: Tables, user: IntParam, listing: IntParam, mimetype: Val, url: Val, i: nat)
    requires user.Int? && listing.Int? && OwnOpen(t, user.n, listing.n)
    ensures var effect := UpsertListingMediaRow(t, user, listing, mimetype, url, Int(i));
            effect.Done? ==>
              && effect.db == t.(listingMedia := effect.db.listingMedia, mediaSerial := effect.db.mediaSerial)
              && (listing.n, i as int) in effect.db.listingMedia
              && effect.db.listingMedia
                 == t.listingMedia[(listing.n, i as int) := effect.db.listingMedia[(listing.n, i as int)]]
              && effect.db.listingMedia[(listing.n, i as int)].mimetype == mimetype
              && effect.db.listingMedia[(listing.n, i as int)].url == url
  {
  }

  lemma OneMoreStored(t: Tables, t': Tables, t'': Tables, l: int, input: Input, i: nat)
    requires Stored(t, t', l, input, i) && i < |MediaUrls(input)|
    requires t'' == t'.(listingMedia := t''.listingMedia, mediaSerial := t''.mediaSerial)
    requires (l, i as int) in t''.listingMedia && IsUpload(t''.listingMedia[(l, i as int)], input, i)
    requires t''.listingMedia == t'.listingMedia[(l, i as int) := t''.listingMedia[(l, i as int)]]
    ensures Stored(t, t'', l, input, i + 1)
  {
  }

  /** The change_media statements of a plan, from place p on, for one user and one listing. */
  ghost predicate ChangesMedia(qs: seq<Query>, p: nat, user: Val, listing: Val, input: Input) {
    && MediaFields(input, |MediaUrls(input)|) && p + |MediaUrls(input)| <= |qs|
    && forall i :: 0 <= i < |MediaUrls(input)| ==> ChangesOne(qs, p, i, user, listing, input)
  }

  ghost predicate ChangesOne(qs: seq<Query>, p: nat, i: nat, user: Val, listing: Val, input: Input)
    requires MediaFields(input, |MediaUrls(input)|) && i < |MediaUrls(input)| && p + i < |qs|
  {
    && qs[p + i].text == UpsertListingMedia
    && Params(qs[p + i])
       == [Plain(user), Plain(listing), Plain(input[MIME_TYPE].items[i]), Plain(input[URL].items[i]), Plain(Num(i))]
  }

  lemma ChangeArguments(qs: seq<Query>, p: nat, i: nat, user: Val, listing: Val, input: Input, results: seq<Rows>)
    requires MediaFields(input, |MediaUrls(input)|) && i < |MediaUrls(input)| && p + i < |qs|
    requires ChangesOne(qs, p, i, user, listing, input)
    ensures EvaluateAll(Params(qs[p + i]), results)
         == Some([user, listing, input[MIME_TYPE].items[i], input[URL].items[i], Num(i)])
  {
    PlainArguments(Params(qs[p + i]), [user, listing, input[MIME_TYPE].items[i], input[URL].items[i], Num(i)], results);
  }

  lemma {:induction false} ChangeMediaRun(env: Env, qs: seq<Query>, states: seq<Tables>, results: seq<Rows>,
                                          p: nat, user: Val, listing: Val, input: Input, i: nat)
    requires Chain(env, qs, states, results)
    requires ChangesMedia(qs, p, user, listing, input) && i <= |MediaUrls(input)|
    ensures Changed(states[p], states[p + i], user, listing, input, i)
  {
    if i > 0 {
      ChangeMediaRun(env, qs, states, results, p, user, listing, input, i - 1);
      assert ChangesOne(qs, p, i - 1, user, listing, input);
      assert Link(env, qs, states, results, p + i - 1);
      ChangeArguments(qs, p, i - 1, user, listing, input, results[..p + i - 1]);
      UpsertStores(env, states[p], states[p + i - 1], user, listing, input, i - 1);
    }
  }

  lemma DropLeaves(env: Env, t: Tables, t': Tables, user: Val, listing: Val, input: Input)
    requires MediaContiguous(t) && MediaFields(input, |MediaUrls(input)|)
    requires Changed(t, t', user, listing, input, |MediaUrls(input)|)
    ensures var effect := Exec(env, t', DropExtraMedia, [user, listing, Num(|MediaUrls(input)|)]);
            effect.Done? ==>
              && MediaContiguous(effect.db)
              && match Found(t, user, listing)
                 case Some(l) => MediaAre(effect.db, l, input) && OnlyMediaOf(t, effect.db, l)
                 case None => effect.db == t
  {
    var n := |MediaUrls(input)|;
    var effect := Exec(env, t', DropExtraMedia, [user, listing, Num(n)]);
    assert effect == DropExtraMediaRows(t', AsInt(user), AsInt(listing), Int(n));
    if effect.Done? {
      if Found(t, user, listing).Some? {
        DroppedLeave(t, t', effect.db, AsInt(listing).n, input);
      } else {
        assert effect.db == t;
      }
    }
  }

  /** The uploads stored, and everything after them dropped. */
  lemma DroppedLeave(t: Tables, t': Tables, t'': Tables, l: int, input: Input)
    requires MediaContiguous(t) && Stored(t, t', l, input, |MediaUrls(input)|)
    requires t''.listingMedia
          == map k | k in t'.listingMedia && !(k.0 == l && k.1 >= |MediaUrls(input)|) :: t'.listingMedia[k]
    requires t'' == t'.(listingMedia := t''.listingMedia)
    ensures MediaContiguous(t'') && MediaAre(t'', l, input) && OnlyMediaOf(t, t'', l)
  {
  }

  // ---------------------------------------------------------------- create-listing

  lemma InsertStores(env: Env, t: Tables, t': Tables, l: int, input: Input, i: nat)
    requires Stored(t, t', l, input, i) && i < |MediaUrls(input)|
    ensures var effect := Exec(env, t', InsertListingMedia,
                               [input[MIME_TYPE].items[i], input[URL].items[i], Num(i), Num(l)]);
            effect.Done? ==> Stored(t, effect.db, l, input, i + 1)
  {
    var args := [input[MIME_TYPE].items[i], input[URL].items[i], Num(i), Num(l)];
    var effect := Exec(env, t', InsertListingMedia, args);
    assert effect == InsertListingMediaRow(t', args[0], args[1], Int(i), Int(l));
    if effect.Done? {
      InsertedMediaRow(t', args[0], args[1], l, i);
      OneMoreStored(t, t', effect.db, l, input, i);
    }
  }

  lemma InsertedMediaRow(t: Tables, mimetype: Val, url: Val, l: int, i: nat)
    ensures var effect := InsertListingMediaRow(t, mimetype, url, Int(i), Int(l));
            effect.Done? ==>
              && effect.db == t.(listingMedia := effect.db.listingMedia, mediaSerial := effect.db.mediaSerial)
              && (l, i as int) in effect.db.listingMedia
              && effect.db.listingMedia == t.listingMedia[(l, i as int) := effect.db.listingMedia[(l, i as int)]]
              && effect.db.listingMedia[(l, i as int)].mimetype == mimetype
              && effect.db.listingMedia[(l, i as int)].url == url
  {
  }

  /** The insert_media statements of a plan, from place p on, for the listing created just before. */
  ghost predicate InsertsMedia(qs: seq<Query>, p: nat, input: Input) {
    && MediaFields(input, |MediaUrls(input)|) && 0 < p && p + |MediaUrls(input)| <= |qs|
    && forall i :: 0 <= i < |MediaUrls(input)| ==> InsertsOne(qs, p, i, input)
  }

  ghost predicate InsertsOne(qs: seq<Query>, p: nat, i: nat, input: Input)
    requires MediaFields(input, |MediaUrls(input)|) && i < |MediaUrls(input)| && 0 < p && p + i < |qs|
  {
    && qs[p + i].text == InsertListingMedia
    && Params(qs[p + i])
       == [Plain(input[MIME_TYPE].items[i]), Plain(input[URL].items[i]), Plain(Num(i)), Ref(p - 1, COL_LISTING_ID)]
  }

  lemma InsertArguments(qs: seq<Query>, p: nat, l: int, input: Input, i: nat, results: seq<Rows>)
    requires MediaFields(input, |MediaUrls(input)|) && i < |MediaUrls(input)| && 0 < p <= |results| && p + i < |qs|
    requires InsertsOne(qs, p, i, input) && results[p - 1] == Returning(COL_LISTING_ID, l)
    ensures EvaluateAll(Params(qs[p + i]), results)
            == Some([input[MIME_TYPE].items[i], input[URL].items[i], Num(i), Num(l)])
  {
    assert EvaluateAll(Params(qs[p + i]), results).value
           == [input[MIME_TYPE].items[i], input[URL].items[i], Num(i), Num(l)];
  }

  lemma {:induction false} InsertMediaRun(env: Env, qs: seq<Query>, states: seq<Tables>, results: seq<Rows>,
                                          p: nat, l: int, input: Input, i: nat)
    requires Chain(env, qs, states, results)
    requires InsertsMedia(qs, p, input) && i <= |MediaUrls(input)| && results[p - 1] == Returning(COL_LISTING_ID, l)
    ensures Stored(states[p], states[p + i], l, input, i)
  {
    if i > 0 {
      InsertMediaRun(env, qs, states, results, p, l, input, i - 1);
      assert InsertsOne(qs, p, i - 1, input);
      assert Link(env, qs, states, results, p + i - 1);
      InsertArguments(qs, p, l, input, i - 1, results[..p + i - 1]);
      InsertStores(env, states[p], states[p + i - 1], l, input, i - 1);
    }
  }
}
