/** create-listing from the request to the rows: the listing it adds, the address it uses,
    and the media that belong to it. */
module CreateListing {
  import opened Values
  import opened Vocabulary
  import opened SqlTemplate
  import opened PlanShape
  import opened Execution
  import opened Database
  import opened Store
  import opened Schema
  import opened Statements
  import opened Invariants
  import opened Runs
  import opened Templates
  import opened Builds
  import opened Transactions
  import opened Uploads
  import opened Listings
  import opened RequestSchemas
  import opened GeneralPipe
  import opened Requests
  import Media = MediaHandle
  import opened Reachability
  import opened Effects
  import opened HardCodedIndex

  // ---------------------------------------------------------------- the plan

  /** The location is an address to create, not the id of one. */
  predicate IsNewAddress(input: Input) {
    IsObjectType(Lookup(input, LOCATION))
  }

  /** A part of the location, as the callables read it. */
  function PartOf(input: Input, key: Key): Val {
    var part := Property(Lookup(input, LOCATION), key);
    if part.Some? then part.value else Undef
  }

  ghost predicate CreatesAddress(q: Query, input: Input) {
    && q.text == InsertAddress
    && Params(q) == [Plain(PartOf(input, COUNTRY)), Plain(PartOf(input, REGION)), Plain(PartOf(input, POSTCODE)),
                     Plain(InputValue(input, ACCOUNT_ID, 1, 0))]
  }

  ghost predicate Creates(q: Query, input: Input) {
    && q.text == InsertListing
    && Params(q) == [Plain(InputValue(input, ACCOUNT_ID, 1, 0)), Plain(InputValue(input, TITLE, 1, 0)),
                     Plain(InputValue(input, DESCRIPTION, 1, 0)), Plain(InputValue(input, CONDITION, 1, 0)),
                     if IsNewAddress(input) then Deferred(FirstAddress) else Plain(Lookup(input, LOCATION)),
                     Plain(InputValue(input, CATEGORY_ID, 1, 0))]
  }

  lemma CreateAddressEntry(input: Input)
    requires Usable(input) && Defined(CreateListingTemplate())
    requires PlanOf(CreateListingTemplate(), input).Ok? && IsNewAddress(input)
    ensures |PlanOf(CreateListingTemplate(), input).value.queries| > 0
    ensures CreatesAddress(PlanOf(CreateListingTemplate(), input).value.queries[0], input)
  {
    var t := CreateListingTemplate();
    assert Copies(t, input, 0) == 1;
    ParameterMatrix(t, input, 0, 0);
    var plan := PlanOf(t, input).value;
    var ps, cs := Params(plan.queries[0]), t.dict[t.order[0]].values.value;
    assert CompiledTo(t, input, 0, 0, plan.names, cs[0], ps[0]);
    assert CompiledTo(t, input, 0, 0, plan.names, cs[1], ps[1]);
    assert CompiledTo(t, input, 0, 0, plan.names, cs[2], ps[2]);
    assert CompiledTo(t, input, 0, 0, plan.names, cs[3], ps[3]);
  }

  lemma CreateListingPlace(input: Input)
    requires Usable(input) && Defined(CreateListingTemplate()) && PlanOf(CreateListingTemplate(), input).Ok?
    ensures var t, plan := CreateListingTemplate(), PlanOf(CreateListingTemplate(), input).value;
            var at := if IsNewAddress(input) then 1 else 0;
            && |t.order| == 3 && Copies(t, input, 1) == 1 && Offset(t, input, 1) == at && at <= |plan.names|
            && (CREATE_ADDRESS in plan.names[..at] <==> IsNewAddress(input))
  {
    var t, at := CreateListingTemplate(), if IsNewAddress(input) then 1 else 0;
    CreateListingCopies(input);
    PlanLength(t, input);
    assert Copies(t, input, 0) == at;
    if IsNewAddress(input) {
      ParameterMatrix(t, input, 0, 0);
    }
  }

  /** What create_listing consists of. */
  lemma CreateListingQuery()
    ensures |CreateListingTemplate().order| == 3 && CreateListingTemplate().order[1] in CreateListingTemplate().dict
    ensures var d := CreateListingTemplate().dict[CreateListingTemplate().order[1]];
            d.text == InsertListing &&
            d.values == Some([FromInput(ACCOUNT_ID), FromInput(TITLE), FromInput(DESCRIPTION), FromInput(CONDITION),
                              AddressToUse(), FromInput(CATEGORY_ID)])
  {
  }

  lemma CreateListingEntry(input: Input)
    requires Usable(input) && Defined(CreateListingTemplate()) && PlanOf(CreateListingTemplate(), input).Ok?
    ensures var at := if IsNewAddress(input) then 1 else 0;
            at < |PlanOf(CreateListingTemplate(), input).value.queries|
            && Creates(PlanOf(CreateListingTemplate(), input).value.queries[at], input)
  {
    CreateListingPlace(input);
    CreateListingQuery();
    InsertEntry(CreateListingTemplate(), input);
  }

  lemma InsertEntry(t: Template, input: Input)
    requires Defined(t) && PlanOf(t, input).Ok? && |t.order| == 3 && Copies(t, input, 1) == 1
    requires Offset(t, input, 1) == (if IsNewAddress(input) then 1 else 0)
    requires Offset(t, input, 1) <= |PlanOf(t, input).value.names|
    requires CREATE_ADDRESS in PlanOf(t, input).value.names[..Offset(t, input, 1)] <==> IsNewAddress(input)
    requires t.dict[t.order[1]].text == InsertListing
    requires t.dict[t.order[1]].values ==
               Some([FromInput(ACCOUNT_ID), FromInput(TITLE), FromInput(DESCRIPTION), FromInput(CONDITION),
                     AddressToUse(), FromInput(CATEGORY_ID)])
    ensures var at := if IsNewAddress(input) then 1 else 0;
            at < |PlanOf(t, input).value.queries| && Creates(PlanOf(t, input).value.queries[at], input)
  {
    CopyText(t, input, 1, 0);
    FieldParameter(t, input, 1, 0, 0, ACCOUNT_ID);
    FieldParameter(t, input, 1, 0, 1, TITLE);
    FieldParameter(t, input, 1, 0, 2, DESCRIPTION);
    FieldParameter(t, input, 1, 0, 3, CONDITION);
    AddressParameter(t, input);
    FieldParameter(t, input, 1, 0, 5, CATEGORY_ID);
  }

  lemma AddressParameter(t: Template, input: Input)
    requires Defined(t) && PlanOf(t, input).Ok? && |t.order| > 1 && Copies(t, input, 1) == 1
    requires Offset(t, input, 1) <= |PlanOf(t, input).value.names|
    requires CREATE_ADDRESS in PlanOf(t, input).value.names[..Offset(t, input, 1)] <==> IsNewAddress(input)
    requires t.dict[t.order[1]].values.Some? && |t.dict[t.order[1]].values.value| > 4
    requires t.dict[t.order[1]].values.value[4] == AddressToUse()
    ensures var at := Offset(t, input, 1);
            at < |PlanOf(t, input).value.queries| && |Params(PlanOf(t, input).value.queries[at])| > 4
            && Params(PlanOf(t, input).value.queries[at])[4]
               == if IsNewAddress(input) then Deferred(FirstAddress) else Plain(Lookup(input, LOCATION))
  {
    ParameterMatrix(t, input, 1, 0);
    var plan := PlanOf(t, input).value;
    var ps, cs := Params(plan.queries[Offset(t, input, 1)]), t.dict[t.order[1]].values.value;
    assert CompiledTo(t, input, 1, 0, plan.names, cs[4], ps[4]);
  }

  // ---------------------------------------------------------------- the row

  /** The row holds what the input says, and its address is the one given, or a new one with
      the parts given. */
  ghost predicate RowIs(t: Tables, t': Tables, l: int, input: Input) {
    && l in t'.listings.rows
    && var row := t'.listings.rows[l];
       && AsInt(InputValue(input, ACCOUNT_ID, 1, 0)) == Int(row.contributor)
       && row.title == InputValue(input, TITLE, 1, 0)
       && row.description == InputValue(input, DESCRIPTION, 1, 0)
       && row.condition == InputValue(input, CONDITION, 1, 0)
       && row.category == AsColumn(AsInt(InputValue(input, CATEGORY_ID, 1, 0)))
       && row.closed.None? && row.receiver.None?
       && if IsNewAddress(input) then
            && row.address == t.addresses.serial && row.address !in t.addresses.rows
            && t'.addresses == t.addresses.Insert(
                 Schema.Address(PartOf(input, COUNTRY), PartOf(input, REGION), PartOf(input, POSTCODE),
                                row.contributor))
          else AsInt(Lookup(input, LOCATION)) == Int(row.address) && t'.addresses == t.addresses
  }

  lemma InsertedRow(t: Tables, user: IntParam, title: Val, description: Val, condition: Val, address: IntParam,
                    category: IntParam)
    requires InsertListingRow(t, user, title, description, condition, address, category).Done?
    ensures user.Int? && address.Int?
    ensures var t' := InsertListingRow(t, user, title, description, condition, address, category).db;
            t' == t.(listings := t.listings.Insert(Listing(user.n, title, description, condition, address.n,
                                                           AsColumn(category), None, None)))
  {
  }

  lemma RowInserted(env: Env, t: Tables, address: Val, input: Input, t': Tables, rows: Rows)
    requires Exec(env, t, InsertListing,
                  [InputValue(input, ACCOUNT_ID, 1, 0), InputValue(input, TITLE, 1, 0),
                   InputValue(input, DESCRIPTION, 1, 0),
                   InputValue(input, CONDITION, 1, 0), address, InputValue(input, CATEGORY_ID, 1, 0)]) == Done(t', rows)
    ensures AsInt(InputValue(input, ACCOUNT_ID, 1, 0)).Int? && AsInt(address).Int?
    ensures t' == t.(listings := t.listings.Insert(
              Listing(AsInt(InputValue(input, ACCOUNT_ID, 1, 0)).n, InputValue(input, TITLE, 1, 0),
                      InputValue(input, DESCRIPTION, 1, 0),
                      InputValue(input, CONDITION, 1, 0), AsInt(address).n,
                      AsColumn(AsInt(InputValue(input, CATEGORY_ID, 1, 0))), None, None)))
  {
    InsertedRow(t, AsInt(InputValue(input, ACCOUNT_ID, 1, 0)), InputValue(input, TITLE, 1, 0),
                InputValue(input, DESCRIPTION, 1, 0),
                InputValue(input, CONDITION, 1, 0), AsInt(address), AsInt(InputValue(input, CATEGORY_ID, 1, 0)));
  }

  lemma AddressInserted(env: Env, t: Tables, input: Input, t': Tables, rows: Rows)
    requires Exec(env, t, InsertAddress,
                  [PartOf(input, COUNTRY), PartOf(input, REGION), PartOf(input, POSTCODE),
                   InputValue(input, ACCOUNT_ID, 1, 0)]) == Done(t', rows)
    ensures AsInt(InputValue(input, ACCOUNT_ID, 1, 0)).Int?
    ensures t' == t.(addresses := t.addresses.Insert(
              Schema.Address(PartOf(input, COUNTRY), PartOf(input, REGION), PartOf(input, POSTCODE),
                             AsInt(InputValue(input, ACCOUNT_ID, 1, 0)).n)))
    ensures rows == Returning(COL_ADDRESS_ID, t.addresses.serial)
  {
  }

  /** With an existing address: the first statement adds the row. */
  lemma CreatedOnAddress(env: Env, t: Tables, q: Query, input: Input, t': Tables, rows: Rows)
    requires Creates(q, input) && !IsNewAddress(input) && t.listings.Valid()
    requires Exec(env, t, InsertListing, RawAll(Params(q))) == Done(t', rows)
    ensures RowIs(t, t', t.listings.serial, input) && rows == Returning(COL_LISTING_ID, t.listings.serial)
    ensures OnlyListing(t, t', t.listings.serial)
  {
    var args := [InputValue(input, ACCOUNT_ID, 1, 0), InputValue(input, TITLE, 1, 0),
                 InputValue(input, DESCRIPTION, 1, 0),
                 InputValue(input, CONDITION, 1, 0), Lookup(input, LOCATION), InputValue(input, CATEGORY_ID, 1, 0)];
    assert RawAll(Params(q)) == args;
    RowInserted(env, t, Lookup(input, LOCATION), input, t', rows);
  }

  lemma CreatedWithAddress(env: Env, t: Tables, first: Query, second: Query, input: Input, t1: Tables, t2: Tables,
                           results: seq<Rows>)
    requires CreatesAddress(first, input) && Creates(second, input) && IsNewAddress(input)
    requires t.listings.Valid() && t.addresses.Valid()
    requires |results| == 2
    requires EvaluateAll(Params(first), []).Some?
    requires Exec(env, t, InsertAddress, EvaluateAll(Params(first), []).value) == Done(t1, results[0])
    requires EvaluateAll(Params(second), [results[0]]).Some?
          && Exec(env, t1, InsertListing, EvaluateAll(Params(second), [results[0]]).value) == Done(t2, results[1])
    ensures RowIs(t, t2, t.listings.serial, input) && results[1] == Returning(COL_LISTING_ID, t.listings.serial)
    ensures OnlyListing(t, t2, t.listings.serial)
  {
    assert EvaluateAll(Params(first), []).value
        == [PartOf(input, COUNTRY), PartOf(input, REGION), PartOf(input, POSTCODE),
            InputValue(input, ACCOUNT_ID, 1, 0)];
    AddressInserted(env, t, input, t1, results[0]);
    var address := Num(t.addresses.serial);
    assert EvaluateAll(Params(second), [results[0]]).value
        == [InputValue(input, ACCOUNT_ID, 1, 0), InputValue(input, TITLE, 1, 0), InputValue(input, DESCRIPTION, 1, 0),
            InputValue(input, CONDITION, 1, 0), address, InputValue(input, CATEGORY_ID, 1, 0)];
    RowInserted(env, t1, address, input, t2, results[1]);
  }

  /** After the media have been stored the row is still what it was. */
  lemma RowStays(t: Tables, t1: Tables, t2: Tables, l: int, input: Input)
    requires RowIs(t, t1, l, input) && t2.listings == t1.listings && t2.addresses == t1.addresses
    ensures RowIs(t, t2, l, input)
  {
  }

  lemma RowInChain(env: Env, qs: seq<Query>, states: seq<Tables>, results: seq<Rows>, p: nat, input: Input)
    requires Chain(env, qs, states, results) && p <= |qs| && states[0].listings.Valid() && states[0].addresses.Valid()
    requires p == (if IsNewAddress(input) then 2 else 1) && Creates(qs[p - 1], input)
    requires IsNewAddress(input) ==> CreatesAddress(qs[0], input)
    ensures var l := states[0].listings.serial;
            RowIs(states[0], states[p], l, input) && OnlyListing(states[0], states[p], l)
            && results[p - 1] == Returning(COL_LISTING_ID, l)
  {
    if IsNewAddress(input) {
      assert Link(env, qs, states, results, 0) && Link(env, qs, states, results, 1);
      assert results[..0] == [] && results[..1] == [results[0]];
      CreatedWithAddress(env, states[0], qs[0], qs[1], input, states[1], states[2], results[..2]);
    } else {
      FirstCreates(env, qs, states, results, input);
    }
  }

  lemma FirstCreates(env: Env, qs: seq<Query>, states: seq<Tables>, results: seq<Rows>, input: Input)
    requires Chain(env, qs, states, results) && |qs| > 0 && states[0].listings.Valid()
    requires !IsNewAddress(input) && Creates(qs[0], input)
    ensures var l := states[0].listings.serial;
            RowIs(states[0], states[1], l, input) && OnlyListing(states[0], states[1], l)
            && results[0] == Returning(COL_LISTING_ID, l)
  {
    assert Link(env, qs, states, results, 0);
    assert EvaluateAll(Params(qs[0]), results[..0]).value == RawAll(Params(qs[0]));
    CreatedOnAddress(env, states[0], qs[0], input, states[1], results[0]);
  }

  lemma CreatedRow(env: Env, t: Tables, qs: seq<Query>, p: nat, input: Input, t': Tables) returns (l: int)
    requires CreatesListing(qs, p, input) && t.listings.Valid() && t.addresses.Valid() && Commits(env, t, qs, t')
    requires p == (if IsNewAddress(input) then 2 else 1) && Creates(qs[p - 1], input)
    requires IsNewAddress(input) ==> CreatesAddress(qs[0], input)
    ensures RowIs(t, t', l, input) && OnlyListing(t, t', l)
    ensures ResultsOf(env, t, qs, t')[p - 1] == Returning(COL_LISTING_ID, l)
  {
    l := t.listings.serial;
    if |qs| == 1 {
      CreatedOnAddress(env, t, qs[0], input, t', ResultsOf(env, t, qs, t')[0]);
    } else {
      var states, results := CommitIsChain(env, t, qs, t');
      RowInChain(env, qs, states, results, p, input);
      if URL in input {
        InsertMediaRun(env, qs, states, results, p, l, input, |MediaUrls(input)|);
        RowStays(t, states[p], t', l, input);
        OnlyListingStill(t, states[p], t', l, input, |MediaUrls(input)|);
      }
    }
  }

  /** A committed create-listing: a new open listing that is what the input says, with the
      uploads as its media, and nothing else; and the caller gets its id. */
  lemma ListingFromInput(env: Env, input: Input, t: Tables, t': Tables) returns (l: int)
    requires Usable(input) && Defined(CreateListingTemplate()) && PlanOf(CreateListingTemplate(), input).Ok?
    requires Inv(t) && Commits(env, t, PlanOf(CreateListingTemplate(), input).value.queries, t')
    ensures l !in t.listings.rows && Open(t', l) && RowIs(t, t', l, input) && HasUploads(t', l, input)
    ensures OnlyListing(t, t', l)
    ensures Inv(t') && Later(t, t')
    ensures var plan := PlanOf(CreateListingTemplate(), input).value;
            Kept(CreateListingTemplate(), plan.names, ResultsOf(env, t, plan.queries, t'))
            == [Returning(COL_LISTING_ID, l)]
  {
    l := CreateListingCommits(env, input, t, t');
    var l' := RowFromInput(env, input, t, t');
    SameId(l, l');
  }

  lemma RowFromInput(env: Env, input: Input, t: Tables, t': Tables) returns (l: int)
    requires Usable(input) && Defined(CreateListingTemplate()) && PlanOf(CreateListingTemplate(), input).Ok?
    requires t.listings.Valid() && t.addresses.Valid()
    requires Commits(env, t, PlanOf(CreateListingTemplate(), input).value.queries, t')
    ensures RowIs(t, t', l, input) && OnlyListing(t, t', l)
    ensures var plan := PlanOf(CreateListingTemplate(), input).value;
            Kept(CreateListingTemplate(), plan.names, ResultsOf(env, t, plan.queries, t'))
            == [Returning(COL_LISTING_ID, l)]
  {
    var plan := PlanOf(CreateListingTemplate(), input).value;
    var p := CreateListingPlan(input);
    CreateListingEntry(input);
    if IsNewAddress(input) {
      CreateAddressEntry(input);
    }
    l := CreatedRow(env, t, plan.queries, p, input, t');
    CreateListingKeepsOne(input, p);
    OnlyOneKept(CreateListingTemplate(), plan.names, ResultsOf(env, t, plan.queries, t'), p - 1);
  }

  lemma SameId(l: int, l': int)
    requires [Returning(COL_LISTING_ID, l)] == [Returning(COL_LISTING_ID, l')]
    ensures l == l'
  {
    assert [Returning(COL_LISTING_ID, l)][0][0][COL_LISTING_ID] == Num(l);
    assert [Returning(COL_LISTING_ID, l')][0][0][COL_LISTING_ID] == Num(l');
  }

  // ---------------------------------------------------------------- the request

  /** The media of listing l are the uploads of these items, in order. */
  ghost predicate MediaFrom(t: Tables, l: int, w: World, media: seq<Val>) {
    forall i :: ((l, i) in t.listingMedia <==> 0 <= i < |media|)
                && ((l, i) in t.listingMedia ==> MediaItemFrom(t.listingMedia[(l, i)], w, i, media[i]))
  }

  ghost predicate MediaItemFrom(item: MediaItem, w: World, i: nat, v: Val) {
    && w.upload(i, v).Succeeded? && item.url == w.upload(i, v).url
    && MatchOf(w.oracle, v).Some? && item.mimetype == MatchOf(w.oracle, v).value.mimetype
  }

  lemma UploadsBecomeMedia(t: Tables, l: int, input: Input, w: World, media: seq<Val>)
    requires CarriesUploads(input, w, media) && MediaAre(t, l, input)
    ensures MediaFrom(t, l, w, media)
  {
    forall i | 0 <= i < |media|
      ensures (l, i) in t.listingMedia && MediaItemFrom(t.listingMedia[(l, i)], w, i, media[i])
    {
      assert CarriesUpload(input, w, i, media[i]) && IsUpload(t.listingMedia[(l, i)], input, i);
    }
  }

  /** A create-listing that was stored, in terms of what was validated: a new open listing
      that is what was asked for, whose i-th media row is the upload of the i-th item, and
      nothing else. */
  lemma ListingAsRequested(env: Env, w: World, validated: Input, t: Tables, t': Tables, results: seq<Rows>)
    returns (l: int)
    requires Validated(CreateListingAction, w.oracle, validated) && Inv(t)
    requires MEDIA in validated ==> Media.Legal(Items(w, validated[MEDIA]), w.schedule)
    requires Uploading(w, validated).Ready?
    requires Resolved(CreateListingTemplate(), env, Uploading(w, validated).input, t, t', results)
    ensures results == [Returning(COL_LISTING_ID, l)]
    ensures l !in t.listings.rows && Open(t', l) && RowIs(t, t', l, validated)
    ensures MediaFrom(t', l, w, Submitted(validated)) && OnlyListing(t, t', l)
  {
    var input := Uploading(w, validated).input;
    UploadsInOrder(w, CreateListingAction, validated);
    BroughtIsUsable(w, CreateListingAction, validated, input);
    l := StoredListing(env, input, t, t', results);
    RequestedRow(t, t', l, w, validated, input);
  }

  lemma RequestedRow(t: Tables, t': Tables, l: int, w: World, validated: Input, input: Input)
    requires Brings(w, validated, input) && (URL in input <==> Submitted(validated) != [])
    requires RowIs(t, t', l, input) && HasUploads(t', l, input)
    ensures RowIs(t, t', l, validated) && MediaFrom(t', l, w, Submitted(validated))
  {
    SameRow(t, t', l, input, validated);
    if URL in input {
      UploadsBecomeMedia(t', l, input, w, Submitted(validated));
    }
  }

  lemma StoredListing(env: Env, input: Input, t: Tables, t': Tables, results: seq<Rows>) returns (l: int)
    requires Usable(input) && Inv(t) && Resolved(CreateListingTemplate(), env, input, t, t', results)
    ensures results == [Returning(COL_LISTING_ID, l)]
    ensures l !in t.listings.rows && Open(t', l) && RowIs(t, t', l, input) && HasUploads(t', l, input)
    ensures OnlyListing(t, t', l)
  {
    var plan := PlanOf(CreateListingTemplate(), input).value;
    var p := CreateListingPlan(input);
    StoreCommits(env, CreateListingTemplate(), input, t);
    l := ListingFromInput(env, input, t, t');
  }

  lemma SameRow(t: Tables, t': Tables, l: int, input: Input, validated: Input)
    requires RowIs(t, t', l, input)
    requires forall key :: key != URL && key != MIME_TYPE && key != MEDIA_INDEX ==>
               (key in input <==> key in validated) && (key in input ==> input[key] == validated[key])
    ensures RowIs(t, t', l, validated)
  {
  }
}
