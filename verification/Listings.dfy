/** create-listing and modify-listing as whole transactions: their plans, what they keep,
    and what they leave as the media of the listing. */
module Listings {
  import opened Values
  import opened Vocabulary
  import opened SqlTemplate
  import opened PlanShape
  import opened Execution
  import opened Database
  import opened Store
  import opened Schema
  import opened Statements
  import opened Invariants
  import opened Runs
  import opened Templates
  import opened Builds
  import opened Transactions
  import opened Uploads

  // ---------------------------------------------------------------- stored media

  /** Storing the first n uploads of a listing without media keeps what must be kept. */
  lemma StoredKeeps(t: Tables, t': Tables, l: int, input: Input, n: nat)
    requires Inv(t) && Open(t, l) && Base(t') && Stored(t, t', l, input, n)
    requires forall i :: (l, i) !in t.listingMedia
    ensures Inv(t') && Later(t, t')
  {
    SameDormant(t, t');
    forall k | Closed(t, k)
      ensures SameMedia(t, t', k)
    {
    }
  }

  // ---------------------------------------------------------------- create-listing

  lemma CreateListingCopies(input: Input)
    requires Usable(input) && Defined(CreateListingTemplate())
    ensures var t := CreateListingTemplate();
            && |t.order| == 3
            && Copies(t, input, 0) <= 1 && Copies(t, input, 1) == 1 && Copies(t, input, 2) == |MediaUrls(input)|
            && Offset(t, input, 1) == Copies(t, input, 0) && Offset(t, input, 2) == Copies(t, input, 0) + 1
            && Offset(t, input, 3) == Copies(t, input, 0) + 1 + |MediaUrls(input)|
  {
    var t := CreateListingTemplate();
    assert Offset(t, input, 1) == Copies(t, input, 0);
    assert Offset(t, input, 2) == Offset(t, input, 1) + Copies(t, input, 1);
    assert Offset(t, input, 3) == Offset(t, input, 2) + Copies(t, input, 2);
  }

  /** An optional create_address, then create_listing, then one insert_media per upload. */
  lemma CreateListingPlan(input: Input) returns (p: nat)
    requires Usable(input) && Defined(CreateListingTemplate()) && PlanOf(CreateListingTemplate(), input).Ok?
    ensures |CreateListingTemplate().order| == 3
    ensures CreatesListing(PlanOf(CreateListingTemplate(), input).value.queries, p, input)
    ensures p == Copies(CreateListingTemplate(), input, 0) + 1
  {
    var t := CreateListingTemplate();
    PlanLength(t, input);
    CreateListingCopies(input);
    p := Offset(t, input, 2);
    ParameterMatrix(t, input, 1, 0);
    if p == 2 {
      ParameterMatrix(t, input, 0, 0);
    }
    if URL in input {
      forall i: nat | i < |MediaUrls(input)|
        ensures InsertsOne(PlanOf(t, input).value.queries, p, i, input)
      {
        InsertMediaEntry(input, p, i);
      }
    }
  }

  /** create_listing stands just before place p, and only create_address can precede it. */
  lemma CreateListingNames(input: Input, p: nat)
    requires Usable(input) && Defined(CreateListingTemplate()) && PlanOf(CreateListingTemplate(), input).Ok?
    requires |CreateListingTemplate().order| == 3 && p == Offset(CreateListingTemplate(), input, 2)
    ensures var names := PlanOf(CreateListingTemplate(), input).value.names;
            1 <= p <= 2 && p <= |names| && forall k :: 0 <= k < p && names[k] == CREATE_LISTING ==> k == p - 1
  {
    CreateListingCopies(input);
    ParameterMatrix(CreateListingTemplate(), input, 1, 0);
    if p == 2 {
      ParameterMatrix(CreateListingTemplate(), input, 0, 0);
    }
  }

  lemma InsertMediaEntry(input: Input, p: nat, i: nat)
    requires Usable(input) && URL in input && Defined(CreateListingTemplate())
    requires PlanOf(CreateListingTemplate(), input).Ok?
    requires |CreateListingTemplate().order| == 3 && p == Offset(CreateListingTemplate(), input, 2)
    requires i < |MediaUrls(input)|
    ensures |PlanOf(CreateListingTemplate(), input).value.queries| > p + i && p > 0
    ensures InsertsOne(PlanOf(CreateListingTemplate(), input).value.queries, p, i, input)
  {
    var t := CreateListingTemplate();
    CreateListingCopies(input);
    CreateListingNames(input, p);
    ParameterMatrix(t, input, 2, i);
    var plan := PlanOf(t, input).value;
    var ps := Params(plan.queries[p + i]);
    var cs := t.dict[t.order[2]].values.value;
    assert cs == [FromInput(MIME_TYPE), FromInput(URL), FromInput(MEDIA_INDEX),
                  FromQuery(CREATE_LISTING, COL_LISTING_ID)];
    assert CompiledTo(t, input, 2, i, plan.names, cs[0], ps[0]);
    assert CompiledTo(t, input, 2, i, plan.names, cs[1], ps[1]);
    assert CompiledTo(t, input, 2, i, plan.names, cs[2], ps[2]);
    assert CompiledTo(t, input, 2, i, plan.names, cs[3], ps[3]);
    assert ps == [Plain(input[MIME_TYPE].items[i]), Plain(input[URL].items[i]), Plain(Num(i)),
                  Ref(p - 1, COL_LISTING_ID)];
  }

  /** The state after create_listing: the new listing is open and has no media. */
  lemma ListingCreated(env: Env, qs: seq<Query>, states: seq<Tables>, results: seq<Rows>, p: nat) returns (l: int)
    requires Chain(env, qs, states, results) && Inv(states[0]) && 0 < p <= |qs|
    requires qs[p - 1].text == InsertListing && forall k :: 0 <= k < p ==> Harmless(qs[k].text)
    ensures Inv(states[p]) && Later(states[0], states[p])
    ensures results[p - 1] == Returning(COL_LISTING_ID, l)
    ensures l !in states[0].listings.rows && Open(states[p], l) && forall i :: (l, i) !in states[p].listingMedia
  {
    HarmlessPrefix(env, qs, states, results, p - 1);
    HarmlessPrefix(env, qs, states, results, p);
    assert Link(env, qs, states, results, p - 1);
    l := states[p - 1].listings.serial;
    NewListing(env, states[p - 1], EvaluateAll(Params(qs[p - 1]), results[..p - 1]).value);
  }

  /** The shape of a create-listing plan. */
  ghost predicate CreatesListing(qs: seq<Query>, p: nat, input: Input) {
    && 0 < p && |qs| == p + |MediaUrls(input)|
    && qs[p - 1].text == InsertListing && (forall k :: 0 <= k < p ==> Harmless(qs[k].text))
    && (URL in input ==> InsertsMedia(qs, p, input))
  }

  ghost predicate HasUploads(t: Tables, l: int, input: Input) {
    if URL in input then MediaFields(input, |MediaUrls(input)|) && MediaAre(t, l, input)
    else forall i :: (l, i) !in t.listingMedia
  }

  lemma CreatedByStatement(env: Env, t: Tables, qs: seq<Query>, input: Input, t': Tables) returns (l: int)
    requires CreatesListing(qs, 1, input) && |qs| == 1 && URL !in input
    requires Inv(t) && Commits(env, t, qs, t')
    ensures Inv(t') && Later(t, t')
    ensures l !in t.listings.rows && Open(t', l) && HasUploads(t', l, input)
    ensures ResultsOf(env, t, qs, t')[0] == Returning(COL_LISTING_ID, l)
  {
    HarmlessCommit(env, t, qs, t');
    NewListing(env, t, RawAll(Params(qs[0])));
    l := t.listings.serial;
  }

  lemma CreatedByTransaction(env: Env, t: Tables, qs: seq<Query>, p: nat, input: Input, t': Tables) returns (l: int)
    requires CreatesListing(qs, p, input) && |qs| != 1
    requires Inv(t) && Commits(env, t, qs, t')
    ensures Inv(t') && Later(t, t')
    ensures l !in t.listings.rows && Open(t', l) && HasUploads(t', l, input)
    ensures ResultsOf(env, t, qs, t')[p - 1] == Returning(COL_LISTING_ID, l)
  {
    var states, results := CommitIsChain(env, t, qs, t');
    l := ListingCreated(env, qs, states, results, p);
    if URL in input {
      InsertMediaRun(env, qs, states, results, p, l, input, |MediaUrls(input)|);
      ChainKeepsBase(env, qs, states, results, |qs|);
      StoredIsAll(states[p], t', l, input);
      StoredKeeps(states[p], t', l, input, |MediaUrls(input)|);
      LaterTransitive(t, states[p], t');
    }
  }

  /** A committed create-listing: the new listing is open and its media are exactly the
      uploads, the i-th of them at index i; nothing changed that must not; and what the
      caller gets is the id of the new listing. */
  lemma CreateListingCommits(env: Env, input: Input, t: Tables, t': Tables) returns (l: int)
    requires Usable(input) && Defined(CreateListingTemplate()) && PlanOf(CreateListingTemplate(), input).Ok?
    requires Inv(t) && Commits(env, t, PlanOf(CreateListingTemplate(), input).value.queries, t')
    ensures Inv(t') && Later(t, t')
    ensures l !in t.listings.rows && Open(t', l) && HasUploads(t', l, input)
    ensures var p := PlanOf(CreateListingTemplate(), input).value;
            Kept(CreateListingTemplate(), p.names, ResultsOf(env, t, p.queries, t')) == [Returning(COL_LISTING_ID, l)]
  {
    var p := CreateListingPlan(input);
    var plan := PlanOf(CreateListingTemplate(), input).value;
    if |plan.queries| == 1 {
      l := CreatedByStatement(env, t, plan.queries, input, t');
    } else {
      l := CreatedByTransaction(env, t, plan.queries, p, input, t');
    }
    CreateListingKeepsOne(input, p);
    OnlyOneKept(CreateListingTemplate(), plan.names, ResultsOf(env, t, plan.queries, t'), p - 1);
  }

  /** Only the result of create_listing is not dropped. */
  lemma CreateListingKeepsOne(input: Input, p: nat)
    requires Usable(input) && Defined(CreateListingTemplate()) && PlanOf(CreateListingTemplate(), input).Ok?
    requires CreatesListing(PlanOf(CreateListingTemplate(), input).value.queries, p, input)
    ensures var names := PlanOf(CreateListingTemplate(), input).value.names;
            p <= |names| && forall k :: 0 <= k < |names| ==>
              (Dropped(CreateListingTemplate(), names[k]) <==> k != p - 1)
  {
    var t := CreateListingTemplate();
    CreateListingCopies(input);
    PlanLength(t, input);
    var names := PlanOf(t, input).value.names;
    forall at | 0 <= at < |names|
      ensures Dropped(t, names[at]) <==> at != p - 1
    {
      var k, i := Locate(t, input, 3, at);
      ParameterMatrix(t, input, k, i);
    }
  }

  lemma {:induction false} OnlyOneKept(t: Template, names: seq<QueryName>, results: seq<Rows>, at: nat)
    requires |names| == |results| && forall k :: 0 <= k < |names| ==> (Dropped(t, names[k]) <==> k != at)
    ensures Kept(t, names, results) == if at < |results| then [results[at]] else []
  {
    if names != [] {
      OnlyOneKept(t, names[..|names| - 1], results[..|names| - 1], at);
    }
  }

  lemma StoredIsAll(t: Tables, t': Tables, l: int, input: Input)
    requires MediaFields(input, |MediaUrls(input)|) && Stored(t, t', l, input, |MediaUrls(input)|) && Open(t, l)
    requires forall i :: (l, i) !in t.listingMedia
    ensures MediaAre(t', l, input) && Open(t', l)
  {
  }

  lemma NewListing(env: Env, t: Tables, args: seq<Val>)
    requires Base(t) && Exec(env, t, InsertListing, args).Done?
    ensures var t', l := Exec(env, t, InsertListing, args).db, t.listings.serial;
            l !in t.listings.rows && Open(t', l) && (forall i :: (l, i) !in t'.listingMedia)
  {
  }

  // ---------------------------------------------------------------- modify-listing

  /** The i-th change_media statement as the compiler emits it. */
  ghost predicate EmitsChange(qs: seq<Query>, p: nat, i: nat, input: Input)
    requires MediaFields(input, |MediaUrls(input)|) && i < |MediaUrls(input)| && p + i < |qs|
  {
    var n := |MediaUrls(input)|;
    && qs[p + i].text == UpsertListingMedia
    && Params(qs[p + i]) == [Plain(InputValue(input, ACCOUNT_ID, n, i)), Plain(InputValue(input, LISTING_ID, n, i)),
                             Plain(input[MIME_TYPE].items[i]), Plain(input[URL].items[i]), Plain(Num(i))]
  }

  ghost predicate EmitsDrop(q: Query, input: Input) {
    && q.text == DropExtraMedia
    && Params(q) == [Plain(InputValue(input, ACCOUNT_ID, 1, 0)), Plain(InputValue(input, LISTING_ID, 1, 0)),
                     Plain(Num(|MediaUrls(input)|))]
  }

  /** The statements of modify-listing that come before the media. */
  predicate ChangesRow(sql: Sql) {
    sql.InsertAddress? || sql.ChangeTitle? || sql.ChangeDescription? || sql.ChangeAddress? || sql.ChangeCategory?
    || sql.ChangeCondition?
  }

  /** The shape of a modify-listing plan: single-column changes, then the media. */
  ghost predicate ModifiesListing(qs: seq<Query>, p: nat, input: Input) {
    && (forall k :: 0 <= k < p && k < |qs| ==> ChangesRow(qs[k].text))
    && if URL in input then
         && MediaFields(input, |MediaUrls(input)|) && |qs| == p + |MediaUrls(input)| + 1
         && (forall i :: 0 <= i < |MediaUrls(input)| ==> EmitsChange(qs, p, i, input))
         && EmitsDrop(qs[|qs| - 1], input)
       else |qs| == p
  }

  lemma ModifyListingCopies(input: Input)
    requires Usable(input) && Defined(ModifyListingTemplate())
    ensures var t := ModifyListingTemplate();
            && |t.order| == 8
            && Copies(t, input, 6) == |MediaUrls(input)| && Copies(t, input, 7) == (if URL in input then 1 else 0)
            && Offset(t, input, 7) == Offset(t, input, 6) + |MediaUrls(input)|
            && Offset(t, input, 8) == Offset(t, input, 7) + Copies(t, input, 7)
  {
  }

  lemma ModifyPrefixEntry(input: Input, at: nat)
    requires Usable(input) && Defined(ModifyListingTemplate()) && PlanOf(ModifyListingTemplate(), input).Ok?
    requires |ModifyListingTemplate().order| == 8 && at < Offset(ModifyListingTemplate(), input, 6)
    ensures at < |PlanOf(ModifyListingTemplate(), input).value.queries|
    ensures ChangesRow(PlanOf(ModifyListingTemplate(), input).value.queries[at].text)
  {
    var t := ModifyListingTemplate();
    var k, i := Locate(t, input, 6, at);
    ParameterMatrix(t, input, k, i);
    assert t.order[k] != CHANGE_MEDIA && ChangesRow(t.dict[t.order[k]].text);
  }

  lemma ChangeMediaEntry(input: Input, p: nat, i: nat)
    requires Usable(input) && URL in input && Defined(ModifyListingTemplate())
    requires PlanOf(ModifyListingTemplate(), input).Ok?
    requires |ModifyListingTemplate().order| == 8 && p == Offset(ModifyListingTemplate(), input, 6)
    requires i < |MediaUrls(input)|
    ensures |PlanOf(ModifyListingTemplate(), input).value.queries| > p + i
    ensures EmitsChange(PlanOf(ModifyListingTemplate(), input).value.queries, p, i, input)
  {
    ModifyListingCopies(input);
    ChangeMediaQuery();
    ChangeEntry(ModifyListingTemplate(), input, p, i);
  }

  lemma ChangeMediaQuery()
    ensures var t := ModifyListingTemplate();
            |t.order| == 8 && t.order[6] in t.dict && ChangesMedia(t.dict[t.order[6]])
  {
  }

  ghost predicate ChangesMedia(d: QueryDef) {
    && d.text == UpsertListingMedia
    && d.values == Some([FromInput(ACCOUNT_ID), FromInput(LISTING_ID), FromInput(MIME_TYPE), FromInput(URL),
                         FromInput(MEDIA_INDEX)])
  }

  lemma ChangeEntry(t: Template, input: Input, p: nat, i: nat)
    requires Usable(input) && URL in input && Defined(t) && PlanOf(t, input).Ok?
    requires |t.order| == 8 && p == Offset(t, input, 6) && i < |MediaUrls(input)| == Copies(t, input, 6)
    requires ChangesMedia(t.dict[t.order[6]])
    ensures |PlanOf(t, input).value.queries| > p + i && EmitsChange(PlanOf(t, input).value.queries, p, i, input)
  {
    CopyText(t, input, 6, i);
    FieldParameter(t, input, 6, i, 0, ACCOUNT_ID);
    FieldParameter(t, input, 6, i, 1, LISTING_ID);
    FieldParameter(t, input, 6, i, 2, MIME_TYPE);
    FieldParameter(t, input, 6, i, 3, URL);
    FieldParameter(t, input, 6, i, 4, MEDIA_INDEX);
    TakesCopy(PlanOf(t, input).value.queries, p, i, input);
  }

  lemma TakesCopy(qs: seq<Query>, p: nat, i: nat, input: Input)
    requires Usable(input) && URL in input && i < |MediaUrls(input)| && p + i < |qs|
    requires qs[p + i].text == UpsertListingMedia && |Params(qs[p + i])| == 5
    requires var n, ps := |MediaUrls(input)|, Params(qs[p + i]);
             && ps[0] == Plain(InputValue(input, ACCOUNT_ID, n, i))
             && ps[1] == Plain(InputValue(input, LISTING_ID, n, i))
             && ps[2] == Plain(InputValue(input, MIME_TYPE, n, i)) && ps[3] == Plain(InputValue(input, URL, n, i))
             && ps[4] == Plain(InputValue(input, MEDIA_INDEX, n, i))
    ensures EmitsChange(qs, p, i, input)
  {
    MediaValues(input, i);
  }

  /** Copy i takes the i-th of each of the media fields. */
  lemma MediaValues(input: Input, i: nat)
    requires Usable(input) && URL in input && i < |MediaUrls(input)|
    ensures var n := |MediaUrls(input)|;
            && InputValue(input, MIME_TYPE, n, i) == input[MIME_TYPE].items[i]
            && InputValue(input, URL, n, i) == input[URL].items[i]
            && InputValue(input, MEDIA_INDEX, n, i) == Num(i)
  {
  }

  lemma CopyText(t: Template, input: Input, k: nat, i: nat)
    requires Defined(t) && PlanOf(t, input).Ok? && k < |t.order| && i < Copies(t, input, k)
    requires t.dict[t.order[k]].values.Some?
    ensures var at := Offset(t, input, k) + i;
            && at < |PlanOf(t, input).value.queries|
            && PlanOf(t, input).value.queries[at].text == t.dict[t.order[k]].text
            && |Params(PlanOf(t, input).value.queries[at])| == |t.dict[t.order[k]].values.value|
  {
    ParameterMatrix(t, input, k, i);
  }

  /** What a field of the input becomes in copy i of query k. */
  lemma FieldParameter(t: Template, input: Input, k: nat, i: nat, j: nat, key: Key)
    requires Defined(t) && PlanOf(t, input).Ok? && k < |t.order| && i < Copies(t, input, k)
    requires t.dict[t.order[k]].values.Some? && j < |t.dict[t.order[k]].values.value|
    requires t.dict[t.order[k]].values.value[j] == FromInput(key)
    ensures var at := Offset(t, input, k) + i;
            && at < |PlanOf(t, input).value.queries| && j < |Params(PlanOf(t, input).value.queries[at])|
            && Params(PlanOf(t, input).value.queries[at])[j] == Plain(InputValue(input, key, Copies(t, input, k), i))
  {
    ParameterMatrix(t, input, k, i);
    var plan := PlanOf(t, input).value;
    var ps, cs := Params(plan.queries[Offset(t, input, k) + i]), t.dict[t.order[k]].values.value;
    assert CompiledTo(t, input, k, i, plan.names, cs[j], ps[j]);
  }

  lemma DropMediaEntry(input: Input)
    requires Usable(input) && URL in input && Defined(ModifyListingTemplate())
    requires PlanOf(ModifyListingTemplate(), input).Ok?
    requires |ModifyListingTemplate().order| == 8
    ensures |PlanOf(ModifyListingTemplate(), input).value.queries|
            == Offset(ModifyListingTemplate(), input, 6) + |MediaUrls(input)| + 1
    ensures EmitsDrop(PlanOf(ModifyListingTemplate(), input).value.queries[Offset(ModifyListingTemplate(), input, 7)],
                      input)
  {
    var t := ModifyListingTemplate();
    PlanLength(t, input);
    ModifyListingCopies(input);
    ParameterMatrix(t, input, 7, 0);
    var plan := PlanOf(t, input).value;
    var ps, cs := Params(plan.queries[Offset(t, input, 7)]), t.dict[t.order[7]].values.value;
    assert cs == [FromInput(ACCOUNT_ID), FromInput(LISTING_ID), UrlLength()];
    assert CompiledTo(t, input, 7, 0, plan.names, cs[0], ps[0]);
    assert CompiledTo(t, input, 7, 0, plan.names, cs[1], ps[1]);
    assert CompiledTo(t, input, 7, 0, plan.names, cs[2], ps[2]);
  }

  lemma ModifyListingPlan(input: Input) returns (p: nat)
    requires Usable(input) && Defined(ModifyListingTemplate()) && PlanOf(ModifyListingTemplate(), input).Ok?
    ensures |ModifyListingTemplate().order| == 8 && p == Offset(ModifyListingTemplate(), input, 6)
    ensures ModifiesListing(PlanOf(ModifyListingTemplate(), input).value.queries, p, input)
  {
    ModifyListingCopies(input);
    PlanLength(ModifyListingTemplate(), input);
    p := Offset(ModifyListingTemplate(), input, 6);
    forall at: nat | at < p
      ensures ChangesRow(PlanOf(ModifyListingTemplate(), input).value.queries[at].text)
    {
      ModifyPrefixEntry(input, at);
    }
    if URL in input {
      DropMediaEntry(input);
      forall i: nat | i < |MediaUrls(input)|
        ensures EmitsChange(PlanOf(ModifyListingTemplate(), input).value.queries, p, i, input)
      {
        ChangeMediaEntry(input, p, i);
      }
    }
  }

  /** An id that is good both for one of n copies and for a single one is not a list that is
      split between the copies. */
  lemma SameForAllCopies(input: Input, key: Key, n: nat)
    requires n > 0 && !AsInt(InputValue(input, key, 1, 0)).NotInt? && !AsInt(InputValue(input, key, n, 0)).NotInt?
    ensures forall i :: 0 <= i < n ==> InputValue(input, key, n, i) == InputValue(input, key, 1, 0)
  {
  }

  /** A committed modify-listing with uploads: on an open listing of the caller, its media
      are exactly the uploads, in order; on any other listing, nothing happens to them. */
  lemma UploadsReplaceMedia(env: Env, qs: seq<Query>, states: seq<Tables>, results: seq<Rows>, p: nat, input: Input)
    requires Chain(env, qs, states, results) && ModifiesListing(qs, p, input) && URL in input
    requires MediaContiguous(states[p])
    ensures MediaContiguous(states[|qs|])
    ensures var found := Found(states[p], InputValue(input, ACCOUNT_ID, 1, 0), InputValue(input, LISTING_ID, 1, 0));
            match found
            case Some(l) => MediaAre(states[|qs|], l, input) && OnlyMediaOf(states[p], states[|qs|], l)
            case None => states[|qs|] == states[p]
  {
    var n := |MediaUrls(input)|;
    var user, listing := InputValue(input, ACCOUNT_ID, 1, 0), InputValue(input, LISTING_ID, 1, 0);
    assert Link(env, qs, states, results, p + n);
    PlainArguments(Params(qs[p + n]), [user, listing, Num(n)], results[..p + n]);
    MediaIdsAgree(env, qs, states, results, p, input);
    forall i | 0 <= i < n
      ensures ChangesOne(qs, p, i, user, listing, input)
    {
      assert EmitsChange(qs, p, i, input);
    }
    ChangeMediaRun(env, qs, states, results, p, user, listing, input, n);
    DropLeaves(env, states[p], states[p + n], user, listing, input);
  }

  lemma MediaIdsAgree(env: Env, qs: seq<Query>, states: seq<Tables>, results: seq<Rows>, p: nat, input: Input)
    requires Chain(env, qs, states, results) && ModifiesListing(qs, p, input) && URL in input
    ensures var n := |MediaUrls(input)|;
            forall i :: 0 <= i < n ==>
              && InputValue(input, ACCOUNT_ID, n, i) == InputValue(input, ACCOUNT_ID, 1, 0)
              && InputValue(input, LISTING_ID, n, i) == InputValue(input, LISTING_ID, 1, 0)
  {
    var n := |MediaUrls(input)|;
    assert Link(env, qs, states, results, p + n);
    PlainArguments(Params(qs[p + n]),
                   [InputValue(input, ACCOUNT_ID, 1, 0), InputValue(input, LISTING_ID, 1, 0), Num(n)],
                   results[..p + n]);
    assert EmitsChange(qs, p, 0, input) && Link(env, qs, states, results, p);
    PlainArguments(Params(qs[p + 0]), [InputValue(input, ACCOUNT_ID, n, 0), InputValue(input, LISTING_ID, n, 0),
                                   input[MIME_TYPE].items[0], input[URL].items[0], Num(0)], results[..p]);
    SameForAllCopies(input, ACCOUNT_ID, n);
    SameForAllCopies(input, LISTING_ID, n);
  }

  /** The statements before the media neither close the listing nor give it away. */
  lemma {:induction false} StaysOpen(env: Env, qs: seq<Query>, states: seq<Tables>, results: seq<Rows>, m: nat, l: int)
    requires Chain(env, qs, states, results) && m <= |qs| && Open(states[0], l)
    requires forall k :: 0 <= k < m ==> Harmless(qs[k].text)
    ensures Open(states[m], l)
  {
    if m > 0 {
      StaysOpen(env, qs, states, results, m - 1, l);
      assert Link(env, qs, states, results, m - 1);
      StepStaysOpen(env, states[m - 1], qs[m - 1].text, EvaluateAll(Params(qs[m - 1]), results[..m - 1]).value, l);
    }
  }

  lemma StepStaysOpen(env: Env, t: Tables, sql: Sql, args: seq<Val>, l: int)
    requires Open(t, l) && !sql.CloseListing? && !sql.CloseAccountListings?
    ensures var effect := Exec(env, t, sql, args); effect.Done? ==> Open(effect.db, l)
  {
    if Personal(sql) {
      PersonalExecFollows(env, t, sql, args);
    } else if ChangesListing(sql) && |args| == Arity(sql) {
      match sql {
        case ChangeTitle => UpdateStaysOpen(t, AsInt(args[0]), AsInt(args[1]), SetTitle(args[2]), l);
        case ChangeDescription => UpdateStaysOpen(t, AsInt(args[0]), AsInt(args[1]), SetDescription(args[2]), l);
        case ChangeCondition => UpdateStaysOpen(t, AsInt(args[0]), AsInt(args[1]), SetCondition(args[2]), l);
        case ChangeAddress => UpdateStaysOpen(t, AsInt(args[0]), AsInt(args[1]), SetAddress(AsInt(args[2])), l);
        case ChangeCategory => UpdateStaysOpen(t, AsInt(args[0]), AsInt(args[1]), SetCategory(AsInt(args[2])), l);
      }
    }
  }

  lemma UpdateStaysOpen(t: Tables, user: IntParam, listing: IntParam, change: ListingChange, l: int)
    requires Open(t, l) && !change.SetClosed?
    ensures var effect := UpdateListingRow(t, user, listing, change); effect.Done? ==> Open(effect.db, l)
  {
  }

  lemma ModifyListingCommits(env: Env, input: Input, t: Tables, t': Tables)
    requires Usable(input) && Defined(ModifyListingTemplate()) && PlanOf(ModifyListingTemplate(), input).Ok?
    requires Inv(t) && Commits(env, t, PlanOf(ModifyListingTemplate(), input).value.queries, t')
    ensures Inv(t') && Later(t, t')
    ensures var found := Found(t, InputValue(input, ACCOUNT_ID, 1, 0), InputValue(input, LISTING_ID, 1, 0));
            URL in input && found.Some? ==> MediaAre(t', found.value, input)
  {
    var p := ModifyListingPlan(input);
    ModifiedByPlan(env, t, PlanOf(ModifyListingTemplate(), input).value.queries, p, input, t');
  }

  lemma ModifyTexts(qs: seq<Query>, p: nat, input: Input)
    requires ModifiesListing(qs, p, input)
    ensures forall k :: 0 <= k < |qs| ==> Harmless(qs[k].text) || qs[k].text.UpsertListingMedia?
  {
    forall k | 0 <= k < |qs|
      ensures Harmless(qs[k].text) || qs[k].text.UpsertListingMedia?
    {
      if p <= k < |qs| - 1 {
        assert EmitsChange(qs, p, k - p, input);
      }
    }
  }

  lemma ModifiedByPlan(env: Env, t: Tables, qs: seq<Query>, p: nat, input: Input, t': Tables)
    requires ModifiesListing(qs, p, input) && Inv(t) && Commits(env, t, qs, t')
    ensures Inv(t') && Later(t, t')
    ensures var found := Found(t, InputValue(input, ACCOUNT_ID, 1, 0), InputValue(input, LISTING_ID, 1, 0));
            URL in input && found.Some? ==> MediaAre(t', found.value, input)
  {
    if URL !in input {
      HarmlessCommit(env, t, qs, t');
    } else {
      var states, results := CommitIsChain(env, t, qs, t');
      HarmlessPrefix(env, qs, states, results, p);
      UploadsReplaceMedia(env, qs, states, results, p, input);
      ModifiesAll(env, qs, states, results, p, input);
      var found := Found(t, InputValue(input, ACCOUNT_ID, 1, 0), InputValue(input, LISTING_ID, 1, 0));
      if found.Some? {
        StaysOpen(env, qs, states, results, p, found.value);
      }
    }
  }

  lemma ModifiesAll(env: Env, qs: seq<Query>, states: seq<Tables>, results: seq<Rows>, p: nat, input: Input)
    requires Chain(env, qs, states, results) && ModifiesListing(qs, p, input) && Inv(states[0])
    ensures Base(states[|qs|]) && ConversationsFollow(states[|qs|]) && Later(states[0], states[|qs|])
  {
    ModifyTexts(qs, p, input);
    ChainKeepsBase(env, qs, states, results, |qs|);
    ChainKeeps(env, qs, states, results, |qs|);
    ChainFollows(env, qs, states, results, |qs|);
  }
}
