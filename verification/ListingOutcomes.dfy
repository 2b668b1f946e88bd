/** create-listing and close-listing on a database that does not fail: exactly when they
    succeed, and why else they are refused. */
module ListingOutcomes {
  import opened Values
  import opened Vocabulary
  import opened SqlTemplate
  import opened PlanShape
  import opened Execution
  import opened Database
  import opened Store
  import opened Schema
  import opened Statements
  import opened Invariants
  import opened Templates
  import opened Builds
  import opened Transactions
  import opened Closing
  import opened Uploads
  import opened Listings
  import opened CreateListing
  import opened ModifyListing
  import opened Effects
  import opened Deviations

  // ---------------------------------------------------------------- what is given

  function Field(input: Input, key: Key): Val {
    InputValue(input, key, 1, 0)
  }

  /** The location is a full address, or the id of one. */
  predicate LocationGiven(input: Input) {
    LOCATION in input &&
    if IsObjectType(input[LOCATION]) then input[LOCATION].Obj? && FullAddress(input[LOCATION].fields)
    else AsInt(input[LOCATION]).Int?
  }

  predicate FullAddress(fields: map<Key, Val>) {
    && COUNTRY in fields && !IsNull(fields[COUNTRY]) && REGION in fields && !IsNull(fields[REGION])
    && POSTCODE in fields && !IsNull(fields[POSTCODE])
  }

  /** Every column that must not be NULL has a value, and ids are integers. */
  predicate ListingGiven(input: Input) {
    && IntOf(input, ACCOUNT_ID).Int? && !IsNull(Field(input, TITLE)) && !IsNull(Field(input, DESCRIPTION))
    && !IsNull(Field(input, CONDITION)) && !IntOf(input, CATEGORY_ID).NotInt? && LocationGiven(input)
  }

  /** What the listing refers to is there: its account, its category if it has one, and an
      address of that account. */
  predicate ReferencesThere(t: Tables, input: Input)
    requires ListingGiven(input)
  {
    var user, category, place := IntOf(input, ACCOUNT_ID).n, IntOf(input, CATEGORY_ID), input[LOCATION];
    && user in t.accounts.rows
    && (category.Int? ==> category.n in t.categories)
    && (!IsObjectType(place) ==>
          AsInt(place).n in t.addresses.rows && t.addresses.rows[AsInt(place).n].user == user)
  }

  /** No media field is NULL. */
  ghost predicate MediaGiven(input: Input) {
    URL in input ==> MediaFields(input, |MediaUrls(input)|) && GivenUpTo(input, |MediaUrls(input)|)
  }

  predicate UploadGiven(input: Input, i: nat) {
    && URL in input && MIME_TYPE in input && input[URL].Arr? && input[MIME_TYPE].Arr?
    && i < |input[URL].items| && i < |input[MIME_TYPE].items|
    && !IsNull(input[MIME_TYPE].items[i]) && !IsNull(input[URL].items[i])
  }

  ghost predicate GivenUpTo(input: Input, i: nat) {
    forall k :: 0 <= k < i ==> UploadGiven(input, k)
  }

  // ---------------------------------------------------------------- the statements

  lemma PartsOfLocation(input: Input)
    requires IsNewAddress(input)
    ensures LocationGiven(input) <==>
              !IsNull(PartOf(input, COUNTRY)) && !IsNull(PartOf(input, REGION)) && !IsNull(PartOf(input, POSTCODE))
  {
  }

  /** The tables with the address that was sent, if one was. */
  function Placed(t: Tables, input: Input): Tables {
    OnlyAddress(t, input)
  }

  lemma AddressRuns(env: Env, t: Tables, input: Input)
    requires IsNewAddress(input)
    ensures var user := IntOf(input, ACCOUNT_ID);
            var effect := Exec(env, t, InsertAddress, [PartOf(input, COUNTRY), PartOf(input, REGION),
                                                       PartOf(input, POSTCODE), Field(input, ACCOUNT_ID)]);
            if user.Int? && LocationGiven(input) then
              if user.n in t.accounts.rows
              then effect == Done(Placed(t, input), Returning(COL_ADDRESS_ID, t.addresses.serial))
              else effect == Refused(ForeignKeyViolation)
            else effect.Refused?
  {
    PartsOfLocation(input);
  }

  /** The row that is asked for. */
  function RowAsked(t: Tables, input: Input): Listing
    requires ListingGiven(input)
  {
    Listing(IntOf(input, ACCOUNT_ID).n, Field(input, TITLE), Field(input, DESCRIPTION), Field(input, CONDITION),
            if IsNewAddress(input) then t.addresses.serial else AsInt(input[LOCATION]).n,
            AsColumn(IntOf(input, CATEGORY_ID)), None, None)
  }

  predicate ReferenceBroken(code: PgCode) {
    code == ForeignKeyViolation || code == OwnerAgrees
  }

  lemma InsertRuns(t: Tables, s: Tables, input: Input, address: Val)
    requires s == Placed(t, input) && address == AddressOf(t, input)
    requires IsNewAddress(input) ==> LocationGiven(input)
    ensures var effect := InsertListingRow(s, IntOf(input, ACCOUNT_ID), Field(input, TITLE), Field(input, DESCRIPTION),
                                           Field(input, CONDITION), AsInt(address), IntOf(input, CATEGORY_ID));
            if ListingGiven(input) then
              if ReferencesThere(t, input)
              then effect == Done(s.(listings := t.listings.Insert(RowAsked(t, input))),
                                  Returning(COL_LISTING_ID, t.listings.serial))
              else effect.Refused? && ReferenceBroken(effect.code)
            else effect.Refused?
  {
  }

  lemma InsertStatement(env: Env, s: Tables, input: Input, address: Val)
    ensures Exec(env, s, InsertListing, [Field(input, ACCOUNT_ID), Field(input, TITLE), Field(input, DESCRIPTION),
                                         Field(input, CONDITION), address, Field(input, CATEGORY_ID)])
         == InsertListingRow(s, IntOf(input, ACCOUNT_ID), Field(input, TITLE), Field(input, DESCRIPTION),
                             Field(input, CONDITION), AsInt(address), IntOf(input, CATEGORY_ID))
  {
  }

  // ---------------------------------------------------------------- create-listing: the run

  /** The plan of a create-listing, with its parameters. */
  ghost predicate CreatePlan(qs: seq<Query>, p: nat, input: Input) {
    && CreatesListing(qs, p, input) && p == (if IsNewAddress(input) then 2 else 1) && Creates(qs[p - 1], input)
    && (IsNewAddress(input) ==> CreatesAddress(qs[0], input)) && AllPlain(qs[0])
  }

  lemma CreatePlanOf(input: Input) returns (p: nat)
    requires Usable(input)
    ensures Defined(CreateListingTemplate()) && PlanOf(CreateListingTemplate(), input).Ok?
    ensures CreatePlan(PlanOf(CreateListingTemplate(), input).value.queries, p, input)
  {
    ShippedTemplatesBuild(CreateListingAction, input);
    p := CreateListingPlan(input);
    CreateListingEntry(input);
    if IsNewAddress(input) {
      CreateAddressEntry(input);
    }
    ShippedOneQueryPlansArePlain(CreateListingAction, input);
    FirstQueryIsPlain(CreateListingTemplate(), input);
  }

  /** How far the run gets up to the row. */
  ghost predicate RowRuns(t: Tables, run: Progress<Tables>, input: Input) {
    if ListingGiven(input) && ReferencesThere(t, input) then
      && run.Going? && run.results != []
      && run.db == Placed(t, input).(listings := t.listings.Insert(RowAsked(t, input)))
      && run.results[|run.results| - 1] == Returning(COL_LISTING_ID, t.listings.serial)
    else run.Stopped? && (ListingGiven(input) ==> Translated(run.error) == ForeignKey)
  }

  lemma RowRunsAlone(env: Env, t: Tables, qs: seq<Query>, input: Input)
    requires Unfailing(env) && CreatePlan(qs, 1, input)
    ensures RowRuns(t, RunUpTo(EngineOf(env), t, qs, 1), input)
  {
    var address := Lookup(input, LOCATION);
    var args := [Field(input, ACCOUNT_ID), Field(input, TITLE), Field(input, DESCRIPTION), Field(input, CONDITION),
                 address, Field(input, CATEGORY_ID)];
    assert EvaluateAll(Params(qs[0]), []).value == args;
    assert RunUpTo(EngineOf(env), t, qs, 0) == Going(t, []);
    InsertStatement(env, t, input, address);
    InsertRuns(t, t, input, address);
    RowSettles(env, t, qs, 0, t, [], args, input);
  }

  /** What the statement of the row makes of the run. */
  lemma RowSettles(env: Env, t: Tables, qs: seq<Query>, m: nat, s: Tables, results: seq<Rows>, args: seq<Val>,
                   input: Input)
    requires Unfailing(env) && m < |qs| && RunUpTo(EngineOf(env), t, qs, m) == Going(s, results)
    requires s == Placed(t, input)
    requires EvaluateAll(Params(qs[m]), results) == Some(args)
    requires var effect := Exec(env, s, qs[m].text, args);
             if ListingGiven(input) then
               if ReferencesThere(t, input)
               then effect == Done(s.(listings := t.listings.Insert(RowAsked(t, input))),
                                   Returning(COL_LISTING_ID, t.listings.serial))
               else effect.Refused? && ReferenceBroken(effect.code)
             else effect.Refused?
    ensures RowRuns(t, RunUpTo(EngineOf(env), t, qs, m + 1), input)
  {
    var effect := Exec(env, s, qs[m].text, args);
    if effect.Done? {
      RunGoes(env, t, qs, m, s, results, args, effect.db, effect.rows);
    } else {
      RunStops(env, t, qs, m, s, results, args, effect.code);
    }
  }

  lemma RowRunsWithAddress(env: Env, t: Tables, qs: seq<Query>, input: Input)
    requires Unfailing(env) && CreatePlan(qs, 2, input)
    ensures RowRuns(t, RunUpTo(EngineOf(env), t, qs, 2), input)
  {
    var first := [PartOf(input, COUNTRY), PartOf(input, REGION), PartOf(input, POSTCODE), Field(input, ACCOUNT_ID)];
    assert EvaluateAll(Params(qs[0]), []).value == first;
    assert RunUpTo(EngineOf(env), t, qs, 0) == Going(t, []);
    AddressRuns(env, t, input);
    var effect := Exec(env, t, InsertAddress, first);
    if effect.Refused? {
      RunStops(env, t, qs, 0, t, [], first, effect.code);
    } else {
      RunGoes(env, t, qs, 0, t, [], first, effect.db, effect.rows);
      var results, address := [effect.rows], Num(t.addresses.serial);
      var args := [Field(input, ACCOUNT_ID), Field(input, TITLE), Field(input, DESCRIPTION), Field(input, CONDITION),
                   address, Field(input, CATEGORY_ID)];
      assert [] + [effect.rows] == results && Evaluate(Deferred(FirstAddress), results) == Some(address);
      assert EvaluateAll(Params(qs[1]), results).value == args;
      InsertStatement(env, effect.db, input, address);
      InsertRuns(t, effect.db, input, address);
      RowSettles(env, t, qs, 1, effect.db, results, args, input);
    }
  }

  // ---------------------------------------------------------------- create-listing: its media

  /** The run after the first i media rows of the listing that was added. */
  ghost predicate MediaRun(s: Tables, run: Progress<Tables>, p: nat, l: int, input: Input, i: nat) {
    && run.Going? && |run.results| == p + i && p > 0 && run.results[p - 1] == Returning(COL_LISTING_ID, l)
    && Stored(s, run.db, l, input, i)
  }

  lemma OneMediaRow(t: Tables, s: Tables, l: int, input: Input, i: nat)
    requires Stored(t, s, l, input, i) && i < |MediaUrls(input)| && l in t.listings.rows
    requires (l, i as int) !in t.listingMedia
    ensures var mimetype, url := input[MIME_TYPE].items[i], input[URL].items[i];
            InsertListingMediaRow(s, mimetype, url, Int(i), Int(l)).Done? <==> !IsNull(mimetype) && !IsNull(url)
  {
  }

  lemma MediaStatement(env: Env, s: Tables, l: int, input: Input, i: nat)
    requires MediaFields(input, |MediaUrls(input)|) && i < |MediaUrls(input)|
    ensures Exec(env, s, InsertListingMedia, [input[MIME_TYPE].items[i], input[URL].items[i], Num(i), Num(l)])
         == InsertListingMediaRow(s, input[MIME_TYPE].items[i], input[URL].items[i], Int(i), Int(l))
  {
  }

  lemma MediaEffect(env: Env, t: Tables, s: Tables, l: int, input: Input, i: nat)
    requires Stored(t, s, l, input, i) && i < |MediaUrls(input)| && l in t.listings.rows
    requires (l, i as int) !in t.listingMedia
    ensures var effect := Exec(env, s, InsertListingMedia,
                               [input[MIME_TYPE].items[i], input[URL].items[i], Num(i), Num(l)]);
            if UploadGiven(input, i) then effect.Done? && Stored(t, effect.db, l, input, i + 1) else effect.Refused?
  {
    MediaStatement(env, s, l, input, i);
    OneMediaRow(t, s, l, input, i);
    InsertStores(env, t, s, l, input, i);
  }

  lemma OneMediaMore(s: Tables, run: Progress<Tables>, s': Tables, rows: Rows, p: nat, l: int, input: Input, i: nat)
    requires MediaRun(s, run, p, l, input, i) && Stored(s, s', l, input, i + 1)
    ensures MediaRun(s, Going(s', run.results + [rows]), p, l, input, i + 1)
  {
  }

  /** What the i-th media statement makes of the run. */
  lemma MediaRan(env: Env, t: Tables, qs: seq<Query>, p: nat, run: Progress<Tables>, s: Tables, l: int, input: Input,
                 i: nat)
    requires Unfailing(env) && MediaFields(input, |MediaUrls(input)|) && i < |MediaUrls(input)| && 0 < p && p + i < |qs|
    requires InsertsOne(qs, p, i, input) && RunUpTo(EngineOf(env), t, qs, p + i) == run
    requires MediaRun(s, run, p, l, input, i)
    ensures var args := [input[MIME_TYPE].items[i], input[URL].items[i], Num(i), Num(l)];
            var effect := Exec(env, run.db, InsertListingMedia, args);
            if effect.Done?
            then RunUpTo(EngineOf(env), t, qs, p + i + 1) == Going(effect.db, run.results + [effect.rows])
            else RunAll(EngineOf(env), t, qs).Stopped?
  {
    InsertArguments(qs, p, l, input, i, run.results);
    MediaSettles(env, t, qs, p + i, run, [input[MIME_TYPE].items[i], input[URL].items[i], Num(i), Num(l)]);
  }

  lemma MediaStep(env: Env, t: Tables, qs: seq<Query>, p: nat, s: Tables, l: int, input: Input, i: nat)
    requires Unfailing(env) && MediaFields(input, |MediaUrls(input)|) && i < |MediaUrls(input)| && 0 < p && p + i < |qs|
    requires InsertsOne(qs, p, i, input) && MediaRun(s, RunUpTo(EngineOf(env), t, qs, p + i), p, l, input, i)
    requires l in s.listings.rows && (l, i as int) !in s.listingMedia
    ensures if UploadGiven(input, i) then MediaRun(s, RunUpTo(EngineOf(env), t, qs, p + i + 1), p, l, input, i + 1)
            else RunAll(EngineOf(env), t, qs).Stopped?
  {
    var run := RunUpTo(EngineOf(env), t, qs, p + i);
    MediaRan(env, t, qs, p, run, s, l, input, i);
    MediaEffect(env, s, run.db, l, input, i);
    if UploadGiven(input, i) {
      var args := [input[MIME_TYPE].items[i], input[URL].items[i], Num(i), Num(l)];
      var effect := Exec(env, run.db, InsertListingMedia, args);
      OneMediaMore(s, run, effect.db, effect.rows, p, l, input, i);
    }
  }

  /** What any statement makes of a run. */
  lemma MediaSettles(env: Env, t: Tables, qs: seq<Query>, m: nat, run: Progress<Tables>, args: seq<Val>)
    requires Unfailing(env) && m < |qs| && run.Going? && RunUpTo(EngineOf(env), t, qs, m) == run
    requires EvaluateAll(Params(qs[m]), run.results) == Some(args)
    ensures var effect := Exec(env, run.db, qs[m].text, args);
            if effect.Done? then RunUpTo(EngineOf(env), t, qs, m + 1) == Going(effect.db, run.results + [effect.rows])
            else RunAll(EngineOf(env), t, qs) == Stopped(QueryExecution(effect.code))
  {
    var effect := Exec(env, run.db, qs[m].text, args);
    if effect.Done? {
      RunGoes(env, t, qs, m, run.db, run.results, args, effect.db, effect.rows);
    } else {
      RunStops(env, t, qs, m, run.db, run.results, args, effect.code);
    }
  }

  /** What the i-th media row makes of a run that got to it. */
  ghost predicate MediaNext(engine: Engine<Tables>, t: Tables, qs: seq<Query>, p: nat, s: Tables, l: int, input: Input,
                            i: nat)
    requires p + i < |qs|
  {
    MediaRun(s, RunUpTo(engine, t, qs, p + i), p, l, input, i) ==>
      if UploadGiven(input, i) then MediaRun(s, RunUpTo(engine, t, qs, p + i + 1), p, l, input, i + 1)
      else RunAll(engine, t, qs).Stopped?
  }

  /** Media rows go through as long as none of their fields is NULL. */
  lemma {:induction false} MediaUpTo(engine: Engine<Tables>, t: Tables, qs: seq<Query>, p: nat, s: Tables, l: int,
                                     input: Input, i: nat)
    requires p + i <= |qs| && forall k :: 0 <= k < i ==> MediaNext(engine, t, qs, p, s, l, input, k)
    requires MediaRun(s, RunUpTo(engine, t, qs, p), p, l, input, 0)
    ensures if GivenUpTo(input, i) then MediaRun(s, RunUpTo(engine, t, qs, p + i), p, l, input, i)
            else RunAll(engine, t, qs).Stopped?
  {
    if i > 0 {
      MediaUpTo(engine, t, qs, p, s, l, input, i - 1);
      assert MediaNext(engine, t, qs, p, s, l, input, i - 1);
    }
  }

  lemma AllMedia(env: Env, t: Tables, qs: seq<Query>, p: nat, s: Tables, l: int, input: Input)
    requires Unfailing(env) && InsertsMedia(qs, p, input)
    requires MediaRun(s, RunUpTo(EngineOf(env), t, qs, p), p, l, input, 0)
    requires l in s.listings.rows && forall x :: (l, x) !in s.listingMedia
    ensures var n := |MediaUrls(input)|;
            if GivenUpTo(input, n) then MediaRun(s, RunUpTo(EngineOf(env), t, qs, p + n), p, l, input, n)
            else RunAll(EngineOf(env), t, qs).Stopped?
  {
    forall k | 0 <= k < |MediaUrls(input)|
      ensures MediaNext(EngineOf(env), t, qs, p, s, l, input, k)
    {
      assert InsertsOne(qs, p, k, input);
      if MediaRun(s, RunUpTo(EngineOf(env), t, qs, p + k), p, l, input, k) {
        MediaStep(env, t, qs, p, s, l, input, k);
      }
    }
    MediaUpTo(EngineOf(env), t, qs, p, s, l, input, |MediaUrls(input)|);
  }

  // ---------------------------------------------------------------- create-listing: the answer

  /** How the whole run ends. */
  ghost predicate CreationRuns(t: Tables, run: Progress<Tables>, p: nat, input: Input) {
    if ListingGiven(input) && ReferencesThere(t, input) && MediaGiven(input)
    then run.Going? && 0 < p <= |run.results| && run.results[p - 1] == Returning(COL_LISTING_ID, t.listings.serial)
    else run.Stopped? && (ListingGiven(input) && !ReferencesThere(t, input) ==> Translated(run.error) == ForeignKey)
  }

  lemma CreationEnds(env: Env, t: Tables, qs: seq<Query>, p: nat, input: Input)
    requires Unfailing(env) && Inv(t) && CreatePlan(qs, p, input) && Usable(input)
    ensures CreationRuns(t, RunAll(EngineOf(env), t, qs), p, input)
  {
    if IsNewAddress(input) {
      RowRunsWithAddress(env, t, qs, input);
    } else {
      RowRunsAlone(env, t, qs, input);
    }
    if RunUpTo(EngineOf(env), t, qs, p).Stopped? {
      RunStaysStopped(EngineOf(env), t, qs, p, |qs|);
    } else if URL in input {
      CreationWithMedia(env, t, qs, p, input);
    }
  }

  lemma CreationWithMedia(env: Env, t: Tables, qs: seq<Query>, p: nat, input: Input)
    requires Unfailing(env) && MediaOk(t) && t.listings.Valid() && InsertsMedia(qs, p, input)
    requires |qs| == p + |MediaUrls(input)|
    requires ListingGiven(input) && ReferencesThere(t, input) && RowRuns(t, RunUpTo(EngineOf(env), t, qs, p), input)
    ensures CreationRuns(t, RunAll(EngineOf(env), t, qs), p, input)
  {
    var run := RunUpTo(EngineOf(env), t, qs, p);
    MediaOfNew(t, run.db, t.listings.serial);
    AllMedia(env, t, qs, p, run.db, t.listings.serial, input);
  }

  lemma MediaOfNew(t: Tables, s: Tables, l: int)
    requires MediaOk(t) && l !in t.listings.rows && s.listingMedia == t.listingMedia
    ensures forall x :: (l, x) !in s.listingMedia
  {
  }

  /** A listing is created exactly if every column has a value, what it refers to is there, and
      the uploads have urls.  If only what it refers to is not there, because there is no such
      account or category or the address is someone else's, that is what is answered; and
      whenever it is refused nothing has changed. */
  lemma CreateListingExactly(env: Env, input: Input, t: Tables)
    requires Unfailing(env) && Inv(t) && Usable(input)
    ensures Defined(CreateListingTemplate())
    ensures var (t', outcome) := StoreOf(CreateListingTemplate(), input, EngineOf(env), env.faults, t);
            && (outcome.Ok? <==> ListingGiven(input) && ReferencesThere(t, input) && MediaGiven(input))
            && (outcome.Ok? ==> outcome.value == [Returning(COL_LISTING_ID, t.listings.serial)])
            && (outcome.Err? ==> t' == t)
            && (ListingGiven(input) && !ReferencesThere(t, input) ==> outcome == Err(ForeignKey))
  {
    var template := CreateListingTemplate();
    var p := CreatePlanOf(input);
    var plan := PlanOf(template, input).value;
    CreationEnds(env, t, plan.queries, p, input);
    StoreIsRun(template, input, env, t);
    CreateListingKeepsOne(input, p);
    CreationPrepared(template, plan.names, RunAll(EngineOf(env), t, plan.queries), p);
  }

  lemma CreationPrepared(template: Template, names: seq<QueryName>, run: Progress<Tables>, p: nat)
    requires 0 < p <= |names| && forall k :: 0 <= k < |names| ==> (Dropped(template, names[k]) <==> k != p - 1)
    ensures run.Going? && |run.results| == |names| && run.results[p - 1] != [] ==>
              Prepared(template, names, run.results) == Ok([run.results[p - 1]])
  {
    if run.Going? && |run.results| == |names| && run.results[p - 1] != [] {
      OnlyOneKept(template, names, run.results, p - 1);
      assert run.results[p - 1] in [run.results[p - 1]];
    }
  }

  // ---------------------------------------------------------------- close-listing

  /** The plan of a close-listing, with its parameters. */
  ghost predicate ClosePlan(qs: seq<Query>, input: Input) {
    && |qs| == 2 && qs[0].text == CloseListing && qs[1].text == CloseListingConversations
    && Params(qs[0])
       == [Plain(Field(input, ACCOUNT_ID)), Plain(Field(input, LISTING_ID)), Plain(Field(input, RECEIVER_ID))]
    && Params(qs[1]) == [Ref(0, COL_LISTING_ID)]
  }

  /** Listing l is closed now, in favour of this receiver if there is one, and with it every
      conversation about it; and nothing else has changed. */
  ghost predicate ClosedNow(t: Tables, t': Tables, l: int, receiver: Option<int>, now: nat) {
    && l in t.listings.rows
    && t' == t.(listings := t'.listings, conversations := t'.conversations)
    && t'.listings.rows == t.listings.rows[l := t.listings.rows[l].(closed := Some(now), receiver := receiver)]
    && t'.conversations.rows.Keys == t.conversations.rows.Keys
    && forall c :: c in t.conversations.rows ==>
         t'.conversations.rows[c] == if t.conversations.rows[c].listing == l
                                     then t.conversations.rows[c].(closed := Some(now)) else t.conversations.rows[c]
  }

  predicate OpenOf(t: Tables, user: int, l: int) {
    l in t.listings.rows && t.listings.rows[l].closed.None? && t.listings.rows[l].contributor == user
  }

  /** The receiver that was sent, if any, has an account. */
  predicate ReceiverThere(t: Tables, receiver: IntParam) {
    receiver.Int? ==> receiver.n in t.accounts.rows
  }

  lemma CloseRow(t: Tables, user: int, l: int, receiver: IntParam, now: nat)
    requires ListingsOk(t) && !receiver.NotInt?
    ensures var effect := UpdateListingRow(t, Int(user), Int(l), SetClosed(now, receiver));
            if !OpenOf(t, user, l) then effect == Done(t, [])
            else if !ReceiverThere(t, receiver) then effect == Refused(ForeignKeyViolation)
            else
              effect == Done(ClosedRow(t, l, AsColumn(receiver), now), Returning(COL_LISTING_ID, l))
  {
    if OpenOf(t, user, l) {
      assert ListingViolation(t, t.listings.rows[l]).None?;
    }
  }

  lemma CloseStatements(env: Env, t: Tables, args: seq<Val>, user: int, l: int)
    requires |args| == 3 && AsInt(args[0]) == Int(user) && AsInt(args[1]) == Int(l)
    ensures Exec(env, t, CloseListing, args)
         == UpdateListingRow(t, Int(user), Int(l), SetClosed(env.now, AsInt(args[2])))
    ensures Exec(env, t, CloseListingConversations, [Num(l)]) == CloseConversationsAbout(t, Int(l), env.now)
  {
  }

  /** How the run ends. */
  ghost predicate ClosingRuns(t: Tables, run: Progress<Tables>, user: int, l: int, receiver: IntParam, now: nat) {
    if !OpenOf(t, user, l) then run == Stopped(Backreference)
    else if !ReceiverThere(t, receiver) then run == Stopped(QueryExecution(ForeignKeyViolation))
    else run.Going? && |run.results| == 2 && run.results[0] == Returning(COL_LISTING_ID, l)
         && ClosedNow(t, run.db, l, AsColumn(receiver), now)
  }

  lemma ClosingEnds(env: Env, t: Tables, qs: seq<Query>, input: Input, user: int, l: int)
    requires Unfailing(env) && ListingsOk(t) && ClosePlan(qs, input) && !IntOf(input, RECEIVER_ID).NotInt?
    requires IntOf(input, ACCOUNT_ID) == Int(user) && IntOf(input, LISTING_ID) == Int(l)
    ensures ClosingRuns(t, RunAll(EngineOf(env), t, qs), user, l, IntOf(input, RECEIVER_ID), env.now)
  {
    var args := [Field(input, ACCOUNT_ID), Field(input, LISTING_ID), Field(input, RECEIVER_ID)];
    assert EvaluateAll(Params(qs[0]), []).value == args;
    assert RunUpTo(EngineOf(env), t, qs, 0) == Going(t, []);
    CloseStatements(env, t, args, user, l);
    CloseRow(t, user, l, IntOf(input, RECEIVER_ID), env.now);
    if !OpenOf(t, user, l) {
      NothingToReferTo(env, t, qs, args, 0);
    } else {
      MediaSettles(env, t, qs, 0, Going(t, []), args);
      if ReceiverThere(t, IntOf(input, RECEIVER_ID)) {
        ClosingGoes(env, t, qs, RunUpTo(EngineOf(env), t, qs, 1), user, l, IntOf(input, RECEIVER_ID));
      }
    }
  }

  /** The tables with the listing closed. */
  function ClosedRow(t: Tables, l: int, receiver: Option<int>, now: nat): Tables
    requires l in t.listings.rows
  {
    t.(listings := t.listings.(rows := t.listings.rows[l :=
         t.listings.rows[l].(closed := Some(now), receiver := receiver)]))
  }

  lemma ThenConversations(t: Tables, l: int, receiver: Option<int>, now: nat)
    requires l in t.listings.rows
    ensures var effect := CloseConversationsAbout(ClosedRow(t, l, receiver, now), Int(l), now);
            effect.Done? && ClosedNow(t, effect.db, l, receiver, now)
  {
  }

  lemma ClosingGoes(env: Env, t: Tables, qs: seq<Query>, run: Progress<Tables>, user: int, l: int, receiver: IntParam)
    requires Unfailing(env) && |qs| == 2 && qs[1].text == CloseListingConversations
    requires Params(qs[1]) == [Ref(0, COL_LISTING_ID)]
    requires OpenOf(t, user, l) && ReceiverThere(t, receiver) && RunUpTo(EngineOf(env), t, qs, 1) == run
    requires run == Going(ClosedRow(t, l, AsColumn(receiver), env.now), [] + [Returning(COL_LISTING_ID, l)])
    ensures ClosingRuns(t, RunAll(EngineOf(env), t, qs), user, l, receiver, env.now)
  {
    assert run.results == [Returning(COL_LISTING_ID, l)] && Evaluate(Params(qs[1])[0], run.results) == Some(Num(l));
    assert EvaluateAll(Params(qs[1]), run.results).value == [Num(l)];
    CloseStatements(env, run.db, [Num(0), Num(l), Null], 0, l);
    ThenConversations(t, l, AsColumn(receiver), env.now);
    MediaSettles(env, t, qs, 1, run, [Num(l)]);
  }

  lemma CloseListingBuilds(input: Input)
    requires Usable(input)
    ensures Defined(CloseListingTemplate()) && PlanOf(CloseListingTemplate(), input).Ok?
    ensures CloseListingTemplate().errorOnEmptyResponse
    ensures ClosePlan(PlanOf(CloseListingTemplate(), input).value.queries, input)
    ensures AllPlain(PlanOf(CloseListingTemplate(), input).value.queries[0])
  {
    ShippedTemplatesBuild(CloseListingAction, input);
    CloseListingPlan(input);
    CloseListingArguments(input);
  }

  lemma CloseListingOffsets(input: Input)
    requires Defined(CloseListingTemplate())
    ensures var t := CloseListingTemplate();
            && |t.order| == 2 && Copies(t, input, 0) == 1 && Copies(t, input, 1) == 1
            && Offset(t, input, 0) == 0 && Offset(t, input, 1) == 1 && Offset(t, input, 2) == 2
  {
    var t := CloseListingTemplate();
    assert Copies(t, input, 0) == 1;
    assert Copies(t, input, 1) == 1;
    assert Offset(t, input, 1) == Offset(t, input, 0) + Copies(t, input, 0);
    assert Offset(t, input, 2) == Offset(t, input, 1) + Copies(t, input, 1);
  }

  lemma CloseListingDrops(input: Input)
    requires Defined(CloseListingTemplate()) && PlanOf(CloseListingTemplate(), input).Ok?
    ensures var names := PlanOf(CloseListingTemplate(), input).value.names;
            |names| == 2 && forall k :: 0 <= k < 2 ==> (Dropped(CloseListingTemplate(), names[k]) <==> k != 0)
  {
    var t := CloseListingTemplate();
    CloseListingOffsets(input);
    PlanLength(t, input);
    forall k: nat | k < 2
      ensures Dropped(t, PlanOf(t, input).value.names[k]) <==> k != 0
    {
      ParameterMatrix(t, input, k, 0);
    }
  }

  /** A listing is closed, with every conversation about it, exactly if it is an open one of
      the caller and the receiver, if one was sent, has an account; otherwise nothing changes. */
  lemma CloseListingExactly(env: Env, input: Input, t: Tables, user: int, l: int)
    requires Unfailing(env) && Inv(t) && Usable(input) && !IntOf(input, RECEIVER_ID).NotInt?
    requires IntOf(input, ACCOUNT_ID) == Int(user) && IntOf(input, LISTING_ID) == Int(l)
    ensures Defined(CloseListingTemplate())
    ensures var (t', outcome) := StoreOf(CloseListingTemplate(), input, EngineOf(env), env.faults, t);
            if !OpenOf(t, user, l) then t' == t && outcome == Err(Backreference)
            else if !ReceiverThere(t, IntOf(input, RECEIVER_ID)) then t' == t && outcome == Err(ForeignKey)
            else outcome == Ok([Returning(COL_LISTING_ID, l)])
                 && ClosedNow(t, t', l, AsColumn(IntOf(input, RECEIVER_ID)), env.now)
  {
    var template := CloseListingTemplate();
    CloseListingBuilds(input);
    var plan := PlanOf(template, input).value;
    var run := RunAll(EngineOf(env), t, plan.queries);
    ClosingEnds(env, t, plan.queries, input, user, l);
    StoreIsRun(template, input, env, t);
    CloseListingDrops(input);
    if run.Going? {
      PreparedFirst(template, plan.names, run.results);
    }
  }
}
