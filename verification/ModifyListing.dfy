/** modify-listing from the input to the row: which columns it changes and to what, and when
    its caller is told that it did. */
module ModifyListing {
  import opened Values
  import opened Vocabulary
  import opened SqlTemplate
  import opened PlanShape
  import opened Execution
  import opened Database
  import opened Store
  import opened Schema
  import opened Statements
  import opened Invariants
  import opened Runs
  import opened Templates
  import opened Builds
  import opened Transactions
  import opened Uploads
  import opened Listings
  import opened HardCodedIndex
  import opened CreateListing

  // ---------------------------------------------------------------- the plan

  /** The five statements that change one column each, in the order of the template. */
  function ColumnText(k: nat): Sql {
    if k == 1 then ChangeTitle else if k == 2 then ChangeDescription else if k == 3 then ChangeAddress
    else if k == 4 then ChangeCategory else ChangeCondition
  }

  function ColumnKey(k: nat): Key {
    if k == 1 then TITLE else if k == 2 then DESCRIPTION else if k == 3 then LOCATION
    else if k == 4 then CATEGORY_ID else CONDITION
  }

  function User(input: Input): Val {
    InputValue(input, ACCOUNT_ID, 1, 0)
  }

  function ListingAsked(input: Input): Val {
    InputValue(input, LISTING_ID, 1, 0)
  }

  function ColumnParam(input: Input, k: nat): Param {
    if k == 3 then if IsNewAddress(input) then Deferred(FirstAddress) else Plain(Lookup(input, LOCATION))
    else Plain(InputValue(input, ColumnKey(k), 1, 0))
  }

  ghost predicate ChangesColumn(q: Query, input: Input, k: nat) {
    q.text == ColumnText(k) && Params(q) == [Plain(User(input)), Plain(ListingAsked(input)), ColumnParam(input, k)]
  }

  /** How many statements stand before the k-th of the template, for k up to the media. */
  function Before(input: Input, k: nat): nat {
    if k == 0 then 0
    else Before(input, k - 1)
         + if k == 1 then if IsNewAddress(input) then 1 else 0 else if ColumnKey(k - 1) in input then 1 else 0
  }

  /** create_address and the statements of the columns are where they have to be. */
  ghost predicate Columns(qs: seq<Query>, input: Input) {
    && |qs| > 0 && (IsNewAddress(input) ==> CreatesAddress(qs[0], input))
    && forall k :: 1 <= k <= 5 && ColumnKey(k) in input ==>
         Before(input, k) < |qs| && ChangesColumn(qs[Before(input, k)], input, k)
  }

  ghost predicate Modifies(qs: seq<Query>, input: Input) {
    ModifiesListing(qs, Before(input, 6), input) && Columns(qs, input) && AllPlain(qs[0])
  }

  function ColumnCons(k: nat): ValueCons {
    if k == 3 then AddressToUse() else FromInput(ColumnKey(k))
  }

  ghost predicate IsColumn(d: QueryDef, k: nat) {
    && d.text == ColumnText(k) && d.condition == Some(Has(ColumnKey(k))) && d.times.None?
    && d.values == Some([FromInput(ACCOUNT_ID), FromInput(LISTING_ID), ColumnCons(k)])
  }

  /** What matters of the template up to its media. */
  ghost predicate Shape(t: Template, input: Input) {
    && Defined(t) && |t.order| == 8
    && t.order[0] == CREATE_ADDRESS && (forall k :: 1 <= k <= 5 ==> t.order[k] != CREATE_ADDRESS)
    && t.dict[CREATE_ADDRESS].text == InsertAddress
    && t.dict[CREATE_ADDRESS].values ==
         Some([Member(LOCATION, COUNTRY), Member(LOCATION, REGION), Member(LOCATION, POSTCODE), FromInput(ACCOUNT_ID)])
    && Activation(t.dict[CREATE_ADDRESS], input) == Ok(if IsNewAddress(input) then Some(1) else None)
    && forall k :: 1 <= k <= 5 ==> IsColumn(t.dict[t.order[k]], k)
  }

  lemma TextColumn(k: nat)
    requires 1 <= k <= 2
    ensures IsColumn(ModifyListingTemplate().dict[ModifyListingTemplate().order[k]], k)
  {
  }

  lemma OtherColumn(k: nat)
    requires 3 <= k <= 5
    ensures IsColumn(ModifyListingTemplate().dict[ModifyListingTemplate().order[k]], k)
  {
  }

  lemma ShapeOfTemplate(input: Input)
    ensures Shape(ModifyListingTemplate(), input)
  {
    ShippedDefined(ModifyListingAction);
    var t := ModifyListingTemplate();
    forall k | 1 <= k <= 5
      ensures IsColumn(t.dict[t.order[k]], k)
    {
      if k <= 2 {
        TextColumn(k);
      } else {
        OtherColumn(k);
      }
    }
  }

  lemma ColumnCopies(t: Template, input: Input, k: nat)
    requires Shape(t, input) && k <= 5
    ensures Copies(t, input, k) == Before(input, k + 1) - Before(input, k)
    ensures k > 0 ==> (Copies(t, input, k) == if ColumnKey(k) in input then 1 else 0)
  {
    if k > 0 {
      assert IsColumn(t.dict[t.order[k]], k);
    }
  }

  lemma {:induction false} OffsetIsBefore(t: Template, input: Input, k: nat)
    requires Shape(t, input) && k <= 6
    ensures Offset(t, input, k) == Before(input, k)
  {
    if k > 0 {
      OffsetIsBefore(t, input, k - 1);
      ColumnCopies(t, input, k - 1);
    }
  }

  lemma ColumnEntry(t: Template, input: Input, k: nat)
    requires Shape(t, input) && PlanOf(t, input).Ok? && 1 <= k <= 5 && ColumnKey(k) in input
    ensures Before(input, k) < |PlanOf(t, input).value.queries|
    ensures ChangesColumn(PlanOf(t, input).value.queries[Before(input, k)], input, k)
  {
    ColumnCopies(t, input, k);
    OffsetIsBefore(t, input, k);
    ParameterMatrix(t, input, k, 0);
    assert IsColumn(t.dict[t.order[k]], k);
    var plan := PlanOf(t, input).value;
    var ps, cs := Params(plan.queries[Before(input, k)]), t.dict[t.order[k]].values.value;
    assert CompiledTo(t, input, k, 0, plan.names, cs[0], ps[0]);
    assert CompiledTo(t, input, k, 0, plan.names, cs[1], ps[1]);
    assert CompiledTo(t, input, k, 0, plan.names, cs[2], ps[2]);
    if k == 3 {
      AddressIsNamed(t, input);
    }
  }

  /** change_location sees create_address among the names before it exactly if that runs. */
  lemma AddressIsNamed(t: Template, input: Input)
    requires Shape(t, input) && PlanOf(t, input).Ok?
    ensures Offset(t, input, 3) <= |PlanOf(t, input).value.names|
    ensures CREATE_ADDRESS in PlanOf(t, input).value.names[..Offset(t, input, 3)] <==> IsNewAddress(input)
  {
    PlanLength(t, input);
    NamesPrefix(t, input, 3, 8);
    if IsNewAddress(input) {
      ParameterMatrix(t, input, 0, 0);
      NamesPrefix(t, input, 1, 3);
      assert PlanOf(t, input).value.names[..Offset(t, input, 3)][0] == CREATE_ADDRESS;
    } else {
      forall at | 0 <= at < Offset(t, input, 3)
        ensures PlanOf(t, input).value.names[at] != CREATE_ADDRESS
      {
        AddressIsNotNamed(t, input, at);
      }
    }
  }

  lemma AddressIsNotNamed(t: Template, input: Input, at: nat)
    requires Shape(t, input) && PlanOf(t, input).Ok? && !IsNewAddress(input) && at < Offset(t, input, 3)
    ensures at < |PlanOf(t, input).value.names| && PlanOf(t, input).value.names[at] != CREATE_ADDRESS
  {
    var k, i := Locate(t, input, 3, at);
    ParameterMatrix(t, input, k, i);
    PlanLength(t, input);
    ColumnCopies(t, input, 0);
  }

  lemma AddressEntry(t: Template, input: Input)
    requires Shape(t, input) && PlanOf(t, input).Ok? && IsNewAddress(input)
    ensures |PlanOf(t, input).value.queries| > 0 && CreatesAddress(PlanOf(t, input).value.queries[0], input)
  {
    ParameterMatrix(t, input, 0, 0);
    var plan := PlanOf(t, input).value;
    var ps, cs := Params(plan.queries[0]), t.dict[t.order[0]].values.value;
    assert CompiledTo(t, input, 0, 0, plan.names, cs[0], ps[0]);
    assert CompiledTo(t, input, 0, 0, plan.names, cs[1], ps[1]);
    assert CompiledTo(t, input, 0, 0, plan.names, cs[2], ps[2]);
    assert CompiledTo(t, input, 0, 0, plan.names, cs[3], ps[3]);
  }

  lemma PlanModifies(input: Input)
    requires Usable(input) && Defined(ModifyListingTemplate()) && PlanOf(ModifyListingTemplate(), input).Ok?
    ensures Modifies(PlanOf(ModifyListingTemplate(), input).value.queries, input)
  {
    var p := ModifyListingPlan(input);
    ShapeOfTemplate(input);
    ShippedOneQueryPlansArePlain(ModifyListingAction, input);
    ShapeModifies(ModifyListingTemplate(), input);
  }

  lemma ShapeModifies(t: Template, input: Input)
    requires Shape(t, input) && t.errorOnEmptyTransaction && PlanOf(t, input).Ok? && DefersOnlyLater(t, input)
    requires ModifiesListing(PlanOf(t, input).value.queries, Offset(t, input, 6), input)
    ensures Modifies(PlanOf(t, input).value.queries, input)
  {
    var qs := PlanOf(t, input).value.queries;
    OffsetIsBefore(t, input, 6);
    FirstQueryIsPlain(t, input);
    if IsNewAddress(input) {
      AddressEntry(t, input);
    }
    forall k | 1 <= k <= 5 && ColumnKey(k) in input
      ensures Before(input, k) < |qs| && ChangesColumn(qs[Before(input, k)], input, k)
    {
      ColumnEntry(t, input, k);
    }
  }

  // ---------------------------------------------------------------- the row

  /** What the first k - 1 statements of the template make of listing l. */
  ghost predicate RowAfter(t: Tables, s: Tables, l: int, input: Input, k: nat)
    requires l in t.listings.rows
  {
    && s.listings.rows.Keys == t.listings.rows.Keys
    && (forall other :: other in t.listings.rows && other != l ==> s.listings.rows[other] == t.listings.rows[other])
    && s.addresses == (if IsNewAddress(input) then NewAddress(t, input) else t.addresses)
    && var row, was := s.listings.rows[l], t.listings.rows[l];
       && row.contributor == was.contributor && row.closed == was.closed && row.receiver == was.receiver
       && row.title == (if k > 1 && TITLE in input then InputValue(input, TITLE, 1, 0) else was.title)
       && row.description
          == (if k > 2 && DESCRIPTION in input then InputValue(input, DESCRIPTION, 1, 0) else was.description)
       && (if k > 3 && LOCATION in input then AsInt(AddressOf(t, input)) == Int(row.address)
           else row.address == was.address)
       && row.category
          == (if k > 4 && CATEGORY_ID in input then AsColumn(AsInt(InputValue(input, CATEGORY_ID, 1, 0)))
              else was.category)
       && row.condition == (if k > 5 && CONDITION in input then InputValue(input, CONDITION, 1, 0) else was.condition)
  }

  /** The addresses after create_address. */
  function NewAddress(t: Tables, input: Input): Table<Address> {
    var user := AsInt(User(input));
    t.addresses.Insert(Schema.Address(PartOf(input, COUNTRY), PartOf(input, REGION), PartOf(input, POSTCODE),
                                      if user.Int? then user.n else 0))
  }

  function AddressOf(t: Tables, input: Input): Val {
    if IsNewAddress(input) then Num(t.addresses.serial) else Lookup(input, LOCATION)
  }

  function ColumnChange(t: Tables, input: Input, k: nat): ListingChange {
    var v := InputValue(input, ColumnKey(k), 1, 0);
    if k == 1 then SetTitle(v) else if k == 2 then SetDescription(v)
    else if k == 3 then SetAddress(AsInt(AddressOf(t, input)))
    else if k == 4 then SetCategory(AsInt(v)) else SetCondition(v)
  }

  lemma ColumnExec(env: Env, t: Tables, s: Tables, input: Input, k: nat, third: Val)
    requires 1 <= k <= 5 && third == if k == 3 then AddressOf(t, input) else InputValue(input, ColumnKey(k), 1, 0)
    ensures Exec(env, s, ColumnText(k), [User(input), ListingAsked(input), third])
         == UpdateListingRow(s, AsInt(User(input)), AsInt(ListingAsked(input)), ColumnChange(t, input, k))
  {
  }

  /** One of the statements, on the listing that the caller owns. */
  lemma ColumnStep(t: Tables, s: Tables, l: int, input: Input, k: nat, s': Tables, rows: Rows)
    requires 1 <= k <= 5 && ColumnKey(k) in input && l in t.listings.rows && RowAfter(t, s, l, input, k)
    requires AsInt(User(input)).Int? && AsInt(ListingAsked(input)) == Int(l) && OwnOpen(s, AsInt(User(input)).n, l)
    requires UpdateListingRow(s, AsInt(User(input)), AsInt(ListingAsked(input)), ColumnChange(t, input, k))
             == Done(s', rows)
    ensures RowAfter(t, s', l, input, k + 1) && OwnOpen(s', AsInt(User(input)).n, l) && OnlyRows(s, s')
    ensures rows == Returning(COL_LISTING_ID, l)
  {
  }

  /** The arguments that the statement is sent with. */
  lemma ColumnArguments(t: Tables, q: Query, input: Input, k: nat, results: seq<Rows>)
    requires ChangesColumn(q, input, k)
    requires k == 3 && IsNewAddress(input) ==>
               results != [] && results[0] == Returning(COL_ADDRESS_ID, t.addresses.serial)
    ensures EvaluateAll(Params(q), results)
         == Some([User(input), ListingAsked(input), if k == 3 then AddressOf(t, input)
                                                    else InputValue(input, ColumnKey(k), 1, 0)])
  {
    var third := if k == 3 then AddressOf(t, input) else InputValue(input, ColumnKey(k), 1, 0);
    assert Evaluate(ColumnParam(input, k), results) == Some(third);
    assert EvaluateAll(Params(q), results).value == [User(input), ListingAsked(input), third];
  }

  lemma FirstResultIsAddress(env: Env, qs: seq<Query>, states: seq<Tables>, results: seq<Rows>, input: Input)
    requires Chain(env, qs, states, results) && |qs| > 0 && IsNewAddress(input) && CreatesAddress(qs[0], input)
    ensures results[0] == Returning(COL_ADDRESS_ID, states[0].addresses.serial)
    ensures AsInt(User(input)).Int? && states[1] == states[0].(addresses := NewAddress(states[0], input))
  {
    assert Link(env, qs, states, results, 0);
    assert EvaluateAll(Params(qs[0]), results[..0]).value
        == [PartOf(input, COUNTRY), PartOf(input, REGION), PartOf(input, POSTCODE), User(input)];
    AddressInserted(env, states[0], input, states[1], results[0]);
  }

  /** s differs from t in listings and addresses at most. */
  predicate OnlyRows(t: Tables, s: Tables) {
    s == t.(listings := s.listings, addresses := s.addresses)
  }

  /** The state before the k-th statement of the template is as far as it should be. */
  ghost predicate OnTrack(states: seq<Tables>, l: int, input: Input, k: nat) {
    && 0 < |states| && Before(input, k) < |states| && l in states[0].listings.rows
    && OnlyRows(states[0], states[Before(input, k)])
    && RowAfter(states[0], states[Before(input, k)], l, input, k)
    && AsInt(User(input)).Int? && OwnOpen(states[Before(input, k)], AsInt(User(input)).n, l)
  }

  lemma {:induction false} RowSoFar(env: Env, qs: seq<Query>, states: seq<Tables>, results: seq<Rows>, l: int,
                                    input: Input, k: nat)
    requires Chain(env, qs, states, results) && Columns(qs, input) && 1 <= k <= 6
    requires Found(states[0], User(input), ListingAsked(input)) == Some(l)
    ensures OnTrack(states, l, input, k)
  {
    if k == 1 {
      RowAtFirst(env, qs, states, results, l, input);
    } else {
      RowSoFar(env, qs, states, results, l, input, k - 1);
      if ColumnKey(k - 1) in input {
        ColumnLink(env, qs, states, results, l, input, k - 1);
      } else {
        RowSkips(states, l, input, k - 1);
      }
    }
  }

  lemma RowAtFirst(env: Env, qs: seq<Query>, states: seq<Tables>, results: seq<Rows>, l: int, input: Input)
    requires Chain(env, qs, states, results) && |qs| > 0 && (IsNewAddress(input) ==> CreatesAddress(qs[0], input))
    requires Found(states[0], User(input), ListingAsked(input)) == Some(l)
    ensures OnTrack(states, l, input, 1)
  {
    assert Before(input, 1) == if IsNewAddress(input) then 1 else 0;
    if IsNewAddress(input) {
      FirstResultIsAddress(env, qs, states, results, input);
    }
  }

  lemma RowSkips(states: seq<Tables>, l: int, input: Input, k: nat)
    requires OnTrack(states, l, input, k) && 1 <= k <= 5 && ColumnKey(k) !in input
    ensures OnTrack(states, l, input, k + 1)
  {
    assert Before(input, k + 1) == Before(input, k);
  }

  lemma ColumnLink(env: Env, qs: seq<Query>, states: seq<Tables>, results: seq<Rows>, l: int, input: Input, k: nat)
    requires Chain(env, qs, states, results) && Columns(qs, input) && 1 <= k <= 5 && ColumnKey(k) in input
    requires Found(states[0], User(input), ListingAsked(input)) == Some(l) && OnTrack(states, l, input, k)
    ensures OnTrack(states, l, input, k + 1) && results[Before(input, k)] == Returning(COL_LISTING_ID, l)
  {
    var t, at := states[0], Before(input, k);
    assert Before(input, k + 1) == at + 1;
    var third := if k == 3 then AddressOf(t, input) else InputValue(input, ColumnKey(k), 1, 0);
    assert Link(env, qs, states, results, at) && ChangesColumn(qs[at], input, k);
    if k == 3 && IsNewAddress(input) {
      FirstResultIsAddress(env, qs, states, results, input);
    }
    ColumnArguments(t, qs[at], input, k, results[..at]);
    ColumnExec(env, t, states[at], input, k, third);
    ColumnStep(t, states[at], l, input, k, states[at + 1], results[at]);
  }

  // ---------------------------------------------------------------- the other statements

  predicate ChangesMediaOnly(sql: Sql) {
    sql.UpsertListingMedia? || sql.DropExtraMedia?
  }

  lemma UpdateKeepsOwners(t: Tables, user: IntParam, listing: IntParam, change: ListingChange, u: int, l: int)
    requires !change.SetClosed?
    ensures var effect := UpdateListingRow(t, user, listing, change);
            effect.Done? ==> (OwnOpen(effect.db, u, l) <==> OwnOpen(t, u, l))
  {
  }

  /** A statement of modify-listing neither opens nor closes a listing, nor gives one away. */
  lemma StepKeepsOwners(env: Env, t: Tables, sql: Sql, args: seq<Val>, u: int, l: int)
    requires ChangesRow(sql) || ChangesMediaOnly(sql)
    ensures var effect := Exec(env, t, sql, args); effect.Done? ==> (OwnOpen(effect.db, u, l) <==> OwnOpen(t, u, l))
  {
    if ChangesMediaOnly(sql) {
      MediaStepKeepsRows(env, t, sql, args);
    } else if |args| == Arity(sql) {
      match sql {
        case ChangeTitle => UpdateKeepsOwners(t, AsInt(args[0]), AsInt(args[1]), SetTitle(args[2]), u, l);
        case ChangeDescription => UpdateKeepsOwners(t, AsInt(args[0]), AsInt(args[1]), SetDescription(args[2]), u, l);
        case ChangeCondition => UpdateKeepsOwners(t, AsInt(args[0]), AsInt(args[1]), SetCondition(args[2]), u, l);
        case ChangeAddress => UpdateKeepsOwners(t, AsInt(args[0]), AsInt(args[1]), SetAddress(AsInt(args[2])), u, l);
        case ChangeCategory => UpdateKeepsOwners(t, AsInt(args[0]), AsInt(args[1]), SetCategory(AsInt(args[2])), u, l);
        case _ =>
      }
    }
  }

  lemma {:induction false} OwnersStay(env: Env, qs: seq<Query>, states: seq<Tables>, results: seq<Rows>, m: nat, u: int,
                                      l: int)
    requires Chain(env, qs, states, results) && m <= |qs|
    requires forall k :: 0 <= k < m ==> ChangesRow(qs[k].text) || ChangesMediaOnly(qs[k].text)
    ensures OwnOpen(states[m], u, l) <==> OwnOpen(states[0], u, l)
  {
    if m > 0 {
      OwnersStay(env, qs, states, results, m - 1, u, l);
      assert Link(env, qs, states, results, m - 1);
      StepKeepsOwners(env, states[m - 1], qs[m - 1].text, EvaluateAll(Params(qs[m - 1]), results[..m - 1]).value, u, l);
    }
  }

  lemma MediaStepKeepsRows(env: Env, t: Tables, sql: Sql, args: seq<Val>)
    requires ChangesMediaOnly(sql)
    ensures var effect := Exec(env, t, sql, args);
            effect.Done? ==> effect.db.listings == t.listings && effect.db.addresses == t.addresses
  {
  }

  /** Every statement of the plan is one or the other. */
  lemma TextsOfPlan(qs: seq<Query>, input: Input)
    requires Modifies(qs, input)
    ensures Before(input, 6) <= |qs|
    ensures forall k :: 0 <= k < Before(input, 6) ==> ChangesRow(qs[k].text)
    ensures forall k :: Before(input, 6) <= k < |qs| ==> ChangesMediaOnly(qs[k].text)
    ensures forall k :: 0 <= k < |qs| ==> ChangesRow(qs[k].text) || ChangesMediaOnly(qs[k].text)
  {
    var p := Before(input, 6);
    forall k | p <= k < |qs|
      ensures ChangesMediaOnly(qs[k].text)
    {
      if k < |qs| - 1 {
        assert EmitsChange(qs, p, k - p, input);
      }
    }
  }

  /** A committed modify-listing on an open listing of the caller: exactly the columns that
      were sent have their new values, the media are the uploads if there are any and else
      what they were, and nothing else has changed but that an address may have been added. */
  lemma ListingModified(env: Env, input: Input, t: Tables, t': Tables, l: int)
    requires Usable(input) && Defined(ModifyListingTemplate()) && PlanOf(ModifyListingTemplate(), input).Ok? && Inv(t)
    requires Commits(env, t, PlanOf(ModifyListingTemplate(), input).value.queries, t')
    requires Found(t, User(input), ListingAsked(input)) == Some(l)
    ensures RowAfter(t, t', l, input, 6)
    ensures if URL in input then MediaAre(t', l, input) else t'.listingMedia == t.listingMedia
    ensures OnlyListing(t, t', l)
  {
    PlanModifies(input);
    ModifiedRow(env, PlanOf(ModifyListingTemplate(), input).value.queries, input, t, t', l);
  }

  lemma ModifiedRow(env: Env, qs: seq<Query>, input: Input, t: Tables, t': Tables, l: int)
    requires Modifies(qs, input) && Commits(env, t, qs, t')
    requires Found(t, User(input), ListingAsked(input)) == Some(l) && MediaContiguous(t)
    ensures RowAfter(t, t', l, input, 6) && OnlyListing(t, t', l)
    ensures if URL in input then MediaAre(t', l, input) else t'.listingMedia == t.listingMedia
  {
    var states, results := CommitAsChain(env, t, qs, t');
    RowSoFar(env, qs, states, results, l, input, 6);
    var s := states[Before(input, 6)];
    RowThenMedia(t, s, s, l, input);
    if URL in input {
      UploadsReplaceMedia(env, qs, states, results, Before(input, 6), input);
      RowThenMedia(t, s, t', l, input);
    }
  }

  lemma RowThenMedia(t: Tables, s: Tables, t': Tables, l: int, input: Input)
    requires l in t.listings.rows && RowAfter(t, s, l, input, 6) && OnlyRows(t, s) && OnlyMediaOf(s, t', l)
    ensures RowAfter(t, t', l, input, 6) && OnlyListing(t, t', l)
  {
    var changed := t.listings.rows[l := s.listings.rows[l]];
    assert changed.Keys == t.listings.rows.Keys;
    assert forall k :: k in changed ==> changed[k] == s.listings.rows[k];
    assert s.listings.rows == changed;
  }

  // ---------------------------------------------------------------- the answer

  /** On any other listing no statement but create_address returns a row or changes anything. */
  lemma NothingReturned(env: Env, qs: seq<Query>, states: seq<Tables>, results: seq<Rows>, input: Input, at: nat)
    requires Chain(env, qs, states, results) && Modifies(qs, input) && at < |qs|
    requires Found(states[0], User(input), ListingAsked(input)).None? && !(at == 0 && IsNewAddress(input))
    ensures results[at] == [] && states[at + 1] == states[at]
  {
    TextsOfPlan(qs, input);
    var user, listing := AsInt(User(input)), AsInt(ListingAsked(input));
    if user.Int? && listing.Int? {
      OwnersStay(env, qs, states, results, at, user.n, listing.n);
    }
    if at < Before(input, 6) {
      var k := ColumnAt(input, 6, at);
      ColumnFindsNothing(env, qs, states, results, input, k);
    } else {
      MediaFindsNothing(env, qs, states, results, input, at);
    }
  }

  lemma {:induction false} ColumnAt(input: Input, n: nat, at: nat) returns (k: nat)
    requires at < Before(input, n) && n <= 6 && !(at == 0 && IsNewAddress(input))
    ensures 1 <= k < n && ColumnKey(k) in input && Before(input, k) == at
  {
    if n > 1 && at < Before(input, n - 1) {
      k := ColumnAt(input, n - 1, at);
    } else {
      k := n - 1;
    }
  }

  lemma ColumnFindsNothing(env: Env, qs: seq<Query>, states: seq<Tables>, results: seq<Rows>, input: Input, k: nat)
    requires Chain(env, qs, states, results) && Columns(qs, input) && 1 <= k <= 5 && ColumnKey(k) in input
    requires Before(input, k) < |qs| && Found(states[Before(input, k)], User(input), ListingAsked(input)).None?
    ensures results[Before(input, k)] == [] && states[Before(input, k) + 1] == states[Before(input, k)]
  {
    var t, at := states[0], Before(input, k);
    var third := if k == 3 then AddressOf(t, input) else InputValue(input, ColumnKey(k), 1, 0);
    assert Link(env, qs, states, results, at) && ChangesColumn(qs[at], input, k);
    if k == 3 && IsNewAddress(input) {
      FirstResultIsAddress(env, qs, states, results, input);
    }
    ColumnArguments(t, qs[at], input, k, results[..at]);
    ColumnExec(env, t, states[at], input, k, third);
  }

  lemma MediaFindsNothing(env: Env, qs: seq<Query>, states: seq<Tables>, results: seq<Rows>, input: Input, at: nat)
    requires Chain(env, qs, states, results) && Modifies(qs, input) && Before(input, 6) <= at < |qs|
    requires Found(states[at], User(input), ListingAsked(input)).None?
    ensures results[at] == [] && states[at + 1] == states[at]
  {
    var p, n := Before(input, 6), |MediaUrls(input)|;
    assert Link(env, qs, states, results, at);
    if at < p + n {
      ChangeFindsNothing(env, qs, states, results, p, input, at - p);
    } else {
      PlainArguments(Params(qs[at]), [User(input), ListingAsked(input), Num(n)], results[..at]);
    }
  }

  lemma ChangeFindsNothing(env: Env, qs: seq<Query>, states: seq<Tables>, results: seq<Rows>, p: nat, input: Input,
                           i: nat)
    requires Chain(env, qs, states, results) && ModifiesListing(qs, p, input) && URL in input && i < |MediaUrls(input)|
    requires Found(states[p + i], User(input), ListingAsked(input)).None?
    ensures results[p + i] == [] && states[p + i + 1] == states[p + i]
  {
    assert Link(env, qs, states, results, p + i) && EmitsChange(qs, p, i, input);
    MediaIdsAgree(env, qs, states, results, p, input);
    PlainArguments(Params(qs[p + i]),
                   [User(input), ListingAsked(input), input[MIME_TYPE].items[i], input[URL].items[i], Num(i)],
                   results[..p + i]);
  }

  /** What is left then: the address, if there was one to create. */
  function OnlyAddress(t: Tables, input: Input): Tables {
    if IsNewAddress(input) then t.(addresses := NewAddress(t, input)) else t
  }

  lemma {:induction false} NothingModified(env: Env, qs: seq<Query>, states: seq<Tables>, results: seq<Rows>,
                                           input: Input, m: nat)
    requires Chain(env, qs, states, results) && Modifies(qs, input) && 0 < m <= |qs|
    requires Found(states[0], User(input), ListingAsked(input)).None?
    ensures states[m] == OnlyAddress(states[0], input)
  {
    if m > 1 {
      NothingModified(env, qs, states, results, input, m - 1);
      NothingReturned(env, qs, states, results, input, m - 1);
    } else if IsNewAddress(input) {
      FirstResultIsAddress(env, qs, states, results, input);
    } else {
      NothingReturned(env, qs, states, results, input, 0);
    }
  }

  /** On a listing of the caller the first statement of the plan returns a row. */
  lemma FirstReturnsRow(env: Env, qs: seq<Query>, states: seq<Tables>, results: seq<Rows>, input: Input, l: int)
    requires Chain(env, qs, states, results) && Modifies(qs, input)
    requires Found(states[0], User(input), ListingAsked(input)) == Some(l) || IsNewAddress(input)
    ensures results[0] != []
  {
    if IsNewAddress(input) {
      FirstResultIsAddress(env, qs, states, results, input);
    } else if 0 < Before(input, 6) {
      var k := ColumnAt(input, 6, 0);
      RowSoFar(env, qs, states, results, l, input, k);
      ColumnLink(env, qs, states, results, l, input, k);
    } else {
      assert EmitsChange(qs, 0, 0, input) && Link(env, qs, states, results, 0);
      MediaIdsAgree(env, qs, states, results, 0, input);
      PlainArguments(Params(qs[0 + 0]),
                     [User(input), ListingAsked(input), input[MIME_TYPE].items[0], input[URL].items[0], Num(0)],
                     results[..0]);
    }
  }

  /** Exactly when a modify-listing whose statements all went through is answered with
      success: the listing is an open one of the caller, or the location was a new address.
      If the listing is not, nothing has changed but that the address was added, which no
      listing refers to: the caller is told of a change that never happened. */
  lemma ModifyListingAnswersIff(env: Env, input: Input, t: Tables)
    requires Usable(input) && Defined(ModifyListingTemplate()) && PlanOf(ModifyListingTemplate(), input).Ok?
    requires var plan := PlanOf(ModifyListingTemplate(), input).value;
             plan.queries != [] && Executed(EngineOf(env), env.faults, plan.queries, t).1.Ok?
    ensures StoreOf(ModifyListingTemplate(), input, EngineOf(env), env.faults, t).1.Ok?
            <==> Found(t, User(input), ListingAsked(input)).Some? || IsNewAddress(input)
    ensures Found(t, User(input), ListingAsked(input)).None? ==>
              StoreOf(ModifyListingTemplate(), input, EngineOf(env), env.faults, t).0 == OnlyAddress(t, input)
  {
    var template := ModifyListingTemplate();
    var plan := PlanOf(template, input).value;
    var (t', outcome) := Executed(EngineOf(env), env.faults, plan.queries, t);
    PlanModifies(input);
    ExecutedResults(env, t, plan.queries);
    var states, results := CommitAsChain(env, t, plan.queries, t');
    EmptyExactly(template, plan.names, results);
    if Found(t, User(input), ListingAsked(input)).None? {
      NothingModified(env, plan.queries, states, results, input, |plan.queries|);
    }
    if Found(t, User(input), ListingAsked(input)).Some? || IsNewAddress(input) {
      var found := Found(t, User(input), ListingAsked(input));
      FirstReturnsRow(env, plan.queries, states, results, input, if found.Some? then found.value else 0);
      assert !Dropped(template, plan.names[0]);
    } else {
      forall at | 0 <= at < |results|
        ensures results[at] == []
      {
        NothingReturned(env, plan.queries, states, results, input, at);
      }
    }
  }

  lemma ExecutedResults(env: Env, t: Tables, queries: seq<Query>)
    requires queries != [] && Executed(EngineOf(env), env.faults, queries, t).1.Ok?
    ensures var (t', outcome) := Executed(EngineOf(env), env.faults, queries, t);
            Commits(env, t, queries, t') && ResultsOf(env, t, queries, t') == outcome.value
  {
  }
}
