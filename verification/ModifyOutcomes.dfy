/** modify-listing on a database that does not fail: exactly when it succeeds, and why else it
    is refused. */
module ModifyOutcomes {
  import opened Values
  import opened Vocabulary
  import opened SqlTemplate
  import opened PlanShape
  import opened Execution
  import opened Database
  import opened Store
  import opened Schema
  import opened Statements
  import opened Invariants
  import opened Templates
  import opened Builds
  import opened Transactions
  import opened Uploads
  import opened Listings
  import opened CreateListing
  import opened ModifyListing
  import opened Effects
  import opened Deviations
  import opened ListingOutcomes

  // ---------------------------------------------------------------- what is given, column by column

  /** The new value of a column that was sent is no NULL where there may be none, and is an
      integer where it has to be. */
  predicate ColumnGiven(input: Input, k: nat) {
    ColumnKey(k) in input ==>
      if k == 3 then LocationGiven(input)
      else if k == 4 then !IntOf(input, CATEGORY_ID).NotInt?
      else !IsNull(Field(input, ColumnKey(k)))
  }

  /** What the column refers to is there: the category, and an address of the user. */
  predicate ColumnThere(t: Tables, input: Input, user: int, k: nat)
    requires ColumnGiven(input, k)
  {
    ColumnKey(k) in input ==>
      if k == 3 then
        !IsObjectType(input[LOCATION]) ==>
          var a := AsInt(input[LOCATION]).n; a in t.addresses.rows && t.addresses.rows[a].user == user
      else if k == 4 then IntOf(input, CATEGORY_ID).Int? ==> IntOf(input, CATEGORY_ID).n in t.categories
      else true
  }

  predicate ColumnOk(t: Tables, input: Input, user: int, k: nat) {
    ColumnGiven(input, k) && ColumnThere(t, input, user, k)
  }

  ghost predicate RowFits(s: Tables, l: int) {
    l in s.listings.rows && ListingViolation(s, s.listings.rows[l]).None?
  }

  /** One of the statements, exactly. */
  lemma ColumnSettles(t: Tables, s: Tables, l: int, input: Input, k: nat)
    requires 1 <= k <= 5 && ColumnKey(k) in input && l in t.listings.rows && RowFits(s, l)
    requires IsNewAddress(input) ==> LocationGiven(input)
    requires RowAfter(t, s, l, input, k) && OnlyRows(t, s)
    requires AsInt(User(input)).Int? && AsInt(ListingAsked(input)) == Int(l) && OwnOpen(s, AsInt(User(input)).n, l)
    ensures var effect := UpdateListingRow(s, AsInt(User(input)), AsInt(ListingAsked(input)),
                                           ColumnChange(t, input, k));
            && (effect.Done? <==> ColumnOk(t, input, AsInt(User(input)).n, k))
            && (effect.Done? ==> RowFits(effect.db, l))
            && (effect.Refused? && ColumnGiven(input, k) ==> ReferenceBroken(effect.code))
  {
  }

  // ---------------------------------------------------------------- the columns of an own open listing

  /** The run has got to the k-th statement of the template, and the row is as far. */
  ghost predicate UpTo(t: Tables, run: Progress<Tables>, l: int, input: Input, k: nat) {
    && run.Going? && |run.results| == Before(input, k) && l in t.listings.rows
    && RowAfter(t, run.db, l, input, k) && OnlyRows(t, run.db) && RowFits(run.db, l)
    && AsInt(User(input)).Int? && OwnOpen(run.db, AsInt(User(input)).n, l)
    && (IsNewAddress(input) ==>
          LocationGiven(input) && run.results != [] && run.results[0] == Returning(COL_ADDRESS_ID, t.addresses.serial))
  }

  /** The run has ended, because of a broken reference if everything was given. */
  ghost predicate EndedAt(run: Progress<Tables>, given: bool) {
    run.Stopped? && (given ==> Translated(run.error) == ForeignKey)
  }

  lemma StartsWithAddress(env: Env, t: Tables, qs: seq<Query>, l: int, input: Input)
    requires Unfailing(env) && |qs| > 0 && CreatesAddress(qs[0], input) && IsNewAddress(input) && Inv(t)
    requires Found(t, User(input), ListingAsked(input)) == Some(l)
    ensures if LocationGiven(input) then UpTo(t, RunUpTo(EngineOf(env), t, qs, 1), l, input, 1)
            else RunAll(EngineOf(env), t, qs).Stopped?
  {
    var args := [PartOf(input, COUNTRY), PartOf(input, REGION), PartOf(input, POSTCODE), Field(input, ACCOUNT_ID)];
    assert EvaluateAll(Params(qs[0]), []).value == args;
    AddressRuns(env, t, input);
    assert RunUpTo(EngineOf(env), t, qs, 0) == Going(t, []);
    MediaSettles(env, t, qs, 0, Going(t, []), args);
    OwnerExists(t, l);
    if LocationGiven(input) {
      assert [] + [Returning(COL_ADDRESS_ID, t.addresses.serial)] == [Returning(COL_ADDRESS_ID, t.addresses.serial)];
      PlacedIsUp(t, l, input);
    }
  }

  lemma OwnerExists(t: Tables, l: int)
    requires ListingsOk(t) && l in t.listings.rows
    ensures t.listings.rows[l].contributor in t.accounts.rows && RowFits(t, l)
  {
    assert ListingViolation(t, t.listings.rows[l]).None?;
  }

  lemma PlacedIsUp(t: Tables, l: int, input: Input)
    requires Found(t, User(input), ListingAsked(input)) == Some(l) && IsNewAddress(input) && RowFits(t, l)
    requires t.addresses.Valid() && LocationGiven(input)
    ensures UpTo(t, Going(Placed(t, input), [Returning(COL_ADDRESS_ID, t.addresses.serial)]), l, input, 1)
  {
    assert Before(input, 1) == 1;
  }

  lemma StartsWithout(env: Env, t: Tables, qs: seq<Query>, l: int, input: Input)
    requires !IsNewAddress(input) && Inv(t) && Found(t, User(input), ListingAsked(input)) == Some(l)
    ensures UpTo(t, RunUpTo(EngineOf(env), t, qs, 0), l, input, 1) && Before(input, 1) == 0
  {
    OwnerExists(t, l);
    assert Before(input, 1) == 0;
  }

  /** What the k-th statement makes of a run that got to it. */
  ghost predicate ColumnNext(engine: Engine<Tables>, t: Tables, qs: seq<Query>, l: int, input: Input, k: nat)
    requires Before(input, k) <= |qs| && Before(input, k + 1) <= |qs| && AsInt(User(input)).Int?
  {
    UpTo(t, RunUpTo(engine, t, qs, Before(input, k)), l, input, k) ==>
      if ColumnOk(t, input, AsInt(User(input)).n, k)
      then UpTo(t, RunUpTo(engine, t, qs, Before(input, k + 1)), l, input, k + 1)
      else EndedAt(RunAll(engine, t, qs), ColumnGiven(input, k))
  }

  lemma ColumnGoes(env: Env, t: Tables, qs: seq<Query>, l: int, input: Input, k: nat)
    requires Unfailing(env) && 1 <= k <= 5 && ColumnKey(k) in input && Before(input, k) < |qs|
    requires ChangesColumn(qs[Before(input, k)], input, k) && AsInt(ListingAsked(input)) == Int(l)
    requires UpTo(t, RunUpTo(EngineOf(env), t, qs, Before(input, k)), l, input, k)
    ensures if ColumnOk(t, input, AsInt(User(input)).n, k)
            then UpTo(t, RunUpTo(EngineOf(env), t, qs, Before(input, k) + 1), l, input, k + 1)
            else EndedAt(RunAll(EngineOf(env), t, qs), ColumnGiven(input, k))
  {
    var at := Before(input, k);
    var run := RunUpTo(EngineOf(env), t, qs, at);
    var third := if k == 3 then AddressOf(t, input) else InputValue(input, ColumnKey(k), 1, 0);
    var args := [User(input), ListingAsked(input), third];
    ColumnArguments(t, qs[at], input, k, run.results);
    ColumnExec(env, t, run.db, input, k, third);
    MediaSettles(env, t, qs, at, run, args);
    ColumnMoves(env, t, run, l, input, k, args, qs[at].text);
  }

  /** The state and the results after the statement. */
  lemma ColumnMoves(env: Env, t: Tables, run: Progress<Tables>, l: int, input: Input, k: nat, args: seq<Val>, text: Sql)
    requires 1 <= k <= 5 && ColumnKey(k) in input && AsInt(ListingAsked(input)) == Int(l) && UpTo(t, run, l, input, k)
    requires Exec(env, run.db, text, args)
          == UpdateListingRow(run.db, AsInt(User(input)), AsInt(ListingAsked(input)), ColumnChange(t, input, k))
    ensures var effect := Exec(env, run.db, text, args);
            if ColumnOk(t, input, AsInt(User(input)).n, k)
            then effect.Done? && UpTo(t, Going(effect.db, run.results + [effect.rows]), l, input, k + 1)
            else effect.Refused? && (ColumnGiven(input, k) ==> ReferenceBroken(effect.code))
  {
    ColumnSettles(t, run.db, l, input, k);
    var effect := Exec(env, run.db, text, args);
    if effect.Done? {
      ColumnStep(t, run.db, l, input, k, effect.db, effect.rows);
      assert Before(input, k + 1) == Before(input, k) + 1;
    }
  }

  lemma ColumnSkipped(t: Tables, run: Progress<Tables>, l: int, input: Input, k: nat)
    requires 1 <= k <= 5 && ColumnKey(k) !in input && UpTo(t, run, l, input, k)
    ensures UpTo(t, run, l, input, k + 1) && Before(input, k + 1) == Before(input, k)
  {
  }

  ghost predicate AllColumnsOk(t: Tables, input: Input, user: int, k: nat) {
    forall j :: 1 <= j < k ==> ColumnOk(t, input, user, j)
  }

  ghost predicate AllColumnsGiven(input: Input, k: nat) {
    forall j :: 1 <= j < k ==> ColumnGiven(input, j)
  }

  lemma {:induction false} BeforeGrows(input: Input, j: nat, k: nat)
    requires j <= k
    ensures Before(input, j) <= Before(input, k)
  {
    if j < k {
      BeforeGrows(input, j, k - 1);
    }
  }

  lemma {:induction false} ColumnsGo(engine: Engine<Tables>, t: Tables, qs: seq<Query>, l: int, input: Input, k: nat)
    requires 1 <= k <= 6 && Before(input, 6) <= |qs| && AsInt(User(input)).Int?
    requires forall j :: 0 <= j <= 6 ==> Before(input, j) <= |qs|
    requires UpTo(t, RunUpTo(engine, t, qs, Before(input, 1)), l, input, 1)
    requires forall j :: 1 <= j < k ==> ColumnNext(engine, t, qs, l, input, j)
    ensures if AllColumnsOk(t, input, AsInt(User(input)).n, k)
            then UpTo(t, RunUpTo(engine, t, qs, Before(input, k)), l, input, k)
            else EndedAt(RunAll(engine, t, qs), AllColumnsGiven(input, k))
  {
    if k > 1 {
      ColumnsGo(engine, t, qs, l, input, k - 1);
      assert ColumnNext(engine, t, qs, l, input, k - 1);
    }
  }

  /** All the columns, on an open listing of the caller. */
  lemma ColumnsEnd(env: Env, t: Tables, qs: seq<Query>, l: int, input: Input)
    requires Unfailing(env) && Modifies(qs, input) && Inv(t) && Found(t, User(input), ListingAsked(input)) == Some(l)
    ensures Before(input, 6) <= |qs| && AsInt(User(input)).Int?
    ensures if AllColumnsOk(t, input, AsInt(User(input)).n, 6)
            then UpTo(t, RunUpTo(EngineOf(env), t, qs, Before(input, 6)), l, input, 6)
            else EndedAt(RunAll(EngineOf(env), t, qs), AllColumnsGiven(input, 6))
  {
    TextsOfPlan(qs, input);
    if !IsNewAddress(input) {
      StartsWithout(env, t, qs, l, input);
      ColumnsFrom(env, t, qs, l, input);
    } else {
      StartsWithAddress(env, t, qs, l, input);
      if LocationGiven(input) {
        ColumnsFrom(env, t, qs, l, input);
      } else {
        LocationMissing(t, input, AsInt(User(input)).n);
      }
    }
  }

  lemma LocationMissing(t: Tables, input: Input, user: int)
    requires IsNewAddress(input) && !LocationGiven(input)
    ensures !AllColumnsOk(t, input, user, 6) && !AllColumnsGiven(input, 6)
  {
    assert !ColumnGiven(input, 3) && !ColumnOk(t, input, user, 3);
  }

  lemma ColumnsFrom(env: Env, t: Tables, qs: seq<Query>, l: int, input: Input)
    requires Unfailing(env) && Columns(qs, input) && Before(input, 6) <= |qs|
    requires AsInt(User(input)).Int? && AsInt(ListingAsked(input)) == Int(l)
    requires Before(input, 1) <= |qs| && UpTo(t, RunUpTo(EngineOf(env), t, qs, Before(input, 1)), l, input, 1)
    ensures if AllColumnsOk(t, input, AsInt(User(input)).n, 6)
            then UpTo(t, RunUpTo(EngineOf(env), t, qs, Before(input, 6)), l, input, 6)
            else EndedAt(RunAll(EngineOf(env), t, qs), AllColumnsGiven(input, 6))
  {
    forall j | 0 <= j <= 6
      ensures Before(input, j) <= |qs|
    {
      BeforeGrows(input, j, 6);
    }
    forall j | 1 <= j < 6
      ensures ColumnNext(EngineOf(env), t, qs, l, input, j)
    {
      ColumnNexts(env, t, qs, l, input, j);
    }
    ColumnsGo(EngineOf(env), t, qs, l, input, 6);
  }

  lemma ColumnNexts(env: Env, t: Tables, qs: seq<Query>, l: int, input: Input, j: nat)
    requires Unfailing(env) && 1 <= j <= 5 && Columns(qs, input) && Before(input, j + 1) <= |qs|
    requires Before(input, j) <= |qs|
    requires AsInt(User(input)).Int? && AsInt(ListingAsked(input)) == Int(l)
    ensures ColumnNext(EngineOf(env), t, qs, l, input, j)
  {
    if ColumnKey(j) in input {
      NextIsSent(env, t, qs, l, input, j);
    } else {
      NextIsSkipped(EngineOf(env), t, qs, l, input, j);
    }
  }

  lemma NextIsSent(env: Env, t: Tables, qs: seq<Query>, l: int, input: Input, j: nat)
    requires Unfailing(env) && 1 <= j <= 5 && Columns(qs, input) && Before(input, j + 1) <= |qs|
    requires Before(input, j) <= |qs|
    requires AsInt(User(input)).Int? && AsInt(ListingAsked(input)) == Int(l) && ColumnKey(j) in input
    ensures ColumnNext(EngineOf(env), t, qs, l, input, j)
  {
    assert Before(input, j + 1) == Before(input, j) + 1;
    if UpTo(t, RunUpTo(EngineOf(env), t, qs, Before(input, j)), l, input, j) {
      ColumnGoes(env, t, qs, l, input, j);
    }
  }

  lemma NextIsSkipped(engine: Engine<Tables>, t: Tables, qs: seq<Query>, l: int, input: Input, j: nat)
    requires 1 <= j <= 5 && Before(input, j + 1) <= |qs| && Before(input, j) <= |qs|
    requires AsInt(User(input)).Int? && ColumnKey(j) !in input
    ensures ColumnNext(engine, t, qs, l, input, j)
  {
    if UpTo(t, RunUpTo(engine, t, qs, Before(input, j)), l, input, j) {
      ColumnSkipped(t, RunUpTo(engine, t, qs, Before(input, j)), l, input, j);
    }
  }

  // ---------------------------------------------------------------- the media of an own open listing

  /** The ids can be used for each of the copies as well. */
  predicate IdsForCopies(input: Input) {
    var n := |MediaUrls(input)|;
    !AsInt(InputValue(input, ACCOUNT_ID, n, 0)).NotInt? && !AsInt(InputValue(input, LISTING_ID, n, 0)).NotInt?
  }

  ghost predicate ChangeRun(s: Tables, run: Progress<Tables>, p: nat, l: int, input: Input, i: nat) {
    run.Going? && |run.results| == p + i && Stored(s, run.db, l, input, i)
  }

  lemma UpsertSettles(t: Tables, s: Tables, user: int, l: int, input: Input, i: nat)
    requires Stored(t, s, l, input, i) && i < |MediaUrls(input)| && OwnOpen(t, user, l)
    ensures var mimetype, url := input[MIME_TYPE].items[i], input[URL].items[i];
            var effect := UpsertListingMediaRow(s, Int(user), Int(l), mimetype, url, Int(i));
            if UploadGiven(input, i) then effect.Done? && Stored(t, effect.db, l, input, i + 1) else effect.Refused?
  {
    var mimetype, url := input[MIME_TYPE].items[i], input[URL].items[i];
    var effect := UpsertListingMediaRow(s, Int(user), Int(l), mimetype, url, Int(i));
    if effect.Done? {
      UpsertedRow(s, Int(user), Int(l), mimetype, url, i);
      OneMoreStored(t, s, effect.db, l, input, i);
    }
  }

  lemma UpsertStatement(env: Env, s: Tables, args: seq<Val>, user: int, l: int, i: nat)
    requires |args| == 5 && AsInt(args[0]) == Int(user) && AsInt(args[1]) == Int(l) && args[4] == Num(i)
    ensures Exec(env, s, UpsertListingMedia, args)
         == UpsertListingMediaRow(s, Int(user), Int(l), args[2], args[3], Int(i))
  {
  }

  lemma CopyArguments(qs: seq<Query>, p: nat, i: nat, input: Input, results: seq<Rows>)
    requires MediaFields(input, |MediaUrls(input)|) && i < |MediaUrls(input)| && p + i < |qs|
    requires EmitsChange(qs, p, i, input) && IdsForCopies(input)
    requires !AsInt(User(input)).NotInt? && !AsInt(ListingAsked(input)).NotInt?
    ensures EvaluateAll(Params(qs[p + i]), results)
         == Some([User(input), ListingAsked(input), input[MIME_TYPE].items[i], input[URL].items[i], Num(i)])
  {
    SameForAllCopies(input, ACCOUNT_ID, |MediaUrls(input)|);
    SameForAllCopies(input, LISTING_ID, |MediaUrls(input)|);
    PlainArguments(Params(qs[p + i]),
                   [User(input), ListingAsked(input), input[MIME_TYPE].items[i], input[URL].items[i], Num(i)], results);
  }

  /** What the i-th media statement makes of a run that got to it. */
  ghost predicate ChangeNext(engine: Engine<Tables>, t: Tables, qs: seq<Query>, p: nat, s: Tables, l: int, input: Input,
                             i: nat)
    requires p + i < |qs|
  {
    ChangeRun(s, RunUpTo(engine, t, qs, p + i), p, l, input, i) ==>
      if UploadGiven(input, i) then ChangeRun(s, RunUpTo(engine, t, qs, p + i + 1), p, l, input, i + 1)
      else RunAll(engine, t, qs).Stopped?
  }

  lemma ChangeNexts(env: Env, t: Tables, qs: seq<Query>, p: nat, s: Tables, user: int, l: int, input: Input, i: nat)
    requires Unfailing(env) && MediaFields(input, |MediaUrls(input)|) && i < |MediaUrls(input)| && p + i < |qs|
    requires EmitsChange(qs, p, i, input) && IdsForCopies(input)
    requires AsInt(User(input)) == Int(user) && AsInt(ListingAsked(input)) == Int(l) && OwnOpen(s, user, l)
    ensures ChangeNext(EngineOf(env), t, qs, p, s, l, input, i)
  {
    var run := RunUpTo(EngineOf(env), t, qs, p + i);
    if ChangeRun(s, run, p, l, input, i) {
      CopyRan(env, t, qs, p, run, input, i);
      CopyEffect(env, s, run.db, user, l, input, i);
    }
  }

  /** What the i-th media statement makes of the run. */
  lemma CopyRan(env: Env, t: Tables, qs: seq<Query>, p: nat, run: Progress<Tables>, input: Input, i: nat)
    requires Unfailing(env) && MediaFields(input, |MediaUrls(input)|) && i < |MediaUrls(input)| && p + i < |qs|
    requires EmitsChange(qs, p, i, input) && IdsForCopies(input)
    requires AsInt(User(input)).Int? && AsInt(ListingAsked(input)).Int?
    requires RunUpTo(EngineOf(env), t, qs, p + i) == run && run.Going?
    ensures var args := [User(input), ListingAsked(input), input[MIME_TYPE].items[i], input[URL].items[i], Num(i)];
            var effect := Exec(env, run.db, UpsertListingMedia, args);
            if effect.Done?
            then RunUpTo(EngineOf(env), t, qs, p + i + 1) == Going(effect.db, run.results + [effect.rows])
            else RunAll(EngineOf(env), t, qs).Stopped?
  {
    CopyArguments(qs, p, i, input, run.results);
    MediaSettles(env, t, qs, p + i, run,
                 [User(input), ListingAsked(input), input[MIME_TYPE].items[i], input[URL].items[i], Num(i)]);
  }

  lemma CopyEffect(env: Env, t: Tables, s: Tables, user: int, l: int, input: Input, i: nat)
    requires Stored(t, s, l, input, i) && i < |MediaUrls(input)| && OwnOpen(t, user, l)
    requires AsInt(User(input)) == Int(user) && AsInt(ListingAsked(input)) == Int(l)
    ensures var args := [User(input), ListingAsked(input), input[MIME_TYPE].items[i], input[URL].items[i], Num(i)];
            var effect := Exec(env, s, UpsertListingMedia, args);
            if UploadGiven(input, i) then effect.Done? && Stored(t, effect.db, l, input, i + 1) else effect.Refused?
  {
    var args := [User(input), ListingAsked(input), input[MIME_TYPE].items[i], input[URL].items[i], Num(i)];
    UpsertStatement(env, s, args, user, l, i);
    UpsertSettles(t, s, user, l, input, i);
  }

  lemma {:induction false} ChangesGo(engine: Engine<Tables>, t: Tables, qs: seq<Query>, p: nat, s: Tables, l: int,
                                     input: Input, i: nat)
    requires p + i <= |qs| && forall k :: 0 <= k < i ==> ChangeNext(engine, t, qs, p, s, l, input, k)
    requires ChangeRun(s, RunUpTo(engine, t, qs, p), p, l, input, 0)
    ensures if GivenUpTo(input, i) then ChangeRun(s, RunUpTo(engine, t, qs, p + i), p, l, input, i)
            else RunAll(engine, t, qs).Stopped?
  {
    if i > 0 {
      ChangesGo(engine, t, qs, p, s, l, input, i - 1);
      assert ChangeNext(engine, t, qs, p, s, l, input, i - 1);
    }
  }

  /** Ids that cannot be used for the copies are refused with the first of them. */
  lemma CopiesRefused(env: Env, t: Tables, qs: seq<Query>, p: nat, input: Input)
    requires Unfailing(env) && MediaFields(input, |MediaUrls(input)|) && p < |qs|
    requires EmitsChange(qs, p, 0, input) && !IdsForCopies(input) && RunUpTo(EngineOf(env), t, qs, p).Going?
    ensures RunAll(EngineOf(env), t, qs).Stopped?
  {
    var n, run := |MediaUrls(input)|, RunUpTo(EngineOf(env), t, qs, p);
    var args := [InputValue(input, ACCOUNT_ID, n, 0), InputValue(input, LISTING_ID, n, 0), input[MIME_TYPE].items[0],
                 input[URL].items[0], Num(0)];
    PlainArguments(Params(qs[p + 0]), args, run.results);
    UpsertRefused(env, run.db, args);
    MediaSettles(env, t, qs, p, run, args);
  }

  lemma UpsertRefused(env: Env, s: Tables, args: seq<Val>)
    requires |args| == 5 && (AsInt(args[0]).NotInt? || AsInt(args[1]).NotInt?)
    ensures Exec(env, s, UpsertListingMedia, args).Refused?
  {
  }

  lemma DropGoes(env: Env, t: Tables, qs: seq<Query>, m: nat, input: Input)
    requires Unfailing(env) && m + 1 == |qs| && EmitsDrop(qs[m], input) && RunUpTo(EngineOf(env), t, qs, m).Going?
    requires !AsInt(User(input)).NotInt? && !AsInt(ListingAsked(input)).NotInt?
    ensures RunAll(EngineOf(env), t, qs).Going?
  {
    var run := RunUpTo(EngineOf(env), t, qs, m);
    var args := [User(input), ListingAsked(input), Num(|MediaUrls(input)|)];
    PlainArguments(Params(qs[m]), args, run.results);
    DropStatement(env, run.db, args);
    MediaSettles(env, t, qs, m, run, args);
  }

  lemma DropStatement(env: Env, s: Tables, args: seq<Val>)
    requires |args| == 3 && !AsInt(args[0]).NotInt? && !AsInt(args[1]).NotInt? && AsInt(args[2]).Int?
    ensures Exec(env, s, DropExtraMedia, args).Done?
  {
  }

  lemma DropAtTheEnd(env: Env, t: Tables, qs: seq<Query>, p: nat, input: Input)
    requires Unfailing(env) && ModifiesListing(qs, p, input) && URL in input
    requires !AsInt(User(input)).NotInt? && !AsInt(ListingAsked(input)).NotInt?
    ensures var m := p + |MediaUrls(input)|;
            m + 1 == |qs| && (RunUpTo(EngineOf(env), t, qs, m).Going? ==> RunAll(EngineOf(env), t, qs).Going?)
  {
    var m := p + |MediaUrls(input)|;
    if RunUpTo(EngineOf(env), t, qs, m).Going? {
      DropGoes(env, t, qs, m, input);
    }
  }

  /** The i-th statement is sent for upload i, and the last one drops what is left. */
  ghost predicate CopiesNext(engine: Engine<Tables>, t: Tables, qs: seq<Query>, p: nat, s: Tables, l: int,
                             input: Input) {
    var n := |MediaUrls(input)|;
    && p + n + 1 == |qs| && (RunUpTo(engine, t, qs, p + n).Going? ==> RunAll(engine, t, qs).Going?)
    && forall k :: 0 <= k < n ==> ChangeNext(engine, t, qs, p, s, l, input, k)
  }

  lemma CopiesGo(env: Env, t: Tables, qs: seq<Query>, p: nat, s: Tables, user: int, l: int, input: Input)
    requires Unfailing(env) && ModifiesListing(qs, p, input) && URL in input && IdsForCopies(input)
    requires AsInt(User(input)) == Int(user) && AsInt(ListingAsked(input)) == Int(l) && OwnOpen(s, user, l)
    ensures CopiesNext(EngineOf(env), t, qs, p, s, l, input)
  {
    DropAtTheEnd(env, t, qs, p, input);
    forall k | 0 <= k < |MediaUrls(input)|
      ensures ChangeNext(EngineOf(env), t, qs, p, s, l, input, k)
    {
      assert EmitsChange(qs, p, k, input);
      ChangeNexts(env, t, qs, p, s, user, l, input, k);
    }
  }

  lemma NothingChangedYet(run: Progress<Tables>, p: nat, l: int, input: Input)
    requires run.Going? && |run.results| == p && MediaFields(input, |MediaUrls(input)|)
    ensures ChangeRun(run.db, run, p, l, input, 0)
  {
  }

  lemma CopiesSettle(engine: Engine<Tables>, t: Tables, qs: seq<Query>, p: nat, run: Progress<Tables>, l: int,
                     input: Input)
    requires p < |qs| && RunUpTo(engine, t, qs, p) == run && run.Going? && |run.results| == p
    requires CopiesNext(engine, t, qs, p, run.db, l, input) && MediaFields(input, |MediaUrls(input)|)
    ensures RunAll(engine, t, qs).Going? <==> GivenUpTo(input, |MediaUrls(input)|)
  {
    NothingChangedYet(run, p, l, input);
    ChangesGo(engine, t, qs, p, run.db, l, input, |MediaUrls(input)|);
  }

  /** The media after the columns: they go through exactly if nothing of them is NULL. */
  lemma ChangesEnd(env: Env, t: Tables, qs: seq<Query>, p: nat, l: int, input: Input)
    requires Unfailing(env) && ModifiesListing(qs, p, input) && URL in input && p < |qs|
    requires UpTo(t, RunUpTo(EngineOf(env), t, qs, p), l, input, 6) && p == Before(input, 6)
    requires AsInt(ListingAsked(input)) == Int(l)
    ensures RunAll(EngineOf(env), t, qs).Going? <==> IdsForCopies(input) && GivenUpTo(input, |MediaUrls(input)|)
  {
    var run := RunUpTo(EngineOf(env), t, qs, p);
    if !IdsForCopies(input) {
      assert EmitsChange(qs, p, 0, input);
      CopiesRefused(env, t, qs, p, input);
    } else {
      CopiesGo(env, t, qs, p, run.db, AsInt(User(input)).n, l, input);
      CopiesSettle(EngineOf(env), t, qs, p, run, l, input);
    }
  }

  // ---------------------------------------------------------------- an own open listing

  /** What was sent for a column that must not be NULL is not NULL, and ids are integers. */
  predicate ChangesGiven(input: Input) {
    && (TITLE in input ==> !IsNull(Field(input, TITLE)))
    && (DESCRIPTION in input ==> !IsNull(Field(input, DESCRIPTION)))
    && (CONDITION in input ==> !IsNull(Field(input, CONDITION)))
    && (CATEGORY_ID in input ==> !IntOf(input, CATEGORY_ID).NotInt?) && (LOCATION in input ==> LocationGiven(input))
  }

  /** The category that was sent is there, and so is the address, and it is the user's. */
  predicate NewReferencesThere(t: Tables, input: Input, user: int)
    requires ChangesGiven(input)
  {
    && (CATEGORY_ID in input && IntOf(input, CATEGORY_ID).Int? ==> IntOf(input, CATEGORY_ID).n in t.categories)
    && (LOCATION in input && !IsObjectType(input[LOCATION]) ==>
          var a := AsInt(input[LOCATION]).n; a in t.addresses.rows && t.addresses.rows[a].user == user)
  }

  /** The ids can be used for the media statements, and no media field is NULL. */
  ghost predicate UploadsGiven(input: Input) {
    URL in input ==> IdsForCopies(input) && GivenUpTo(input, |MediaUrls(input)|)
  }

  lemma ColumnByColumn(t: Tables, input: Input, user: int)
    ensures AllColumnsGiven(input, 6) <==> ChangesGiven(input)
    ensures AllColumnsOk(t, input, user, 6) <==> ChangesGiven(input) && NewReferencesThere(t, input, user)
  {
    if AllColumnsGiven(input, 6) {
      assert ColumnGiven(input, 1) && ColumnGiven(input, 2) && ColumnGiven(input, 3) && ColumnGiven(input, 4)
             && ColumnGiven(input, 5);
    }
    if AllColumnsOk(t, input, user, 6) {
      assert ColumnOk(t, input, user, 1) && ColumnOk(t, input, user, 2) && ColumnOk(t, input, user, 3)
             && ColumnOk(t, input, user, 4) && ColumnOk(t, input, user, 5);
    }
  }

  /** How the run ends on an open listing of the caller. */
  ghost predicate FoundRuns(t: Tables, run: Progress<Tables>, input: Input, user: int) {
    && (run.Going? <==> ChangesGiven(input) && NewReferencesThere(t, input, user) && UploadsGiven(input))
    && (ChangesGiven(input) && !NewReferencesThere(t, input, user) ==>
          run.Stopped? && Translated(run.error) == ForeignKey)
  }

  lemma FoundEnds(env: Env, t: Tables, qs: seq<Query>, l: int, input: Input)
    requires Unfailing(env) && Modifies(qs, input) && Inv(t) && Found(t, User(input), ListingAsked(input)) == Some(l)
    ensures FoundRuns(t, RunAll(EngineOf(env), t, qs), input, AsInt(User(input)).n)
  {
    ColumnsEnd(env, t, qs, l, input);
    ColumnByColumn(t, input, AsInt(User(input)).n);
    if AllColumnsOk(t, input, AsInt(User(input)).n, 6) && URL in input {
      ChangesEnd(env, t, qs, Before(input, 6), l, input);
    }
  }

  // ---------------------------------------------------------------- any other listing

  /** The ids that are used as integers are integers. */
  predicate ChangesReadable(input: Input) {
    ColumnsReadable(input) && (URL in input ==> IdsForCopies(input))
  }

  predicate ColumnsReadable(input: Input) {
    && ColumnIdsReadable(input) && (CATEGORY_ID in input ==> !IntOf(input, CATEGORY_ID).NotInt?)
    && (LOCATION in input && !IsObjectType(input[LOCATION]) ==> !AsInt(input[LOCATION]).NotInt?)
  }

  predicate ColumnIdsReadable(input: Input) {
    !IntOf(input, ACCOUNT_ID).NotInt? && !IntOf(input, LISTING_ID).NotInt?
  }

  /** An address that was sent can be added. */
  predicate AddressGoes(t: Tables, input: Input) {
    IsNewAddress(input) ==>
      LocationGiven(input) && IntOf(input, ACCOUNT_ID).Int? && IntOf(input, ACCOUNT_ID).n in t.accounts.rows
  }

  /** The run has done nothing but add the address. */
  ghost predicate Idle(t: Tables, run: Progress<Tables>, input: Input, at: nat) {
    && run.Going? && |run.results| == at && run.db == OnlyAddress(t, input)
    && (IsNewAddress(input) ==> run.results != [] && run.results[0] == Returning(COL_ADDRESS_ID, t.addresses.serial))
  }

  /** The statement at this place finds nothing, or is refused. */
  ghost predicate IdleNext(engine: Engine<Tables>, t: Tables, qs: seq<Query>, input: Input, at: nat, readable: bool)
    requires at < |qs|
  {
    Idle(t, RunUpTo(engine, t, qs, at), input, at) ==>
      if readable then Idle(t, RunUpTo(engine, t, qs, at + 1), input, at + 1) else RunAll(engine, t, qs).Stopped?
  }

  /** A statement of a column, and whether its parameters can be read. */
  ghost predicate Readable(sql: Sql, input: Input) {
    && ColumnIdsReadable(input)
    && (sql.ChangeCategory? ==> !IntOf(input, CATEGORY_ID).NotInt?)
    && (sql.ChangeAddress? && !IsNewAddress(input) ==> !AsInt(Lookup(input, LOCATION)).NotInt?)
  }

  lemma {:induction false} IdleGo(engine: Engine<Tables>, t: Tables, qs: seq<Query>, input: Input, from: nat, to: nat,
                                  readable: seq<bool>)
    requires from <= to <= |qs| == |readable| && Idle(t, RunUpTo(engine, t, qs, from), input, from)
    requires forall at: nat :: from <= at < to ==> IdleNext(engine, t, qs, input, at, readable[at])
    ensures if forall at: nat :: from <= at < to ==> readable[at]
            then Idle(t, RunUpTo(engine, t, qs, to), input, to) else RunAll(engine, t, qs).Stopped?
  {
    if from < to {
      IdleGo(engine, t, qs, input, from, to - 1, readable);
      assert IdleNext(engine, t, qs, input, to - 1, readable[to - 1]);
    }
  }

  lemma {:induction false} IdleStays(engine: Engine<Tables>, t: Tables, qs: seq<Query>, input: Input, from: nat,
                                     to: nat)
    requires from <= to <= |qs| && Idle(t, RunUpTo(engine, t, qs, from), input, from)
    requires forall at: nat :: from <= at < to ==> IdleNext(engine, t, qs, input, at, true)
    ensures Idle(t, RunUpTo(engine, t, qs, to), input, to)
  {
    if from < to {
      IdleStays(engine, t, qs, input, from, to - 1);
      assert IdleNext(engine, t, qs, input, to - 1, true);
    }
  }

  /** An update finds nothing, unless a parameter cannot be read. */
  lemma ColumnIdle(t: Tables, s: Tables, input: Input, k: nat)
    requires 1 <= k <= 5 && ColumnKey(k) in input && s.listings == t.listings
    requires Found(t, User(input), ListingAsked(input)).None?
    ensures var effect := UpdateListingRow(s, AsInt(User(input)), AsInt(ListingAsked(input)),
                                           ColumnChange(t, input, k));
            if Readable(ColumnText(k), input) then effect == Done(s, []) else effect.Refused?
  {
  }

  lemma ColumnIdles(env: Env, t: Tables, qs: seq<Query>, input: Input, at: nat)
    requires Unfailing(env) && Columns(qs, input) && at < Before(input, 6) <= |qs| && !(at == 0 && IsNewAddress(input))
    requires Found(t, User(input), ListingAsked(input)).None?
    ensures IdleNext(EngineOf(env), t, qs, input, at, Readable(qs[at].text, input))
  {
    var run := RunUpTo(EngineOf(env), t, qs, at);
    if Idle(t, run, input, at) {
      var k := ColumnAt(input, 6, at);
      var third := if k == 3 then AddressOf(t, input) else InputValue(input, ColumnKey(k), 1, 0);
      ColumnArguments(t, qs[at], input, k, run.results);
      ColumnExec(env, t, run.db, input, k, third);
      ColumnIdle(t, run.db, input, k);
      MediaSettles(env, t, qs, at, run, [User(input), ListingAsked(input), third]);
    }
  }

  lemma CopyIdle(env: Env, s: Tables, args: seq<Val>, i: nat)
    requires |args| == 5 && !AsInt(args[0]).NotInt? && !AsInt(args[1]).NotInt? && args[4] == Num(i)
    requires Found(s, args[0], args[1]).None?
    ensures Exec(env, s, UpsertListingMedia, args) == Done(s, [])
  {
  }

  lemma DropIdle(env: Env, s: Tables, args: seq<Val>, n: nat)
    requires |args| == 3 && !AsInt(args[0]).NotInt? && !AsInt(args[1]).NotInt? && args[2] == Num(n)
    requires Found(s, args[0], args[1]).None?
    ensures Exec(env, s, DropExtraMedia, args) == Done(s, [])
  {
  }

  /** One statement more that has returned nothing. */
  lemma IdleOnce(t: Tables, run: Progress<Tables>, input: Input, at: nat)
    requires Idle(t, run, input, at)
    ensures Idle(t, Going(run.db, run.results + [[]]), input, at + 1)
  {
  }

  lemma StillNotFound(t: Tables, s: Tables, input: Input)
    requires s == OnlyAddress(t, input) && Found(t, User(input), ListingAsked(input)).None?
    ensures Found(s, User(input), ListingAsked(input)).None?
  {
  }

  lemma CopyIdles(env: Env, t: Tables, qs: seq<Query>, p: nat, input: Input, i: nat)
    requires Unfailing(env) && MediaFields(input, |MediaUrls(input)|) && i < |MediaUrls(input)| && p + i < |qs|
    requires EmitsChange(qs, p, i, input)
    requires ColumnIdsReadable(input) && IdsForCopies(input) && Found(t, User(input), ListingAsked(input)).None?
    ensures IdleNext(EngineOf(env), t, qs, input, p + i, true)
  {
    var run := RunUpTo(EngineOf(env), t, qs, p + i);
    if Idle(t, run, input, p + i) {
      var args := [User(input), ListingAsked(input), input[MIME_TYPE].items[i], input[URL].items[i], Num(i)];
      CopyArguments(qs, p, i, input, run.results);
      StillNotFound(t, run.db, input);
      CopyIdle(env, run.db, args, i);
      IdleOnce(t, run, input, p + i);
      MediaSettles(env, t, qs, p + i, run, args);
    }
  }

  lemma DropIdles(env: Env, t: Tables, qs: seq<Query>, input: Input, at: nat)
    requires Unfailing(env) && at < |qs| && EmitsDrop(qs[at], input)
    requires ColumnIdsReadable(input) && Found(t, User(input), ListingAsked(input)).None?
    ensures IdleNext(EngineOf(env), t, qs, input, at, true)
  {
    var run := RunUpTo(EngineOf(env), t, qs, at);
    if Idle(t, run, input, at) {
      var args := [User(input), ListingAsked(input), Num(|MediaUrls(input)|)];
      PlainArguments(Params(qs[at]), args, run.results);
      StillNotFound(t, run.db, input);
      DropIdle(env, run.db, args, |MediaUrls(input)|);
      IdleOnce(t, run, input, at);
      MediaSettles(env, t, qs, at, run, args);
    }
  }

  lemma MediaIdles(env: Env, t: Tables, qs: seq<Query>, p: nat, n: nat, input: Input, at: nat)
    requires Unfailing(env) && n == |MediaUrls(input)| && MediaFields(input, n) && p <= at <= p + n && |qs| == p + n + 1
    requires if at < p + n then EmitsChange(qs, p, at - p, input) else EmitsDrop(qs[at], input)
    requires ColumnIdsReadable(input) && IdsForCopies(input) && Found(t, User(input), ListingAsked(input)).None?
    ensures IdleNext(EngineOf(env), t, qs, input, at, true)
  {
    if at < p + n {
      CopyIdles(env, t, qs, p, input, at - p);
    } else {
      DropIdles(env, t, qs, input, at);
    }
  }

  /** Where the run is when it gets to the columns. */
  lemma IdleStarts(env: Env, t: Tables, qs: seq<Query>, input: Input)
    requires Unfailing(env) && |qs| > 0 && (IsNewAddress(input) ==> CreatesAddress(qs[0], input))
    ensures Before(input, 1) <= |qs|
    ensures if AddressGoes(t, input)
            then Idle(t, RunUpTo(EngineOf(env), t, qs, Before(input, 1)), input, Before(input, 1))
            else RunAll(EngineOf(env), t, qs).Stopped?
  {
    assert Before(input, 1) == if IsNewAddress(input) then 1 else 0;
    assert RunUpTo(EngineOf(env), t, qs, 0) == Going(t, []);
    if IsNewAddress(input) {
      var args := [PartOf(input, COUNTRY), PartOf(input, REGION), PartOf(input, POSTCODE), Field(input, ACCOUNT_ID)];
      assert EvaluateAll(Params(qs[0]), []).value == args;
      AddressRuns(env, t, input);
      MediaSettles(env, t, qs, 0, Going(t, []), args);
      assert [] + [Returning(COL_ADDRESS_ID, t.addresses.serial)] == [Returning(COL_ADDRESS_ID, t.addresses.serial)];
    }
  }

  /** The columns are readable one by one exactly if everything of them is. */
  lemma ReadableColumns(qs: seq<Query>, input: Input)
    requires Columns(qs, input) && Before(input, 6) <= |qs| && Before(input, 1) < Before(input, 6)
    ensures (forall at: nat :: Before(input, 1) <= at < Before(input, 6) ==> Readable(qs[at].text, input))
            <==> ColumnsReadable(input)
  {
    assert Readable(qs[Before(input, 1)].text, input) ==> ColumnIdsReadable(input);
    if CATEGORY_ID in input {
      assert ColumnKey(4) in input && Before(input, 4) < Before(input, 6);
    }
    if LOCATION in input {
      assert ColumnKey(3) in input && Before(input, 3) < Before(input, 6);
    }
    forall at: nat | Before(input, 1) <= at < Before(input, 6)
      ensures ColumnsReadable(input) ==> Readable(qs[at].text, input)
    {
      var k := ColumnAt(input, 6, at);
      assert ChangesColumn(qs[Before(input, k)], input, k);
    }
  }

  /** Where the columns can be read. */
  ghost function ReadableAt(qs: seq<Query>, input: Input): (readable: seq<bool>)
    ensures |readable| == |qs| && forall at :: 0 <= at < |qs| ==> readable[at] == Readable(qs[at].text, input)
  {
    seq(|qs|, at requires 0 <= at < |qs| => Readable(qs[at].text, input))
  }

  lemma AllColumnIdles(env: Env, t: Tables, qs: seq<Query>, input: Input, readable: seq<bool>)
    requires Unfailing(env) && Columns(qs, input) && Before(input, 1) <= Before(input, 6) <= |qs| == |readable|
    requires forall at :: 0 <= at < |qs| ==> readable[at] == Readable(qs[at].text, input)
    requires Found(t, User(input), ListingAsked(input)).None?
    ensures forall at: nat :: Before(input, 1) <= at < Before(input, 6) ==>
              IdleNext(EngineOf(env), t, qs, input, at, readable[at])
  {
    forall at: nat | Before(input, 1) <= at < Before(input, 6)
      ensures IdleNext(EngineOf(env), t, qs, input, at, readable[at])
    {
      ColumnIdles(env, t, qs, input, at);
    }
  }

  /** The columns of any other listing. */
  lemma IdleColumns(env: Env, t: Tables, qs: seq<Query>, input: Input)
    requires Unfailing(env) && Columns(qs, input) && Before(input, 1) < Before(input, 6) <= |qs|
    requires Found(t, User(input), ListingAsked(input)).None?
    requires Idle(t, RunUpTo(EngineOf(env), t, qs, Before(input, 1)), input, Before(input, 1))
    ensures if ColumnsReadable(input)
            then Idle(t, RunUpTo(EngineOf(env), t, qs, Before(input, 6)), input, Before(input, 6))
            else RunAll(EngineOf(env), t, qs).Stopped?
  {
    var readable := ReadableAt(qs, input);
    AllColumnIdles(env, t, qs, input, readable);
    ReadableColumns(qs, input);
    IdleGo(EngineOf(env), t, qs, input, Before(input, 1), Before(input, 6), readable);
  }

  /** Ids that can be used for the copies, but not for the last statement. */
  lemma DropRefused(env: Env, t: Tables, qs: seq<Query>, input: Input)
    requires Unfailing(env) && |qs| > 0 && EmitsDrop(qs[|qs| - 1], input) && !ColumnIdsReadable(input)
    ensures RunAll(EngineOf(env), t, qs).Stopped?
  {
    var m := |qs| - 1;
    var run := RunUpTo(EngineOf(env), t, qs, m);
    if run.Going? {
      var args := [User(input), ListingAsked(input), Num(|MediaUrls(input)|)];
      PlainArguments(Params(qs[m]), args, run.results);
      DropIsRefused(env, run.db, args);
      MediaSettles(env, t, qs, m, run, args);
    } else {
      RunStaysStopped(EngineOf(env), t, qs, m, |qs|);
    }
  }

  lemma DropIsRefused(env: Env, s: Tables, args: seq<Val>)
    requires |args| == 3 && (AsInt(args[0]).NotInt? || AsInt(args[1]).NotInt?)
    ensures Exec(env, s, DropExtraMedia, args).Refused?
  {
  }

  lemma AllMediaIdle(env: Env, t: Tables, qs: seq<Query>, p: nat, input: Input)
    requires Unfailing(env) && ModifiesListing(qs, p, input) && URL in input
    requires ColumnIdsReadable(input) && IdsForCopies(input) && Found(t, User(input), ListingAsked(input)).None?
    ensures forall at: nat :: p <= at < |qs| ==> IdleNext(EngineOf(env), t, qs, input, at, true)
  {
    forall at: nat | p <= at < |qs|
      ensures IdleNext(EngineOf(env), t, qs, input, at, true)
    {
      if at < |qs| - 1 {
        assert EmitsChange(qs, p, at - p, input);
      }
      MediaIdles(env, t, qs, p, |MediaUrls(input)|, input, at);
    }
  }

  /** The media of any other listing. */
  lemma IdleMedia(env: Env, t: Tables, qs: seq<Query>, input: Input)
    requires Unfailing(env) && Modifies(qs, input) && URL in input && Before(input, 6) < |qs|
    requires Found(t, User(input), ListingAsked(input)).None?
    requires Idle(t, RunUpTo(EngineOf(env), t, qs, Before(input, 6)), input, Before(input, 6))
    ensures RunAll(EngineOf(env), t, qs).Going? <==> IdsForCopies(input) && ColumnIdsReadable(input)
  {
    var p := Before(input, 6);
    if !IdsForCopies(input) {
      assert EmitsChange(qs, p, 0, input);
      CopiesRefused(env, t, qs, p, input);
    } else if !ColumnIdsReadable(input) {
      DropRefused(env, t, qs, input);
    } else {
      AllMediaIdle(env, t, qs, p, input);
      IdleStays(EngineOf(env), t, qs, input, p, |qs|);
    }
  }

  /** Where there are no columns, there are media. */
  lemma SomethingSent(qs: seq<Query>, input: Input)
    requires Modifies(qs, input)
    ensures Before(input, 1) <= Before(input, 6) <= |qs| && (URL in input <==> Before(input, 6) < |qs|)
    ensures Before(input, 1) == Before(input, 6) ==>
              URL in input && Before(input, 6) == 0 && CATEGORY_ID !in input && LOCATION !in input
  {
    BeforeGrows(input, 1, 6);
    assert CATEGORY_ID in input ==> ColumnKey(4) in input;
    assert LOCATION in input ==> ColumnKey(3) in input;
    assert IsNewAddress(input) ==> LOCATION in input;
  }

  /** On any other listing every statement goes through that can be read, and changes nothing. */
  lemma NotFoundEnds(env: Env, t: Tables, qs: seq<Query>, input: Input)
    requires Unfailing(env) && Modifies(qs, input) && Found(t, User(input), ListingAsked(input)).None?
    ensures RunAll(EngineOf(env), t, qs).Going? <==> ChangesReadable(input) && AddressGoes(t, input)
  {
    IdleStarts(env, t, qs, input);
    SomethingSent(qs, input);
    if AddressGoes(t, input) {
      if Before(input, 1) < Before(input, 6) {
        IdleColumns(env, t, qs, input);
      }
      if URL in input && Idle(t, RunUpTo(EngineOf(env), t, qs, Before(input, 6)), input, Before(input, 6)) {
        IdleMedia(env, t, qs, input);
      }
    }
  }

  // ---------------------------------------------------------------- the answer

  predicate SomethingToChange(input: Input) {
    TITLE in input || DESCRIPTION in input || LOCATION in input || CATEGORY_ID in input || CONDITION in input
    || URL in input
  }

  lemma NoColumns(input: Input)
    ensures Before(input, 6) == 0 <==> TITLE !in input && DESCRIPTION !in input && LOCATION !in input
                                       && CATEGORY_ID !in input && CONDITION !in input
  {
    forall k | 1 <= k <= 5 && Before(input, 6) == 0
      ensures ColumnKey(k) !in input
    {
      BeforeGrows(input, k + 1, 6);
    }
    assert Before(input, 6) == 0 ==>
        ColumnKey(1) !in input && ColumnKey(2) !in input && ColumnKey(3) !in input && ColumnKey(4) !in input
        && ColumnKey(5) !in input;
    if TITLE !in input && DESCRIPTION !in input && LOCATION !in input {
      assert Before(input, 1) == 0 && Before(input, 2) == 0 && Before(input, 3) == 0 && Before(input, 4) == 0;
    }
  }

  lemma NothingCopied(input: Input)
    requires Usable(input) && Defined(ModifyListingTemplate())
    ensures |ModifyListingTemplate().order| == 8
    ensures Offset(ModifyListingTemplate(), input, 8) == 0 <==> !SomethingToChange(input)
  {
    ModifyListingCopies(input);
    ShapeOfTemplate(input);
    OffsetIsBefore(ModifyListingTemplate(), input, 6);
    NoColumns(input);
  }

  lemma PlanUnlessNothing(input: Input)
    requires Usable(input)
    ensures Defined(ModifyListingTemplate())
    ensures if SomethingToChange(input) then PlanOf(ModifyListingTemplate(), input).Ok?
            else PlanOf(ModifyListingTemplate(), input) == Err(EmptyQuery)
  {
    ShippedTemplatesBuild(ModifyListingAction, input);
    BuildSucceedsIff(ModifyListingTemplate(), input);
    NothingCopied(input);
  }

  lemma ExecutedIsRun(env: Env, t: Tables, qs: seq<Query>)
    requires Unfailing(env) && qs != [] && AllPlain(qs[0])
    ensures Executed(EngineOf(env), env.faults, qs, t).1.Ok? <==> RunAll(EngineOf(env), t, qs).Going?
  {
    if |qs| == 1 {
      SimpleIsComplex(EngineOf(env), qs[0], t);
      assert qs == [qs[0]];
    }
  }

  /** Exactly when the listing of the caller is changed, and exactly when the caller is told so
      although there is no such listing. */
  ghost predicate ModificationSucceeds(t: Tables, input: Input) {
    if Found(t, User(input), ListingAsked(input)).Some? then
      ChangesGiven(input) && NewReferencesThere(t, input, AsInt(User(input)).n) && UploadsGiven(input)
    else IsNewAddress(input) && ChangesReadable(input) && AddressGoes(t, input)
  }

  ghost predicate ReferenceMissing(t: Tables, input: Input) {
    && Found(t, User(input), ListingAsked(input)).Some?
    && ChangesGiven(input) && !NewReferencesThere(t, input, AsInt(User(input)).n)
  }

  ghost predicate ListingMissing(t: Tables, input: Input) {
    Found(t, User(input), ListingAsked(input)).None? && ChangesReadable(input) && !IsNewAddress(input)
  }

  /** How the store stage of a modify-listing ends: it succeeds exactly for an open listing of
      the caller if every value can be stored and what it refers to is there, or for any other
      if the location is a new address.  If only what it refers to is not there, because there
      is no such category or the address is someone else's, that is what is answered; and
      whenever it is refused nothing has changed. */
  lemma ModifyListingExactly(env: Env, input: Input, t: Tables)
    requires Unfailing(env) && Inv(t) && Usable(input)
    ensures Defined(ModifyListingTemplate())
    ensures var (t', outcome) := StoreOf(ModifyListingTemplate(), input, EngineOf(env), env.faults, t);
            && (outcome.Ok? <==> SomethingToChange(input) && ModificationSucceeds(t, input))
            && (outcome.Err? ==> t' == t)
            && (!SomethingToChange(input) ==> outcome == Err(EmptyQuery))
            && (SomethingToChange(input) && ReferenceMissing(t, input) ==> outcome == Err(ForeignKey))
            && (SomethingToChange(input) && ListingMissing(t, input) ==> outcome == Err(EmptyResponse))
  {
    PlanUnlessNothing(input);
    if SomethingToChange(input) {
      PlanModifies(input);
      ModificationEnds(env, input, t);
    }
  }

  lemma ModificationEnds(env: Env, input: Input, t: Tables)
    requires Unfailing(env) && Inv(t) && Usable(input)
    requires Defined(ModifyListingTemplate()) && PlanOf(ModifyListingTemplate(), input).Ok?
    requires Modifies(PlanOf(ModifyListingTemplate(), input).value.queries, input)
    ensures var (t', outcome) := StoreOf(ModifyListingTemplate(), input, EngineOf(env), env.faults, t);
            && (outcome.Ok? <==> ModificationSucceeds(t, input)) && (outcome.Err? ==> t' == t)
            && (ReferenceMissing(t, input) ==> outcome == Err(ForeignKey))
            && (ListingMissing(t, input) ==> outcome == Err(EmptyResponse))
  {
    var template, found := ModifyListingTemplate(), Found(t, User(input), ListingAsked(input));
    var qs := PlanOf(template, input).value.queries;
    StoreIsRun(template, input, env, t);
    ExecutedIsRun(env, t, qs);
    if found.Some? {
      FoundEnds(env, t, qs, found.value, input);
    } else {
      NotFoundEnds(env, t, qs, input);
    }
    if RunAll(EngineOf(env), t, qs).Going? {
      ModifyListingAnswersIff(env, input, t);
    }
  }
}
