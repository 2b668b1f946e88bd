/** modify-account on a database that does not fail: exactly which columns it changes and to
    what, and when it succeeds. */
module ModifyAccount {
  import opened Values
  import opened Vocabulary
  import opened SqlTemplate
  import opened PlanShape
  import opened Execution
  import opened Database
  import opened Store
  import opened Schema
  import opened Statements
  import opened Invariants
  import opened Templates
  import opened Builds
  import opened Transactions
  import opened Closing
  import opened Listings
  import opened Effects
  import opened Deviations
  import opened ListingOutcomes
  import opened AccountOutcomes

  // ---------------------------------------------------------------- the plan

  /** The statements of the template, in its order: four columns, and the picture. */
  function ChangeText(k: nat): Sql {
    if k == 0 then ChangeName else if k == 1 then ChangeEmail else if k == 2 then ChangePassHash
    else if k == 3 then ChangeDob else UpsertUserMedia
  }

  function ChangeKey(k: nat): Key {
    if k == 0 then NAME else if k == 1 then EMAIL else if k == 2 then PASS_HASH else if k == 3 then DOB else MIME_TYPE
  }

  function ChangeFields(k: nat): seq<Key> {
    if k < 4 then [ACCOUNT_ID, ChangeKey(k)] else [ACCOUNT_ID, MIME_TYPE, URL]
  }

  /** How many statements stand before the k-th of the template. */
  function Place(input: Input, k: nat): nat {
    if k == 0 then 0 else Place(input, k - 1) + if ChangeKey(k - 1) in input then 1 else 0
  }

  ghost predicate ChangesAt(qs: seq<Query>, input: Input, k: nat) {
    && Place(input, k) < |qs| && qs[Place(input, k)].text == ChangeText(k)
    && Params(qs[Place(input, k)]) == PlainOf(Arguments(input, ChangeFields(k)))
  }

  function PlainOf(args: seq<Val>): seq<Param> {
    seq(|args|, i requires 0 <= i < |args| => Plain(args[i]))
  }

  ghost predicate ChangesAccount(qs: seq<Query>, input: Input) {
    && |qs| == Place(input, 5)
    && forall k :: 0 <= k < 5 && ChangeKey(k) in input ==> ChangesAt(qs, input, k)
  }

  predicate TakesFields(cs: seq<ValueCons>, keys: seq<Key>) {
    |cs| == |keys| && forall j :: 0 <= j < |keys| ==> cs[j].FromInput? && cs[j].key == keys[j]
  }

  ghost predicate IsChange(d: QueryDef, k: nat) {
    && d.text == ChangeText(k) && d.condition == Some(Has(ChangeKey(k))) && d.times.None?
    && d.values.Some? && TakesFields(d.values.value, ChangeFields(k))
  }

  ghost predicate AccountShape(t: Template) {
    Defined(t) && |t.order| == 5 && forall k :: 0 <= k < 5 ==> IsChange(t.dict[t.order[k]], k)
  }

  lemma ChangeOfTemplate(k: nat)
    requires k < 5
    ensures IsChange(ModifyAccountTemplate().dict[ModifyAccountTemplate().order[k]], k)
  {
  }

  lemma ShapeOfAccountTemplate()
    ensures AccountShape(ModifyAccountTemplate())
  {
    ShippedDefined(ModifyAccountAction);
    forall k | 0 <= k < 5
      ensures IsChange(ModifyAccountTemplate().dict[ModifyAccountTemplate().order[k]], k)
    {
      ChangeOfTemplate(k);
    }
  }

  lemma {:induction false} OffsetIsPlace(t: Template, input: Input, k: nat)
    requires AccountShape(t) && k <= 5
    ensures Offset(t, input, k) == Place(input, k)
    ensures k < 5 ==> Copies(t, input, k) == if ChangeKey(k) in input then 1 else 0
  {
    if k < 5 {
      assert IsChange(t.dict[t.order[k]], k);
    }
    if k > 0 {
      OffsetIsPlace(t, input, k - 1);
    }
  }

  /** The parameters of a query that takes everything from the input. */
  lemma FieldsAreParameters(t: Template, input: Input, k: nat, keys: seq<Key>)
    requires Defined(t) && PlanOf(t, input).Ok? && k < |t.order| && Copies(t, input, k) == 1
    requires t.dict[t.order[k]].values.Some? && TakesFields(t.dict[t.order[k]].values.value, keys)
    ensures Offset(t, input, k) < |PlanOf(t, input).value.queries|
    ensures Params(PlanOf(t, input).value.queries[Offset(t, input, k)]) == PlainOf(Arguments(input, keys))
  {
    CopyText(t, input, k, 0);
    var ps := Params(PlanOf(t, input).value.queries[Offset(t, input, k) + 0]);
    forall j: nat | j < |keys|
      ensures ps[j] == PlainOf(Arguments(input, keys))[j]
    {
      FieldParameter(t, input, k, 0, j, keys[j]);
    }
  }

  lemma ChangeStands(t: Template, input: Input, k: nat)
    requires AccountShape(t) && PlanOf(t, input).Ok? && k < 5 && ChangeKey(k) in input
    ensures ChangesAt(PlanOf(t, input).value.queries, input, k)
  {
    OffsetIsPlace(t, input, k);
    assert IsChange(t.dict[t.order[k]], k);
    CopyText(t, input, k, 0);
    FieldsAreParameters(t, input, k, ChangeFields(k));
  }

  lemma PlanChangesAccount(input: Input)
    requires Defined(ModifyAccountTemplate()) && PlanOf(ModifyAccountTemplate(), input).Ok?
    ensures ChangesAccount(PlanOf(ModifyAccountTemplate(), input).value.queries, input)
  {
    ShapeOfAccountTemplate();
    PlanLength(ModifyAccountTemplate(), input);
    OffsetIsPlace(ModifyAccountTemplate(), input, 5);
    forall k | 0 <= k < 5 && ChangeKey(k) in input
      ensures ChangesAt(PlanOf(ModifyAccountTemplate(), input).value.queries, input, k)
    {
      ChangeStands(ModifyAccountTemplate(), input, k);
    }
  }

  // ---------------------------------------------------------------- the row

  /** No other account has this email address. */
  predicate EmailFreeFor(t: Tables, n: int, email: Val) {
    forall a :: a in t.accounts.rows && a != n ==> t.accounts.rows[a].email != email
  }

  /** The row after the first k statements of the template. */
  function AccountAfter(a: Account, input: Input, k: nat): Account {
    Account(if k > 0 && NAME in input then Field(input, NAME) else a.name,
            if k > 1 && EMAIL in input then Field(input, EMAIL) else a.email,
            if k > 2 && PASS_HASH in input then Field(input, PASS_HASH) else a.passhash,
            if k > 3 && DOB in input then Field(input, DOB) else a.dob, a.deleted)
  }

  /** The tables then: a deleted account, or none, stays as it is. */
  function ChangedTo(t: Tables, n: int, input: Input, k: nat): Tables {
    if !Live(t, n) then t
    else
      var row := AccountAfter(t.accounts.rows[n], input, k);
      t.(accounts := t.accounts.(rows := t.accounts.rows[n := row]))
  }

  function ChangeOf(input: Input, k: nat): AccountChange {
    var v := Field(input, ChangeKey(k));
    if k == 0 then SetName(v) else if k == 1 then SetEmail(v) else if k == 2 then SetPassHash(v) else SetDob(v)
  }

  /** The new value is not NULL, and an email address is not that of another account. */
  predicate ChangeGiven(input: Input, k: nat) {
    ChangeKey(k) in input ==> !IsNull(Field(input, ChangeKey(k)))
  }

  predicate ChangeFine(t: Tables, n: int, input: Input, k: nat) {
    ChangeGiven(input, k) && (k == 1 && EMAIL in input ==> EmailFreeFor(t, n, Field(input, EMAIL)))
  }

  /** What the constraints ask of the row. */
  predicate RowStands(t: Tables, n: int, a: Account) {
    Filled(a) && EmailFreeFor(t, n, a.email)
  }

  /** One of the first four statements, exactly. */
  lemma ChangeSettles(t: Tables, n: int, input: Input, k: nat)
    requires k < 4 && ChangeKey(k) in input
    requires Live(t, n) ==> RowStands(t, n, AccountAfter(t.accounts.rows[n], input, k))
    ensures var effect := UpdateAccountRow(ChangedTo(t, n, input, k), Int(n), ChangeOf(input, k));
            if !Live(t, n) then effect == Done(t, [])
            else if ChangeFine(t, n, input, k) then
              && effect == Done(ChangedTo(t, n, input, k + 1), Returning(COL_USER_ID, n))
              && RowStands(t, n, AccountAfter(t.accounts.rows[n], input, k + 1))
            else effect.Refused? && (ChangeGiven(input, k) ==> effect.code == UniqueViolation)
  {
    if Live(t, n) {
      var rows, a := t.accounts.rows, AccountAfter(t.accounts.rows[n], input, k);
      var b := ChangedAccount(a, ChangeOf(input, k));
      assert b == AccountAfter(rows[n], input, k + 1);
      assert rows[n := a][n := b] == rows[n := b];
      if ChangeGiven(input, k) && !ChangeFine(t, n, input, k) {
        var other :| other in rows && other != n && rows[other].email == b.email;
        assert ChangedTo(t, n, input, k).accounts.rows[other].email == b.email;
      }
    }
  }

  // ---------------------------------------------------------------- the run

  /** The run has got to the k-th statement of the template, and the row is as far. */
  ghost predicate ChangedUpTo(t: Tables, run: Progress<Tables>, n: int, input: Input, k: nat) {
    && run.Going? && |run.results| == Place(input, k) && run.db == ChangedTo(t, n, input, k)
    && (forall i :: 0 <= i < |run.results| ==> run.results[i] == if Live(t, n) then Returning(COL_USER_ID, n) else [])
    && (Live(t, n) ==> RowStands(t, n, AccountAfter(t.accounts.rows[n], input, k)))
  }

  /** The run has ended, because the email address is taken if everything was given. */
  ghost predicate EndedBecause(run: Progress<Tables>, given: bool) {
    run.Stopped? && (given ==> Translated(run.error) == UniqueConstraint)
  }

  lemma ChangeStatement(env: Env, s: Tables, input: Input, k: nat, n: int)
    requires k < 4 && IntOf(input, ACCOUNT_ID) == Int(n)
    ensures Exec(env, s, ChangeText(k), Arguments(input, ChangeFields(k)))
            == UpdateAccountRow(s, Int(n), ChangeOf(input, k))
  {
  }

  lemma PlainArgumentsOf(args: seq<Val>, results: seq<Rows>)
    ensures EvaluateAll(PlainOf(args), results) == Some(args)
  {
    assert EvaluateAll(PlainOf(args), results).value == args;
  }

  /** What the k-th statement makes of a run that got to it. */
  ghost predicate ChangeNext(engine: Engine<Tables>, t: Tables, qs: seq<Query>, n: int, input: Input, k: nat)
    requires Place(input, k) <= |qs| && Place(input, k + 1) <= |qs|
  {
    ChangedUpTo(t, RunUpTo(engine, t, qs, Place(input, k)), n, input, k) ==>
      if Live(t, n) && !ChangeFine(t, n, input, k) then EndedBecause(RunAll(engine, t, qs), ChangeGiven(input, k))
      else ChangedUpTo(t, RunUpTo(engine, t, qs, Place(input, k + 1)), n, input, k + 1)
  }

  lemma ChangeSkipped(t: Tables, run: Progress<Tables>, n: int, input: Input, k: nat)
    requires k < 4 && ChangeKey(k) !in input && ChangedUpTo(t, run, n, input, k)
    ensures ChangedUpTo(t, run, n, input, k + 1) && Place(input, k + 1) == Place(input, k) && ChangeFine(t, n, input, k)
  {
  }

  /** The state and the results after the statement. */
  lemma ChangeMoves(t: Tables, run: Progress<Tables>, effect: Effect, n: int, input: Input, k: nat)
    requires k < 4 && ChangeKey(k) in input && ChangedUpTo(t, run, n, input, k)
    requires effect == UpdateAccountRow(run.db, Int(n), ChangeOf(input, k))
    ensures if Live(t, n) && !ChangeFine(t, n, input, k)
            then effect.Refused? && (ChangeGiven(input, k) ==> effect.code == UniqueViolation)
            else effect.Done? && ChangedUpTo(t, Going(effect.db, run.results + [effect.rows]), n, input, k + 1)
  {
    ChangeSettles(t, n, input, k);
    assert Place(input, k + 1) == Place(input, k) + 1;
  }

  lemma ChangeGoes(env: Env, t: Tables, qs: seq<Query>, n: int, input: Input, k: nat)
    requires Unfailing(env) && k < 4 && ChangeKey(k) in input && ChangesAt(qs, input, k)
    requires IntOf(input, ACCOUNT_ID) == Int(n)
    requires Place(input, k + 1) <= |qs|
    ensures ChangeNext(EngineOf(env), t, qs, n, input, k)
  {
    var at := Place(input, k);
    assert Place(input, k + 1) == at + 1;
    var run := RunUpTo(EngineOf(env), t, qs, at);
    if ChangedUpTo(t, run, n, input, k) {
      var args := Arguments(input, ChangeFields(k));
      PlainArgumentsOf(args, run.results);
      ChangeStatement(env, run.db, input, k, n);
      ChangeMoves(t, run, Exec(env, run.db, ChangeText(k), args), n, input, k);
      MediaSettles(env, t, qs, at, run, args);
    }
  }

  lemma ChangeNexts(env: Env, t: Tables, qs: seq<Query>, n: int, input: Input, k: nat)
    requires Unfailing(env) && k < 4 && ChangesAccount(qs, input) && IntOf(input, ACCOUNT_ID) == Int(n)
    requires Place(input, k) <= |qs| && Place(input, k + 1) <= |qs|
    ensures ChangeNext(EngineOf(env), t, qs, n, input, k)
  {
    if ChangeKey(k) in input {
      assert ChangesAt(qs, input, k);
      ChangeGoes(env, t, qs, n, input, k);
    } else if ChangedUpTo(t, RunUpTo(EngineOf(env), t, qs, Place(input, k)), n, input, k) {
      ChangeSkipped(t, RunUpTo(EngineOf(env), t, qs, Place(input, k)), n, input, k);
    }
  }

  lemma {:induction false} PlaceGrows(input: Input, j: nat, k: nat)
    requires j <= k
    ensures Place(input, j) <= Place(input, k)
  {
    if j < k {
      PlaceGrows(input, j, k - 1);
    }
  }

  lemma {:induction false} ChangesGo(engine: Engine<Tables>, t: Tables, qs: seq<Query>, n: int, input: Input, k: nat)
    requires k <= 4 && forall j :: 0 <= j <= 4 ==> Place(input, j) <= |qs|
    requires ChangedUpTo(t, RunUpTo(engine, t, qs, 0), n, input, 0)
    requires forall j :: 0 <= j < k ==> ChangeNext(engine, t, qs, n, input, j)
    ensures if Live(t, n) && exists j :: 0 <= j < k && !ChangeFine(t, n, input, j)
            then EndedBecause(RunAll(engine, t, qs), forall j :: 0 <= j < k ==> ChangeGiven(input, j))
            else ChangedUpTo(t, RunUpTo(engine, t, qs, Place(input, k)), n, input, k)
  {
    if k > 0 {
      ChangesGo(engine, t, qs, n, input, k - 1);
      assert ChangeNext(engine, t, qs, n, input, k - 1);
    }
  }

  lemma ChangesStart(engine: Engine<Tables>, t: Tables, qs: seq<Query>, n: int, input: Input)
    requires AccountsOk(t)
    ensures ChangedUpTo(t, RunUpTo(engine, t, qs, 0), n, input, 0)
  {
    if Live(t, n) {
      assert AccountAfter(t.accounts.rows[n], input, 0) == t.accounts.rows[n];
      assert t.accounts.rows[n := t.accounts.rows[n]] == t.accounts.rows;
    }
  }

  /** The four columns. */
  lemma ColumnChangesEnd(env: Env, t: Tables, qs: seq<Query>, n: int, input: Input)
    requires Unfailing(env) && AccountsOk(t) && ChangesAccount(qs, input) && IntOf(input, ACCOUNT_ID) == Int(n)
    ensures Place(input, 4) <= |qs|
    ensures if Live(t, n) && exists j :: 0 <= j < 4 && !ChangeFine(t, n, input, j)
            then EndedBecause(RunAll(EngineOf(env), t, qs), forall j :: 0 <= j < 4 ==> ChangeGiven(input, j))
            else ChangedUpTo(t, RunUpTo(EngineOf(env), t, qs, Place(input, 4)), n, input, 4)
  {
    forall j | 0 <= j <= 4
      ensures Place(input, j) <= |qs|
    {
      PlaceGrows(input, j, 5);
    }
    ChangesStart(EngineOf(env), t, qs, n, input);
    forall j | 0 <= j < 4
      ensures ChangeNext(EngineOf(env), t, qs, n, input, j)
    {
      ChangeNexts(env, t, qs, n, input, j);
    }
    ChangesGo(EngineOf(env), t, qs, n, input, 4);
  }

  // ---------------------------------------------------------------- the picture

  /** The picture of account n is this one. */
  function WithPictureOf(t: Tables, n: int, input: Input): Tables {
    var id := if n in t.userMedia then t.userMedia[n].id else t.mediaSerial;
    t.(userMedia := t.userMedia[n := MediaItem(id, Field(input, MIME_TYPE), Field(input, URL))],
       mediaSerial := if n in t.userMedia then t.mediaSerial else t.mediaSerial + 1)
  }

  predicate NewPictureGiven(input: Input) {
    MIME_TYPE in input ==> !IsNull(Field(input, MIME_TYPE)) && !IsNull(Field(input, URL))
  }

  /** What is stored in the end. */
  function FullyChanged(t: Tables, n: int, input: Input): Tables {
    var s := ChangedTo(t, n, input, 4);
    if MIME_TYPE in input then WithPictureOf(s, n, input) else s
  }

  lemma NewPictureSettles(t: Tables, n: int, input: Input)
    requires MediaOk(t) && MIME_TYPE in input
    ensures var s := ChangedTo(t, n, input, 4);
            var effect := UpsertUserMediaRow(s, Int(n), Field(input, MIME_TYPE), Field(input, URL));
            if NewPictureGiven(input) && n in t.accounts.rows
            then effect.Done? && effect.db == FullyChanged(t, n, input) && effect.rows != []
            else effect.Refused?
  {
  }

  lemma NewPictureStatement(env: Env, s: Tables, input: Input, n: int)
    requires IntOf(input, ACCOUNT_ID) == Int(n)
    ensures Exec(env, s, UpsertUserMedia, Arguments(input, ChangeFields(4)))
         == UpsertUserMediaRow(s, Int(n), Field(input, MIME_TYPE), Field(input, URL))
  {
  }

  /** What the whole run leaves. */
  ghost predicate ChangedInTheEnd(t: Tables, run: Progress<Tables>, n: int, input: Input) {
    && run.Going? && run.db == FullyChanged(t, n, input)
    && ((exists i :: 0 <= i < |run.results| && run.results[i] != []) <==>
          MIME_TYPE in input || (Live(t, n) && Place(input, 4) > 0))
  }

  lemma NewPictureGoes(env: Env, t: Tables, qs: seq<Query>, n: int, input: Input)
    requires Unfailing(env) && MediaOk(t) && MIME_TYPE in input && ChangesAccount(qs, input)
    requires IntOf(input, ACCOUNT_ID) == Int(n)
    requires Place(input, 4) <= |qs| && ChangedUpTo(t, RunUpTo(EngineOf(env), t, qs, Place(input, 4)), n, input, 4)
    ensures if NewPictureGiven(input) && n in t.accounts.rows
            then ChangedInTheEnd(t, RunAll(EngineOf(env), t, qs), n, input)
            else RunAll(EngineOf(env), t, qs).Stopped?
  {
    var at, args := Place(input, 4), Arguments(input, ChangeFields(4));
    var run := RunUpTo(EngineOf(env), t, qs, at);
    assert ChangesAt(qs, input, 4) && |qs| == at + 1;
    PlainArgumentsOf(args, run.results);
    NewPictureStatement(env, run.db, input, n);
    NewPictureSettles(t, n, input);
    MediaSettles(env, t, qs, at, run, args);
    var effect := Exec(env, run.db, UpsertUserMedia, args);
    if effect.Done? {
      assert (run.results + [effect.rows])[at] != [];
    }
  }

  lemma NoNewPicture(t: Tables, run: Progress<Tables>, n: int, input: Input)
    requires MIME_TYPE !in input && ChangedUpTo(t, run, n, input, 4)
    ensures ChangedInTheEnd(t, run, n, input)
  {
    if Live(t, n) && Place(input, 4) > 0 {
      assert run.results[0] != [];
    }
  }

  // ---------------------------------------------------------------- the answer

  predicate ColumnsGiven(input: Input) {
    && (NAME in input ==> !IsNull(Field(input, NAME))) && (EMAIL in input ==> !IsNull(Field(input, EMAIL)))
    && (PASS_HASH in input ==> !IsNull(Field(input, PASS_HASH))) && (DOB in input ==> !IsNull(Field(input, DOB)))
  }

  /** The email address that was sent, if any, is not that of another account. */
  predicate NewEmailFree(t: Tables, n: int, input: Input) {
    EMAIL in input ==> forall a :: a in t.accounts.rows && a != n ==> t.accounts.rows[a].email != Field(input, EMAIL)
  }

  lemma ChangesOneByOne(t: Tables, n: int, input: Input)
    ensures (forall k :: 0 <= k < 4 ==> ChangeGiven(input, k)) <==> ColumnsGiven(input)
    ensures (forall k :: 0 <= k < 4 ==> ChangeFine(t, n, input, k)) <==>
              ColumnsGiven(input) && NewEmailFree(t, n, input)
  {
    if forall k :: 0 <= k < 4 ==> ChangeGiven(input, k) {
      assert ChangeGiven(input, 0) && ChangeGiven(input, 1) && ChangeGiven(input, 2) && ChangeGiven(input, 3);
    }
    if forall k :: 0 <= k < 4 ==> ChangeFine(t, n, input, k) {
      assert ChangeFine(t, n, input, 0) && ChangeFine(t, n, input, 1) && ChangeFine(t, n, input, 2)
             && ChangeFine(t, n, input, 3);
    }
  }

  /** Whether all the statements go through. */
  predicate ChangesGoThrough(t: Tables, n: int, input: Input) {
    && (Live(t, n) ==> ColumnsGiven(input) && NewEmailFree(t, n, input))
    && (MIME_TYPE in input ==> NewPictureGiven(input) && n in t.accounts.rows)
  }

  ghost predicate AccountRuns(t: Tables, run: Progress<Tables>, n: int, input: Input) {
    && (if ChangesGoThrough(t, n, input) then ChangedInTheEnd(t, run, n, input) else run.Stopped?)
    && (Live(t, n) && ColumnsGiven(input) && !NewEmailFree(t, n, input) ==> Translated(run.error) == UniqueConstraint)
  }

  lemma AccountChangesEnd(env: Env, t: Tables, qs: seq<Query>, n: int, input: Input)
    requires Unfailing(env) && AccountsOk(t) && MediaOk(t) && ChangesAccount(qs, input)
    requires IntOf(input, ACCOUNT_ID) == Int(n)
    ensures AccountRuns(t, RunAll(EngineOf(env), t, qs), n, input)
  {
    ColumnChangesEnd(env, t, qs, n, input);
    ChangesOneByOne(t, n, input);
    if !Live(t, n) || (ColumnsGiven(input) && NewEmailFree(t, n, input)) {
      PictureEnds(env, t, qs, n, input);
    } else {
      assert exists j :: 0 <= j < 4 && !ChangeFine(t, n, input, j);
    }
  }

  lemma PictureEnds(env: Env, t: Tables, qs: seq<Query>, n: int, input: Input)
    requires Unfailing(env) && MediaOk(t) && ChangesAccount(qs, input) && IntOf(input, ACCOUNT_ID) == Int(n)
    requires Place(input, 4) <= |qs| && ChangedUpTo(t, RunUpTo(EngineOf(env), t, qs, Place(input, 4)), n, input, 4)
    ensures if MIME_TYPE in input ==> NewPictureGiven(input) && n in t.accounts.rows
            then ChangedInTheEnd(t, RunAll(EngineOf(env), t, qs), n, input)
            else RunAll(EngineOf(env), t, qs).Stopped?
  {
    if MIME_TYPE in input {
      NewPictureGoes(env, t, qs, n, input);
    } else {
      assert ChangeKey(4) !in input && Place(input, 5) == Place(input, 4);
      NoNewPicture(t, RunAll(EngineOf(env), t, qs), n, input);
    }
  }

  predicate SomethingNew(input: Input) {
    NAME in input || EMAIL in input || PASS_HASH in input || DOB in input || MIME_TYPE in input
  }

  lemma PlacesTaken(input: Input)
    ensures Place(input, 4) == 0 <==> NAME !in input && EMAIL !in input && PASS_HASH !in input && DOB !in input
    ensures Place(input, 5) == 0 <==> !SomethingNew(input)
  {
    assert Place(input, 1) == if NAME in input then 1 else 0;
    assert Place(input, 2) == Place(input, 1) + if EMAIL in input then 1 else 0;
    assert Place(input, 3) == Place(input, 2) + if PASS_HASH in input then 1 else 0;
    assert Place(input, 4) == Place(input, 3) + if DOB in input then 1 else 0;
    assert Place(input, 5) == Place(input, 4) + if MIME_TYPE in input then 1 else 0;
  }

  lemma AccountPlanUnlessNothing(input: Input)
    requires Usable(input)
    ensures Defined(ModifyAccountTemplate()) && ModifyAccountTemplate().errorOnEmptyResponse
    ensures if SomethingNew(input) then PlanOf(ModifyAccountTemplate(), input).Ok?
            else PlanOf(ModifyAccountTemplate(), input) == Err(EmptyQuery)
  {
    ShippedTemplatesBuild(ModifyAccountAction, input);
    BuildSucceedsIff(ModifyAccountTemplate(), input);
    ShapeOfAccountTemplate();
    OffsetIsPlace(ModifyAccountTemplate(), input, 5);
    PlacesTaken(input);
  }

  /** Column by column: what was sent has its new value if the account is not deleted, the
      picture is the one that was sent, even if it is, and all the rest is as it was. */
  ghost predicate AccountIsChanged(t: Tables, t': Tables, n: int, input: Input) {
    && n in t.accounts.rows && n in t'.accounts.rows
    && t' == t.(accounts := t'.accounts, userMedia := t'.userMedia, mediaSerial := t'.mediaSerial)
    && t'.accounts == t.accounts.(rows := t.accounts.rows[n := t'.accounts.rows[n]])
    && var row, was := t'.accounts.rows[n], t.accounts.rows[n];
       && row.name == (if NAME in input && was.deleted.None? then Field(input, NAME) else was.name)
       && row.email == (if EMAIL in input && was.deleted.None? then Field(input, EMAIL) else was.email)
       && row.passhash == (if PASS_HASH in input && was.deleted.None? then Field(input, PASS_HASH) else was.passhash)
       && row.dob == (if DOB in input && was.deleted.None? then Field(input, DOB) else was.dob)
       && row.deleted == was.deleted
       && if MIME_TYPE in input then
            && n in t'.userMedia && t'.userMedia == t.userMedia[n := t'.userMedia[n]]
            && t'.userMedia[n].mimetype == Field(input, MIME_TYPE) && t'.userMedia[n].url == Field(input, URL)
          else t'.userMedia == t.userMedia && t'.mediaSerial == t.mediaSerial
  }

  lemma ChangedColumnByColumn(t: Tables, n: int, input: Input)
    requires n in t.accounts.rows
    ensures AccountIsChanged(t, FullyChanged(t, n, input), n, input)
  {
    if !Live(t, n) {
      assert t.accounts.rows[n := t.accounts.rows[n]] == t.accounts.rows;
    }
  }

  /** Exactly when an account is changed: every value that was sent can be stored, and the
      email address is not another account's.  A deleted account gets a new picture, and
      nothing else; and whenever the request is refused nothing has changed. */
  lemma ModifyAccountExactly(env: Env, input: Input, t: Tables, n: int)
    requires Unfailing(env) && Inv(t) && Usable(input) && IntOf(input, ACCOUNT_ID) == Int(n)
    ensures Defined(ModifyAccountTemplate())
    ensures var (t', outcome) := StoreOf(ModifyAccountTemplate(), input, EngineOf(env), env.faults, t);
            && (outcome.Ok? <==> SomethingNew(input) && n in t.accounts.rows && NewPictureGiven(input)
                                 && if Live(t, n) then ColumnsGiven(input) && NewEmailFree(t, n, input)
                                    else MIME_TYPE in input)
            && (outcome.Ok? ==> AccountIsChanged(t, t', n, input))
            && (outcome.Err? ==> t' == t)
            && (!SomethingNew(input) ==> outcome == Err(EmptyQuery))
            && (Live(t, n) && ColumnsGiven(input) && !NewEmailFree(t, n, input) ==> outcome == Err(UniqueConstraint))
            && (SomethingNew(input) && !Live(t, n) && MIME_TYPE !in input ==> outcome == Err(EmptyResponse))
  {
    AccountPlanUnlessNothing(input);
    if SomethingNew(input) {
      PlanChangesAccount(input);
      PlacesTaken(input);
      ShippedOneQueryPlansArePlain(ModifyAccountAction, input);
      FirstQueryIsPlain(ModifyAccountTemplate(), input);
      AccountChangesStored(env, input, t, n);
      if n in t.accounts.rows {
        ChangedColumnByColumn(t, n, input);
      }
    }
  }

  lemma AccountChangesStored(env: Env, input: Input, t: Tables, n: int)
    requires Unfailing(env) && Inv(t) && IntOf(input, ACCOUNT_ID) == Int(n) && SomethingNew(input)
    requires Defined(ModifyAccountTemplate()) && PlanOf(ModifyAccountTemplate(), input).Ok?
    requires ModifyAccountTemplate().errorOnEmptyResponse
    requires ChangesAccount(PlanOf(ModifyAccountTemplate(), input).value.queries, input)
    requires PlanOf(ModifyAccountTemplate(), input).value.queries != []
    requires AllPlain(PlanOf(ModifyAccountTemplate(), input).value.queries[0])
    ensures var (t', outcome) := StoreOf(ModifyAccountTemplate(), input, EngineOf(env), env.faults, t);
            && (outcome.Ok? <==> ChangesGoThrough(t, n, input) && (MIME_TYPE in input || Live(t, n)))
            && (outcome.Ok? ==> t' == FullyChanged(t, n, input))
            && (outcome.Err? ==> t' == t)
            && (Live(t, n) && ColumnsGiven(input) && !NewEmailFree(t, n, input) ==> outcome == Err(UniqueConstraint))
            && (!Live(t, n) && MIME_TYPE !in input ==> outcome == Err(EmptyResponse))
  {
    var template := ModifyAccountTemplate();
    var plan := PlanOf(template, input).value;
    var run := RunAll(EngineOf(env), t, plan.queries);
    AccountChangesEnd(env, t, plan.queries, n, input);
    PlacesTaken(input);
    StoreIsRun(template, input, env, t);
    PlanLength(template, input);
    if run.Going? {
      AnyRowIsSuccess(template, plan.names, run.results);
    }
  }

  /** Where nothing is dropped, any row at all makes it a success. */
  lemma AnyRowIsSuccess(template: Template, names: seq<QueryName>, results: seq<Rows>)
    requires |names| == |results| && template.errorOnEmptyResponse && template.drop.None?
    ensures Prepared(template, names, results).Ok? <==> exists i :: 0 <= i < |results| && results[i] != []
    ensures Prepared(template, names, results).Err? ==> Prepared(template, names, results) == Err(EmptyResponse)
  {
    EmptyExactly(template, names, results);
  }
}
