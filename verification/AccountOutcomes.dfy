/** create-account and modify-account on a database that does not fail: exactly when they
    succeed, and why else they are refused. */
module AccountOutcomes {
  import opened Values
  import opened Vocabulary
  import opened SqlTemplate
  import opened PlanShape
  import opened Execution
  import opened Database
  import opened Store
  import opened Schema
  import opened Statements
  import opened Invariants
  import opened Templates
  import opened Builds
  import opened Transactions
  import opened Closing
  import opened Listings
  import opened Effects
  import opened CreateAccount
  import opened Deviations
  import opened ListingOutcomes

  // ---------------------------------------------------------------- create-account

  /** Every part of the address that came along has a value. */
  predicate AddressGiven(input: Input) {
    ADDRESS in input ==> !IsNull(AddressPart(input, COUNTRY)) && !IsNull(AddressPart(input, REGION))
                         && !IsNull(AddressPart(input, POSTCODE))
  }

  predicate PictureGiven(input: Input) {
    URL in input ==> !IsNull(Field(input, MIME_TYPE)) && !IsNull(Field(input, URL))
  }

  /** No other account has this email address. */
  predicate EmailFree(t: Tables, email: Val) {
    forall a :: a in t.accounts.rows ==> t.accounts.rows[a].email != email
  }

  /** The tables with the account alone, and with its address. */
  function AccountOnly(t: Tables, input: Input): Tables {
    t.(accounts := t.accounts.Insert(NewAccount(input)))
  }

  function AccountAndAddress(t: Tables, input: Input): Tables {
    AccountAdded(t, input).(userMedia := t.userMedia, mediaSerial := t.mediaSerial)
  }

  lemma AccountSettles(t: Tables, input: Input)
    ensures var effect := InsertAccountRow(t, Field(input, NAME), Field(input, EMAIL), Field(input, PASS_HASH),
                                           Field(input, DOB));
            if !CompleteAccount(input) then effect.Refused?
            else if !EmailFree(t, Field(input, EMAIL)) then effect == Done(t, [])
            else effect == Done(AccountOnly(t, input), Returning(COL_USER_ID, t.accounts.serial))
  {
  }

  lemma AddressSettles(t: Tables, input: Input)
    requires ADDRESS in input
    ensures var effect := InsertAddressRow(AccountOnly(t, input), AddressPart(input, COUNTRY),
                                           AddressPart(input, REGION),
                                           AddressPart(input, POSTCODE), Int(t.accounts.serial));
            if AddressGiven(input) then effect.Done? && effect.db == AccountAndAddress(t, input) else effect.Refused?
  {
  }

  lemma PictureSettles(t: Tables, input: Input)
    requires URL in input && MediaOk(t) && t.accounts.Valid()
    ensures var effect := InsertUserMediaRow(AccountAndAddress(t, input), Field(input, MIME_TYPE), Field(input, URL),
                                             Int(t.accounts.serial));
            if PictureGiven(input) then effect.Done? && effect.db == AccountAdded(t, input) else effect.Refused?
  {
  }

  lemma AccountStatements(env: Env, t: Tables, args: seq<Val>, n: int)
    ensures |args| == 4 ==> Exec(env, t, InsertAccount, args) == InsertAccountRow(t, args[0], args[1], args[2], args[3])
    ensures |args| == 4 && args[3] == Num(n) ==>
              Exec(env, t, InsertAddress, args) == InsertAddressRow(t, args[0], args[1], args[2], Int(n))
    ensures |args| == 3 && args[2] == Num(n) ==>
              Exec(env, t, InsertUserMedia, args) == InsertUserMediaRow(t, args[0], args[1], Int(n))
  {
  }

  /** The run has stored so much of the account. */
  ghost predicate SoFar(t: Tables, run: Progress<Tables>, s: Tables, m: nat) {
    run.Going? && |run.results| == m && m > 0 && run.results[0] == Returning(COL_USER_ID, t.accounts.serial)
    && run.db == s
  }

  lemma AccountStarts(env: Env, t: Tables, qs: seq<Query>, input: Input)
    requires Unfailing(env) && CreatesAccount(qs, input)
    ensures !CompleteAccount(input) ==> RunAll(EngineOf(env), t, qs).Stopped?
    ensures CompleteAccount(input) && EmailFree(t, Field(input, EMAIL)) ==>
              SoFar(t, RunUpTo(EngineOf(env), t, qs, 1), AccountOnly(t, input), 1)
  {
    var args := [Field(input, NAME), Field(input, EMAIL), Field(input, PASS_HASH), Field(input, DOB)];
    assert EvaluateAll(Params(qs[0]), []).value == args;
    assert RunUpTo(EngineOf(env), t, qs, 0) == Going(t, []);
    AccountStatements(env, t, args, 0);
    AccountSettles(t, input);
    MediaSettles(env, t, qs, 0, Going(t, []), args);
  }

  lemma AddressFollows(env: Env, t: Tables, qs: seq<Query>, run: Progress<Tables>, input: Input)
    requires Unfailing(env) && ADDRESS in input && |qs| > 1 && StoresAddress(qs[1], input)
    requires RunUpTo(EngineOf(env), t, qs, 1) == run && SoFar(t, run, AccountOnly(t, input), 1)
    ensures if AddressGiven(input) then SoFar(t, RunUpTo(EngineOf(env), t, qs, 2), AccountAndAddress(t, input), 2)
            else RunAll(EngineOf(env), t, qs).Stopped?
  {
    var n := t.accounts.serial;
    var args := [AddressPart(input, COUNTRY), AddressPart(input, REGION), AddressPart(input, POSTCODE), Num(n)];
    assert EvaluateAll(Params(qs[1]), run.results).value == args;
    AccountStatements(env, run.db, args, n);
    AddressSettles(t, input);
    MediaSettles(env, t, qs, 1, run, args);
  }

  lemma PictureFollows(env: Env, t: Tables, qs: seq<Query>, m: nat, run: Progress<Tables>, input: Input)
    requires Unfailing(env) && URL in input && m + 1 == |qs| && StoresPicture(qs[m], input)
    requires MediaOk(t) && t.accounts.Valid()
    requires RunUpTo(EngineOf(env), t, qs, m) == run && SoFar(t, run, AccountAndAddress(t, input), m)
    ensures if PictureGiven(input) then SoFar(t, RunAll(EngineOf(env), t, qs), AccountAdded(t, input), m + 1)
            else RunAll(EngineOf(env), t, qs).Stopped?
  {
    var n := t.accounts.serial;
    var args := [Field(input, MIME_TYPE), Field(input, URL), Num(n)];
    assert EvaluateAll(Params(qs[m]), run.results).value == args;
    AccountStatements(env, run.db, args, n);
    PictureSettles(t, input);
    MediaSettles(env, t, qs, m, run, args);
  }

  /** How the run ends, when the email address is not taken. */
  lemma AccountEnds(env: Env, t: Tables, qs: seq<Query>, input: Input)
    requires Unfailing(env) && CreatesAccount(qs, input) && MediaOk(t) && t.accounts.Valid()
    requires EmailFree(t, Field(input, EMAIL))
    ensures if CompleteAccount(input) && AddressGiven(input) && PictureGiven(input)
            then SoFar(t, RunAll(EngineOf(env), t, qs), AccountAdded(t, input), |qs|)
            else RunAll(EngineOf(env), t, qs).Stopped?
  {
    AccountStarts(env, t, qs, input);
    if CompleteAccount(input) {
      if ADDRESS in input {
        AddressFollows(env, t, qs, RunUpTo(EngineOf(env), t, qs, 1), input);
      }
      if URL in input && AddressGiven(input) {
        PictureFollows(env, t, qs, |qs| - 1, RunUpTo(EngineOf(env), t, qs, |qs| - 1), input);
      }
    }
  }

  /** An account is created exactly if every column has a value and no account has the email
      address; otherwise nothing changes. */
  lemma CreateAccountExactly(env: Env, input: Input, t: Tables)
    requires Unfailing(env) && Inv(t) && Usable(input)
    ensures Defined(CreateAccountTemplate())
    ensures var (t', outcome) := StoreOf(CreateAccountTemplate(), input, EngineOf(env), env.faults, t);
            && (outcome.Ok? <==> CompleteAccount(input) && AddressGiven(input) && PictureGiven(input)
                                 && EmailFree(t, Field(input, EMAIL)))
            && (outcome.Ok? ==> t' == AccountAdded(t, input)
                                && outcome.value == [Returning(COL_USER_ID, t.accounts.serial)])
            && (outcome.Err? ==> t' == t)
  {
    CreateAccountBuilds(input);
    CreateAccountPlan(input);
    if EmailFree(t, Field(input, EMAIL)) {
      NewAccountStored(env, input, t);
    } else if CompleteAccount(input) {
      var a :| a in t.accounts.rows && t.accounts.rows[a].email == Field(input, EMAIL);
      TakenEmail(env, input, t, a);
    } else {
      IncompleteAccount(env, input, t);
    }
  }

  lemma IncompleteAccount(env: Env, input: Input, t: Tables)
    requires Unfailing(env) && Usable(input) && !CompleteAccount(input)
    requires Defined(CreateAccountTemplate()) && PlanOf(CreateAccountTemplate(), input).Ok?
    requires CreatesAccount(PlanOf(CreateAccountTemplate(), input).value.queries, input)
    ensures var (t', outcome) := StoreOf(CreateAccountTemplate(), input, EngineOf(env), env.faults, t);
            t' == t && outcome.Err?
  {
    AccountStarts(env, t, PlanOf(CreateAccountTemplate(), input).value.queries, input);
    StoreIsRun(CreateAccountTemplate(), input, env, t);
  }

  lemma NewAccountStored(env: Env, input: Input, t: Tables)
    requires Unfailing(env) && Inv(t) && Usable(input) && EmailFree(t, Field(input, EMAIL))
    requires Defined(CreateAccountTemplate()) && PlanOf(CreateAccountTemplate(), input).Ok?
    requires CreatesAccount(PlanOf(CreateAccountTemplate(), input).value.queries, input)
    ensures var (t', outcome) := StoreOf(CreateAccountTemplate(), input, EngineOf(env), env.faults, t);
            if CompleteAccount(input) && AddressGiven(input) && PictureGiven(input)
            then t' == AccountAdded(t, input) && outcome == Ok([Returning(COL_USER_ID, t.accounts.serial)])
            else t' == t && outcome.Err?
  {
    var template := CreateAccountTemplate();
    var plan := PlanOf(template, input).value;
    var run := RunAll(EngineOf(env), t, plan.queries);
    AccountEnds(env, t, plan.queries, input);
    StoreIsRun(template, input, env, t);
    PlanLength(template, input);
    if run.Going? {
      forall at | 0 <= at < |plan.names|
        ensures Dropped(template, plan.names[at]) <==> at != 0
      {
        OnlyAccountKept(input, at);
      }
      CreateAccountBuilds(input);
      PreparedFirst(template, plan.names, run.results);
    }
  }
}
