/** create-account: the plan, and the account, address and picture that it leaves. */
module CreateAccount {
  import opened Values
  import opened Vocabulary
  import opened SqlTemplate
  import opened PlanShape
  import opened Execution
  import opened Database
  import opened Store
  import opened Schema
  import opened Statements
  import opened Runs
  import opened Templates
  import opened Builds
  import opened Transactions
  import opened Listings
  import opened Effects

  // ---------------------------------------------------------------- the plan

  function WithAddress(input: Input): nat {
    if ADDRESS in input then 1 else 0
  }

  function WithPicture(input: Input): nat {
    if URL in input then 1 else 0
  }

  /** A part of the address, as the callables read it. */
  function AddressPart(input: Input, key: Key): Val {
    var part := Property(Lookup(input, ADDRESS), key);
    if part.Some? then part.value else Undef
  }

  /** The account, and what refers to its id. */
  ghost predicate CreatesAccount(qs: seq<Query>, input: Input) {
    && |qs| == 1 + WithAddress(input) + WithPicture(input)
    && qs[0].text == InsertAccount
    && Params(qs[0]) == [Plain(InputValue(input, NAME, 1, 0)), Plain(InputValue(input, EMAIL, 1, 0)),
                         Plain(InputValue(input, PASS_HASH, 1, 0)), Plain(InputValue(input, DOB, 1, 0))]
    && (ADDRESS in input ==> StoresAddress(qs[1], input))
    && (URL in input ==> StoresPicture(qs[|qs| - 1], input))
  }

  ghost predicate StoresAddress(q: Query, input: Input) {
    && q.text == InsertAddress
    && Params(q) == [Plain(AddressPart(input, COUNTRY)), Plain(AddressPart(input, REGION)),
                     Plain(AddressPart(input, POSTCODE)),
                     Ref(0, COL_USER_ID)]
  }

  ghost predicate StoresPicture(q: Query, input: Input) {
    && q.text == InsertUserMedia
    && Params(q) == [Plain(InputValue(input, MIME_TYPE, 1, 0)), Plain(InputValue(input, URL, 1, 0)),
                     Ref(0, COL_USER_ID)]
  }

  lemma AccountCopies(input: Input)
    requires Defined(CreateAccountTemplate())
    ensures var t := CreateAccountTemplate();
            && |t.order| == 3
            && Copies(t, input, 0) == 1 && Copies(t, input, 1) == WithAddress(input)
            && Copies(t, input, 2) == WithPicture(input)
            && Offset(t, input, 1) == 1 && Offset(t, input, 2) == 1 + WithAddress(input)
            && Offset(t, input, 3) == 1 + WithAddress(input) + WithPicture(input)
  {
    var t := CreateAccountTemplate();
    assert Copies(t, input, 0) == 1;
    assert Copies(t, input, 1) == WithAddress(input);
    assert Copies(t, input, 2) == WithPicture(input);
    assert Offset(t, input, 1) == 1;
    assert Offset(t, input, 2) == 1 + WithAddress(input);
    assert Offset(t, input, 3) == 1 + WithAddress(input) + WithPicture(input);
  }

  lemma AccountEntry(input: Input)
    requires Defined(CreateAccountTemplate()) && PlanOf(CreateAccountTemplate(), input).Ok?
    ensures |PlanOf(CreateAccountTemplate(), input).value.queries| > 0
    ensures PlanOf(CreateAccountTemplate(), input).value.queries[0].text == InsertAccount
    ensures Params(PlanOf(CreateAccountTemplate(), input).value.queries[0])
         == [Plain(InputValue(input, NAME, 1, 0)), Plain(InputValue(input, EMAIL, 1, 0)),
             Plain(InputValue(input, PASS_HASH, 1, 0)), Plain(InputValue(input, DOB, 1, 0))]
  {
    var t := CreateAccountTemplate();
    assert Copies(t, input, 0) == 1;
    ParameterMatrix(t, input, 0, 0);
    var plan := PlanOf(t, input).value;
    var ps, cs := Params(plan.queries[0]), t.dict[t.order[0]].values.value;
    assert cs == [FromInput(NAME), FromInput(EMAIL), FromInput(PASS_HASH), FromInput(DOB)];
    assert CompiledTo(t, input, 0, 0, plan.names, cs[0], ps[0]);
    assert CompiledTo(t, input, 0, 0, plan.names, cs[1], ps[1]);
    assert CompiledTo(t, input, 0, 0, plan.names, cs[2], ps[2]);
    assert CompiledTo(t, input, 0, 0, plan.names, cs[3], ps[3]);
  }

  /** Among the names of the plan only the first is create_account. */
  lemma ReferenceIsFirst(input: Input, m: nat)
    requires Defined(CreateAccountTemplate()) && PlanOf(CreateAccountTemplate(), input).Ok?
    requires m < |PlanOf(CreateAccountTemplate(), input).value.names|
    requires PlanOf(CreateAccountTemplate(), input).value.names[m] == CREATE_ACCOUNT
    ensures m == 0
  {
    var t := CreateAccountTemplate();
    PlanLength(t, input);
    AccountCopies(input);
    var k, i := Locate(t, input, 3, m);
    ParameterMatrix(t, input, k, i);
  }

  lemma AddressEntry(input: Input)
    requires Defined(CreateAccountTemplate()) && PlanOf(CreateAccountTemplate(), input).Ok? && ADDRESS in input
    ensures |PlanOf(CreateAccountTemplate(), input).value.queries| > 1
    ensures StoresAddress(PlanOf(CreateAccountTemplate(), input).value.queries[1], input)
  {
    var t := CreateAccountTemplate();
    AccountCopies(input);
    ParameterMatrix(t, input, 1, 0);
    var plan := PlanOf(t, input).value;
    var ps, cs := Params(plan.queries[1]), t.dict[t.order[1]].values.value;
    assert cs[3] == FromQuery(CREATE_ACCOUNT, COL_USER_ID);
    assert CompiledTo(t, input, 1, 0, plan.names, cs[0], ps[0]);
    assert CompiledTo(t, input, 1, 0, plan.names, cs[1], ps[1]);
    assert CompiledTo(t, input, 1, 0, plan.names, cs[2], ps[2]);
    assert CompiledTo(t, input, 1, 0, plan.names, cs[3], ps[3]);
    ReferenceIsFirst(input, ps[3].index);
  }

  lemma PictureEntry(input: Input)
    requires Defined(CreateAccountTemplate()) && PlanOf(CreateAccountTemplate(), input).Ok? && URL in input
    ensures |PlanOf(CreateAccountTemplate(), input).value.queries| > 1 + WithAddress(input)
    ensures StoresPicture(PlanOf(CreateAccountTemplate(), input).value.queries[1 + WithAddress(input)], input)
  {
    var t, at := CreateAccountTemplate(), 1 + WithAddress(input);
    AccountCopies(input);
    ParameterMatrix(t, input, 2, 0);
    var plan := PlanOf(t, input).value;
    var ps, cs := Params(plan.queries[at]), t.dict[t.order[2]].values.value;
    assert cs == [FromInput(MIME_TYPE), FromInput(URL), FromQuery(CREATE_ACCOUNT, COL_USER_ID)];
    assert CompiledTo(t, input, 2, 0, plan.names, cs[0], ps[0]);
    assert CompiledTo(t, input, 2, 0, plan.names, cs[1], ps[1]);
    assert CompiledTo(t, input, 2, 0, plan.names, cs[2], ps[2]);
    ReferenceIsFirst(input, ps[2].index);
  }

  lemma CreateAccountPlan(input: Input)
    requires Defined(CreateAccountTemplate()) && PlanOf(CreateAccountTemplate(), input).Ok?
    ensures CreatesAccount(PlanOf(CreateAccountTemplate(), input).value.queries, input)
  {
    PlanLength(CreateAccountTemplate(), input);
    AccountCopies(input);
    AccountEntry(input);
    if ADDRESS in input {
      AddressEntry(input);
    }
    if URL in input {
      PictureEntry(input);
    }
  }

  // ---------------------------------------------------------------- the rows

  function NewAccount(input: Input): Account {
    Account(InputValue(input, NAME, 1, 0), InputValue(input, EMAIL, 1, 0), InputValue(input, PASS_HASH, 1, 0),
            InputValue(input, DOB, 1, 0), None)
  }

  /** The tables with the new account, under id n, and what came with it. */
  function AccountAdded(t: Tables, input: Input): Tables {
    var n := t.accounts.serial;
    t.(accounts := t.accounts.Insert(NewAccount(input)),
       addresses := if ADDRESS !in input then t.addresses
                    else t.addresses.Insert(Schema.Address(AddressPart(input, COUNTRY), AddressPart(input, REGION),
                                                           AddressPart(input, POSTCODE), n)),
       userMedia := if URL !in input then t.userMedia
                    else t.userMedia[n := MediaItem(t.mediaSerial, InputValue(input, MIME_TYPE, 1, 0),
                                                    InputValue(input, URL, 1, 0))],
       mediaSerial := t.mediaSerial + WithPicture(input))
  }

  lemma FirstStatement(env: Env, t: Tables, q: Query, input: Input, t': Tables, rows: Rows)
    requires q.text == InsertAccount
    requires Params(q) == [Plain(InputValue(input, NAME, 1, 0)), Plain(InputValue(input, EMAIL, 1, 0)),
                           Plain(InputValue(input, PASS_HASH, 1, 0)), Plain(InputValue(input, DOB, 1, 0))]
    requires EvaluateAll(Params(q), []).Some?
    requires Exec(env, t, InsertAccount, EvaluateAll(Params(q), []).value) == Done(t', rows)
    ensures (t' == t && rows == [])
         || (t' == t.(accounts := t.accounts.Insert(NewAccount(input)))
             && rows == Returning(COL_USER_ID, t.accounts.serial))
  {
    assert EvaluateAll(Params(q), []).value
        == [InputValue(input, NAME, 1, 0), InputValue(input, EMAIL, 1, 0), InputValue(input, PASS_HASH, 1, 0),
            InputValue(input, DOB, 1, 0)];
  }

  lemma AddressStatement(env: Env, t: Tables, q: Query, input: Input, results: seq<Rows>, n: int, t': Tables,
                         rows: Rows)
    requires StoresAddress(q, input) && |results| > 0 && results[0] == Returning(COL_USER_ID, n)
    requires EvaluateAll(Params(q), results).Some?
    requires Exec(env, t, InsertAddress, EvaluateAll(Params(q), results).value) == Done(t', rows)
    ensures t' == t.(addresses := t.addresses.Insert(
              Schema.Address(AddressPart(input, COUNTRY), AddressPart(input, REGION), AddressPart(input, POSTCODE), n)))
  {
    assert EvaluateAll(Params(q), results).value
        == [AddressPart(input, COUNTRY), AddressPart(input, REGION), AddressPart(input, POSTCODE), Num(n)];
  }

  lemma PictureStatement(env: Env, t: Tables, q: Query, input: Input, results: seq<Rows>, n: int, t': Tables,
                         rows: Rows)
    requires StoresPicture(q, input) && |results| > 0 && results[0] == Returning(COL_USER_ID, n)
    requires EvaluateAll(Params(q), results).Some?
    requires Exec(env, t, InsertUserMedia, EvaluateAll(Params(q), results).value) == Done(t', rows)
    ensures t' == t.(userMedia := t.userMedia[n := MediaItem(t.mediaSerial, InputValue(input, MIME_TYPE, 1, 0),
                                                             InputValue(input, URL, 1, 0))],
                     mediaSerial := t.mediaSerial + 1)
  {
    assert EvaluateAll(Params(q), results).value
           == [InputValue(input, MIME_TYPE, 1, 0), InputValue(input, URL, 1, 0), Num(n)];
  }

  lemma AccountRun(env: Env, qs: seq<Query>, states: seq<Tables>, results: seq<Rows>, input: Input)
    requires Chain(env, qs, states, results) && CreatesAccount(qs, input) && results[0] != []
    ensures states[|qs|] == AccountAdded(states[0], input)
    ensures results[0] == Returning(COL_USER_ID, states[0].accounts.serial)
  {
    var n := states[0].accounts.serial;
    assert Link(env, qs, states, results, 0) && results[..0] == [];
    FirstStatement(env, states[0], qs[0], input, states[1], results[0]);
    if ADDRESS in input {
      assert Link(env, qs, states, results, 1);
      AddressStatement(env, states[1], qs[1], input, results[..1], n, states[2], results[1]);
    }
    if URL in input {
      var at := |qs| - 1;
      assert Link(env, qs, states, results, at);
      PictureStatement(env, states[at], qs[at], input, results[..at], n, states[at + 1], results[at]);
    }
  }

  lemma OnlyAccountKept(input: Input, at: nat)
    requires Defined(CreateAccountTemplate()) && PlanOf(CreateAccountTemplate(), input).Ok?
    requires at < |PlanOf(CreateAccountTemplate(), input).value.names|
    ensures Dropped(CreateAccountTemplate(), PlanOf(CreateAccountTemplate(), input).value.names[at]) <==> at != 0
  {
    var t := CreateAccountTemplate();
    PlanLength(t, input);
    AccountCopies(input);
    var k, i := Locate(t, input, 3, at);
    ParameterMatrix(t, input, k, i);
  }

  /** A create-account that was stored has added exactly the account that was asked for, with
      the address and the picture that came along attached to it. */
  lemma AccountCreated(env: Env, input: Input, t: Tables, t': Tables, results: seq<Rows>)
    requires Usable(input) && Resolved(CreateAccountTemplate(), env, input, t, t', results)
    ensures t' == AccountAdded(t, input) && results == [Returning(COL_USER_ID, t.accounts.serial)]
  {
    var template := CreateAccountTemplate();
    var plan := PlanOf(template, input).value;
    CreateAccountPlan(input);
    StoreCommits(env, template, input, t);
    var kept := ResultsOf(env, t, plan.queries, t');
    forall at | 0 <= at < |plan.names|
      ensures Dropped(template, plan.names[at]) <==> at != 0
    {
      OnlyAccountKept(input, at);
    }
    OnlyOneKept(template, plan.names, kept, 0);
    var states, all := CommitAsChain(env, t, plan.queries, t');
    EmptyExactly(template, plan.names, kept);
    AccountRun(env, plan.queries, states, all, input);
  }
}
