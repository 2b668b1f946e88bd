/** Whole requests to the shipped pipelines, on any database: one response, what its status
    says, what its failures leave behind, and what of its uploads reaches the database. */
module Requests {
  import opened Values
  import opened Vocabulary
  import opened Execution
  import opened SqlTemplate
  import opened PlanShape
  import opened Database
  import opened Store
  import opened Templates
  import opened Builds
  import opened RequestSchemas
  import opened ResponseSchemas
  import opened GeneralPipe
  import Media = MediaHandle
  import Request
  import Response

  // ---------------------------------------------------------------- uploads

  /** Every item was uploaded, and the media fields have its answer at its own place. */
  ghost predicate CarriesUploads(input: Input, w: World, media: seq<Val>) {
    && MediaFields(input, |media|)
    && forall i :: 0 <= i < |media| ==> CarriesUpload(input, w, i, media[i])
  }

  ghost predicate CarriesUpload(input: Input, w: World, i: nat, v: Val)
    requires MediaFields(input, |MediaUrls(input)|) && i < |MediaUrls(input)|
  {
    && w.upload(i, v).Succeeded? && MatchOf(w.oracle, v).Some?
    && input[URL].items[i] == w.upload(i, v).url
    && input[MIME_TYPE].items[i] == MatchOf(w.oracle, v).value.mimetype
  }

  /** The items that were submitted for upload. */
  function Submitted(validated: Input): seq<Val> {
    if MEDIA in validated && validated[MEDIA].Arr? then validated[MEDIA].items else []
  }

  /** Everything that was validated and, unless there was nothing to upload, the uploads. */
  ghost predicate Brings(w: World, validated: Input, input: Input) {
    if Submitted(validated) == [] then input == validated
    else CarriesUploads(input, w, Submitted(validated))
         && input == validated[URL := input[URL]][MIME_TYPE := input[MIME_TYPE]][MEDIA_INDEX := input[MEDIA_INDEX]]
  }

  /** What the templates are given: what was validated, and the uploads in the order of the
      items, whatever the order in which they were completed. */
  lemma UploadsInOrder(w: World, a: Action, validated: Input)
    requires Validated(a, w.oracle, validated)
    requires MEDIA in validated ==> Media.Legal(Items(w, validated[MEDIA]), w.schedule)
    ensures Uploading(w, validated).Ready? ==> Brings(w, validated, Uploading(w, validated).input)
    ensures Uploading(w, validated).Rejected? ==> Uploading(w, validated) == Rejected(FailedUpload)
  {
    if MEDIA in validated {
      var media := validated[MEDIA].items;
      var items := Items(w, validated[MEDIA]);
      Media.Confluence(items, w.schedule);
      if Uploading(w, validated).Ready? {
        var uploads := Media.After(items, w.schedule).settled.value.value;
        assert |uploads| == |media|;
        var input := Uploading(w, validated).input;
        if media != [] {
          assert input[MEDIA_INDEX].items == seq(|media|, i => Num(i));
          forall i | 0 <= i < |media|
            ensures CarriesUpload(input, w, i, media[i])
          {
            assert items[i] == ItemOf(w, i, media[i]) && uploads[i] == Media.UploadOf(items, i);
          }
        }
      }
    }
  }

  lemma BroughtIsUsable(w: World, a: Action, validated: Input, input: Input)
    requires Validated(a, w.oracle, validated) && Brings(w, validated, input)
    ensures Usable(input) && (URL in input <==> Submitted(validated) != [])
  {
  }

  /** A request that reaches the database brings an input that the templates can use. */
  lemma ReadyIsUsable(a: Action, req: HttpRequest, w: World)
    requires CanHappen(PipeOf(a, w.oracle), req, w) && Prepare(PipeOf(a, w.oracle), req, w).Ready?
    ensures Usable(Prepare(PipeOf(a, w.oracle), req, w).input)
  {
    var p := PipeOf(a, w.oracle);
    ProcessValidates(a, w.oracle, WithAccount(Gathered(p, req), w.security.value));
    UploadsInOrder(w, a, Validation(p, req, w).value);
    BroughtIsUsable(w, a, Validation(p, req, w).value, Prepare(p, req, w).input);
  }

  /** The stages before the database come to an end. */
  ghost predicate Settles(p: Pipe, req: HttpRequest, w: World)
    requires CanHappen(p, req, w)
  {
    !Prepare(p, req, w).Waiting? && !Prepare(p, req, w).Lost?
  }

  /** The same for two orders of completion. */
  lemma OrderDoesNotMatter(a: Action, req: HttpRequest, w: World, w': World)
    requires w' == w.(schedule := w'.schedule)
    requires CanHappen(PipeOf(a, w.oracle), req, w) && CanHappen(PipeOf(a, w.oracle), req, w')
    requires Settles(PipeOf(a, w.oracle), req, w) && Settles(PipeOf(a, w.oracle), req, w')
    ensures Prepare(PipeOf(a, w.oracle), req, w) == Prepare(PipeOf(a, w.oracle), req, w')
  {
    var p := PipeOf(a, w.oracle);
    var v := Validation(p, req, w);
    if v.Ok? && MEDIA in v.value {
      ProcessValidates(a, w.oracle, WithAccount(Gathered(p, req), w.security.value));
      var items := Items(w, v.value[MEDIA]);
      assert Items(w', v.value[MEDIA]) == items;
      Media.Confluence(items, w.schedule);
      Media.Confluence(items, w'.schedule);
    }
  }

  /** Every request that reaches the database builds, or has nothing to do. */
  lemma ReadyBuilds(a: Action, req: HttpRequest, w: World)
    requires CanHappen(PipeOf(a, w.oracle), req, w) && Prepare(PipeOf(a, w.oracle), req, w).Ready?
    ensures Defined(TemplateOf(a))
    ensures var plan := PlanOf(TemplateOf(a), Prepare(PipeOf(a, w.oracle), req, w).input);
            plan.Ok? || (plan == Err(EmptyQuery) && (a.ModifyAccountAction? || a.ModifyListingAction?))
  {
    ReadyIsUsable(a, req, w);
    ShippedTemplatesBuild(a, Prepare(PipeOf(a, w.oracle), req, w).input);
  }

  // ---------------------------------------------------------------- one response

  /** A pipeline whose statuses call success what is one, and nothing else. */
  ghost predicate Honest(p: Pipe) {
    Response.Honest(p.statuses)
  }

  lemma ShippedAreHonest(a: Action, o: Oracle)
    ensures Honest(PipeOf(a, o))
  {
  }

  lemma OutcomeAnswered(p: Pipe, outcome: Outcome)
    requires Honest(p)
    ensures var sent := RespondTo(p, outcome);
            sent.Some? && (Response.IsSuccess(sent.value.status) <==> outcome.Ok?)
            && (outcome.Err? ==> sent.value.body == Failure(outcome.error))
  {
    Response.HonestStatus(p.statuses, if outcome.Ok? then None else Some(outcome.error));
  }

  /** A request is answered exactly once, unless its uploads do not settle or an exception
      from one of their callbacks ends the process. */
  lemma AnsweredOnce<S>(p: Pipe, req: HttpRequest, w: World, engine: Engine<S>, faults: Faults, db: S)
    requires CanHappen(p, req, w) && Defined(p.sql) && Honest(p)
    ensures ExecuteOf(p, req, w, engine, faults, db).1.Some? <==> Settles(p, req, w)
  {
    match Prepare(p, req, w) {
      case Waiting =>
      case Lost =>
      case Rejected(e) => OutcomeAnswered(p, Err(e));
      case Ready(input) => OutcomeAnswered(p, StoreOf(p.sql, input, engine, faults, db).1);
    }
  }

  /** The first of the uploads to fail does so without a result, and nobody catches the
      exception. */
  ghost predicate EndsTheProcess(p: Pipe, req: HttpRequest, w: World) {
    var v := Validation(p, req, w);
    v.Ok? && MEDIA in v.value && Media.FirstFailureIsFatal(Items(w, v.value[MEDIA]), w.schedule)
  }

  /** When no callback is outstanding any more, that is the only way to get no answer. */
  lemma AnsweredExactly(a: Action, req: HttpRequest, w: World)
    requires CanHappen(PipeOf(a, w.oracle), req, w) && UploadsDone(PipeOf(a, w.oracle), req, w)
    ensures Settles(PipeOf(a, w.oracle), req, w) <==> !EndsTheProcess(PipeOf(a, w.oracle), req, w)
  {
    var p := PipeOf(a, w.oracle);
    var v := Validation(p, req, w);
    if v.Ok? && MEDIA in v.value {
      ProcessValidates(a, w.oracle, WithAccount(Gathered(p, req), w.security.value));
      Media.Confluence(Items(w, v.value[MEDIA]), w.schedule);
      Media.LostIff(Items(w, v.value[MEDIA]), w.schedule);
    }
  }

  /** What a response tells.  A 2xx status: every stage succeeded, and the database ran the
      whole plan.  Any other: the database is as it was, unless the error is
      EmptyResponseError and the plan did run. */
  lemma StatusTellsEffect<S>(p: Pipe, req: HttpRequest, w: World, engine: Engine<S>, faults: Faults, db: S)
    requires CanHappen(p, req, w) && Defined(p.sql) && Honest(p)
    ensures var (db', response) := ExecuteOf(p, req, w, engine, faults, db);
            response.Some? ==>
              if Response.IsSuccess(response.value.status) then
                Prepare(p, req, w).Ready? && TookEffect(p.sql, Prepare(p, req, w).input, engine, faults, db, db')
              else
                response.value.body.Failure? &&
                (|| db' == db
                 || (response.value.body.of == EmptyResponse && Prepare(p, req, w).Ready?
                     && TookEffect(p.sql, Prepare(p, req, w).input, engine, faults, db, db')))
  {
    match Prepare(p, req, w) {
      case Waiting =>
      case Lost =>
      case Rejected(e) => OutcomeAnswered(p, Err(e));
      case Ready(input) =>
        OutcomeAnswered(p, StoreOf(p.sql, input, engine, faults, db).1);
        ErrorsAndEffects(p.sql, input, engine, faults, db);
    }
  }

  /** db' is what the whole plan makes of db. */
  ghost predicate TookEffect<S>(t: Template, input: Input, engine: Engine<S>, faults: Faults, db: S, db': S)
    requires Defined(t)
  {
    var plan := PlanOf(t, input);
    plan.Ok? && if plan.value.queries == [] then db' == db
                else Executed(engine, faults, plan.value.queries, db).1.Ok?
                     && db' == Executed(engine, faults, plan.value.queries, db).0
  }

  /** A failure of security, validation or upload leaves the database untouched. */
  lemma EarlyFailureTouchesNothing<S>(a: Action, req: HttpRequest, w: World, engine: Engine<S>, faults: Faults, db: S)
    requires CanHappen(PipeOf(a, w.oracle), req, w) && Defined(TemplateOf(a))
    requires !Prepare(PipeOf(a, w.oracle), req, w).Ready?
    ensures ExecuteOf(PipeOf(a, w.oracle), req, w, engine, faults, db).0 == db
    ensures var v := Validation(PipeOf(a, w.oracle), req, w);
            v.Ok? ==> MEDIA in v.value && v.value[MEDIA].Arr? &&
                      (Prepare(PipeOf(a, w.oracle), req, w).Rejected? ==> SomeUploadFailed(w, v.value[MEDIA].items))
  {
    var v := Validation(PipeOf(a, w.oracle), req, w);
    if v.Ok? {
      ProcessValidates(a, w.oracle, WithAccount(Gathered(PipeOf(a, w.oracle), req), w.security.value));
      RejectedUploads(a, w, v.value);
    }
  }

  ghost predicate SomeUploadFailed(w: World, media: seq<Val>) {
    exists i :: 0 <= i < |media| && w.upload(i, media[i]).Failed?
  }

  lemma RejectedUploads(a: Action, w: World, validated: Input)
    requires Validated(a, w.oracle, validated)
    requires MEDIA in validated ==> Media.Legal(Items(w, validated[MEDIA]), w.schedule)
    ensures MEDIA in validated && Uploading(w, validated).Rejected? ==> SomeUploadFailed(w, validated[MEDIA].items)
  {
    if MEDIA in validated && Uploading(w, validated).Rejected? {
      var items := Items(w, validated[MEDIA]);
      Media.Confluence(items, w.schedule);
      var i :| 0 <= i < |items| && !items[i].answer.Succeeded?;
      assert items[i] == ItemOf(w, i, validated[MEDIA].items[i]);
    }
  }

  // ---------------------------------------------------------------- mismatched names

  /** The login template looks for device_token, which the request template calls
      deviceToken: no login ever stores a token. */
  lemma LoginStoresNothing<S>(o: Oracle, body: Input, engine: Engine<S>, faults: Faults, db: S)
    requires Request.ProcessUpTo(ParamsOf(LoginAction, o), body, |ParamsOf(LoginAction, o)|).Ok?
    ensures Defined(LoginTemplate())
    ensures StoreOf(LoginTemplate(),
                    Request.ProcessUpTo(ParamsOf(LoginAction, o), body, |ParamsOf(LoginAction, o)|).value,
                    engine, faults, db) == (db, Ok([]))
  {
    var input := Request.ProcessUpTo(ParamsOf(LoginAction, o), body, |ParamsOf(LoginAction, o)|).value;
    ShippedDefined(LoginAction);
    ProcessValidates(LoginAction, o, body);
    LoginPlanIsEmpty(input);
  }

  lemma LoginPlanIsEmpty(input: Input)
    requires DEVICE_TOKEN_SNAKE !in input && Defined(LoginTemplate())
    ensures PlanOf(LoginTemplate(), input) == Ok(Plan([], []))
  {
    var t := LoginTemplate();
    assert Copies(t, input, 0) == 0 && Copies(t, input, 1) == 0;
    assert Buildable(t, input, 0) && Buildable(t, input, 1);
    assert Offset(t, input, 1) == 0;
    assert Offset(t, input, 2) == 0;
    BuildSucceedsIff(t, input);
    PlanLength(t, input);
  }

  /** The media of a message are validated as mediaContent, but only media is uploaded: a
      message never gets any. */
  lemma MessagesCarryNoUploads(req: HttpRequest, w: World)
    requires CanHappen(PipeOf(CreateMessageAction, w.oracle), req, w)
    ensures Settles(PipeOf(CreateMessageAction, w.oracle), req, w)
    ensures Prepare(PipeOf(CreateMessageAction, w.oracle), req, w).Ready? ==>
              URL !in Prepare(PipeOf(CreateMessageAction, w.oracle), req, w).input
  {
    var p := PipeOf(CreateMessageAction, w.oracle);
    if Validation(p, req, w).Ok? {
      ProcessValidates(CreateMessageAction, w.oracle, WithAccount(Gathered(p, req), w.security.value));
    }
  }
}
