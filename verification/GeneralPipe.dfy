/** pipeline.js: `GeneralPipe.Execute`, and `APIRespond` of classes/pipeline.js. */
module GeneralPipe {
  import opened Values
  import opened Execution
  import opened SqlTemplate
  import opened Database
  import opened Store
  import opened Templates
  import opened Builds
  import opened RequestSchemas
  import opened ResponseSchemas
  import Media = MediaHandle
  import Request
  import Response

  datatype HttpRequest = HttpRequest(query: Input, params: Input, body: Input)

  /** What a request meets outside this code before the database: SecurityValidate yields
      an account id, null, or an error; the uploader answers for every item; and the upload
      callbacks fire in some order. */
  datatype World = World(
    security: Result<Val>,
    oracle: Oracle,
    upload: (nat, Val) -> Media.Answer,
    schedule: seq<Media.Event>)

  datatype Body = Fields(fields: Response.Output) | Failure(of: Error)

  datatype Sent = Sent(status: int, body: Body)

  // ---------------------------------------------------------------- the stages

  predicate Truthy(v: Val) {
    match v
    case Undef => false
    case Null => false
    case Bool(b) => b
    case Num(n) => n != 0
    case Str(s) => s != ""
    case _ => true
  }

  /** What the constructor looks up for its action type. */
  datatype Pipe = Pipe(
    readsQuery: bool,
    request: seq<Request.Param>,
    sql: Template,
    answers: seq<Response.Param>,
    statuses: Response.StatusMap)

  /** View and search pipelines read the query and the path, the others the body.  (Login has
      a pipeline of its own; it is among the actions because it has templates like them.) */
  function PipeOf(a: Action, o: Oracle): Pipe {
    Pipe(Searches(a) || Views(a), ParamsOf(a, o), TemplateOf(a), AnswersOf(a), Statuses(a))
  }

  function Gathered(p: Pipe, req: HttpRequest): Input {
    if p.readsQuery then req.query + req.params else req.body
  }

  function WithAccount(input: Input, account: Val): Input {
    if Truthy(account) then input[ACCOUNT_ID := account] else input
  }

  function Validation(p: Pipe, req: HttpRequest, w: World): Result<Input> {
    if w.security.Err? then Err(w.security.error)
    else Request.ProcessUpTo(p.request, WithAccount(Gathered(p, req), w.security.value), |p.request|)
  }

  function ItemOf(w: World, i: nat, v: Val): Media.Item {
    var uri := MatchOf(w.oracle, v);
    Media.Item(if uri.Some? then Some(uri.value.mimetype) else None, w.upload(i, v))
  }

  /** The list that MediaHandle is given; validated media is always a list. */
  function Items(w: World, media: Val): seq<Media.Item> {
    if media.Arr? then seq(|media.items|, i requires 0 <= i < |media.items| => ItemOf(w, i, media.items[i])) else []
  }

  function UrlsOf(uploads: seq<Media.Uploaded>): Val {
    Arr(seq(|uploads|, i requires 0 <= i < |uploads| => uploads[i].url))
  }

  function MimeTypesOf(uploads: seq<Media.Uploaded>): Val {
    Arr(seq(|uploads|, i requires 0 <= i < |uploads| => uploads[i].mimetype))
  }

  function IndexesOfUploads(uploads: seq<Media.Uploaded>): Val {
    Arr(seq(|uploads|, i requires 0 <= i < |uploads| => Num(uploads[i].index)))
  }

  /** An empty list of uploads leaves no trace. */
  function WithMedia(validated: Input, uploads: seq<Media.Uploaded>): Input {
    if |uploads| == 0 then validated
    else validated[URL := UrlsOf(uploads)][MIME_TYPE := MimeTypesOf(uploads)][MEDIA_INDEX := IndexesOfUploads(uploads)]
  }

  /** The schedule of the uploads is one that can happen. */
  ghost predicate CanHappen(p: Pipe, req: HttpRequest, w: World) {
    var v := Validation(p, req, w);
    v.Ok? && MEDIA in v.value ==> Media.Legal(Items(w, v.value[MEDIA]), w.schedule)
  }

  /** No upload callback is outstanding any more. */
  ghost predicate UploadsDone(p: Pipe, req: HttpRequest, w: World)
    requires CanHappen(p, req, w)
  {
    var v := Validation(p, req, w);
    v.Ok? && MEDIA in v.value ==>
      var items := Items(w, v.value[MEDIA]); Media.Complete(items, Media.After(items, w.schedule))
  }

  /** How far a request gets before the database.  Lost: the process has ended. */
  datatype Stage = Waiting | Lost | Rejected(error: Error) | Ready(input: Input)

  function Uploading(w: World, validated: Input): Stage
    requires MEDIA in validated ==> Media.Legal(Items(w, validated[MEDIA]), w.schedule)
  {
    if MEDIA !in validated then Ready(validated)
    else if Media.After(Items(w, validated[MEDIA]), w.schedule).lost then Lost
    else
      match Media.After(Items(w, validated[MEDIA]), w.schedule).settled
      case None => Waiting
      case Some(Err(e)) => Rejected(e)
      case Some(Ok(uploads)) => Ready(WithMedia(validated, uploads))
  }

  function Prepare(p: Pipe, req: HttpRequest, w: World): Stage
    requires CanHappen(p, req, w)
  {
    match Validation(p, req, w)
    case Err(e) => Rejected(e)
    case Ok(validated) => Uploading(w, validated)
  }

  const SUCCESS_BODY: Response.Output := map[SUCCESS := Bool(true)]

  /** None when `APIRespond` fails before sending: it reads the message of an error that is null. */
  function Respond(p: Pipe, results: Option<seq<Rows>>, err: Option<Error>): Option<Sent> {
    var status := Response.StatusOf(p.statuses, err);
    if Response.IsSuccess(status) then
      var output := if results.None? then SUCCESS_BODY
                    else Response.ResponseUpTo(p.answers, results.value, |p.answers|);
      Some(Sent(status, Fields(if output == map[] then SUCCESS_BODY else output)))
    else if err.Some? then Some(Sent(status, Failure(err.value)))
    else None
  }

  function RespondTo(p: Pipe, outcome: Outcome): Option<Sent> {
    match outcome
    case Ok(results) => Respond(p, Some(results), None)
    case Err(e) => Respond(p, None, Some(e))
  }

  /** The state a request leaves, and the response it sends, if it sends one. */
  function ExecuteOf<S>(p: Pipe, req: HttpRequest, w: World, engine: Engine<S>, faults: Faults, db: S)
    : (S, Option<Sent>)
    requires CanHappen(p, req, w) && Defined(p.sql)
  {
    match Prepare(p, req, w)
    case Waiting => (db, None)
    case Lost => (db, None)
    case Rejected(e) => (db, RespondTo(p, Err(e)))
    case Ready(input) =>
      var stored := StoreOf(p.sql, input, engine, faults, db);
      (stored.0, RespondTo(p, stored.1))
  }

  // ---------------------------------------------------------------- Execute

  /** The response object of one request. */
  class Connection {
    var status: Option<int>
    var sent: seq<Sent>

    constructor ()
      ensures sent == [] && status.None?
    {
      sent, status := [], None;
    }

    method SetStatus(code: int)
      modifies this`status
      ensures status == Some(code)
    {
      status := Some(code);
    }

    method Send(body: Body)
      requires status.Some?
      modifies this`sent
      ensures sent == old(sent) + [Sent(status.value, body)]
    {
      sent := sent + [Sent(status.value, body)];
    }
  }

  method APIRespond(p: Pipe, res: Connection, inputArray: Option<seq<Rows>>, err: Option<Error>)
    modifies res
    ensures var response := Respond(p, inputArray, err);
            res.sent == old(res.sent) + if response.Some? then [response.value] else []
  {
    var statusCode := Response.StatusOf(p.statuses, err);
    res.SetStatus(statusCode);
    if statusCode >= 200 && statusCode < 300 {
      var outputObject := SUCCESS_BODY;
      if inputArray.Some? {
        outputObject := Response.GetResponse(p.answers, inputArray.value);
      }
      if outputObject == map[] {
        outputObject := SUCCESS_BODY;
      }
      res.Send(Fields(outputObject));
    } else if err.Some? {
      res.Send(Failure(err.value));
    }
  }

  /** The first two callbacks: who asks, and what for. */
  method Validate(p: Pipe, req: HttpRequest, w: World) returns (validated: Result<Input>)
    ensures validated == Validation(p, req, w)
  {
    var inputObject := if p.readsQuery then req.query + req.params else req.body;
    if w.security.Err? {
      return Err(w.security.error);
    }
    if Truthy(w.security.value) {
      inputObject := inputObject[ACCOUNT_ID := w.security.value];
    }
    validated := Request.Process(p.request, inputObject);
  }

  /** The next two: upload, and add what was uploaded to the validated object. */
  method Upload(w: World, validated: Input) returns (stage: Stage)
    requires MEDIA in validated ==> Media.Legal(Items(w, validated[MEDIA]), w.schedule)
    ensures stage == Uploading(w, validated)
  {
    var validated_out := validated;
    var urls: seq<Media.Uploaded> := [];
    if MEDIA in validated_out {
      var handled, lost := Media.Handle(Items(w, validated_out[MEDIA]), w.schedule);
      if lost {
        return Lost;
      }
      match handled {
        case None => return Waiting;
        case Some(Err(e)) => return Rejected(e);
        case Some(Ok(uploads)) => urls := uploads;
      }
    }
    if |urls| != 0 {
      validated_out := validated_out[URL := UrlsOf(urls)];
      validated_out := validated_out[MIME_TYPE := MimeTypesOf(urls)];
      validated_out := validated_out[MEDIA_INDEX := IndexesOfUploads(urls)];
    }
    return Ready(validated_out);
  }

  /** One request from its arrival to its response; p is what the pipeline was given when it
      was made, with the template object that it shares with all other requests. */
  method Execute<S>(p: Pipe, template: SQLTemplate, req: HttpRequest, w: World,
                    server: Server<S>, engine: Engine<S>, faults: Faults, res: Connection)
    requires CanHappen(p, req, w) && Defined(p.sql) && template.Value() == p.sql && server.working.None?
    modifies server, res
    ensures var (db, response) := ExecuteOf(p, req, w, engine, faults, old(server.committed));
            server.committed == db && res.sent == old(res.sent) + if response.Some? then [response.value] else []
    ensures template.Value() == p.sql && server.working.None?
  {
    var result_final: Option<seq<Rows>> := None;
    var error_final: Option<Error> := None;
    var validated := Validate(p, req, w);
    if validated.Err? {
      error_final := Some(validated.error);
    } else {
      var stage := Upload(w, validated.value);
      match stage {
        case Waiting => return;
        case Lost => return;
        case Rejected(e) => error_final := Some(e);
        case Ready(input) =>
          var results := Store.Store(server, engine, faults, template, input);
          if results.Err? {
            error_final := Some(results.error);
          } else {
            result_final := Some(results.value);
          }
      }
    }
    APIRespond(p, res, result_final, error_final);
  }
}
