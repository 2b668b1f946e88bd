/** classes/database.js: `nextQueryHandler`, `complexQuery` and `simpleQuery`.  One call of
    `complexQuery` is a machine driven by the answers of its client; here are its steps, the
    protocol every sequence of answers keeps, and its product with a database. */
module Database {
  import opened Values
  import opened Vocabulary
  import opened SqlTemplate
  import opened Execution

  /** What a call sends over its client. */
  datatype Command = Begin | Statement(text: Sql, args: seq<Val>) | Commit | Rollback

  /** How the promise of the last request to the client (or to the pool) settles. */
  datatype Answer = Answered(rows: Rows) | Failed(code: PgCode)

  datatype Phase = Connecting | Beginning | Running | Committing | RollingBack | Settled

  type Outcome = Result<seq<Rows>>

  /** The state of one call: the queue that is shifted, the growing result list, the
      `finish` continuation, and what the call did to its client and its promise. */
  datatype Tx = Tx(
    queries: seq<Query>,
    result: seq<Rows>,
    phase: Phase,
    finish: Option<Outcome>,
    sent: seq<Command>,
    releases: nat,
    settlements: seq<Outcome>)

  function Start(plan: seq<Query>): Tx {
    Tx(plan, [], Connecting, None, [], 0, [])
  }

  const NO_CODE := OtherCode("undefined")

  function Caught(tx: Tx, error: Error): Tx {
    tx.(finish := Some(Err(error)), sent := tx.sent + [Rollback], phase := RollingBack)
  }

  function Finished(tx: Tx, outcome: Outcome): Tx {
    tx.(finish := Some(outcome), releases := tx.releases + 1, settlements := tx.settlements + [outcome],
        phase := Settled)
  }

  /** `nextQueryHandler` up to sending: shifting an empty queue is a TypeError. */
  function Next(tx: Tx): Tx {
    if |tx.queries| == 0 then Caught(tx, QueryExecution(NO_CODE))
    else
      var q, shifted := tx.queries[0], tx.(queries := tx.queries[1..]);
      var args := EvaluateAll(Params(q), tx.result);
      if args.None? then Caught(shifted, Backreference)
      else shifted.(sent := tx.sent + [Statement(q.text, args.value)], phase := Running)
  }

  function Step(tx: Tx, a: Answer): Tx {
    match tx.phase
    case Connecting =>
      if a.Failed? then tx.(settlements := tx.settlements + [Err(ClientNotAvailable)], phase := Settled)
      else tx.(sent := tx.sent + [Begin], phase := Beginning)
    case Beginning => if a.Failed? then Caught(tx, QueryExecution(a.code)) else Next(tx)
    case Running =>
      if a.Failed? then Caught(tx, QueryExecution(a.code))
      else
        var pushed := tx.(result := tx.result + [a.rows]);
        if |tx.queries| == 0 then pushed.(sent := tx.sent + [Commit], phase := Committing) else Next(pushed)
    case Committing => if a.Failed? then Caught(tx, QueryExecution(a.code)) else Finished(tx, Ok(tx.result))
    case RollingBack => if tx.finish.Some? then Finished(tx, tx.finish.value) else tx
    case Settled => tx
  }

  function After(plan: seq<Query>, answers: seq<Answer>): Tx {
    if answers == [] then Start(plan) else Step(After(plan, answers[..|answers| - 1]), answers[|answers| - 1])
  }

  // ---------------------------------------------------------------- the protocol

  /** After BEGIN, the p-th command is the p-th query, with the arguments its parameters
      have on the first p results. */
  ghost predicate Asks(plan: seq<Query>, tx: Tx, p: nat) {
    && p < |plan| && p <= |tx.result| && p + 1 < |tx.sent|
    && tx.sent[p + 1].Statement?
    && tx.sent[p + 1].text == plan[p].text
    && EvaluateAll(Params(plan[p]), tx.result[..p]) == Some(tx.sent[p + 1].args)
  }

  /** The trace opens with BEGIN and the first m queries in order. */
  ghost predicate Opens(plan: seq<Query>, tx: Tx, m: nat) {
    && |tx.sent| > 0
    && tx.sent[0] == Begin
    && forall p :: 0 <= p < m ==> Asks(plan, tx, p)
  }

  /** BEGIN, every query, COMMIT. */
  ghost predicate CommitTrace(plan: seq<Query>, tx: Tx) {
    && |tx.result| == |plan| > 0
    && Opens(plan, tx, |plan|)
    && |tx.sent| == |plan| + 2
    && tx.sent[|plan| + 1] == Commit
  }

  /** BEGIN, the first m queries, ROLLBACK: where m counts one query more than there are
      results when the last one failed; or a COMMIT that failed, and then ROLLBACK. */
  ghost predicate RollbackTrace(plan: seq<Query>, tx: Tx) {
    && |tx.result| <= |plan|
    && (|| (|tx.sent| == |tx.result| + 2 && Opens(plan, tx, |tx.result|) && tx.sent[|tx.result| + 1] == Rollback)
        || (|tx.sent| == |tx.result| + 3 && |tx.result| < |plan| && Opens(plan, tx, |tx.result| + 1)
            && tx.sent[|tx.result| + 2] == Rollback)
        || (|tx.sent| == |plan| + 3 && |tx.result| == |plan| && Opens(plan, tx, |plan|)
            && tx.sent[|plan| + 1] == Commit && tx.sent[|plan| + 2] == Rollback))
  }

  ghost predicate Protocol(plan: seq<Query>, tx: Tx) {
    && |tx.result| <= |plan|
    && (tx.phase != Settled ==> tx.releases == 0 && tx.settlements == [])
    && match tx.phase
       case Connecting => tx == Start(plan)
       case Beginning => tx == Start(plan).(sent := [Begin], phase := Beginning)
       case Running =>
         && |tx.queries| + |tx.result| + 1 == |plan|
         && tx.queries == plan[|tx.result| + 1..]
         && Opens(plan, tx, |tx.result| + 1) && |tx.sent| == |tx.result| + 2
       case Committing => |tx.queries| == 0 && CommitTrace(plan, tx)
       case RollingBack => tx.finish.Some? && tx.finish.value.Err? && RollbackTrace(plan, tx)
       case Settled =>
         || (tx.sent == [] && tx.releases == 0 && tx.settlements == [Err(ClientNotAvailable)])
         || (tx.releases == 1 && tx.settlements == [Ok(tx.result)] && CommitTrace(plan, tx))
         || (tx.releases == 1 && |tx.settlements| == 1 && tx.settlements[0].Err? && RollbackTrace(plan, tx))
  }

  /** What has been sent and answered stays so. */
  lemma OpensStill(plan: seq<Query>, tx: Tx, later: Tx, m: nat)
    requires Opens(plan, tx, m)
    requires tx.sent <= later.sent && tx.result <= later.result
    ensures Opens(plan, later, m)
  {
    forall p | 0 <= p < m
      ensures Asks(plan, later, p)
    {
      assert Asks(plan, tx, p);
      assert later.result[..p] == tx.result[..p];
    }
  }

  lemma NextKeepsProtocol(plan: seq<Query>, tx: Tx)
    requires |tx.result| <= |plan| && tx.queries == plan[|tx.result|..]
    requires tx.releases == 0 && tx.settlements == []
    requires |tx.sent| == |tx.result| + 1 && Opens(plan, tx, |tx.result|)
    ensures Protocol(plan, Next(tx))
  {
    var next := Next(tx);
    OpensStill(plan, tx, next, |tx.result|);
    if next.phase == Running {
      assert tx.result[..|tx.result|] == tx.result;
      assert Asks(plan, next, |tx.result|);
    }
  }

  lemma StepKeepsProtocol(plan: seq<Query>, tx: Tx, a: Answer)
    requires Protocol(plan, tx)
    ensures Protocol(plan, Step(tx, a))
  {
    if tx.phase == Beginning && a.Answered? {
      NextKeepsProtocol(plan, tx);
    } else if tx.phase == Running {
      if a.Failed? {
        OpensStill(plan, tx, Step(tx, a), |tx.result| + 1);
      } else {
        var pushed := tx.(result := tx.result + [a.rows]);
        OpensStill(plan, tx, pushed, |pushed.result|);
        if |tx.queries| > 0 {
          NextKeepsProtocol(plan, pushed);
        } else {
          OpensStill(plan, pushed, Step(tx, a), |plan|);
        }
      }
    } else if tx.phase == Committing {
      OpensStill(plan, tx, Step(tx, a), |plan|);
    } else if tx.phase == RollingBack {
      RollbackTraceStill(plan, tx, Step(tx, a));
    }
  }

  lemma RollbackTraceStill(plan: seq<Query>, tx: Tx, later: Tx)
    requires RollbackTrace(plan, tx) && later.sent == tx.sent && later.result == tx.result
    ensures RollbackTrace(plan, later)
  {
    forall m: nat | Opens(plan, tx, m)
      ensures Opens(plan, later, m)
    {
      OpensStill(plan, tx, later, m);
    }
  }

  /** Whatever the client answers and whenever it stops answering: the trace is BEGIN and a
      prefix of the queries in order, closed by one COMMIT after all of them or by ROLLBACK;
      between two answers one query is in flight and the others are in the queue or have a
      result; the client is released once and the promise settled once. */
  lemma {:induction false} ProtocolKept(plan: seq<Query>, answers: seq<Answer>)
    ensures Protocol(plan, After(plan, answers))
  {
    if answers != [] {
      ProtocolKept(plan, answers[..|answers| - 1]);
      StepKeepsProtocol(plan, After(plan, answers[..|answers| - 1]), answers[|answers| - 1]);
    }
  }

  /** How many more answers a call can need. */
  function Remaining(tx: Tx): nat {
    match tx.phase
    case Connecting => |tx.queries| + 4
    case Beginning => |tx.queries| + 3
    case Running => |tx.queries| + 3
    case Committing => 2
    case RollingBack => 1
    case Settled => 0
  }

  lemma StepNearsEnd(plan: seq<Query>, tx: Tx, a: Answer)
    requires Protocol(plan, tx) && tx.phase != Settled
    ensures Remaining(Step(tx, a)) < Remaining(tx)
  {
  }

  /** Every call settles after at most |plan| + 4 answers. */
  lemma {:induction false} Settles(plan: seq<Query>, answers: seq<Answer>)
    ensures Remaining(After(plan, answers)) == 0 || Remaining(After(plan, answers)) + |answers| <= |plan| + 4
    ensures |answers| >= |plan| + 4 ==> After(plan, answers).phase == Settled
  {
    if answers != [] {
      Settles(plan, answers[..|answers| - 1]);
      ProtocolKept(plan, answers[..|answers| - 1]);
    }
  }

  /** The first two answers are to the pool and to BEGIN; the p-th result is the one after. */
  ghost predicate ResultsMatch(tx: Tx, answers: seq<Answer>) {
    && (tx.result == [] || |tx.result| + 2 <= |answers|)
    && (tx.phase == Running ==> |answers| == |tx.result| + 2)
    && (tx.phase == Beginning ==> |answers| == 1 && tx.result == [])
    && (tx.phase == Connecting ==> |answers| == 0 && tx.result == [])
    && forall p :: 0 <= p < |tx.result| ==> answers[p + 2] == Answered(tx.result[p])
  }

  lemma StepMatches(plan: seq<Query>, tx: Tx, answers: seq<Answer>, a: Answer)
    requires Protocol(plan, tx) && ResultsMatch(tx, answers)
    ensures ResultsMatch(Step(tx, a), answers + [a])
  {
    var next := Step(tx, a);
    forall p | 0 <= p < |next.result|
      ensures (answers + [a])[p + 2] == Answered(next.result[p])
    {
      if p < |tx.result| {
        assert next.result[p] == tx.result[p] && answers[p + 2] == Answered(tx.result[p]);
      }
    }
  }

  /** The result list holds the answers to the call's own queries, and nothing else. */
  lemma {:induction false} ResultsAreAnswers(plan: seq<Query>, answers: seq<Answer>)
    ensures ResultsMatch(After(plan, answers), answers)
  {
    if answers != [] {
      var before, a := answers[..|answers| - 1], answers[|answers| - 1];
      ResultsAreAnswers(plan, before);
      ProtocolKept(plan, before);
      StepMatches(plan, After(plan, before), before, a);
      assert before + [a] == answers;
    }
  }

  // ---------------------------------------------------------------- the callbacks

  /** One call of `complexQuery`, on the list it was given; each method is one of its
      callbacks. */
  class Call {
    const queries: QueryList
    var result: seq<Rows>
    var phase: Phase
    var finish: Option<Outcome>
    var sent: seq<Command>
    var releases: nat
    var settlements: seq<Outcome>

    constructor (queries: QueryList)
      ensures this.queries == queries && State() == Start(queries.items)
    {
      this.queries := queries;
      result, phase, finish := [], Connecting, None;
      sent, releases, settlements := [], 0, [];
    }

    function State(): Tx
      reads this, queries
    {
      Tx(queries.items, result, phase, finish, sent, releases, settlements)
    }

    method NextQueryHandler()
      modifies this, queries
      ensures State() == Next(old(State()))
    {
      if |queries.items| == 0 {
        Catch(QueryExecution(NO_CODE));
        return;
      }
      var nextquery := queries.Shift();
      var values := EvaluateAll(Params(nextquery), result);
      if values.None? {
        Catch(Backreference);
      } else {
        sent := sent + [Statement(nextquery.text, values.value)];
        phase := Running;
      }
    }

    method Catch(error: Error)
      modifies this
      ensures State() == Caught(old(State()), error)
    {
      finish := Some(Err(error));
      sent := sent + [Rollback];
      phase := RollingBack;
    }

    method Finally(outcome: Outcome)
      modifies this
      ensures State() == Finished(old(State()), outcome)
    {
      finish := Some(outcome);
      releases := releases + 1;
      settlements := settlements + [outcome];
      phase := Settled;
    }

    method Deliver(a: Answer)
      modifies this, queries
      ensures State() == Step(old(State()), a)
    {
      match phase {
        case Connecting =>
          if a.Failed? {
            settlements := settlements + [Err(ClientNotAvailable)];
            phase := Settled;
          } else {
            sent := sent + [Begin];
            phase := Beginning;
          }
        case Beginning =>
          if a.Failed? {
            Catch(QueryExecution(a.code));
          } else {
            NextQueryHandler();
          }
        case Running =>
          if a.Failed? {
            Catch(QueryExecution(a.code));
          } else {
            result := result + [a.rows];
            if |queries.items| == 0 {
              sent := sent + [Commit];
              phase := Committing;
            } else {
              NextQueryHandler();
            }
          }
        case Committing =>
          if a.Failed? {
            Catch(QueryExecution(a.code));
          } else {
            Finally(Ok(result));
          }
        case RollingBack =>
          if finish.Some? {
            Finally(finish.value);
          }
        case Settled =>
      }
    }
  }

  // ---------------------------------------------------------------- interleaving

  /** What happens at a server: a request arrives and its transaction is built from one of
      the templates and begun, or the promise a call waits for settles. */
  datatype Event = Arrival(template: nat, input: Input) | Delivery(call: nat, answer: Answer)

  function Arrivals(events: seq<Event>): (r: seq<(nat, Input)>)
    ensures |r| <= |events|
  {
    if events == [] then [] else
      var last := events[|events| - 1];
      Arrivals(events[..|events| - 1]) + if last.Arrival? then [(last.template, last.input)] else []
  }

  /** The answers that are delivered to call i, in order. */
  function AnswersTo(events: seq<Event>, i: nat): seq<Answer> {
    if events == [] then [] else
      var last := events[|events| - 1];
      AnswersTo(events[..|events| - 1], i) + if last.Delivery? && last.call == i then [last.answer] else []
  }

  /** Answers are for calls that were begun, and what arrives can be built: a request whose
      transaction cannot be built begins none. */
  ghost predicate CanFollow(templates: seq<Template>, before: seq<Event>, e: Event) {
    match e
    case Arrival(k, input) => k < |templates| && Defined(templates[k]) && PlanOf(templates[k], input).Ok?
    case Delivery(i, _) => i < |Arrivals(before)|
  }

  ghost predicate History(templates: seq<Template>, events: seq<Event>) {
    events == [] ||
    var last := |events| - 1;
    History(templates, events[..last]) && CanFollow(templates, events[..last], events[last])
  }

  lemma {:induction false} HistoryArrivals(templates: seq<Template>, events: seq<Event>)
    requires History(templates, events)
    ensures forall i :: 0 <= i < |Arrivals(events)| ==>
              CanFollow(templates, [], Arrival(Arrivals(events)[i].0, Arrivals(events)[i].1))
    ensures forall i :: i >= |Arrivals(events)| ==> AnswersTo(events, i) == []
  {
    if events != [] {
      HistoryArrivals(templates, events[..|events| - 1]);
    }
  }

  /** What the i-th request to arrive was built to. */
  ghost function PlanAt(templates: seq<Template>, events: seq<Event>, i: nat): seq<Query>
    requires History(templates, events) && i < |Arrivals(events)|
  {
    HistoryArrivals(templates, events);
    PlanOf(templates[Arrivals(events)[i].0], Arrivals(events)[i].1).value.queries
  }

  /** Call i as it is when it runs alone, on the plan that its template had before anything
      happened and on the answers meant for it. */
  ghost function Alone(templates: seq<Template>, events: seq<Event>, i: nat): Tx
    requires History(templates, events) && i < |Arrivals(events)|
  {
    After(PlanAt(templates, events, i), AnswersTo(events, i))
  }

  lemma AnswersGrow(events: seq<Event>, e: Event, i: nat)
    ensures AnswersTo(events + [e], i) == AnswersTo(events, i) + if e.Delivery? && e.call == i then [e.answer] else []
  {
    assert (events + [e])[..|events|] == events;
  }

  lemma OneMoreAnswer(plan: seq<Query>, answers: seq<Answer>, a: Answer)
    ensures After(plan, answers + [a]) == Step(After(plan, answers), a)
  {
    assert (answers + [a])[..|answers|] == answers;
  }

  lemma AloneAfter(templates: seq<Template>, events: seq<Event>, e: Event, i: nat)
    requires History(templates, events) && CanFollow(templates, events, e) && i < |Arrivals(events)|
    ensures History(templates, events + [e]) && i < |Arrivals(events + [e])|
    ensures Alone(templates, events + [e], i)
         == if e.Delivery? && e.call == i then Step(Alone(templates, events, i), e.answer)
            else Alone(templates, events, i)
  {
    HistoryGrows(templates, events, e);
    AnswersGrow(events, e, i);
    assert PlanAt(templates, events + [e], i) == PlanAt(templates, events, i);
    if e.Delivery? && e.call == i {
      OneMoreAnswer(PlanAt(templates, events, i), AnswersTo(events, i), e.answer);
    } else {
      assert AnswersTo(events, i) + [] == AnswersTo(events, i);
    }
  }

  lemma HistoryGrows(templates: seq<Template>, events: seq<Event>, e: Event)
    requires History(templates, events) && CanFollow(templates, events, e)
    ensures History(templates, events + [e])
    ensures e.Arrival? ==> Arrivals(events + [e]) == Arrivals(events) + [(e.template, e.input)]
    ensures e.Delivery? ==> Arrivals(events + [e]) == Arrivals(events)
  {
    assert (events + [e])[..|events|] == events;
  }

  lemma AloneAtFirst(templates: seq<Template>, events: seq<Event>, e: Event)
    requires History(templates, events) && CanFollow(templates, events, e) && e.Arrival?
    ensures History(templates, events + [e]) && |Arrivals(events + [e])| == |Arrivals(events)| + 1
    ensures Alone(templates, events + [e], |Arrivals(events)|)
            == Start(PlanOf(templates[e.template], e.input).value.queries)
  {
    HistoryGrows(templates, events, e);
    HistoryArrivals(templates, events);
    AnswersGrow(events, e, |Arrivals(events)|);
    assert AnswersTo(events + [e], |Arrivals(events)|) == [];
  }

  /** The states of all calls, as they come about. */
  ghost function Scheduled(templates: seq<Template>, events: seq<Event>): (states: seq<Tx>)
    requires History(templates, events)
    ensures |states| == |Arrivals(events)|
  {
    if events == [] then [] else
      var before := events[..|events| - 1];
      Advanced(templates, before, Scheduled(templates, before), events[|events| - 1])
  }

  ghost function Advanced(templates: seq<Template>, events: seq<Event>, states: seq<Tx>, e: Event): (next: seq<Tx>)
    requires CanFollow(templates, events, e) && |states| == |Arrivals(events)|
    ensures |next| == |states| + if e.Arrival? then 1 else 0
  {
    if e.Arrival? then states + [Start(PlanOf(templates[e.template], e.input).value.queries)]
    else states[e.call := Step(states[e.call], e.answer)]
  }

  lemma NextScheduled(templates: seq<Template>, events: seq<Event>, e: Event)
    requires History(templates, events) && CanFollow(templates, events, e)
    ensures History(templates, events + [e])
    ensures Scheduled(templates, events + [e]) == Advanced(templates, events, Scheduled(templates, events), e)
  {
    assert (events + [e])[..|events|] == events;
  }

  /** Calls do not disturb each other: whatever arrives when, and however the answers are
      interleaved, each of them is as it would be had it run alone on the answers meant for
      it, and keeps the protocol. */
  lemma {:induction false} ScheduledAlone(templates: seq<Template>, events: seq<Event>, i: nat)
    requires History(templates, events) && i < |Arrivals(events)|
    ensures Scheduled(templates, events)[i] == Alone(templates, events, i)
    ensures Protocol(PlanAt(templates, events, i), Scheduled(templates, events)[i])
  {
    var before, e := events[..|events| - 1], events[|events| - 1];
    assert events == before + [e];
    if i < |Arrivals(before)| {
      ScheduledAlone(templates, before, i);
    }
    NextAlone(templates, before, e, i);
    AloneKeepsProtocol(templates, events, i);
  }

  lemma NextAlone(templates: seq<Template>, events: seq<Event>, e: Event, i: nat)
    requires History(templates, events) && CanFollow(templates, events, e)
    requires History(templates, events + [e]) && i < |Arrivals(events + [e])|
    requires i < |Arrivals(events)| ==> Scheduled(templates, events)[i] == Alone(templates, events, i)
    ensures Scheduled(templates, events + [e])[i] == Alone(templates, events + [e], i)
  {
    NextScheduled(templates, events, e);
    HistoryGrows(templates, events, e);
    if i < |Arrivals(events)| {
      AloneAfter(templates, events, e, i);
    } else {
      AloneAtFirst(templates, events, e);
    }
  }

  lemma AloneKeepsProtocol(templates: seq<Template>, events: seq<Event>, i: nat)
    requires History(templates, events) && i < |Arrivals(events)|
    ensures Protocol(PlanAt(templates, events, i), Alone(templates, events, i))
  {
    ProtocolKept(PlanAt(templates, events, i), AnswersTo(events, i));
  }

  // ---------------------------------------------------------------- the objects

  ghost function Snapshot(templates: seq<SQLTemplate>): (values: seq<Template>)
    reads templates
    ensures |values| == |templates|
  {
    seq(|templates|, k requires 0 <= k < |templates| reads templates => templates[k].Value())
  }

  ghost function States(calls: seq<Call>): (states: seq<Tx>)
    reads calls, set call | call in calls :: call.queries
    ensures |states| == |calls| && forall i :: 0 <= i < |calls| ==> states[i] == calls[i].State()
  {
    if calls == [] then [] else States(calls[..|calls| - 1]) + [calls[|calls| - 1].State()]
  }

  /** No two calls share anything. */
  ghost predicate Separate(calls: seq<Call>) {
    forall i, j :: 0 <= i < j < |calls| ==> calls[i] != calls[j] && calls[i].queries != calls[j].queries
  }

  /** A request arrives: its transaction is built, and its call begun. */
  method Arrive(calls: seq<Call>, template: SQLTemplate, input: Input) returns (more: seq<Call>)
    requires Separate(calls) && Defined(template.Value()) && PlanOf(template.Value(), input).Ok?
    ensures template.Value() == old(template.Value())
    ensures |more| == |calls| + 1 && more[..|calls|] == calls && fresh(more[|calls|]) && fresh(more[|calls|].queries)
    ensures Separate(more)
    ensures States(more) == old(States(calls)) + [Start(PlanOf(template.Value(), input).value.queries)]
  {
    var built := template.Build(input);
    var call := new Call(built.value.queries);
    more := calls + [call];
    assert more[..|calls|] == calls;
  }

  /** An answer reaches its call, and no other. */
  method DeliverTo(calls: seq<Call>, i: nat, a: Answer)
    requires i < |calls| && Separate(calls)
    modifies calls[i], calls[i].queries
    ensures States(calls) == old(States(calls))[i := Step(old(calls[i].State()), a)]
  {
    calls[i].Deliver(a);
  }

  method Happen(templates: seq<SQLTemplate>, ghost events: seq<Event>, calls: seq<Call>, e: Event)
    returns (more: seq<Call>)
    requires History(Snapshot(templates), events) && CanFollow(Snapshot(templates), events, e)
    requires States(calls) == Scheduled(Snapshot(templates), events) && Separate(calls)
    modifies calls, set call | call in calls :: call.queries
    ensures Snapshot(templates) == old(Snapshot(templates))
    ensures forall call :: call in more ==> call in calls || (fresh(call) && fresh(call.queries))
    ensures Separate(more) && History(Snapshot(templates), events + [e])
    ensures States(more) == Scheduled(Snapshot(templates), events + [e])
  {
    NextScheduled(Snapshot(templates), events, e);
    match e {
      case Arrival(k, input) =>
        more := Arrive(calls, templates[k], input);
      case Delivery(i, a) =>
        more := calls;
        DeliverTo(calls, i, a);
    }
  }

  /** The objects keep to that schedule, though all of them shift lists in place that were
      built from templates they share: each call is built from its template as it was at
      first, no two share a list, and no template has changed. */
  method Interleave(templates: seq<SQLTemplate>, events: seq<Event>) returns (calls: seq<Call>)
    requires History(Snapshot(templates), events)
    ensures Snapshot(templates) == old(Snapshot(templates))
    ensures forall call :: call in calls ==> fresh(call) && fresh(call.queries)
    ensures Separate(calls) && States(calls) == Scheduled(Snapshot(templates), events)
  {
    if events == [] {
      return [];
    }
    var before, e := events[..|events| - 1], events[|events| - 1];
    assert events == before + [e];
    calls := Interleave(templates, before);
    calls := Happen(templates, before, calls, e);
  }

  // ---------------------------------------------------------------- with a database

  /** Failures outside the statements themselves. */
  datatype Faults = Faults(connect: Option<PgCode>, begin: Option<PgCode>, commit: Option<PgCode>,
                           rollback: Option<PgCode>)

  const NO_FAULTS := Faults(None, None, None, None)

  /** A transaction as a whole: every effect and every result, or an error and no effect. */
  function Complex<S>(engine: Engine<S>, faults: Faults, plan: seq<Query>, db: S): (r: (S, Outcome))
    ensures r.1.Ok? ==> |r.1.value| == |plan|
    ensures r.1.Err? ==> r.0 == db
    ensures r.1.Err? ==> (r.1.error == ClientNotAvailable || r.1.error == Backreference || r.1.error.QueryExecution?)
  {
    if faults.connect.Some? then (db, Err(ClientNotAvailable))
    else if faults.begin.Some? then (db, Err(QueryExecution(faults.begin.value)))
    else if |plan| == 0 then (db, Err(QueryExecution(NO_CODE)))
    else
      match RunAll(engine, db, plan)
      case Stopped(e) => (db, Err(e))
      case Going(next, results) =>
        if faults.commit.Some? then (db, Err(QueryExecution(faults.commit.value))) else (next, Ok(results))
  }

  /** What a database does with one command.  A failed statement or COMMIT loses the work,
      and so does ROLLBACK, whatever it answers. */
  ghost predicate Handled<S>(engine: Engine<S>, faults: Faults, m: Command, a: Answer,
                             committed: S, working: Option<S>, position: nat,
                             committed': S, working': Option<S>, position': nat)
  {
    match m
    case Begin =>
      committed' == committed &&
      (match faults.begin
       case Some(code) => a == Failed(code) && working'.None?
       case None => a.Answered? && working' == Some(committed) && position' == 0)
    case Statement(text, args) =>
      committed' == committed && working.Some? &&
      (match engine(position, working.value, text, args)
       case Refused(code) => a == Failed(code) && working'.None?
       case Done(next, rows) => a == Answered(rows) && working' == Some(next) && position' == position + 1)
    case Commit =>
      working'.None? && working.Some? &&
      (match faults.commit
       case Some(code) => a == Failed(code) && committed' == committed
       case None => a.Answered? && committed' == working.value)
    case Rollback => committed' == committed && working'.None?
  }

  /** The database's side of one client. */
  class Server<S> {
    var committed: S
    var working: Option<S>
    var position: nat

    constructor (db: S)
      ensures committed == db && working.None?
    {
      committed, working, position := db, None, 0;
    }

    method Handle(engine: Engine<S>, faults: Faults, m: Command) returns (a: Answer)
      requires m.Statement? || m.Commit? ==> working.Some?
      modifies this
      ensures Handled(engine, faults, m, a, old(committed), old(working), old(position), committed, working, position)
    {
      a := Answered([]);
      match m {
        case Begin =>
          if faults.begin.Some? {
            working := None;
            return Failed(faults.begin.value);
          }
          working, position := Some(committed), 0;
        case Statement(text, args) =>
          match engine(position, working.value, text, args) {
            case Refused(code) =>
              working := None;
              return Failed(code);
            case Done(next, rows) =>
              working, position := Some(next), position + 1;
              return Answered(rows);
          }
        case Commit =>
          if faults.commit.Some? {
            working := None;
            return Failed(faults.commit.value);
          }
          committed, working := working.value, None;
        case Rollback =>
          working := None;
          if faults.rollback.Some? {
            return Failed(faults.rollback.value);
          }
      }
    }
  }

  /** The database and the call that talks to it agree on how far the plan has run. */
  ghost predicate Synced<S>(engine: Engine<S>, faults: Faults, plan: seq<Query>, db: S,
                            committed: S, working: Option<S>, position: nat, tx: Tx)
  {
    && faults.connect.None? && |tx.result| <= |plan|
    && (tx.phase != Settled ==> committed == db)
    && tx.phase != Connecting
    && (tx.phase == Beginning ==> working.None?)
    && (tx.phase == Running || tx.phase == Committing ==>
          && faults.begin.None? && working.Some? && position == |tx.result|
          && RunUpTo(engine, db, plan, |tx.result|) == Going(working.value, tx.result))
    && (tx.phase == RollingBack ==> tx.finish.Some? && (db, tx.finish.value) == Complex(engine, faults, plan, db))
    && (tx.phase == Settled ==>
          |tx.settlements| == 1 && (committed, tx.settlements[0]) == Complex(engine, faults, plan, db))
  }

  lemma SyncedNext<S>(engine: Engine<S>, faults: Faults, plan: seq<Query>, db: S, working: S, position: nat, tx: Tx)
    requires faults.connect.None? && faults.begin.None?
    requires |tx.result| <= |plan| && tx.queries == plan[|tx.result|..] && position == |tx.result|
    requires |plan| > |tx.result| || |plan| == 0
    requires RunUpTo(engine, db, plan, |tx.result|) == Going(working, tx.result)
    ensures Synced(engine, faults, plan, db, db, Some(working), position, Next(tx))
  {
    if |plan| > 0 && EvaluateAll(Params(plan[|tx.result|]), tx.result).None? {
      UnresolvedStops(engine, plan, db, working, tx.result);
    }
  }

  /** A reference that does not resolve is the end of the run. */
  lemma UnresolvedStops<S>(engine: Engine<S>, plan: seq<Query>, db: S, working: S, results: seq<Rows>)
    requires |results| < |plan|
    requires RunUpTo(engine, db, plan, |results|) == Going(working, results)
    requires EvaluateAll(Params(plan[|results|]), results).None?
    ensures RunAll(engine, db, plan) == Stopped(Backreference)
  {
    assert RunUpTo(engine, db, plan, |results| + 1) == Stopped(Backreference);
    RunStaysStopped(engine, db, plan, |results| + 1, |plan|);
  }

  /** A refused statement is the end of the run it belongs to. */
  lemma RefusedStops<S>(engine: Engine<S>, plan: seq<Query>, db: S, working: S, tx: Tx, code: PgCode)
    requires Asks(plan, tx, |tx.result|)
    requires RunUpTo(engine, db, plan, |tx.result|) == Going(working, tx.result)
    requires engine(|tx.result|, working, tx.sent[|tx.result| + 1].text, tx.sent[|tx.result| + 1].args) == Refused(code)
    ensures RunAll(engine, db, plan) == Stopped(QueryExecution(code))
  {
    var m := |tx.result|;
    assert tx.result[..m] == tx.result;
    assert RunUpTo(engine, db, plan, m + 1) == Stopped(QueryExecution(code));
    RunStaysStopped(engine, db, plan, m + 1, |plan|);
  }

  lemma AnsweredGoes<S>(engine: Engine<S>, plan: seq<Query>, db: S, working: S, tx: Tx, next: S, rows: Rows)
    requires Asks(plan, tx, |tx.result|)
    requires RunUpTo(engine, db, plan, |tx.result|) == Going(working, tx.result)
    requires engine(|tx.result|, working, tx.sent[|tx.result| + 1].text, tx.sent[|tx.result| + 1].args)
             == Done(next, rows)
    ensures |tx.result| < |plan|
    ensures RunUpTo(engine, db, plan, |tx.result| + 1) == Going(next, tx.result + [rows])
  {
    var m := |tx.result|;
    assert tx.result[..m] == tx.result;
  }

  function LastSent(tx: Tx): Command
    requires tx.sent != []
  {
    tx.sent[|tx.sent| - 1]
  }

  lemma SyncedRunning<S>(engine: Engine<S>, faults: Faults, plan: seq<Query>, db: S, working: S, tx: Tx, a: Answer,
                         working': Option<S>, position': nat)
    requires tx.phase == Running && Protocol(plan, tx)
    requires Synced(engine, faults, plan, db, db, Some(working), |tx.result|, tx)
    requires Handled(engine, faults, LastSent(tx), a, db, Some(working), |tx.result|, db, working', position')
    ensures Synced(engine, faults, plan, db, db, working', position', Step(tx, a))
  {
    assert Asks(plan, tx, |tx.result|);
    if a.Failed? {
      RefusedStops(engine, plan, db, working, tx, a.code);
    } else {
      AnsweredGoes(engine, plan, db, working, tx, working'.value, a.rows);
      if |tx.queries| > 0 {
        SyncedNext(engine, faults, plan, db, working'.value, position', tx.(result := tx.result + [a.rows]));
      }
    }
  }

  lemma SyncedStep<S>(engine: Engine<S>, faults: Faults, plan: seq<Query>, db: S, tx: Tx, a: Answer,
                      committed: S, working: Option<S>, position: nat, committed': S, working': Option<S>,
                      position': nat)
    requires tx.phase != Settled && Protocol(plan, tx)
    requires Synced(engine, faults, plan, db, committed, working, position, tx)
    requires tx.sent != []
    requires Handled(engine, faults, LastSent(tx), a, committed, working, position, committed', working', position')
    ensures Synced(engine, faults, plan, db, committed', working', position', Step(tx, a))
    ensures Step(tx, a).phase == Settled ==> working'.None?
  {
    if tx.phase == Beginning {
      if a.Answered? {
        SyncedNext(engine, faults, plan, db, db, 0, tx);
      }
    } else if tx.phase == Running {
      assert LastSent(tx) == tx.sent[|tx.result| + 1];
      assert Asks(plan, tx, |tx.result|);
      SyncedRunning(engine, faults, plan, db, working.value, tx, a, working', position');
    }
  }

  lemma Awaiting(plan: seq<Query>, tx: Tx)
    requires Protocol(plan, tx) && tx.phase != Connecting && tx.phase != Settled
    ensures tx.sent != []
    ensures LastSent(tx).Statement? ==> tx.phase == Running
    ensures LastSent(tx).Commit? ==> tx.phase == Committing
  {
    if tx.phase == Running {
      assert Asks(plan, tx, |tx.result|);
    }
  }

  /** `complexQuery`: all of the plan's effects together with all of its results, or an
      error and the database as it was, for every point at which anything may fail. */
  method ComplexQuery<S>(server: Server<S>, engine: Engine<S>, faults: Faults, queries: QueryList)
    returns (outcome: Outcome)
    requires server.working.None?
    modifies server, queries
    ensures (server.committed, outcome) == Complex(engine, faults, old(queries.items), old(server.committed))
    ensures server.working.None?
  {
    ghost var plan := queries.items;
    var call := new Call(queries);
    if faults.connect.Some? {
      call.Deliver(Failed(faults.connect.value));
      return call.settlements[0];
    }
    call.Deliver(Answered([]));
    ghost var db := server.committed;
    while call.phase != Settled
      invariant fresh(call) && call.queries == queries
      invariant Protocol(plan, call.State())
      invariant Synced(engine, faults, plan, db, server.committed, server.working, server.position, call.State())
      invariant call.phase == Settled ==> server.working.None?
      decreases Remaining(call.State())
    {
      ghost var tx, committed, working, position := call.State(), server.committed, server.working, server.position;
      Awaiting(plan, tx);
      var a := server.Handle(engine, faults, call.sent[|call.sent| - 1]);
      SyncedStep(engine, faults, plan, db, tx, a, committed, working, position, server.committed, server.working,
                 server.position);
      StepKeepsProtocol(plan, tx, a);
      StepNearsEnd(plan, tx, a);
      call.Deliver(a);
    }
    return call.settlements[0];
  }

  // ---------------------------------------------------------------- simpleQuery

  /** A parameter handed to the driver as it is: functions are not called. */
  function Raw(p: Param): Val {
    if p.Plain? then p.v else Func
  }

  function RawAll(ps: seq<Param>): seq<Val> {
    seq(|ps|, j requires 0 <= j < |ps| => Raw(ps[j]))
  }

  /** One statement, committed by itself. */
  function Simple<S>(engine: Engine<S>, q: Query, db: S): (S, Outcome) {
    match engine(0, db, q.text, RawAll(Params(q)))
    case Refused(code) => (db, Err(QueryExecution(code)))
    case Done(next, rows) => (next, Ok([rows]))
  }

  method SimpleQuery<S>(server: Server<S>, engine: Engine<S>, text: Sql, values: seq<Param>) returns (outcome: Outcome)
    requires server.working.None?
    modifies server
    ensures (server.committed, outcome) == Simple(engine, Query(text, Some(values)), old(server.committed))
    ensures server.working.None?
  {
    match engine(0, server.committed, text, RawAll(values)) {
      case Refused(code) => return Err(QueryExecution(code));
      case Done(next, rows) =>
        server.committed := next;
        return Ok([rows]);
    }
  }

  predicate AllPlain(q: Query) {
    forall j :: 0 <= j < |Params(q)| ==> Params(q)[j].Plain?
  }

  /** The one-statement path agrees with a transaction of one query, provided that no
      parameter is a function. */
  lemma SimpleIsComplex<S>(engine: Engine<S>, q: Query, db: S)
    requires AllPlain(q)
    ensures Simple(engine, q, db) == Complex(engine, NO_FAULTS, [q], db)
  {
    var ps := Params(q);
    assert EvaluateAll(ps, []).value == RawAll(ps);
    assert RunUpTo(engine, db, [q], 0) == Going(db, []);
    assert RunUpTo(engine, db, [q], 1) == RunStatement(engine, db, [], q.text, Some(RawAll(ps)));
    assert forall rows: Rows :: [] + [rows] == [rows];
  }
}
