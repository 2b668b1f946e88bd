/** `Pipeline.MediaHandle`: n uploads are submitted in order, their callbacks fire in any
    order, and together they settle one promise. */
module MediaHandle {
  import opened Values

  /** What the uploader answers.  An error may come with a result, or without one: then the
      callback throws, and somebody on the way to the event loop catches it or not. */
  datatype Answer = Succeeded(url: Val) | Failed(partial: Option<Val>, caught: bool)

  /** An answer whose callback ends the process. */
  predicate Fatal(a: Answer) {
    a.Failed? && a.partial.None? && !a.caught
  }

  datatype Item = Item(mimetype: Option<Val>, answer: Answer)  // no mimetype: not a data URI

  datatype Uploaded = Uploaded(url: Val, mimetype: Val, index: nat)

  type Outcome = Result<seq<Uploaded>>

  datatype Event = Submit | Callback(i: nat)

  /** The state of one call: what its callbacks wrote, whether `err` is set, how far the
      submitting loop got, how the promise settled, if it did, and whether the process ended
      before anyone could learn of that. */
  datatype State = State(
    out: seq<Option<Uploaded>>,
    err: bool,
    submitted: nat,
    stopped: bool,
    answered: set<nat>,
    settled: Option<Outcome>,
    lost: bool)

  /** Only the first settlement of a promise counts. */
  function Settle(s: State, o: Outcome): State {
    if s.settled.None? then s.(settled := Some(o)) else s
  }

  function Start(items: seq<Item>): State {
    var s := State(seq(|items|, i => None), false, 0, false, {}, None, false);
    if items == [] then Settle(s, Ok([])) else s
  }

  const NOT_A_DATA_URI := OtherError(UnlistedError("TypeError"))

  predicate Enabled(items: seq<Item>, s: State, e: Event) {
    && !s.lost
    && match e
       case Submit => !s.stopped && s.submitted < |items|
       case Callback(i) => i < s.submitted && i !in s.answered
  }

  predicate AllDefined(out: seq<Option<Uploaded>>) {
    forall i :: 0 <= i < |out| ==> out[i].Some?
  }

  function Defined(out: seq<Option<Uploaded>>): seq<Uploaded>
    requires AllDefined(out)
  {
    seq(|out|, i requires 0 <= i < |out| => out[i].value)
  }

  /** Writes one place of the list, and resolves when no place is empty any more. */
  function Write(s: State, i: nat, url: Val, mimetype: Val): State
    requires i < |s.out|
  {
    var written := s.(out := s.out[i := Some(Uploaded(url, mimetype, i))]);
    if AllDefined(written.out) then Settle(written, Ok(Defined(written.out))) else written
  }

  function Step(items: seq<Item>, s: State, e: Event): State
    requires Enabled(items, s, e) && |s.out| == |items| && s.submitted <= |items|
  {
    match e
    case Submit =>
      if s.err then Settle(s.(stopped := true), Err(FailedUpload))
      else if items[s.submitted].mimetype.None? then Settle(s.(stopped := true), Err(NOT_A_DATA_URI))
      else s.(submitted := s.submitted + 1)
    case Callback(i) =>
      var called := s.(answered := s.answered + {i});
      match items[i].answer
      case Succeeded(url) => Write(called, i, url, MimeOf(items[i]))
      case Failed(url, caught) =>
        var rejected := Settle(called.(err := true), Err(FailedUpload));
        if url.Some? then Write(rejected, i, url.value, MimeOf(items[i]))
        else rejected.(lost := !caught && s.settled.None?)  // reading its url throws
  }

  function MimeOf(item: Item): Val {
    if item.mimetype.Some? then item.mimetype.value else Undef
  }

  /** The schedules that can happen: every event is enabled when it occurs. */
  predicate Legal(items: seq<Item>, events: seq<Event>)
    decreases |events|, 0
  {
    events == [] || (Legal(items, events[..|events| - 1])
                     && Enabled(items, After(items, events[..|events| - 1]), events[|events| - 1]))
  }

  function After(items: seq<Item>, events: seq<Event>): (s: State)
    requires Legal(items, events)
    ensures |s.out| == |items| && s.submitted <= |items|
    decreases |events|, 1
  {
    if events == [] then Start(items) else Step(items, After(items, events[..|events| - 1]), events[|events| - 1])
  }

  /** Nothing more will happen: the loop is done and every submitted upload has answered, or
      the process has ended. */
  predicate Complete(items: seq<Item>, s: State) {
    s.lost || ((s.stopped || s.submitted == |items|) && forall i :: 0 <= i < s.submitted ==> i in s.answered)
  }

  // ---------------------------------------------------------------- confluence

  predicate DataUris(items: seq<Item>) {
    forall i :: 0 <= i < |items| ==> items[i].mimetype.Some?
  }

  predicate AllSucceed(items: seq<Item>) {
    forall i :: 0 <= i < |items| ==> items[i].answer.Succeeded?
  }

  function UploadOf(items: seq<Item>, i: nat): Uploaded
    requires i < |items| && items[i].answer.Succeeded?
  {
    Uploaded(items[i].answer.url, MimeOf(items[i]), i)
  }

  /** The one outcome that the answers determine. */
  function OutcomeOf(items: seq<Item>): Outcome {
    if AllSucceed(items) then Ok(seq(|items|, i requires 0 <= i < |items| => UploadOf(items, i)))
    else Err(FailedUpload)
  }

  ghost predicate Invariant(items: seq<Item>, s: State)
    requires |s.out| == |items| && s.submitted <= |items|
  {
    && (forall i :: i in s.answered ==> i < s.submitted)
    && (s.stopped ==> s.err)
    && (s.lost ==> s.err)
    && (s.err <==> exists i :: i in s.answered && items[i].answer.Failed?)
    && (forall i :: 0 <= i < |items| && items[i].answer.Succeeded? ==>
          s.out[i] == if i in s.answered then Some(UploadOf(items, i)) else None)
    && (forall i :: 0 <= i < |items| && s.out[i].Some? ==> i in s.answered)
    && (s.err ==> s.settled == Some(Err(FailedUpload)))
    && (!s.err ==> s.settled == if AllDefined(s.out) then Some(OutcomeOf(items)) else None)
  }

  lemma StepKeepsInvariant(items: seq<Item>, s: State, e: Event)
    requires |s.out| == |items| && s.submitted <= |items| && DataUris(items)
    requires Enabled(items, s, e) && Invariant(items, s)
    ensures Invariant(items, Step(items, s, e))
  {
    var s' := Step(items, s, e);
    if e.Callback? {
      if items[e.i].answer.Failed? {
        assert e.i in s'.answered;
      } else if !s.err {
        assert !AllDefined(s.out);
        if AllDefined(s'.out) {
          forall i | 0 <= i < |items|
            ensures items[i].answer.Succeeded? && s'.out[i] == Some(UploadOf(items, i))
          {
            assert s'.out[i].Some?;
          }
          assert Defined(s'.out) == OutcomeOf(items).value;
        }
      }
    }
  }

  lemma {:induction false} InvariantKept(items: seq<Item>, events: seq<Event>)
    requires Legal(items, events) && DataUris(items)
    ensures Invariant(items, After(items, events))
  {
    if events == [] {
      if items == [] {
        assert OutcomeOf(items).value == [];
      } else {
        assert Start(items).out[0].None?;
      }
    } else {
      var before := events[..|events| - 1];
      InvariantKept(items, before);
      StepKeepsInvariant(items, After(items, before), events[|events| - 1]);
    }
  }

  /** However the callbacks are ordered among themselves and among the submissions: once
      nothing more can happen the promise has settled, always in the same way.  It resolves
      only if every upload succeeded, to the uploads in the order of the items. */
  lemma Confluence(items: seq<Item>, events: seq<Event>)
    requires Legal(items, events) && DataUris(items)
    ensures Complete(items, After(items, events)) ==> After(items, events).settled == Some(OutcomeOf(items))
    ensures After(items, events).settled.Some? ==> After(items, events).settled == Some(OutcomeOf(items))
  {
    InvariantKept(items, events);
    var s := After(items, events);
    if Complete(items, s) && !s.err {
      forall i | 0 <= i < |items|
        ensures s.out[i].Some?
      {
        assert i in s.answered;
      }
    }
  }

  /** What was settled stays settled, and what was lost stays lost. */
  lemma {:induction false} SettledStays(items: seq<Item>, events: seq<Event>, n: nat)
    requires Legal(items, events) && n <= |events|
    ensures Legal(items, events[..n])
    ensures After(items, events[..n]).settled.Some? ==>
              After(items, events).settled == After(items, events[..n]).settled
    ensures After(items, events[..n]).lost ==> After(items, events).lost
  {
    if n < |events| {
      SettledStays(items, events[..|events| - 1], n);
      assert events[..|events| - 1][..n] == events[..n];
    } else {
      assert events[..n] == events;
    }
  }

  // ---------------------------------------------------------------- callbacks that throw

  predicate Fails(items: seq<Item>, e: Event) {
    e.Callback? && e.i < |items| && items[e.i].answer.Failed?
  }

  /** The first upload to fail does so without a result, and nobody catches what its callback
      throws. */
  ghost predicate FirstFailureIsFatal(items: seq<Item>, events: seq<Event>) {
    exists n :: 0 <= n < |events| && Fails(items, events[n]) && Fatal(items[events[n].i].answer)
                && forall m :: 0 <= m < n ==> !Fails(items, events[m])
  }

  ghost predicate SomeFailed(items: seq<Item>, events: seq<Event>) {
    exists n :: 0 <= n < |events| && Fails(items, events[n])
  }

  lemma StepFails(items: seq<Item>, s: State, e: Event)
    requires |s.out| == |items| && s.submitted <= |items| && DataUris(items)
    requires Enabled(items, s, e) && Invariant(items, s)
    ensures Step(items, s, e).err <==> s.err || Fails(items, e)
    ensures Step(items, s, e).lost <==> !s.err && Fails(items, e) && Fatal(items[e.i].answer)
  {
    if e.Callback? && !s.err {
      assert s.out[e.i].None?;
    }
  }

  lemma FirstFailureGrows(items: seq<Item>, before: seq<Event>, e: Event)
    ensures SomeFailed(items, before + [e]) <==> SomeFailed(items, before) || Fails(items, e)
    ensures FirstFailureIsFatal(items, before + [e]) <==>
            || FirstFailureIsFatal(items, before)
            || (!SomeFailed(items, before) && Fails(items, e) && Fatal(items[e.i].answer))
  {
    var events := before + [e];
    assert forall m :: 0 <= m < |before| ==> before[m] == events[m];
    assert events[|before|] == e;
  }

  /** Exactly when the process ends before the promise has settled for its caller. */
  lemma {:induction false} LostIff(items: seq<Item>, events: seq<Event>)
    requires Legal(items, events) && DataUris(items)
    ensures After(items, events).err <==> SomeFailed(items, events)
    ensures After(items, events).lost <==> FirstFailureIsFatal(items, events)
  {
    if events != [] {
      var before, e := events[..|events| - 1], events[|events| - 1];
      LostIff(items, before);
      InvariantKept(items, before);
      StepFails(items, After(items, before), e);
      FirstFailureGrows(items, before, e);
      assert before + [e] == events;
    }
  }

  // ---------------------------------------------------------------- the callbacks

  /** The closure variables of one call. */
  class Join {
    const items: seq<Item>
    var out: array<Option<Uploaded>>
    var err: bool
    var submitted: nat
    var stopped: bool
    var answered: set<nat>
    var settled: Option<Outcome>
    var lost: bool

    ghost predicate Valid()
      reads this, out
    {
      out.Length == |items| && submitted <= |items|
    }

    function Value(): State
      reads this, out
    {
      State(out[..], err, submitted, stopped, answered, settled, lost)
    }

    constructor (items: seq<Item>)
      ensures Valid() && fresh(out) && this.items == items && Value() == Start(items)
    {
      this.items := items;
      out := new Option<Uploaded>[|items|](i => None);
      err, submitted, stopped, answered, lost := false, 0, false, {}, false;
      settled := if |items| == 0 then Some(Ok([])) else None;
      new;
      assert out[..] == Start(items).out;
    }

    method SettleOnce(o: Outcome)
      modifies this`settled
      ensures settled == if old(settled).None? then Some(o) else old(settled)
    {
      if settled.None? {
        settled := Some(o);
      }
    }

    method SubmitNext()
      requires Valid() && Enabled(items, Value(), Submit)
      modifies this
      ensures Valid() && out == old(out) && Value() == Step(items, old(Value()), Submit)
    {
      if err {
        stopped := true;
        SettleOnce(Err(FailedUpload));
      } else if items[submitted].mimetype.None? {
        stopped := true;
        SettleOnce(Err(NOT_A_DATA_URI));
      } else {
        submitted := submitted + 1;
      }
    }

    method WriteAndCheck(i: nat, url: Val)
      requires Valid() && i < |items|
      modifies this`settled, out
      ensures Valid() && out == old(out) && Value() == Write(old(Value()), i, url, MimeOf(items[i]))
    {
      out[i] := Some(Uploaded(url, MimeOf(items[i]), i));
      var every := true;
      var found: seq<Uploaded> := [];
      for k := 0 to out.Length
        invariant every <==> forall j :: 0 <= j < k ==> out[j].Some?
        invariant every ==> |found| == k && forall j :: 0 <= j < k ==> found[j] == out[j].value
      {
        if out[k].None? {
          every := false;
        } else if every {
          found := found + [out[k].value];
        }
      }
      if every {
        assert found == Defined(out[..]);
        SettleOnce(Ok(found));
      }
    }

    method OnUpload(i: nat)
      requires Valid() && Enabled(items, Value(), Callback(i))
      modifies this, out
      ensures Valid() && out == old(out) && Value() == Step(items, old(Value()), Callback(i))
    {
      answered := answered + {i};
      match items[i].answer {
        case Succeeded(url) => WriteAndCheck(i, url);
        case Failed(url, caught) =>
          var first := settled.None?;
          err := true;
          SettleOnce(Err(FailedUpload));
          if url.Some? {
            WriteAndCheck(i, url.value);
          } else {
            lost := !caught && first;
          }
      }
    }
  }

  /** One call from its submissions to its last callback. */
  method Handle(items: seq<Item>, events: seq<Event>) returns (outcome: Option<Outcome>, lost: bool)
    requires Legal(items, events)
    ensures outcome == After(items, events).settled && lost == After(items, events).lost
  {
    var join := new Join(items);
    for n := 0 to |events|
      invariant fresh(join) && fresh(join.out) && join.Valid() && join.items == items
      invariant Legal(items, events[..n]) && join.Value() == After(items, events[..n])
    {
      SettledStays(items, events, n + 1);
      assert events[..n + 1][..n] == events[..n];
      if events[n].Submit? {
        join.SubmitNext();
      } else {
        join.OnUpload(events[n].i);
      }
    }
    assert events[..|events|] == events;
    return join.settled, join.lost;
  }
}
