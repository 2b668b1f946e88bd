/** classes/requesttemplate.js: `process`. */
module Request {
  import opened Values

  /** A condition and a sanitiser return None when they throw. */
  datatype Param = Param(
    inName: Key,
    outName: Key,
    required: bool,
    conditions: seq<(Val, Input) -> Option<bool>>,
    sanitise: Val -> Option<Val>)

  datatype Verdict = Holds | Fails | Throws

  /** `conditions.every(...)`: the first condition that fails or throws decides. */
  function Verify(conditions: seq<(Val, Input) -> Option<bool>>, v: Val, input: Input, k: nat): Verdict
    requires k <= |conditions|
  {
    if k == 0 then Holds else
      var before := Verify(conditions, v, input, k - 1);
      if !before.Holds? then before
      else
        match conditions[k - 1](v, input)
        case None => Throws
        case Some(b) => if b then Holds else Fails
  }

  /** What one parameter contributes: nothing, a value, or an error. */
  function Processed(p: Param, input: Input): Result<Option<Val>> {
    if p.inName !in input then
      if p.required then Err(AbsentArgument(p.inName)) else Ok(None)
    else
      match Verify(p.conditions, input[p.inName], input, |p.conditions|)
      case Throws => Err(UnprocessableArgument(p.inName))
      case Fails => Err(InvalidArgument(p.inName))
      case Holds =>
        var clean := p.sanitise(input[p.inName]);
        if clean.None? then Err(DirtyArgument(p.inName)) else Ok(clean)
  }

  function ProcessUpTo(params: seq<Param>, input: Input, k: nat): Result<Input>
    requires k <= |params|
  {
    if k == 0 then Ok(map[]) else
      var before := ProcessUpTo(params, input, k - 1);
      if before.Err? then before
      else
        match Processed(params[k - 1], input)
        case Err(e) => Err(e)
        case Ok(None) => before
        case Ok(Some(v)) => Ok(before.value[params[k - 1].outName := v])
  }

  method Check(p: Param, input: Input) returns (r: Result<Option<Val>>)
    ensures r == Processed(p, input)
  {
    if p.inName !in input {
      return if p.required then Err(AbsentArgument(p.inName)) else Ok(None);
    }
    var v := input[p.inName];
    for k := 0 to |p.conditions|
      invariant Verify(p.conditions, v, input, k).Holds?
    {
      var b := p.conditions[k](v, input);
      if b.None? || !b.value {
        VerdictStays(p.conditions, v, input, k + 1, |p.conditions|);
        return if b.None? then Err(UnprocessableArgument(p.inName)) else Err(InvalidArgument(p.inName));
      }
    }
    var clean := p.sanitise(v);
    return if clean.None? then Err(DirtyArgument(p.inName)) else Ok(clean);
  }

  lemma {:induction false} VerdictStays(conditions: seq<(Val, Input) -> Option<bool>>, v: Val, input: Input, k: nat,
                                        n: nat)
    requires k <= n <= |conditions| && !Verify(conditions, v, input, k).Holds?
    ensures Verify(conditions, v, input, n) == Verify(conditions, v, input, k)
    decreases n - k
  {
    if k < n {
      VerdictStays(conditions, v, input, k + 1, n);
    }
  }

  lemma {:induction false} FaultStays(params: seq<Param>, input: Input, k: nat, n: nat)
    requires k <= n <= |params| && ProcessUpTo(params, input, k).Err?
    ensures ProcessUpTo(params, input, n) == ProcessUpTo(params, input, k)
    decreases n - k
  {
    if k < n {
      FaultStays(params, input, k + 1, n);
    }
  }

  /** `process`: the parameters in order, stopping at the first fault. */
  method Process(params: seq<Param>, input: Input) returns (r: Result<Input>)
    ensures r == ProcessUpTo(params, input, |params|)
  {
    var output: Input := map[];
    for k := 0 to |params|
      invariant ProcessUpTo(params, input, k) == Ok(output)
    {
      var one := Check(params[k], input);
      match one {
        case Err(e) =>
          FaultStays(params, input, k + 1, |params|);
          return Err(e);
        case Ok(None) =>
        case Ok(Some(v)) => output := output[params[k].outName := v];
      }
    }
    return Ok(output);
  }

  // ---------------------------------------------------------------- what comes out

  ghost predicate DistinctNames(params: seq<Param>) {
    forall i, j :: 0 <= i < j < |params| ==> params[i].outName != params[j].outName
  }

  /** `process` succeeds exactly if no parameter is at fault, and fails with the first fault. */
  lemma {:induction false} ProcessSucceedsIff(params: seq<Param>, input: Input, k: nat)
    requires k <= |params|
    ensures ProcessUpTo(params, input, k).Ok? <==> forall i :: 0 <= i < k ==> Processed(params[i], input).Ok?
    ensures ProcessUpTo(params, input, k).Err? ==>
              exists i :: 0 <= i < k && Processed(params[i], input).Err?
                          && ProcessUpTo(params, input, k).error == Processed(params[i], input).error
                          && forall h :: 0 <= h < i ==> Processed(params[h], input).Ok?
  {
    if k > 0 {
      ProcessSucceedsIff(params, input, k - 1);
    }
  }

  /** The output has the declared fields that were sent, verified and sanitised, and no other. */
  lemma {:induction false} OutputIsDeclared(params: seq<Param>, input: Input, k: nat)
    requires k <= |params| && ProcessUpTo(params, input, k).Ok?
    ensures var output := ProcessUpTo(params, input, k).value;
            forall key :: key in output ==>
              exists i :: 0 <= i < k && params[i].outName == key && Processed(params[i], input) == Ok(Some(output[key]))
    ensures var output := ProcessUpTo(params, input, k).value;
            DistinctNames(params) ==> forall i :: 0 <= i < k && params[i].inName in input ==>
              params[i].outName in output && Processed(params[i], input) == Ok(Some(output[params[i].outName]))
  {
    if k > 0 {
      OutputIsDeclared(params, input, k - 1);
      var before, output := ProcessUpTo(params, input, k - 1).value, ProcessUpTo(params, input, k).value;
      forall key | key in output
        ensures exists i :: 0 <= i < k && params[i].outName == key
                    && Processed(params[i], input) == Ok(Some(output[key]))
      {
        if Processed(params[k - 1], input).value.Some? && key == params[k - 1].outName {
          assert Processed(params[k - 1], input) == Ok(Some(output[key]));
        } else {
          var i :| 0 <= i < k - 1 && params[i].outName == key && Processed(params[i], input) == Ok(Some(before[key]));
        }
      }
    }
  }

  // ---------------------------------------------------------------- in terms of what was sent

  /** The parameter has nothing to object to: it was sent, meets every condition and can be
      sanitised, or it was not sent and need not be. */
  ghost predicate Passes(p: Param, sent: Input) {
    if p.inName in sent then
      && (forall c :: c in p.conditions ==> c(sent[p.inName], sent) == Some(true))
      && p.sanitise(sent[p.inName]).Some?
    else !p.required
  }

  /** What comes out under the name of the parameter: the sanitised value that was sent. */
  ghost predicate Yields(p: Param, sent: Input, output: Input) {
    if p.inName in sent then p.outName in output && Some(output[p.outName]) == p.sanitise(sent[p.inName])
    else p.outName !in output
  }

  /** The first condition that does not hold: at the end it is known if it threw. */
  ghost predicate FirstNot(conditions: seq<(Val, Input) -> Option<bool>>, v: Val, sent: Input, n: nat) {
    && n < |conditions| && conditions[n](v, sent) != Some(true)
    && forall m :: 0 <= m < n ==> conditions[m](v, sent) == Some(true)
  }

  /** Why a parameter is refused. */
  ghost predicate RefusedFor(p: Param, sent: Input, e: Error) {
    if p.inName !in sent then p.required && e == AbsentArgument(p.inName)
    else
      var v := sent[p.inName];
      || (exists n: nat :: FirstNot(p.conditions, v, sent, n)
                           && e == if p.conditions[n](v, sent).None? then UnprocessableArgument(p.inName)
                                   else InvalidArgument(p.inName))
      || ((forall c :: c in p.conditions ==> c(v, sent) == Some(true))
          && p.sanitise(v).None? && e == DirtyArgument(p.inName))
  }

  lemma {:induction false} VerifyExactly(conditions: seq<(Val, Input) -> Option<bool>>, v: Val, sent: Input, k: nat)
    requires k <= |conditions|
    ensures Verify(conditions, v, sent, k).Holds? <==> forall m :: 0 <= m < k ==> conditions[m](v, sent) == Some(true)
    ensures !Verify(conditions, v, sent, k).Holds? ==>
              exists n: nat :: n < k && FirstNot(conditions, v, sent, n)
                               && (Verify(conditions, v, sent, k).Throws? <==> conditions[n](v, sent).None?)
  {
    if k > 0 {
      VerifyExactly(conditions, v, sent, k - 1);
      if Verify(conditions, v, sent, k - 1).Holds? && !Verify(conditions, v, sent, k).Holds? {
        assert FirstNot(conditions, v, sent, k - 1);
      }
    }
  }

  lemma ProcessedExactly(p: Param, sent: Input)
    ensures Processed(p, sent).Ok? <==> Passes(p, sent)
    ensures Processed(p, sent).Err? ==> RefusedFor(p, sent, Processed(p, sent).error)
    ensures Processed(p, sent).Ok? ==>
              Processed(p, sent).value == if p.inName in sent then p.sanitise(sent[p.inName]) else None
  {
    if p.inName in sent {
      var v := sent[p.inName];
      VerifyExactly(p.conditions, v, sent, |p.conditions|);
      if Verify(p.conditions, v, sent, |p.conditions|).Holds? {
        forall c | c in p.conditions
          ensures c(v, sent) == Some(true)
        {
          var m :| 0 <= m < |p.conditions| && p.conditions[m] == c;
        }
      }
    }
  }

  lemma {:induction false} OutputYields(params: seq<Param>, sent: Input, k: nat)
    requires k <= |params| && ProcessUpTo(params, sent, k).Ok? && DistinctNames(params)
    ensures forall i :: 0 <= i < k ==> Yields(params[i], sent, ProcessUpTo(params, sent, k).value)
    ensures forall key :: key in ProcessUpTo(params, sent, k).value ==>
              exists i :: 0 <= i < k && params[i].outName == key
  {
    if k > 0 {
      OutputYields(params, sent, k - 1);
      ProcessedExactly(params[k - 1], sent);
    }
  }

  /** `process`, on what was sent: it succeeds exactly if every parameter passes; then the
      output is what the parameters yield and nothing else; otherwise it fails for the reason
      of the first one that does not pass. */
  lemma ProcessExactly(params: seq<Param>, sent: Input)
    requires DistinctNames(params)
    ensures var r := ProcessUpTo(params, sent, |params|);
            && (r.Ok? <==> forall p :: p in params ==> Passes(p, sent))
            && (r.Ok? ==> forall p :: p in params ==> Yields(p, sent, r.value))
            && (r.Ok? ==> forall key :: key in r.value ==> exists p :: p in params && p.outName == key)
            && (r.Err? ==> exists i :: 0 <= i < |params| && RefusedFor(params[i], sent, r.error)
                                       && forall h :: 0 <= h < i ==> Passes(params[h], sent))
  {
    var r := ProcessUpTo(params, sent, |params|);
    ProcessSucceedsIff(params, sent, |params|);
    forall i | 0 <= i < |params|
      ensures Processed(params[i], sent).Ok? <==> Passes(params[i], sent)
      ensures Processed(params[i], sent).Err? ==> RefusedFor(params[i], sent, Processed(params[i], sent).error)
    {
      ProcessedExactly(params[i], sent);
    }
    if r.Ok? {
      OutputYields(params, sent, |params|);
      forall p | p in params
        ensures Passes(p, sent) && Yields(p, sent, r.value)
      {
        var i :| 0 <= i < |params| && params[i] == p;
      }
    }
  }
}
