/** The `res[0]` of create-listing and modify-listing: the one index that the templates
    themselves hard-code. */
module HardCodedIndex {
  import opened Values
  import opened Vocabulary
  import opened SqlTemplate
  import opened PlanShape
  import opened Execution
  import opened Store
  import opened Templates

  /** The only functions that callables return read the first result, and only when the
      query that is first in the order runs. */
  ghost predicate DefersToFirst(t: Template, first: QueryName, input: Input) {
    && |t.order| > 0 && t.order[0] == first && (forall k :: 0 < k < |t.order| ==> t.order[k] != first)
    && forall q :: q in t.dict ==> QueryDefersToFirst(t.dict[q], first, input)
  }

  ghost predicate QueryDefersToFirst(d: QueryDef, first: QueryName, input: Input) {
    d.values.Some? ==> forall c, names :: c in d.values.value && ReturnsFunction(c, input, names) ==>
      c.f(input, names).value.f == FirstAddress && first in names
  }

  ghost predicate ReturnsFunction(c: ValueCons, input: Input, names: seq<QueryName>) {
    c.Callable? && c.f(input, names).Some? && c.f(input, names).value.Closure?
  }

  lemma CreateListingDefers(input: Input)
    ensures DefersToFirst(CreateListingTemplate(), CREATE_ADDRESS, input)
  {
  }

  lemma ModifyListingDefers(input: Input)
    ensures DefersToFirst(ModifyListingTemplate(), CREATE_ADDRESS, input)
  {
  }

  /** The names before a place can only have the first query among them if it stands first. */
  lemma FirstStandsFirst(t: Template, first: QueryName, input: Input, m: nat)
    requires Defined(t) && PlanOf(t, input).Ok? && DefersToFirst(t, first, input)
    requires m <= |PlanOf(t, input).value.names| && first in PlanOf(t, input).value.names[..m]
    ensures m > 0 && PlanOf(t, input).value.names[0] == first
  {
    PlanLength(t, input);
    var at :| 0 <= at < m && PlanOf(t, input).value.names[at] == first;
    var k, i := Locate(t, input, |t.order|, at);
    ParameterMatrix(t, input, k, i);
    assert k == 0;
    ParameterMatrix(t, input, 0, 0);
  }

  /** The hard-coded index of create-listing and modify-listing is right: a parameter that is
      left to the executor stands after create_address, which is at place 0, and yields the
      id that it returned. */
  lemma HardCodedIndexIsRight(t: Template, input: Input, at: nat, j: nat)
    requires t == CreateListingTemplate() || t == ModifyListingTemplate()
    requires Defined(t) && PlanOf(t, input).Ok? && at < |PlanOf(t, input).value.queries|
    requires j < |Params(PlanOf(t, input).value.queries[at])| && Params(PlanOf(t, input).value.queries[at])[j].Deferred?
    ensures at > 0 && PlanOf(t, input).value.names[0] == CREATE_ADDRESS
    ensures forall results: seq<Rows> :: |results| == at ==>
              Evaluate(Params(PlanOf(t, input).value.queries[at])[j], results) == FirstCell(results[0], COL_ADDRESS_ID)
  {
    if t == CreateListingTemplate() {
      CreateListingDefers(input);
    } else {
      ModifyListingDefers(input);
    }
    DeferredReadsFirst(t, input, at, j);
  }

  lemma DeferredReadsFirst(t: Template, input: Input, at: nat, j: nat)
    requires Defined(t) && PlanOf(t, input).Ok? && at < |PlanOf(t, input).value.queries|
    requires DefersToFirst(t, CREATE_ADDRESS, input)
    requires j < |Params(PlanOf(t, input).value.queries[at])| && Params(PlanOf(t, input).value.queries[at])[j].Deferred?
    ensures at > 0 && PlanOf(t, input).value.names[0] == CREATE_ADDRESS
    ensures forall results: seq<Rows> :: |results| == at ==>
              Evaluate(Params(PlanOf(t, input).value.queries[at])[j], results) == FirstCell(results[0], COL_ADDRESS_ID)
  {
    PlanLength(t, input);
    var plan := PlanOf(t, input).value;
    var k, i := Locate(t, input, |t.order|, at);
    ParameterMatrix(t, input, k, i);
    var c := t.dict[t.order[k]].values.value[j];
    assert CompiledTo(t, input, k, i, plan.names, c, Params(plan.queries[at])[j]);
    assert c in t.dict[t.order[k]].values.value && t.order[k] in t.dict;
    FirstStandsFirst(t, CREATE_ADDRESS, input, Offset(t, input, k));
  }
}
