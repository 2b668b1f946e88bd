/** When `build` succeeds on the shipped templates, and what their callables do. */
module Builds {
  import opened Values
  import opened Vocabulary
  import opened SqlTemplate
  import opened PlanShape
  import opened Store
  import opened Templates

  /** What the request templates and `Execute` make sure of: an address or a location is
      neither null nor undefined, and the media fields are lists of one positive length,
      with the indexes in order. */
  ghost predicate Usable(input: Input) {
    && (ADDRESS in input ==> !input[ADDRESS].Null? && !input[ADDRESS].Undef?)
    && (LOCATION in input ==> !input[LOCATION].Null? && !input[LOCATION].Undef?)
    && (URL in input ==> MediaFields(input, |MediaUrls(input)|))
    && (MIME_TYPE in input ==> URL in input)
  }

  function MediaUrls(input: Input): seq<Val> {
    if URL in input && input[URL].Arr? then input[URL].items else []
  }

  ghost predicate MediaFields(input: Input, n: nat) {
    && n > 0
    && URL in input && input[URL].Arr? && |input[URL].items| == n
    && MIME_TYPE in input && input[MIME_TYPE].Arr? && |input[MIME_TYPE].items| == n
    && MEDIA_INDEX in input && input[MEDIA_INDEX] == Arr(seq(n, i => Num(i)))
  }

  /** No condition, times function or callable of a query that runs throws. */
  ghost predicate CallablesReturn(t: Template, input: Input) {
    forall q :: q in t.dict ==> QueryReturns(t.dict[q], input)
  }

  ghost predicate QueryReturns(d: QueryDef, input: Input) {
    && Activation(d, input).Ok?
    && (Activation(d, input).value.Some? && d.values.Some? ==>
          forall c, names :: c in d.values.value && c.Callable? ==> c.f(input, names).Some?)
  }

  /** Before any query has run, callables do not return functions. */
  ghost predicate CallablesTame(t: Template, input: Input) {
    forall q, c :: q in t.dict && t.dict[q].values.Some? && c in t.dict[q].values.value && c.Callable? ==>
      !(c.f(input, []).Some? && c.f(input, []).value.Closure?)
  }

  lemma ListingSearchesReturn(a: Action, input: Input)
    requires ListingSearches(a)
    ensures CallablesReturn(TemplateOf(a), input) && CallablesTame(TemplateOf(a), input)
  {
  }

  lemma OtherSearchesReturn(a: Action, input: Input)
    requires Searches(a) && !ListingSearches(a)
    ensures CallablesReturn(TemplateOf(a), input) && CallablesTame(TemplateOf(a), input)
  {
  }

  lemma ListingViewsReturn(a: Action, input: Input)
    requires ListingViews(a)
    ensures CallablesReturn(TemplateOf(a), input) && CallablesTame(TemplateOf(a), input)
  {
  }

  lemma OtherViewsReturn(a: Action, input: Input)
    requires Views(a) && !ListingViews(a)
    ensures CallablesReturn(TemplateOf(a), input) && CallablesTame(TemplateOf(a), input)
  {
  }

  lemma AccountsReturn(a: Action, input: Input)
    requires OnAccounts(a) && !a.CreateAccountAction?
    ensures CallablesReturn(TemplateOf(a), input) && CallablesTame(TemplateOf(a), input)
  {
  }

  lemma ConversationsReturn(a: Action, input: Input)
    requires a.CreateConversationAction? || a.CloseConversationAction?
    ensures CallablesReturn(TemplateOf(a), input) && CallablesTame(TemplateOf(a), input)
  {
  }

  lemma CloseListingReturns(input: Input)
    ensures CallablesReturn(CloseListingTemplate(), input) && CallablesTame(CloseListingTemplate(), input)
  {
  }

  lemma CreateMessageReturns(input: Input)
    ensures CallablesReturn(CreateMessageTemplate(), input) && CallablesTame(CreateMessageTemplate(), input)
  {
  }

  lemma CreateAccountReturns(input: Input)
    requires Usable(input)
    ensures CallablesReturn(CreateAccountTemplate(), input) && CallablesTame(CreateAccountTemplate(), input)
  {
  }

  lemma CreateListingReturns(input: Input)
    requires Usable(input)
    ensures CallablesReturn(CreateListingTemplate(), input)
  {
  }

  lemma ModifyListingReturns(input: Input)
    requires Usable(input)
    ensures CallablesReturn(ModifyListingTemplate(), input)
  {
  }

  lemma CreateListingTame(input: Input)
    ensures CallablesTame(CreateListingTemplate(), input)
  {
  }

  lemma ModifyListingTame(input: Input)
    ensures CallablesTame(ModifyListingTemplate(), input)
  {
  }

  lemma ActionReturns(a: Action, input: Input)
    requires Usable(input)
    ensures CallablesReturn(TemplateOf(a), input) && CallablesTame(TemplateOf(a), input)
  {
    if ListingSearches(a) {
      ListingSearchesReturn(a, input);
    } else if Searches(a) {
      OtherSearchesReturn(a, input);
    } else if ListingViews(a) {
      ListingViewsReturn(a, input);
    } else if Views(a) {
      OtherViewsReturn(a, input);
    } else if a.CreateAccountAction? {
      CreateAccountReturns(input);
    } else if OnAccounts(a) {
      AccountsReturn(a, input);
    } else if a.CreateListingAction? {
      CreateListingReturns(input);
      CreateListingTame(input);
    } else if a.ModifyListingAction? {
      ModifyListingReturns(input);
      ModifyListingTame(input);
    } else if a.CloseListingAction? {
      CloseListingReturns(input);
    } else if a.CreateMessageAction? {
      CreateMessageReturns(input);
    } else {
      ConversationsReturn(a, input);
    }
  }

  // ---------------------------------------------------------------- the general criterion

  /** A query that is named once has as many earlier copies as its own position gives it. */
  lemma {:induction false} NamedOnce(t: Template, input: Input, m: nat, k: nat)
    requires Defined(t) && m < k <= |t.order|
    requires forall l :: 0 <= l < |t.order| && l != m ==> t.order[l] != t.order[m]
    ensures CopiesBefore(t, input, k, t.order[m]) == Copies(t, input, m)
  {
    if k > m + 1 {
      NamedOnce(t, input, m, k - 1);
    } else {
      NotBefore(t, input, m, t.order[m]);
    }
  }

  lemma {:induction false} NotBefore(t: Template, input: Input, k: nat, q: QueryName)
    requires Defined(t) && k <= |t.order| && forall l :: 0 <= l < k ==> t.order[l] != q
    ensures CopiesBefore(t, input, k, q) == 0
  {
    if k > 0 {
      NotBefore(t, input, k - 1, q);
    }
  }

  /** When all references are to one unrepeated query that runs whenever they do, and no
      callable throws, `build` succeeds, or throws EmptyQueryError for want of queries. */
  lemma SoundBuilds(t: Template, input: Input, m: nat)
    requires Sound(t, m) && CallablesReturn(t, input) && Defined(t)
    ensures PlanOf(t, input).Ok? || PlanOf(t, input) == Err(EmptyQuery)
  {
    forall k | 0 <= k < |t.order|
      ensures Buildable(t, input, k)
    {
      SoundBuildable(t, input, m, k);
    }
    BuildSucceedsIff(t, input);
  }

  lemma SoundBuildable(t: Template, input: Input, m: nat, k: nat)
    requires Sound(t, m) && CallablesReturn(t, input) && Defined(t) && k < |t.order|
    ensures Buildable(t, input, k)
  {
    var d := t.dict[t.order[k]];
    assert QueryReturns(d, input);
    if Activation(d, input).value.Some? && d.values.Some? {
      forall c | c in d.values.value
        ensures ValueBuildable(t, input, k, c)
      {
        if c.FromQuery? {
          assert m < k;
          NamedOnce(t, input, m, k);
          assert QueryReturns(t.dict[t.order[m]], input);
        }
      }
    }
  }

  /** Every shipped template builds from every input that its request template and `Execute`
      can hand to it; the only error left is EmptyQueryError. */
  lemma ShippedTemplatesBuild(a: Action, input: Input)
    requires Usable(input)
    ensures Defined(TemplateOf(a))
    ensures PlanOf(TemplateOf(a), input).Ok? || PlanOf(TemplateOf(a), input) == Err(EmptyQuery)
    ensures PlanOf(TemplateOf(a), input) == Err(EmptyQuery) ==> a.ModifyAccountAction? || a.ModifyListingAction?
  {
    TemplateSound(a);
    ActionReturns(a, input);
    BuildsDefined(TemplateOf(a), Target(a));
    SoundBuilds(TemplateOf(a), input, Target(a));
    if PlanOf(TemplateOf(a), input) == Err(EmptyQuery) {
      EmptyOnlyIfAsked(a, input);
    }
  }

  lemma ShippedDefined(a: Action)
    ensures Defined(TemplateOf(a))
  {
    TemplateSound(a);
    BuildsDefined(TemplateOf(a), Target(a));
  }

  lemma BuildsDefined(t: Template, m: nat)
    requires Sound(t, m)
    ensures Defined(t)
  {
    forall q | q in t.order
      ensures q in t.dict
    {
      var k :| 0 <= k < |t.order| && t.order[k] == q;
    }
  }

  lemma EmptyOnlyIfAsked(a: Action, input: Input)
    requires Defined(TemplateOf(a)) && PlanOf(TemplateOf(a), input) == Err(EmptyQuery)
    ensures a.ModifyAccountAction? || a.ModifyListingAction?
  {
    EmptyOnlyIfFlagged(TemplateOf(a), input);
    if Searches(a) || Views(a) {
      ReadsDoNotAsk(a);
    } else {
      WritesDoNotAsk(a);
    }
  }

  lemma EmptyOnlyIfFlagged(t: Template, input: Input)
    requires Defined(t) && PlanOf(t, input) == Err(EmptyQuery)
    ensures t.errorOnEmptyTransaction
  {
    BuildSucceedsIff(t, input);
  }

  lemma ListingSearchesDoNotAsk()
    ensures !TemplateOf(SearchAccountListingAction).errorOnEmptyTransaction
    ensures !TemplateOf(SearchSavedListingAction).errorOnEmptyTransaction
    ensures !TemplateOf(SearchListingAction).errorOnEmptyTransaction
  {
  }

  lemma OtherSearchesDoNotAsk()
    ensures !TemplateOf(SearchCategoryAction).errorOnEmptyTransaction
    ensures !TemplateOf(SearchAddressAction).errorOnEmptyTransaction
    ensures !TemplateOf(SearchConversationAction).errorOnEmptyTransaction
  {
  }

  lemma ListingViewsDoNotAsk()
    ensures !TemplateOf(ViewAccountListingAction).errorOnEmptyTransaction
    ensures !TemplateOf(ViewListingAction).errorOnEmptyTransaction
  {
  }

  lemma OtherViewsDoNotAsk()
    ensures !TemplateOf(ViewAccountAction).errorOnEmptyTransaction
    ensures !TemplateOf(ViewConversationAction).errorOnEmptyTransaction
  {
  }

  lemma ReadsDoNotAsk(a: Action)
    requires Searches(a) || Views(a)
    ensures !TemplateOf(a).errorOnEmptyTransaction
  {
    match a {
      case SearchCategoryAction => OtherSearchesDoNotAsk();
      case SearchAddressAction => OtherSearchesDoNotAsk();
      case SearchConversationAction => OtherSearchesDoNotAsk();
      case SearchAccountListingAction => ListingSearchesDoNotAsk();
      case SearchSavedListingAction => ListingSearchesDoNotAsk();
      case SearchListingAction => ListingSearchesDoNotAsk();
      case ViewAccountListingAction => ListingViewsDoNotAsk();
      case ViewListingAction => ListingViewsDoNotAsk();
      case ViewAccountAction => OtherViewsDoNotAsk();
      case ViewConversationAction => OtherViewsDoNotAsk();
    }
  }

  lemma WritesDoNotAsk(a: Action)
    requires !Searches(a) && !Views(a)
    ensures TemplateOf(a).errorOnEmptyTransaction ==> a.ModifyAccountAction? || a.ModifyListingAction?
  {
  }

  /** The hard-coded `res[0]` and `Store`'s one-query path are harmless in every shipped
      template: a plan of one query holds no function. */
  lemma ShippedOneQueryPlansArePlain(a: Action, input: Input)
    requires Usable(input) && Defined(TemplateOf(a))
    ensures DefersOnlyLater(TemplateOf(a), input)
  {
    ActionReturns(a, input);
    TameDefersLater(TemplateOf(a), input);
  }

  lemma TameDefersLater(t: Template, input: Input)
    requires Defined(t) && CallablesTame(t, input)
    ensures DefersOnlyLater(t, input)
  {
    forall k, c | 0 <= k < |t.order| && t.dict[t.order[k]].values.Some? && c in t.dict[t.order[k]].values.value
                  && c.Callable?
      ensures !(c.f(input, []).Some? && c.f(input, []).value.Closure?)
    {
      assert t.order[k] in t.dict;
    }
  }
}
