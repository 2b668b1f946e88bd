/** Every state that any sequence of requests can reach, failing ones included. */
module Reachability {
  import opened Values
  import opened Vocabulary
  import opened SqlTemplate
  import opened Execution
  import opened Database
  import opened Store
  import opened Schema
  import opened Statements
  import opened Invariants
  import opened Templates
  import opened Builds
  import opened Transactions
  import opened Closing
  import opened Listings
  import opened GeneralPipe
  import opened Requests

  // ---------------------------------------------------------------- one request

  lemma CreateListingKeeps(env: Env, input: Input, t: Tables)
    requires Defined(TemplateOf(CreateListingAction)) && Usable(input) && Inv(t)
    ensures var t' := StoreOf(TemplateOf(CreateListingAction), input, EngineOf(env), env.faults, t).0;
            Inv(t') && Later(t, t')
  {
    var t' := StoreOf(CreateListingTemplate(), input, EngineOf(env), env.faults, t).0;
    StoreCommits(env, CreateListingTemplate(), input, t);
    LaterReflexive(t);
    if t' != t {
      var l := CreateListingCommits(env, input, t, t');
    }
  }

  lemma ModifyListingKeeps(env: Env, input: Input, t: Tables)
    requires Defined(TemplateOf(ModifyListingAction)) && Usable(input) && Inv(t)
    ensures var t' := StoreOf(TemplateOf(ModifyListingAction), input, EngineOf(env), env.faults, t).0;
            Inv(t') && Later(t, t')
  {
    var t' := StoreOf(ModifyListingTemplate(), input, EngineOf(env), env.faults, t).0;
    StoreCommits(env, ModifyListingTemplate(), input, t);
    LaterReflexive(t);
    if t' != t {
      ModifyListingCommits(env, input, t, t');
    }
  }

  lemma CloseAccountStoreKeeps(env: Env, input: Input, t: Tables)
    requires Defined(TemplateOf(CloseAccountAction)) && Inv(t)
    ensures var t' := StoreOf(TemplateOf(CloseAccountAction), input, EngineOf(env), env.faults, t).0;
            Inv(t') && Later(t, t')
  {
    CloseAccountKeeps(env, input, t);
  }

  lemma CloseListingStoreKeeps(env: Env, input: Input, t: Tables)
    requires Defined(TemplateOf(CloseListingAction)) && Inv(t)
    ensures var t' := StoreOf(TemplateOf(CloseListingAction), input, EngineOf(env), env.faults, t).0;
            Inv(t') && Later(t, t')
  {
    CloseListingKeeps(env, input, t);
  }

  lemma ClosingStoreKeeps(a: Action, env: Env, input: Input, t: Tables)
    requires Defined(TemplateOf(a)) && Inv(t) && (a.CloseAccountAction? || a.CloseListingAction?)
    ensures var t' := StoreOf(TemplateOf(a), input, EngineOf(env), env.faults, t).0; Inv(t') && Later(t, t')
  {
    if a.CloseAccountAction? {
      CloseAccountStoreKeeps(env, input, t);
    } else {
      CloseListingStoreKeeps(env, input, t);
    }
  }

  lemma ListingStoreKeeps(a: Action, env: Env, input: Input, t: Tables)
    requires Defined(TemplateOf(a)) && Usable(input) && Inv(t) && (a.CreateListingAction? || a.ModifyListingAction?)
    ensures var t' := StoreOf(TemplateOf(a), input, EngineOf(env), env.faults, t).0; Inv(t') && Later(t, t')
  {
    if a.CreateListingAction? {
      CreateListingKeeps(env, input, t);
    } else {
      ModifyListingKeeps(env, input, t);
    }
  }

  /** Whatever the action, its input, and the point at which the database fails: the
      invariant is kept and nothing changes that must not. */
  lemma StoreKeeps(a: Action, env: Env, input: Input, t: Tables)
    requires Defined(TemplateOf(a)) && Usable(input) && Inv(t)
    ensures var t' := StoreOf(TemplateOf(a), input, EngineOf(env), env.faults, t).0; Inv(t') && Later(t, t')
  {
    if a.CloseAccountAction? || a.CloseListingAction? {
      ClosingStoreKeeps(a, env, input, t);
    } else if a.CreateListingAction? || a.ModifyListingAction? {
      ListingStoreKeeps(a, env, input, t);
    } else {
      HarmlessStore(a, env, input, t);
    }
  }

  /** A request with everything around it. */
  datatype Visit = Visit(action: Action, req: HttpRequest, w: World, env: Env)

  /** Login has a pipeline of its own; it stores nothing. */
  ghost predicate Possible(v: Visit) {
    !v.action.LoginAction? && CanHappen(PipeOf(v.action, v.w.oracle), v.req, v.w)
  }

  ghost function Served(v: Visit, t: Tables): (Tables, Option<Sent>)
    requires Possible(v)
  {
    ShippedDefined(v.action);
    ExecuteOf(PipeOf(v.action, v.w.oracle), v.req, v.w, EngineOf(v.env), v.env.faults, t)
  }

  /** A request that changes the tables does so in its store stage. */
  lemma ChangesInStore(v: Visit, t: Tables) returns (input: Input)
    requires Possible(v)
    ensures Defined(TemplateOf(v.action))
    ensures Served(v, t).0 != t ==>
              && Prepare(PipeOf(v.action, v.w.oracle), v.req, v.w) == Ready(input) && Usable(input)
              && Served(v, t).0 == StoreOf(TemplateOf(v.action), input, EngineOf(v.env), v.env.faults, t).0
  {
    ShippedDefined(v.action);
    var stage := Prepare(PipeOf(v.action, v.w.oracle), v.req, v.w);
    input := if stage.Ready? then stage.input else map[];
    if stage.Ready? {
      ReadyIsUsable(v.action, v.req, v.w);
    }
  }

  lemma VisitKeeps(v: Visit, t: Tables)
    requires Possible(v) && Inv(t)
    ensures Inv(Served(v, t).0) && Later(t, Served(v, t).0)
  {
    LaterReflexive(t);
    var input := ChangesInStore(v, t);
    if Served(v, t).0 != t {
      StoreKeeps(v.action, v.env, input, t);
    }
  }

  // ---------------------------------------------------------------- all runs

  function Empty(categories: set<int>): Tables {
    Tables(Table(map[], 1), Table(map[], 1), Table(map[], 1), Table(map[], 1), Table(map[], 1),
           {}, map[], map[], map[], 1, categories)
  }

  ghost function Run(t: Tables, visits: seq<Visit>): Tables
    requires forall v :: v in visits ==> Possible(v)
  {
    if visits == [] then t else Served(visits[|visits| - 1], Run(t, visits[..|visits| - 1])).0
  }

  lemma {:induction false} RunKeeps(t: Tables, visits: seq<Visit>)
    requires (forall v :: v in visits ==> Possible(v)) && Inv(t)
    ensures Inv(Run(t, visits)) && Later(t, Run(t, visits))
  {
    LaterReflexive(t);
    if visits != [] {
      var before := Run(t, visits[..|visits| - 1]);
      RunKeeps(t, visits[..|visits| - 1]);
      VisitKeeps(visits[|visits| - 1], before);
      LaterTransitive(t, before, Run(t, visits));
    }
  }

  ghost predicate Reachable(categories: set<int>, visits: seq<Visit>, t: Tables) {
    (forall v :: v in visits ==> Possible(v)) && t == Run(Empty(categories), visits)
  }

  lemma EmptyInv(categories: set<int>)
    ensures Inv(Empty(categories))
  {
  }

  lemma ReachableInv(categories: set<int>, visits: seq<Visit>, t: Tables)
    requires Reachable(categories, visits, t)
    ensures Inv(t) && t.categories == categories
  {
    EmptyInv(categories);
    RunKeeps(Empty(categories), visits);
  }

  // ---------------------------------------------------------------- in every state

  ghost predicate MediaUpTo(t: Tables, l: int, k: nat) {
    forall i :: (l, i) in t.listingMedia <==> 0 <= i < k
  }

  /** The media indexes of listing l are 0..k-1 for some k. */
  ghost predicate MediaIndexed(t: Tables, l: int) {
    exists k: nat :: MediaUpTo(t, l, k)
  }

  lemma {:induction false} FirstAreFew(m: map<(int, int), MediaItem>, l: int, n: nat)
    requires forall i :: 0 <= i < n ==> (l, i) in m
    ensures n <= |m|
  {
    if n > 0 {
      FirstAreFew(m - {(l, n - 1)}, l, n - 1);
    }
  }

  lemma FirstGap(m: map<(int, int), MediaItem>, l: int, from: nat) returns (k: nat)
    requires forall i :: 0 <= i < from ==> (l, i) in m
    ensures (l, k as int) !in m && forall i :: 0 <= i < k ==> (l, i) in m
    decreases |m| - from
  {
    k := from;
    if (l, from as int) in m {
      FirstAreFew(m, l, from + 1);
      k := FirstGap(m, l, from + 1);
    }
  }

  lemma MediaIndexesAreAPrefix(t: Tables, l: int)
    requires MediaContiguous(t)
    ensures MediaIndexed(t, l)
  {
    var k := FirstGap(t.listingMedia, l, 0);
    assert MediaUpTo(t, l, k);
  }

  ghost predicate OpenConversationsAreAboutOpenListings(t: Tables) {
    forall c :: c in t.conversations.rows && t.conversations.rows[c].closed.None? ==>
      Open(t, t.conversations.rows[c].listing)
  }

  /** At most one conversation per receiver and listing, never the contributor's own. */
  ghost predicate ConversationsHaveTwoParties(t: Tables) {
    && (forall c, d :: c in t.conversations.rows && d in t.conversations.rows && c != d ==>
          !SamePair(t.conversations.rows[c], t.conversations.rows[d]))
    && (forall c :: c in t.conversations.rows ==>
          t.conversations.rows[c].listing in t.listings.rows
          && t.listings.rows[t.conversations.rows[c].listing].contributor != t.conversations.rows[c].receiver)
  }

  /** Messages come from the receiver or the contributor. */
  ghost predicate MessagesComeFromParties(t: Tables) {
    forall m :: m in t.messages.rows ==>
      var (c, sender) := (t.messages.rows[m].conversation, t.messages.rows[m].sender);
      c in t.conversations.rows && t.conversations.rows[c].listing in t.listings.rows
      && (sender == t.conversations.rows[c].receiver
          || sender == t.listings.rows[t.conversations.rows[c].listing].contributor)
  }

  ghost predicate AddressesAreTheContributors(t: Tables) {
    forall l :: l in t.listings.rows ==>
      t.listings.rows[l].address in t.addresses.rows
      && t.addresses.rows[t.listings.rows[l].address].user == t.listings.rows[l].contributor
  }

  /** What a listing refers to is there: its contributor, its category and its receiver. */
  ghost predicate ListingsReferToRows(t: Tables) {
    forall l :: l in t.listings.rows ==>
      && t.listings.rows[l].contributor in t.accounts.rows
      && (t.listings.rows[l].category.Some? ==> t.listings.rows[l].category.value in t.categories)
      && (t.listings.rows[l].receiver.Some? ==> t.listings.rows[l].receiver.value in t.accounts.rows)
  }

  /** So is what everything else refers to. */
  ghost predicate TheOthersReferToRows(t: Tables) {
    && (forall a :: a in t.addresses.rows ==> t.addresses.rows[a].user in t.accounts.rows)
    && (forall c :: c in t.conversations.rows ==> t.conversations.rows[c].receiver in t.accounts.rows)
    && (forall m :: m in t.messages.rows ==> t.messages.rows[m].sender in t.accounts.rows)
    && (forall p :: p in t.saved ==> p.0 in t.accounts.rows && p.1 in t.listings.rows)
    && (forall u :: u in t.userMedia ==> u in t.accounts.rows)
    && (forall l, i :: (l, i) in t.listingMedia ==> l in t.listings.rows)
  }

  /** No two accounts have the same email address, deleted ones included. */
  ghost predicate EmailsAreUnique(t: Tables) {
    forall a, b :: a in t.accounts.rows && b in t.accounts.rows && a != b ==>
      t.accounts.rows[a].email != t.accounts.rows[b].email
  }

  lemma RowsReferredTo(t: Tables)
    requires Inv(t)
    ensures ListingsReferToRows(t) && TheOthersReferToRows(t) && EmailsAreUnique(t)
  {
    assert forall l :: l in t.listings.rows ==> ListingViolation(t, t.listings.rows[l]).None?;
    assert forall c :: c in t.conversations.rows ==> ConversationOk(t, t.conversations.rows[c]);
    assert forall m :: m in t.messages.rows ==> MessageOk(t, t.messages.rows[m]);
  }

  lemma PartiesOf(t: Tables)
    requires Inv(t)
    ensures ConversationsHaveTwoParties(t) && MessagesComeFromParties(t) && AddressesAreTheContributors(t)
  {
    assert forall c :: c in t.conversations.rows ==> ConversationOk(t, t.conversations.rows[c]);
    assert forall m :: m in t.messages.rows ==> MessageOk(t, t.messages.rows[m]);
    assert forall l :: l in t.listings.rows ==> ListingViolation(t, t.listings.rows[l]).None?;
  }

  /** After any sequence of requests, failing ones included: open conversations are about open
      listings; conversations are unique and have two parties, from whom all messages come;
      addresses belong to contributors; what is referred to is there, categories included; no
      two accounts share an email address; and media indexes are 0..k-1. */
  lemma EveryReachableState(categories: set<int>, visits: seq<Visit>, t: Tables)
    requires Reachable(categories, visits, t)
    ensures OpenConversationsAreAboutOpenListings(t) && ConversationsHaveTwoParties(t) && MessagesComeFromParties(t)
    ensures AddressesAreTheContributors(t) && ListingsReferToRows(t) && TheOthersReferToRows(t) && EmailsAreUnique(t)
    ensures t.categories == categories
    ensures forall l :: MediaIndexed(t, l)
  {
    ReachableInv(categories, visits, t);
    PartiesOf(t);
    RowsReferredTo(t);
    forall l
      ensures MediaIndexed(t, l)
    {
      MediaIndexesAreAPrefix(t, l);
    }
  }

  // ---------------------------------------------------------------- from any state on

  /** What a closed listing and everything about it stays. */
  ghost predicate Frozen(t: Tables, t': Tables, l: int) {
    && Closed(t, l) && Closed(t', l)
    && t'.listings.rows[l] == t.listings.rows[l].(closed := t'.listings.rows[l].closed)
    && (forall i :: (l, i) in t'.listingMedia <==> (l, i) in t.listingMedia)
    && (forall i :: (l, i) in t.listingMedia ==> t'.listingMedia[(l, i)] == t.listingMedia[(l, i)])
    && (forall c :: About(t', c, l) ==> c in t.conversations.rows && t'.conversations.rows[c].closed.Some?)
    && (forall m :: m in t'.messages.rows && About(t', t'.messages.rows[m].conversation, l) ==> m in t.messages.rows)
  }

  lemma LaterFreezes(t: Tables, t': Tables, l: int)
    requires ConversationsFollow(t) && Closed(t, l) && Later(t, t')
    ensures Frozen(t, t', l)
  {
    forall c | About(t, c, l)
      ensures t.conversations.rows[c].closed.Some?
    {
      assert !Open(t, l);
    }
    assert Dormant(t, l);
    assert SameMedia(t, t', l);
  }

  /** Conversations keep their id and their parties, messages stay as they are, addresses and
      contributors never change. */
  ghost predicate HistoryKept(t: Tables, t': Tables) {
    && (forall c :: c in t.conversations.rows ==>
          c in t'.conversations.rows && SamePair(t.conversations.rows[c], t'.conversations.rows[c]))
    && (forall m :: m in t.messages.rows ==> m in t'.messages.rows && t'.messages.rows[m] == t.messages.rows[m])
    && (forall a :: a in t.addresses.rows ==> a in t'.addresses.rows && t'.addresses.rows[a] == t.addresses.rows[a])
    && (forall l :: l in t.listings.rows ==>
          l in t'.listings.rows && t'.listings.rows[l].contributor == t.listings.rows[l].contributor)
  }

  /** Once closed, a listing is never reopened and its content and media never change; no
      conversation about it is begun or reopened, and none receives a message.  And whatever
      is closed and reopened, conversations keep their id, their parties and their messages. */
  lemma EveryLaterState(categories: set<int>, visits: seq<Visit>, t: Tables, more: seq<Visit>, t': Tables)
    requires Reachable(categories, visits, t)
    requires (forall v :: v in more ==> Possible(v)) && t' == Run(t, more)
    ensures forall l :: Closed(t, l) ==> Frozen(t, t', l)
    ensures HistoryKept(t, t')
  {
    ReachableInv(categories, visits, t);
    RunKeeps(t, more);
    forall l | Closed(t, l)
      ensures Frozen(t, t', l)
    {
      LaterFreezes(t, t', l);
    }
  }
}
