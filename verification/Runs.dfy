/** What whole runs of statements keep. */
module Runs {
  import opened Values
  import opened Vocabulary
  import opened SqlTemplate
  import opened Execution
  import opened Schema
  import opened Statements
  import opened Invariants

  // ---------------------------------------------------------------- single steps

  lemma ListingUpdateFollows(t: Tables, user: IntParam, listing: IntParam, change: ListingChange)
    requires ConversationsFollow(t) && !change.SetClosed?
    ensures var effect := UpdateListingRow(t, user, listing, change); effect.Done? ==> ConversationsFollow(effect.db)
  {
  }

  lemma PersonalExecFollows(env: Env, t: Tables, sql: Sql, ps: seq<Val>)
    requires Personal(sql)
    ensures var effect := Exec(env, t, sql, ps); effect.Done? ==> SameListings(t, effect.db)
  {
    if OnAccountRow(sql) {
      AccountExecFollows(env, t, sql, ps);
    }
  }

  /** Listings, their media and conversations are the same. */
  predicate SameListings(t: Tables, t': Tables) {
    t'.listings == t.listings && t'.conversations == t.conversations && t'.listingMedia == t.listingMedia
  }

  predicate OnAccountRow(sql: Sql) {
    sql.DeleteAccount? || sql.ChangeName? || sql.ChangeEmail? || sql.ChangePassHash? || sql.ChangeDob?
  }

  lemma AccountExecFollows(env: Env, t: Tables, sql: Sql, ps: seq<Val>)
    requires OnAccountRow(sql)
    ensures var effect := Exec(env, t, sql, ps); effect.Done? ==> SameListings(t, effect.db)
  {
  }

  /** Only closing a listing can leave an open conversation behind. */
  lemma ExecFollows(env: Env, t: Tables, sql: Sql, ps: seq<Val>)
    requires Base(t) && ConversationsFollow(t) && !sql.CloseListing? && !sql.CloseAccountListings?
    ensures var effect := Exec(env, t, sql, ps); effect.Done? ==> ConversationsFollow(effect.db)
  {
    if Personal(sql) {
      PersonalExecFollows(env, t, sql, ps);
    } else if OnConversations(sql) {
      ConversationExecFollows(env, t, sql, ps);
    } else if ChangesListing(sql) {
      ListingExecFollows(env, t, sql, ps);
    }
  }

  predicate OnConversations(sql: Sql) {
    sql.CloseAccountConversations? || sql.CloseListingConversations? || sql.UpsertConversation?
    || sql.CloseConversation?
  }

  lemma ConversationExecFollows(env: Env, t: Tables, sql: Sql, ps: seq<Val>)
    requires ConversationsFollow(t) && OnConversations(sql)
    ensures var effect := Exec(env, t, sql, ps); effect.Done? ==> ConversationsFollow(effect.db)
  {
  }

  predicate ChangesListing(sql: Sql) {
    sql.ChangeTitle? || sql.ChangeDescription? || sql.ChangeCondition? || sql.ChangeAddress? || sql.ChangeCategory?
  }

  lemma ListingExecFollows(env: Env, t: Tables, sql: Sql, ps: seq<Val>)
    requires ConversationsFollow(t) && ChangesListing(sql)
    ensures var effect := Exec(env, t, sql, ps); effect.Done? ==> ConversationsFollow(effect.db)
  {
    if |ps| == Arity(sql) {
      match sql {
        case ChangeTitle => ListingUpdateFollows(t, AsInt(ps[0]), AsInt(ps[1]), SetTitle(ps[2]));
        case ChangeDescription => ListingUpdateFollows(t, AsInt(ps[0]), AsInt(ps[1]), SetDescription(ps[2]));
        case ChangeCondition => ListingUpdateFollows(t, AsInt(ps[0]), AsInt(ps[1]), SetCondition(ps[2]));
        case ChangeAddress => ListingUpdateFollows(t, AsInt(ps[0]), AsInt(ps[1]), SetAddress(AsInt(ps[2])));
        case ChangeCategory => ListingUpdateFollows(t, AsInt(ps[0]), AsInt(ps[1]), SetCategory(AsInt(ps[2])));
      }
    }
  }

  /** Only adding a media row to a listing can leave a gap. */
  lemma ExecContiguous(env: Env, t: Tables, sql: Sql, ps: seq<Val>)
    requires MediaContiguous(t) && !sql.InsertListingMedia? && !sql.UpsertListingMedia?
    ensures var effect := Exec(env, t, sql, ps); effect.Done? ==> MediaContiguous(effect.db)
  {
    if Personal(sql) {
      PersonalExecFollows(env, t, sql, ps);
    }
  }

  // ---------------------------------------------------------------- runs

  /** A run that got through all the queries, as the states and results it went through. */
  ghost predicate Chain(env: Env, queries: seq<Query>, states: seq<Tables>, results: seq<Rows>) {
    && |states| == |queries| + 1 && |results| == |queries|
    && forall k :: 0 <= k < |queries| ==> Link(env, queries, states, results, k)
  }

  ghost predicate Link(env: Env, queries: seq<Query>, states: seq<Tables>, results: seq<Rows>, k: nat)
    requires |states| == |queries| + 1 && |results| == |queries| && k < |queries|
  {
    var args := EvaluateAll(Params(queries[k]), results[..k]);
    args.Some? && Exec(env, states[k], queries[k].text, args.value) == Done(states[k + 1], results[k])
  }

  lemma {:induction false} RunIsChain(env: Env, t: Tables, queries: seq<Query>, m: nat) returns (states: seq<Tables>)
    requires m <= |queries| && RunUpTo(EngineOf(env), t, queries, m).Going?
    ensures Chain(env, queries[..m], states, RunUpTo(EngineOf(env), t, queries, m).results)
    ensures states[0] == t && states[m] == RunUpTo(EngineOf(env), t, queries, m).db
  {
    var r := RunUpTo(EngineOf(env), t, queries, m);
    if m == 0 {
      states := [t];
    } else {
      var before := RunUpTo(EngineOf(env), t, queries, m - 1);
      var earlier := RunIsChain(env, t, queries, m - 1);
      states := earlier + [r.db];
      forall k | 0 <= k < m
        ensures Link(env, queries[..m], states, r.results, k)
      {
        if k < m - 1 {
          assert Link(env, queries[..m - 1], earlier, before.results, k);
          assert r.results[..k] == before.results[..k];
        } else {
          assert r.results[..k] == before.results;
        }
      }
    }
  }

  /** Whatever is run, the invariant of single statements is kept. */
  lemma {:induction false} ChainKeepsBase(env: Env, queries: seq<Query>, states: seq<Tables>, results: seq<Rows>,
                                          m: nat)
    requires Chain(env, queries, states, results) && Base(states[0]) && m <= |queries|
    ensures Base(states[m])
  {
    if m > 0 {
      ChainKeepsBase(env, queries, states, results, m - 1);
      assert Link(env, queries, states, results, m - 1);
      var args := EvaluateAll(Params(queries[m - 1]), results[..m - 1]).value;
      if queries[m - 1].text.InsertListingMedia? {
        assert |args| == 4;
        InsertListingMediaKeeps(states[m - 1], args[0], args[1], AsInt(args[2]), AsInt(args[3]));
      } else {
        ExecKeeps(env, states[m - 1], queries[m - 1].text, args);
      }
    }
  }

  lemma {:induction false} ChainKeeps(env: Env, queries: seq<Query>, states: seq<Tables>, results: seq<Rows>, m: nat)
    requires Chain(env, queries, states, results) && Base(states[0]) && m <= |queries|
    requires forall k :: 0 <= k < m ==> !queries[k].text.InsertListingMedia?
    ensures Later(states[0], states[m])
  {
    if m == 0 {
      LaterReflexive(states[0]);
    } else {
      ChainKeeps(env, queries, states, results, m - 1);
      ChainKeepsBase(env, queries, states, results, m - 1);
      assert Link(env, queries, states, results, m - 1);
      ExecKeeps(env, states[m - 1], queries[m - 1].text, EvaluateAll(Params(queries[m - 1]), results[..m - 1]).value);
      LaterTransitive(states[0], states[m - 1], states[m]);
    }
  }

  lemma {:induction false} ChainFollows(env: Env, queries: seq<Query>, states: seq<Tables>, results: seq<Rows>, m: nat)
    requires Chain(env, queries, states, results) && Base(states[0]) && ConversationsFollow(states[0]) && m <= |queries|
    requires forall k :: 0 <= k < m ==> !queries[k].text.CloseListing? && !queries[k].text.CloseAccountListings?
    ensures ConversationsFollow(states[m])
  {
    if m > 0 {
      ChainFollows(env, queries, states, results, m - 1);
      ChainKeepsBase(env, queries, states, results, m - 1);
      assert Link(env, queries, states, results, m - 1);
      ExecFollows(env, states[m - 1], queries[m - 1].text, EvaluateAll(Params(queries[m - 1]), results[..m - 1]).value);
    }
  }

  lemma {:induction false} ChainContiguous(env: Env, queries: seq<Query>, states: seq<Tables>, results: seq<Rows>,
                                           m: nat)
    requires Chain(env, queries, states, results) && MediaContiguous(states[0]) && m <= |queries|
    requires forall k :: 0 <= k < m ==> !queries[k].text.InsertListingMedia? && !queries[k].text.UpsertListingMedia?
    ensures MediaContiguous(states[m])
  {
    if m > 0 {
      ChainContiguous(env, queries, states, results, m - 1);
      assert Link(env, queries, states, results, m - 1);
      ExecContiguous(env, states[m - 1], queries[m - 1].text,
                     EvaluateAll(Params(queries[m - 1]), results[..m - 1]).value);
    }
  }
}
