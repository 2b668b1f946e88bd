/** SearchListing as its text puts it: nested loops over an inner join and two left joins, a
    condition with three-valued logic, a sort; and the proof that, whatever the order in which
    the tables are scanned and however ties are sorted, this is the plain search. */
module SearchJoins {
  import opened Values
  import opened Schema
  import opened Search
  import opened Statements
  import opened Invariants

  // ---------------------------------------------------------------- scans

  ghost predicate Distinct<T(!new)>(xs: seq<T>) {
    forall i, j :: 0 <= i < j < |xs| ==> xs[i] != xs[j]
  }

  function Select<T>(xs: seq<T>, p: T -> bool): seq<T> {
    if xs == [] then [] else (if p(xs[0]) then [xs[0]] else []) + Select(xs[1..], p)
  }

  lemma {:induction false} SelectNone<T(!new)>(xs: seq<T>, p: T -> bool)
    requires forall x :: x in xs ==> !p(x)
    ensures Select(xs, p) == []
  {
    if xs != [] {
      SelectNone(xs[1..], p);
    }
  }

  lemma {:induction false} SelectOne<T(!new)>(xs: seq<T>, p: T -> bool, x: T)
    requires Distinct(xs) && x in xs && p(x) && forall y :: y in xs && p(y) ==> y == x
    ensures Select(xs, p) == [x]
  {
    if xs[0] == x {
      assert forall y :: y in xs[1..] ==> y != x;
      SelectNone(xs[1..], p);
    } else {
      assert x in xs[1..];
      SelectOne(xs[1..], p, x);
    }
  }

  lemma {:induction false} SelectKeeps<T(!new)>(xs: seq<T>, p: T -> bool)
    requires Distinct(xs)
    ensures Distinct(Select(xs, p))
    ensures forall x :: x in Select(xs, p) <==> x in xs && p(x)
  {
    if xs != [] {
      SelectKeeps(xs[1..], p);
      assert xs == [xs[0]] + xs[1..];
    }
  }

  // ---------------------------------------------------------------- the joins

  /** A joined row: a listing and its address, and perhaps its first picture and a mark of the
      caller's on it. */
  datatype Joined = Joined(l: int, a: int, media: Option<MediaRef>, saved: Option<(int, int)>)

  /** The sub-select: the id of the listing's media row with the least index. */
  ghost function FirstMedia(t: Tables, l: int): Option<int> {
    if i :| (l, i) in t.listingMedia && forall j :: (l, j) in t.listingMedia ==> i <= j
    then Some(t.listingMedia[(l, i)].id) else None
  }

  /** The outer join: the matching rows, or one row without a partner. */
  function OrNone<T>(matches: seq<T>): seq<Option<T>> {
    if matches == [] then [None] else seq(|matches|, i requires 0 <= i < |matches| => Some(matches[i]))
  }

  // the ON conditions
  function Is(a: int): int -> bool {
    (b: int) => a == b
  }

  ghost function IsFirstMedia(t: Tables, l: int): MediaRef -> bool {
    (r: MediaRef) => OnFirstMedia(t, l, r)
  }

  function SavedBy(user: IntParam, l: int): ((int, int)) -> bool {
    (s: (int, int)) => user.Int? && s == (user.n, l)
  }

  ghost function JoinSaved(t: Tables, l: int, a: int, media: Option<MediaRef>, ss: seq<(int, int)>,
                           user: IntParam): seq<Joined> {
    var matches := OrNone(Select(ss, SavedBy(user, l)));
    seq(|matches|, i requires 0 <= i < |matches| => Joined(l, a, media, matches[i]))
  }

  ghost function JoinMedia(t: Tables, l: int, a: int, matches: seq<Option<MediaRef>>, ss: seq<(int, int)>,
                           user: IntParam): seq<Joined> {
    if matches == [] then [] else JoinSaved(t, l, a, matches[0], ss, user) + JoinMedia(t, l, a, matches[1..], ss, user)
  }

  ghost predicate OnFirstMedia(t: Tables, l: int, r: MediaRef) {
    HasMedia(t, r) && FirstMedia(t, l) == Some(MediaAt(t, r).id)
  }

  ghost function JoinAddress(t: Tables, l: int, matches: seq<int>, ms: seq<MediaRef>, ss: seq<(int, int)>,
                             user: IntParam): seq<Joined> {
    if matches == [] then []
    else JoinMedia(t, l, matches[0], OrNone(Select(ms, IsFirstMedia(t, l))), ss, user)
         + JoinAddress(t, l, matches[1..], ms, ss, user)
  }

  /** The joins, with the tables scanned in the given orders. */
  ghost function Join(t: Tables, ls: seq<int>, addresses: seq<int>, ms: seq<MediaRef>, ss: seq<(int, int)>,
                      user: IntParam): seq<Joined>
    requires forall l :: l in ls ==> l in t.listings.rows
  {
    if ls == [] then []
    else JoinAddress(t, ls[0], Select(addresses, Is(t.listings.rows[ls[0]].address)), ms, ss, user)
         + Join(t, ls[1..], addresses, ms, ss, user)
  }

  // ---------------------------------------------------------------- three-valued logic

  datatype Truth = True | False | Unknown

  function Or(p: Truth, q: Truth): Truth {
    if p.True? || q.True? then True else if p.False? && q.False? then False else Unknown
  }

  function And(p: Truth, q: Truth): Truth {
    if p.False? || q.False? then False else if p.True? && q.True? then True else Unknown
  }

  function AsTruth(b: bool): Truth {
    if b then True else False
  }

  function Equal(a: IntParam, b: IntParam): Truth {
    if !a.Int? || !b.Int? then Unknown else AsTruth(a.n == b.n)
  }

  function Differ(a: IntParam, b: IntParam): Truth {
    if !a.Int? || !b.Int? then Unknown else AsTruth(a.n != b.n)
  }

  function TextEqual(a: Val, b: Val): Truth {
    if IsNull(a) || IsNull(b) then Unknown else AsTruth(a == b)
  }

  /** The condition on joined rows.  Category and region must equal those that are asked for,
      each counting only if it is given; the listing must not be closed; and it must not be
      the caller's, if there is one.  Comparisons with NULL are unknown, and the null tests
      beside them decide then. */
  function Where(t: Tables, j: Joined, user: IntParam, category: IntParam, region: Val): Truth
    requires j.l in t.listings.rows && j.a in t.addresses.rows
  {
    var row := t.listings.rows[j.l];
    And(And(And(
              Or(Equal(if row.category.Some? then Int(row.category.value) else NullInt, category),
                 AsTruth(category.NullInt?)),
              Or(TextEqual(t.addresses.rows[j.a].region, region), AsTruth(IsNull(region)))),
            AsTruth(row.closed.None?)),
        Or(Differ(Int(row.contributor), user), AsTruth(user.NullInt?)))
  }

  /** The columns that are returned. */
  function Shown(t: Tables, j: Joined): Row
    requires j.l in t.listings.rows && j.a in t.addresses.rows && (j.media.Some? ==> HasMedia(t, j.media.value))
  {
    var row, address := t.listings.rows[j.l], t.addresses.rows[j.a];
    map[
      LISTING_ID := Num(j.l),
      CONTRIBUTOR_ID := Num(row.contributor),
      TITLE := row.title,
      DESCRIPTION := row.description,
      CONDITION := row.condition,
      CATEGORY_ID := if row.category.Some? then Num(row.category.value) else Null,
      COUNTRY := address.country,
      REGION := address.region,
      POSTCODE := address.postcode,
      MIME_TYPE := if j.media.Some? then MediaAt(t, j.media.value).mimetype else Null,
      URL := if j.media.Some? then MediaAt(t, j.media.value).url else Null,
      SAVED := Bool(j.saved.Some?)]
  }

  // ---------------------------------------------------------------- one row per listing

  /** The one row that the joins make of listing l. */
  ghost function JoinedOf(t: Tables, l: int, user: IntParam): Joined
    requires l in t.listings.rows
  {
    Joined(l, t.listings.rows[l].address,
           if (l, 0) in t.listingMedia then Some(OfListing(l, 0)) else None,
           if user.Int? && (user.n, l) in t.saved then Some((user.n, l)) else None)
  }

  lemma FirstMediaIsIndexZero(t: Tables, l: int, r: MediaRef)
    requires MediaKeys(t) && MediaContiguous(t)
    ensures OnFirstMedia(t, l, r) <==> (l, 0) in t.listingMedia && r == OfListing(l, 0)
  {
    if (l, 0) in t.listingMedia {
      assert forall j :: (l, j) in t.listingMedia ==> 0 <= j;
      assert HasMedia(t, OfListing(l, 0));
      var i :| (l, i) in t.listingMedia && (forall j :: (l, j) in t.listingMedia ==> i <= j)
               && FirstMedia(t, l) == Some(t.listingMedia[(l, i)].id);
      assert i == 0;
    }
  }

  /** The orders in which the four tables are scanned. */
  ghost predicate ScansAll(t: Tables, ls: seq<int>, addresses: seq<int>, ms: seq<MediaRef>, ss: seq<(int, int)>) {
    && Distinct(ls) && (forall l :: l in ls <==> l in t.listings.rows)
    && Distinct(addresses) && (forall a :: a in addresses <==> a in t.addresses.rows)
    && Distinct(ms) && (forall r :: r in ms <==> HasMedia(t, r))
    && Distinct(ss) && (forall p :: p in ss <==> p in t.saved)
  }

  lemma OneRowPerListing(t: Tables, l: int, addresses: seq<int>, ms: seq<MediaRef>, ss: seq<(int, int)>, user: IntParam)
    requires Distinct(addresses) && (forall a :: a in addresses <==> a in t.addresses.rows)
    requires Distinct(ms) && (forall r :: r in ms <==> HasMedia(t, r))
    requires Distinct(ss) && (forall p :: p in ss <==> p in t.saved)
    requires MediaKeys(t) && MediaContiguous(t)
    requires l in t.listings.rows && t.listings.rows[l].address in t.addresses.rows
    ensures JoinAddress(t, l, Select(addresses, Is(t.listings.rows[l].address)), ms, ss, user) == [JoinedOf(t, l, user)]
  {
    var address := t.listings.rows[l].address;
    SelectOne(addresses, Is(address), address);
    forall r
      ensures OnFirstMedia(t, l, r) <==> (l, 0) in t.listingMedia && r == OfListing(l, 0)
    {
      FirstMediaIsIndexZero(t, l, r);
    }
    var onFirst := IsFirstMedia(t, l);
    if (l, 0) in t.listingMedia {
      SelectOne(ms, onFirst, OfListing(l, 0));
    } else {
      SelectNone(ms, onFirst);
    }
    var media := if (l, 0) in t.listingMedia then Some(OfListing(l, 0)) else None;
    assert OrNone(Select(ms, onFirst)) == [media];
    OneSavedRow(t, l, address, media, ss, user);
    assert JoinMedia(t, l, address, [media], ss, user) == [JoinedOf(t, l, user)] by {
      assert [media][1..] == [];
    }
    assert JoinAddress(t, l, [address], ms, ss, user) == [JoinedOf(t, l, user)] by {
      assert [address][1..] == [];
    }
  }

  lemma OneSavedRow(t: Tables, l: int, a: int, media: Option<MediaRef>, ss: seq<(int, int)>, user: IntParam)
    requires Distinct(ss) && (forall p :: p in ss <==> p in t.saved)
    ensures JoinSaved(t, l, a, media, ss, user)
            == [Joined(l, a, media, if user.Int? && (user.n, l) in t.saved then Some((user.n, l)) else None)]
  {
    var mine := SavedBy(user, l);
    if user.Int? && (user.n, l) in t.saved {
      SelectOne(ss, mine, (user.n, l));
    } else {
      SelectNone(ss, mine);
    }
  }

  lemma {:induction false} JoinIsMap(t: Tables, ls: seq<int>, addresses: seq<int>, ms: seq<MediaRef>,
                                     ss: seq<(int, int)>, user: IntParam)
    requires forall l :: l in ls ==> l in t.listings.rows && t.listings.rows[l].address in t.addresses.rows
    requires Distinct(addresses) && (forall a :: a in addresses <==> a in t.addresses.rows)
    requires Distinct(ms) && (forall r :: r in ms <==> HasMedia(t, r))
    requires Distinct(ss) && (forall p :: p in ss <==> p in t.saved)
    requires MediaKeys(t) && MediaContiguous(t)
    ensures |Join(t, ls, addresses, ms, ss, user)| == |ls|
    ensures forall i :: 0 <= i < |ls| ==> Join(t, ls, addresses, ms, ss, user)[i] == JoinedOf(t, ls[i], user)
  {
    if ls != [] {
      OneRowPerListing(t, ls[0], addresses, ms, ss, user);
      JoinIsMap(t, ls[1..], addresses, ms, ss, user);
    }
  }

  // ---------------------------------------------------------------- any scan, any sort

  predicate Passes(t: Tables, j: Joined, user: IntParam, category: IntParam, region: Val) {
    j.l in t.listings.rows && j.a in t.addresses.rows && Where(t, j, user, category, region).True?
  }

  function Passing(t: Tables, user: IntParam, category: IntParam, region: Val): Joined -> bool {
    (j: Joined) => Passes(t, j, user, category, region)
  }

  /** `ordered` is a result of the query before LIMIT and OFFSET: some scan of the tables,
      filtered, and sorted by listing id in some way. */
  ghost predicate Answers(t: Tables, ordered: seq<Joined>, user: IntParam, category: IntParam, region: Val) {
    && (exists ls, addresses, ms, ss ::
          ScansAll(t, ls, addresses, ms, ss)
          && multiset(ordered)
             == multiset(Select(Join(t, ls, addresses, ms, ss, user), Passing(t, user, category, region))))
    && forall i, j :: 0 <= i < j < |ordered| ==> ordered[i].l <= ordered[j].l
  }

  lemma TwiceInMultiset<T>(xs: seq<T>, i: int, j: int)
    requires 0 <= i < j < |xs| && xs[i] == xs[j]
    ensures multiset(xs)[xs[i]] >= 2
  {
    assert xs == xs[..i] + [xs[i]] + xs[i + 1..];
    assert xs[i + 1..][j - i - 1] == xs[j];
    assert xs[j] in multiset(xs[i + 1..]);
  }

  lemma OnceInMultiset<T(!new)>(xs: seq<T>, i: int)
    requires Distinct(xs) && 0 <= i < |xs|
    ensures multiset(xs)[xs[i]] == 1
  {
    assert xs == xs[..i] + [xs[i]] + xs[i + 1..];
    assert xs[i] !in multiset(xs[..i]) && xs[i] !in multiset(xs[i + 1..]);
  }

  lemma PermutationOfDistinct<T(!new)>(xs: seq<T>, ys: seq<T>)
    requires multiset(xs) == multiset(ys) && Distinct(ys)
    ensures Distinct(xs) && forall x :: x in xs <==> x in ys
  {
    forall x
      ensures x in xs <==> x in ys
    {
      assert x in xs <==> x in multiset(xs);
      assert x in ys <==> x in multiset(ys);
    }
    forall i, j | 0 <= i < j < |xs|
      ensures xs[i] != xs[j]
    {
      if xs[i] == xs[j] {
        TwiceInMultiset(xs, i, j);
        var k :| 0 <= k < |ys| && ys[k] == xs[i];
        OnceInMultiset(ys, k);
      }
    }
  }

  lemma {:induction false} AscendingUnique(xs: seq<int>, ys: seq<int>)
    requires forall i, j :: 0 <= i < j < |xs| ==> xs[i] < xs[j]
    requires forall i, j :: 0 <= i < j < |ys| ==> ys[i] < ys[j]
    requires forall x :: x in xs <==> x in ys
    ensures xs == ys
  {
    if xs == [] {
      assert forall i :: 0 <= i < |ys| ==> ys[i] in ys;
    } else {
      assert xs[0] in ys && ys[0] in xs;
      assert xs == [xs[0]] + xs[1..] && ys == [ys[0]] + ys[1..];
      forall x
        ensures x in xs[1..] <==> x in ys[1..]
      {
        assert x in xs[1..] <==> x in xs && x != xs[0];
        assert x in ys[1..] <==> x in ys && x != ys[0];
      }
      AscendingUnique(xs[1..], ys[1..]);
    }
  }

  lemma WhereIsMatches(t: Tables, l: int, user: IntParam, category: IntParam, region: Val)
    requires l in t.listings.rows && t.listings.rows[l].address in t.addresses.rows
    requires !user.NotInt? && !category.NotInt?
    ensures Passes(t, JoinedOf(t, l, user), user, category, region) <==> Matches(t, l, user, category, region)
  {
  }

  /** The joins, whatever the scans, yield one row for every listing. */
  lemma ScannedRows(t: Tables, ls: seq<int>, addresses: seq<int>, ms: seq<MediaRef>, ss: seq<(int, int)>,
                    user: IntParam)
    requires ScansAll(t, ls, addresses, ms, ss) && MediaKeys(t) && MediaContiguous(t)
    requires forall l :: l in t.listings.rows ==> t.listings.rows[l].address in t.addresses.rows
    ensures Distinct(Join(t, ls, addresses, ms, ss, user))
    ensures forall j :: j in Join(t, ls, addresses, ms, ss, user) <==>
              j.l in t.listings.rows && j == JoinedOf(t, j.l, user)
  {
    JoinIsMap(t, ls, addresses, ms, ss, user);
    var joined := Join(t, ls, addresses, ms, ss, user);
    forall l | l in t.listings.rows
      ensures JoinedOf(t, l, user) in joined
    {
      var i :| 0 <= i < |ls| && ls[i] == l;
      assert joined[i] == JoinedOf(t, l, user);
    }
  }

  /** The joins yield exactly one row for every matching open listing. */
  lemma JoinedRowsAreMatches(t: Tables, ordered: seq<Joined>, user: IntParam, category: IntParam, region: Val)
    requires Inv(t) && Answers(t, ordered, user, category, region) && !user.NotInt? && !category.NotInt?
    ensures Distinct(ordered)
    ensures forall j :: j in ordered <==>
              j.l in t.listings.rows && Matches(t, j.l, user, category, region) && j == JoinedOf(t, j.l, user)
  {
    var ls, addresses, ms, ss :| ScansAll(t, ls, addresses, ms, ss)
      && multiset(ordered)
         == multiset(Select(Join(t, ls, addresses, ms, ss, user), Passing(t, user, category, region)));
    AddressesPresent(t);
    ScannedRows(t, ls, addresses, ms, ss, user);
    PassingRows(t, Join(t, ls, addresses, ms, ss, user), ordered, user, category, region);
  }

  lemma AddressesPresent(t: Tables)
    requires ListingsOk(t)
    ensures forall l :: l in t.listings.rows ==> t.listings.rows[l].address in t.addresses.rows
  {
    forall l | l in t.listings.rows
      ensures t.listings.rows[l].address in t.addresses.rows
    {
      assert ListingViolation(t, t.listings.rows[l]).None?;
    }
  }

  lemma PassingRows(t: Tables, joined: seq<Joined>, ordered: seq<Joined>, user: IntParam, category: IntParam,
                    region: Val)
    requires forall l :: l in t.listings.rows ==> t.listings.rows[l].address in t.addresses.rows
    requires Distinct(joined) && forall j :: j in joined <==> j.l in t.listings.rows && j == JoinedOf(t, j.l, user)
    requires multiset(ordered) == multiset(Select(joined, Passing(t, user, category, region)))
    requires !user.NotInt? && !category.NotInt?
    ensures Distinct(ordered)
    ensures forall j :: j in ordered <==>
              j.l in t.listings.rows && Matches(t, j.l, user, category, region) && j == JoinedOf(t, j.l, user)
  {
    SelectKeeps(joined, Passing(t, user, category, region));
    PermutationOfDistinct(ordered, Select(joined, Passing(t, user, category, region)));
    forall l | l in t.listings.rows
      ensures Passes(t, JoinedOf(t, l, user), user, category, region) <==> Matches(t, l, user, category, region)
    {
      WhereIsMatches(t, l, user, category, region);
    }
  }

  /** Sorting distinct rows that are determined by their listing ids. */
  lemma SortedByListing(ordered: seq<Joined>, rows: map<int, Joined>, ids: seq<int>)
    requires Distinct(ordered) && forall i, j :: 0 <= i < j < |ordered| ==> ordered[i].l <= ordered[j].l
    requires forall l :: l in rows ==> rows[l].l == l && rows[l] in ordered
    requires forall i :: 0 <= i < |ordered| ==> ordered[i].l in rows && ordered[i] == rows[ordered[i].l]
    requires forall i, j :: 0 <= i < j < |ids| ==> ids[i] < ids[j]
    requires forall l :: l in ids <==> l in rows
    ensures |ordered| == |ids| && forall i :: 0 <= i < |ordered| ==>
              ordered[i].l == ids[i] && ordered[i] == rows[ids[i]]
  {
    var found := seq(|ordered|, i requires 0 <= i < |ordered| => ordered[i].l);
    forall l
      ensures l in found <==> l in ids
    {
      if l in rows {
        var i :| 0 <= i < |ordered| && ordered[i] == rows[l];
        assert found[i] == l;
      }
    }
    AscendingUnique(found, ids);
  }

  lemma ShownIsResultRow(t: Tables, l: int, user: IntParam)
    requires l in t.listings.rows && t.listings.rows[l].address in t.addresses.rows
    ensures Shown(t, JoinedOf(t, l, user)) == ResultRow(t, l, user)
  {
  }

  ghost predicate Showable(t: Tables, j: Joined) {
    j.l in t.listings.rows && j.a in t.addresses.rows && (j.media.Some? ==> HasMedia(t, j.media.value))
  }

  ghost function MatchingRows(t: Tables, user: IntParam, category: IntParam, region: Val): map<int, Joined> {
    map l | l in t.listings.rows && Matches(t, l, user, category, region) :: JoinedOf(t, l, user)
  }

  ghost predicate Listed(ordered: seq<Joined>, rows: map<int, Joined>) {
    && Distinct(ordered)
    && (forall l :: l in rows ==> rows[l].l == l && rows[l] in ordered)
    && (forall i :: 0 <= i < |ordered| ==> ordered[i].l in rows && ordered[i] == rows[ordered[i].l])
  }

  lemma JoinedRowsAreListed(t: Tables, ordered: seq<Joined>, user: IntParam, category: IntParam, region: Val)
    requires Distinct(ordered)
    requires forall j :: j in ordered <==>
               j.l in t.listings.rows && Matches(t, j.l, user, category, region) && j == JoinedOf(t, j.l, user)
    ensures Listed(ordered, MatchingRows(t, user, category, region))
  {
    forall i | 0 <= i < |ordered|
      ensures ordered[i].l in MatchingRows(t, user, category, region)
      ensures ordered[i] == MatchingRows(t, user, category, region)[ordered[i].l]
    {
      assert ordered[i] in ordered;
    }
  }

  lemma ListedIsShown(t: Tables, ordered: seq<Joined>, user: IntParam, category: IntParam, region: Val)
    requires Listed(ordered, MatchingRows(t, user, category, region))
    requires forall i, j :: 0 <= i < j < |ordered| ==> ordered[i].l <= ordered[j].l
    ensures |ordered| == |Results(t, user, category, region)|
    ensures forall i :: 0 <= i < |ordered| ==>
              Showable(t, ordered[i]) && Shown(t, ordered[i]) == Results(t, user, category, region)[i]
  {
    var ids := MatchingIds(t, user, category, region);
    SortedByListing(ordered, MatchingRows(t, user, category, region), ids);
    forall i | 0 <= i < |ordered|
      ensures Showable(t, ordered[i]) && Shown(t, ordered[i]) == Results(t, user, category, region)[i]
    {
      assert ids[i] in ids;
      ShownIsResultRow(t, ids[i], user);
    }
  }

  /** Whatever the scan and the sort, the query returns the plain search: exactly one row for
      every matching open listing, in the order of their ids. */
  lemma SearchIsPlain(t: Tables, ordered: seq<Joined>, user: IntParam, category: IntParam, region: Val)
    requires Inv(t) && Answers(t, ordered, user, category, region) && !user.NotInt? && !category.NotInt?
    ensures |ordered| == |Results(t, user, category, region)|
    ensures forall i :: 0 <= i < |ordered| ==>
              Showable(t, ordered[i]) && Shown(t, ordered[i]) == Results(t, user, category, region)[i]
  {
    JoinedRowsAreMatches(t, ordered, user, category, region);
    JoinedRowsAreListed(t, ordered, user, category, region);
    ListedIsShown(t, ordered, user, category, region);
  }
}
