/** What SearchListing returns, said without joins: filter the open listings, sort them by
    id, drop and take. */
module Search {
  import opened Values
  import opened Execution
  import opened Schema

  /** What is searched for, with NULL parameters standing for "any". */
  predicate Matches(t: Tables, l: int, user: IntParam, category: IntParam, region: Val) {
    && Open(t, l) && t.listings.rows[l].address in t.addresses.rows
    && var row := t.listings.rows[l];
       && (category.Int? ==> row.category == Some(category.n))
       && (!IsNull(region) ==> t.addresses.rows[row.address].region == region)
       && (user.Int? ==> row.contributor != user.n)
  }

  /** The elements of a finite set, in ascending order. */
  ghost function Ascending(s: set<int>): (r: seq<int>)
    ensures forall x :: x in s <==> x in r
    ensures forall i, j :: 0 <= i < j < |r| ==> r[i] < r[j]
    decreases |s|
  {
    if s == {} then [] else
      HasMin(s);
      var m :| m in s && forall x :: x in s ==> m <= x;
      [m] + Ascending(s - {m})
  }

  lemma {:induction false} HasMin(s: set<int>)
    ensures s == {} || exists m :: m in s && forall x :: x in s ==> m <= x
    decreases |s|
  {
    if forall y: int :: y !in s {
      assert s == {};
    } else {
      var y: int :| y in s;
      var rest := s - {y};
      HasMin(rest);
      if rest == {} {
        assert s == {y};
      } else {
        var m :| m in rest && forall x :: x in rest ==> m <= x;
        assert forall x :: x in s ==> x == y || x in rest;
        var least := Min(y, m);
        assert least in s && forall x :: x in s ==> least <= x;
      }
    }
  }

  ghost function MatchingIds(t: Tables, user: IntParam, category: IntParam, region: Val): seq<int> {
    Ascending(set l | l in t.listings.rows && Matches(t, l, user, category, region))
  }

  /** One returned row: the listing, its address, its first media, and whether it is saved. */
  function ResultRow(t: Tables, l: int, user: IntParam): Row
    requires l in t.listings.rows && t.listings.rows[l].address in t.addresses.rows
  {
    var row, address := t.listings.rows[l], t.addresses.rows[t.listings.rows[l].address];
    map[
      LISTING_ID := Num(l),
      CONTRIBUTOR_ID := Num(row.contributor),
      TITLE := row.title,
      DESCRIPTION := row.description,
      CONDITION := row.condition,
      CATEGORY_ID := if row.category.Some? then Num(row.category.value) else Null,
      COUNTRY := address.country,
      REGION := address.region,
      POSTCODE := address.postcode,
      MIME_TYPE := if (l, 0) in t.listingMedia then t.listingMedia[(l, 0)].mimetype else Null,
      URL := if (l, 0) in t.listingMedia then t.listingMedia[(l, 0)].url else Null,
      SAVED := Bool(user.Int? && (user.n, l) in t.saved)]
  }

  ghost function Results(t: Tables, user: IntParam, category: IntParam, region: Val): Rows {
    var ids := MatchingIds(t, user, category, region);
    seq(|ids|, i requires 0 <= i < |ids| && ids[i] in ids => ResultRow(t, ids[i], user))
  }

  function Min(a: int, b: int): int {
    if a < b then a else b
  }

  /** LIMIT and OFFSET; NULL means no limit and no offset. */
  function Page(rows: Rows, limit: IntParam, offset: IntParam): Rows
    requires (limit.Int? ==> limit.n >= 0) && (offset.Int? ==> offset.n >= 0)
  {
    var from := if offset.Int? then Min(offset.n, |rows|) else 0;
    var to := if limit.Int? then Min(from + limit.n, |rows|) else |rows|;
    rows[from..to]
  }

  ghost function SearchRows(t: Tables, user: Val, category: Val, region: Val, limit: Val, offset: Val): Reply<Tables> {
    var u, c, n, k := AsInt(user), AsInt(category), AsInt(limit), AsInt(offset);
    if u.NotInt? || c.NotInt? || n.NotInt? || k.NotInt? then Refused(INVALID_TEXT)
    else if (n.Int? && n.n < 0) || (k.Int? && k.n < 0) then Refused(INVALID_LIMIT)
    else Done(t, Page(Results(t, u, c, region), n, k))
  }

  // ---------------------------------------------------------------- paging

  function Pages(rows: Rows, size: nat, count: nat): Rows {
    if count == 0 then [] else Pages(rows, size, count - 1) + Page(rows, Int(size), Int((count - 1) * size))
  }

  lemma NextPage(rows: Rows, size: nat, from: nat)
    ensures rows[..Min(from, |rows|)] + Page(rows, Int(size), Int(from)) == rows[..Min(from + size, |rows|)]
  {
  }

  lemma {:induction false} PagesUpTo(rows: Rows, size: nat, count: nat, to: nat)
    requires to == count * size
    ensures Pages(rows, size, count) == rows[..Min(to, |rows|)]
  {
    if count > 0 {
      var from := (count - 1) * size;
      assert to == from + size;
      PagesUpTo(rows, size, count - 1, from);
      NextPage(rows, size, from);
    }
  }

  /** Consecutive pages are consecutive: together they are a prefix of the whole result, and
      all of it once there are enough of them. */
  lemma PagesConcatenate(rows: Rows, size: nat, count: nat)
    ensures Pages(rows, size, count) == rows[..Min(count * size, |rows|)]
    ensures count * size >= |rows| ==> Pages(rows, size, count) == rows
  {
    PagesUpTo(rows, size, count, count * size);
  }
}
