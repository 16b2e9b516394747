/** Reading every page of the course level list (CourseLevels.loadAllCourseLevels
    against the paginated route). */
module CourseLevelsPaging {
  import opened JsCollections

  const COURSE_PAGE_SIZE := 100
  const SERVER_LIMIT := 200

  datatype Page<T> = Page(items: seq<T>, total: nat)

  /** An older server answers with the bare array. */
  datatype Response<T> = Bare(items: seq<T>) | Paged(page: Page<T>)

  function Parse<T>(r: Response<T>): Page<T> {
    if r.Bare? then Page(r.items, |r.items|) else r.page
  }

  function Min(a: int, b: int): int {
    if a < b then a else b
  }

  /** Up to `cap` of the rows asked for, from `offset` on. */
  function ServePage<T>(list: seq<T>, cap: nat, offset: nat): Page<T> {
    var from := Min(offset, |list|);
    Page(list[from..Min(from + Min(COURSE_PAGE_SIZE, cap), |list|)], |list|)
  }

  /** The route: a limit outside 1 to 200 is refused, any other is served in full. */
  function Route<T>(list: seq<T>, limit: int, offset: nat): Option<Page<T>> {
    if limit < 1 || limit > SERVER_LIMIT then None
    else
      var from := Min(offset, |list|);
      Some(Page(list[from..Min(from + limit, |list|)], |list|))
  }

  lemma RouteServesPages<T>(list: seq<T>, offset: nat)
    ensures Route(list, COURSE_PAGE_SIZE, offset) == Some(ServePage(list, SERVER_LIMIT, offset))
  {}

  /** Over limits and offsets: a limit outside 1 to 200 is refused; any other gets
      the total and the rows from the offset on, as many as asked for or left. */
  lemma RouteExactly<T>(list: seq<T>, limit: int, offset: nat, k: nat)
    ensures Route(list, limit, offset).None? <==> limit < 1 || 200 < limit
    ensures 1 <= limit <= 200 ==>
      var page := Route(list, limit, offset).value;
      && page.total == |list|
      && (k < |page.items| <==> k < limit && offset + k < |list|)
      && (k < |page.items| ==> page.items[k] == list[offset + k])
  {}

  /** The pages asked for after the first begin a hundred rows apart, up to the end. */
  lemma {:induction false} OffsetsExactly(from: nat, total: nat, k: nat)
    ensures k < |Offsets(from, total)| <==> from + 100 * k < total
    ensures k < |Offsets(from, total)| ==> Offsets(from, total)[k] == from + 100 * k
    decreases k
  {
    if from < total && k > 0 { OffsetsExactly(from + COURSE_PAGE_SIZE, total, k - 1); }
  }

  function Offsets(from: nat, total: nat): seq<nat>
    decreases total - from
  {
    if from >= total then [] else [from] + Offsets(from + COURSE_PAGE_SIZE, total)
  }

  function Rest<T>(list: seq<T>, cap: nat, offsets: seq<nat>): seq<T> {
    if offsets == [] then [] else ServePage(list, cap, offsets[0]).items + Rest(list, cap, offsets[1..])
  }

  /** All pages in order, as the loader puts them together. */
  function Loaded<T>(list: seq<T>, cap: nat): seq<T> {
    var first := ServePage(list, cap, 0);
    if first.total <= |first.items| then first.items
    else first.items + Rest(list, cap, Offsets(|first.items|, first.total))
  }

  lemma {:induction false} OffsetsSnoc(from: nat, total: nat, offsets: seq<nat>, at: nat)
    requires offsets + Offsets(at, total) == Offsets(from, total) && at < total
    ensures offsets + [at] + Offsets(at + COURSE_PAGE_SIZE, total) == Offsets(from, total)
  {
    assert offsets + [at] + Offsets(at + COURSE_PAGE_SIZE, total) == offsets + Offsets(at, total);
  }

  method LoadAllCourseLevels<T>(list: seq<T>, cap: nat) returns (all: seq<T>)
    ensures all == Loaded(list, cap)
  {
    var firstPage := Parse(Paged(ServePage(list, cap, 0)));
    if firstPage.total <= |firstPage.items| { return firstPage.items; }
    var remainingOffsets: seq<nat> := [];
    var offset: nat := |firstPage.items|;
    while offset < firstPage.total
      invariant remainingOffsets + Offsets(offset, firstPage.total) == Offsets(|firstPage.items|, firstPage.total)
      decreases firstPage.total - offset
    {
      OffsetsSnoc(|firstPage.items|, firstPage.total, remainingOffsets, offset);
      remainingOffsets := remainingOffsets + [offset];
      offset := offset + COURSE_PAGE_SIZE;
    }
    all := firstPage.items;
    for n := 0 to |remainingOffsets|
      invariant all + Rest(list, cap, remainingOffsets[n..]) == firstPage.items + Rest(list, cap, remainingOffsets)
    {
      var page := ServePage(list, cap, remainingOffsets[n]);
      assert remainingOffsets[n..][1..] == remainingOffsets[n + 1..];
      all := all + page.items;
    }
    assert remainingOffsets[|remainingOffsets|..] == [];
    assert remainingOffsets + [] == remainingOffsets;
  }

  lemma {:induction false} RestIsTail<T>(list: seq<T>, cap: nat, from: nat)
    requires cap >= COURSE_PAGE_SIZE && from <= |list|
    ensures Rest(list, cap, Offsets(from, |list|)) == list[from..]
    decreases |list| - from
  {
    if from < |list| {
      var offsets := Offsets(from, |list|);
      assert offsets[1..] == Offsets(from + COURSE_PAGE_SIZE, |list|);
      if from + COURSE_PAGE_SIZE <= |list| {
        RestIsTail(list, cap, from + COURSE_PAGE_SIZE);
      } else {
        assert Rest(list, cap, offsets[1..]) == [];
      }
    }
  }

  /** The route serves the loader's pages in full (RouteServesPages), so the loader
      returns exactly the whole list, in order, whatever its length. */
  lemma LoadsEverything<T>(list: seq<T>)
    ensures Loaded(list, SERVER_LIMIT) == list
  {
    LoadsUnderCap(list, SERVER_LIMIT);
  }

  lemma LoadsUnderCap<T>(list: seq<T>, cap: nat)
    requires cap >= COURSE_PAGE_SIZE
    ensures Loaded(list, cap) == list
  {
    if |list| > COURSE_PAGE_SIZE {
      RestIsTail(list, cap, COURSE_PAGE_SIZE);
    }
  }

  lemma {:induction false} RestFallsShort<T>(list: seq<T>, cap: nat, from: nat)
    requires cap < COURSE_PAGE_SIZE && from <= |list|
    ensures |Rest(list, cap, Offsets(from, |list|))| <= |list| - from
    ensures |list| - from > cap ==> |Rest(list, cap, Offsets(from, |list|))| < |list| - from
    decreases |list| - from
  {
    if from < |list| {
      var next := from + COURSE_PAGE_SIZE;
      assert Offsets(from, |list|)[1..] == Offsets(next, |list|);
      if next <= |list| { RestFallsShort(list, cap, next); }
    }
  }

  lemma RestOfTwoPages<T>(list: seq<T>, cap: nat)
    requires cap < COURSE_PAGE_SIZE && cap < |list| <= 2 * cap
    ensures Rest(list, cap, Offsets(cap, |list|)) == list[cap..]
  {
    var offsets := Offsets(cap, |list|);
    assert Offsets(cap + COURSE_PAGE_SIZE, |list|) == [];
    assert offsets == [cap] && offsets[1..] == [];
    assert Rest(list, cap, offsets) == ServePage(list, cap, cap).items + Rest(list, cap, offsets[1..]);
  }

  /** The loader steps by its own page size after the first page, so against a
      server that cut pages at `cap` it would be right exactly when the cap is at
      least that size or two pages hold the list. The route itself cuts nothing:
      it refuses a limit above 200 and serves any other in full. */
  lemma LoadsExactlyWhen<T>(list: seq<T>, cap: nat)
    ensures Loaded(list, cap) == list <==> cap >= COURSE_PAGE_SIZE || |list| <= 2 * cap
  {
    if cap >= COURSE_PAGE_SIZE {
      LoadsUnderCap(list, cap);
    } else if cap < |list| <= 2 * cap {
      RestOfTwoPages(list, cap);
    } else if |list| > 2 * cap {
      RestFallsShort(list, cap, cap);
    }
  }
}
