/** The paginator of tools/applicable_qualification.py, with its hard bounds. */
module Pagination {
  import opened Wrappers

  const PAGE := 100
  const LAST_PAGE := 10000
  const LAST_FILES_PAGE := 30

  /** What the server answers for each page number; an error is a call that raises. */
  type Server<!T> = nat -> Result<seq<T>>

  /** The pages from `page` on, up to the first short one, or up to page 30 of the PR-files endpoint. */
  function Fetched<T>(server: Server<T>, page: nat, files: bool): (r: Result<seq<T>>)
    requires 1 <= page <= LAST_PAGE
    decreases LAST_PAGE - page
  {
    match server(page)
    case Err(e) => Err(e)
    case Ok(values) =>
      if |values| < PAGE || (page == LAST_FILES_PAGE && files) then Ok(values)
      else if page + 1 > LAST_PAGE then Err("unbounded GitHub pagination")
      else
        After(values, Fetched(server, page + 1, files))
  }

  lemma {:induction false} FetchedUnfold<T>(server: Server<T>, page: nat, files: bool)
    requires 1 <= page <= LAST_PAGE
    ensures Fetched(server, page, files) ==
            match server(page)
            case Err(e) => Err(e)
            case Ok(values) =>
              if |values| < PAGE || (page == LAST_FILES_PAGE && files) then Ok(values)
              else if page == LAST_PAGE then Err("unbounded GitHub pagination")
              else After(values, Fetched(server, page + 1, files))
  {
  }

  method Paged<T>(server: Server<T>, files: bool) returns (r: Result<seq<T>>)
    ensures r == Fetched(server, 1, files)
  {
    hide Fetched;
    var values: seq<T> := [];
    var page := 1;
    ghost var all := Fetched(server, 1, files);
    assert all == After(values, all) by { AfterNothing(all); }
    while true
      invariant 1 <= page <= LAST_PAGE
      invariant all == After(values, Fetched(server, page, files))
      decreases LAST_PAGE - page
    {
      FetchedUnfold(server, page, files);
      var payload := server(page);
      if payload.Err? { return Err(payload.error); }
      if |payload.value| < PAGE || (page == LAST_FILES_PAGE && files) {
        return Ok(values + payload.value);
      }
      if page + 1 > LAST_PAGE { return Err("unbounded GitHub pagination"); }
      AfterBoth(values, payload.value, Fetched(server, page + 1, files));
      values := values + payload.value;
      page := page + 1;
    }
  }

  // ---------------------------------------------------------------- a collection that does not change

  /** Page `page` of a collection, counted from one. */
  function PageOf<T>(xs: seq<T>, page: nat): (r: seq<T>)
    requires page >= 1
  {
    var from, to := PAGE * (page - 1), PAGE * page;
    if from >= |xs| then [] else xs[from..if to <= |xs| then to else |xs|]
  }

  function Serving<T>(xs: seq<T>): (server: Server<T>) {
    page => if page >= 1 then Ok(PageOf(xs, page)) else Err("no such page")
  }

  /** A full page lies inside the collection; a short one is the rest of it. */
  lemma PageShape<T>(xs: seq<T>, page: nat)
    requires page >= 1 && PAGE * (page - 1) <= |xs|
    ensures var from, to := PAGE * (page - 1), PAGE * page;
            PageOf(xs, page) == if to <= |xs| then xs[from..to] else xs[from..]
  {
  }

  /** Where the files endpoint stops. */
  function Cut<T>(xs: seq<T>): nat { if |xs| < 3000 then |xs| else 3000 }

  lemma {:induction false} FetchedSuffix<T>(xs: seq<T>, page: nat, files: bool)
    requires 1 <= page <= LAST_PAGE && PAGE * (page - 1) <= |xs| && (files ==> page <= LAST_FILES_PAGE)
    ensures var r := Fetched(Serving(xs), page, files);
            if files then r == Ok(xs[PAGE * (page - 1)..Cut(xs)])
            else if |xs| < PAGE * LAST_PAGE then r == Ok(xs[PAGE * (page - 1)..])
            else r == Err("unbounded GitHub pagination")
    decreases LAST_PAGE - page
  {
    hide Fetched, PageOf;
    var from, to := PAGE * (page - 1), PAGE * page;
    PageShape(xs, page);
    FetchedUnfold(Serving(xs), page, files);
    if to <= |xs| && !(page == LAST_FILES_PAGE && files) && page < LAST_PAGE {
      FetchedSuffix(xs, page + 1, files);
      assert xs[from..to] + xs[to..] == xs[from..];
      if files { assert xs[from..to] + xs[to..Cut(xs)] == xs[from..Cut(xs)]; }
    } else if to > |xs| {
      assert xs[from..] == xs[from..|xs|];
    }
  }

  /**
   Over a fixed collection, pagination returns it whole and in order up to 999,999 items and raises
   beyond; the PR-files endpoint stops after 3,000 entries instead.
   */
  lemma PaginationBounds<T>(xs: seq<T>)
    ensures Fetched(Serving(xs), 1, false) == if |xs| <= 999_999 then Ok(xs) else Err("unbounded GitHub pagination")
    ensures Fetched(Serving(xs), 1, true) == Ok(if |xs| <= 3000 then xs else xs[..3000])
  {
    FetchedSuffix(xs, 1, false);
    FetchedSuffix(xs, 1, true);
    var end := Cut(xs);
    assert xs[0..] == xs && xs[0..end] == xs[..end] && (|xs| <= 3000 ==> xs[..end] == xs);
  }
}
