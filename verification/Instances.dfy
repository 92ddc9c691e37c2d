/** Finding the instances a pool still has, page by page. */
module Instances {
  import opened Results

  /** An instance as EC2 returns it; either field may be absent. */
  datatype Instance = Instance(id: Option<string>, state: Option<string>)

  type Reservation = seq<Instance>
  type Page = seq<Reservation>

  const TERMINATED := "terminated"

  predicate Counts(i: Instance) {
    i.id.Some? && i.state.Some? && i.state.value != TERMINATED
  }

  function InReservation(r: Reservation): seq<string> {
    if r == [] then []
    else InReservation(r[..|r| - 1]) + (if Counts(r[|r| - 1]) then [r[|r| - 1].id.value] else [])
  }

  function InPage(p: Page): seq<string> {
    if p == [] then [] else InPage(p[..|p| - 1]) + InReservation(p[|p| - 1])
  }

  function InPages(pages: seq<Page>): seq<string> {
    if pages == [] then [] else InPages(pages[..|pages| - 1]) + InPage(pages[|pages| - 1])
  }

  /** `pages` are what the paginator will return for the tag filters; `failsAt` is the page whose request fails. */
  method GetNonTerminatedInstancesByTags(tags: map<string, string>, pages: seq<Page>, failsAt: Option<nat>)
    returns (r: Result<seq<string>>)
    ensures r.Ok? ==> r.value == InPages(pages)
    ensures r.Ok? <==> tags != map[] && (failsAt.Some? ==> failsAt.value >= |pages|)
  {
    if tags == map[] {
      return Err(Failed);
    }
    var ids: seq<string> := [];
    var next := 0;
    while next < |pages|
      invariant next <= |pages| && ids == InPages(pages[..next])
      invariant failsAt.Some? ==> next <= failsAt.value
    {
      if failsAt == Some(next) {
        return Err(Failed);
      }
      var page := pages[next];
      for i := 0 to |page|
        invariant ids == InPages(pages[..next]) + InPage(page[..i])
      {
        var reservation := page[i];
        for j := 0 to |reservation|
          invariant ids == InPages(pages[..next]) + InPage(page[..i]) + InReservation(reservation[..j])
        {
          assert reservation[..j + 1][..j] == reservation[..j];
          if Counts(reservation[j]) {
            ids := ids + [reservation[j].id.value];
          }
        }
        assert reservation[..|reservation|] == reservation;
        assert page[..i + 1][..i] == page[..i];
      }
      assert page[..|page|] == page;
      assert pages[..next + 1][..next] == pages[..next];
      next := next + 1;
    }
    assert pages[..next] == pages;
    r := Ok(ids);
  }

  /** An instance that EC2 shows with an id and a state other than terminated. */
  predicate Runs(i: Instance, id: string) {
    i.id == Some(id) && i.state.Some? && i.state.value != "terminated"
  }

  /** Some page shows the instance running, stopping, stopped or about to run. */
  ghost predicate Shown(pages: seq<Page>, id: string) {
    exists p, r, i :: p in pages && r in p && i in r && Runs(i, id)
  }

  lemma {:induction false} ReservationShows(r: Reservation, id: string)
    ensures id in InReservation(r) <==> exists i :: i in r && Runs(i, id)
  {
    if r != [] {
      var last := r[|r| - 1];
      ReservationShows(r[..|r| - 1], id);
      assert r == r[..|r| - 1] + [last];
      assert last in r && (Runs(last, id) <==> Counts(last) && last.id.value == id);
    }
  }

  lemma {:induction false} PageShows(p: Page, id: string)
    ensures id in InPage(p) <==> exists r, i :: r in p && i in r && Runs(i, id)
  {
    if p != [] {
      PageShows(p[..|p| - 1], id);
      ReservationShows(p[|p| - 1], id);
      assert p == p[..|p| - 1] + [p[|p| - 1]];
    }
  }

  /** The result holds exactly the instances shown. */
  lemma {:induction false} ListsTheShown(pages: seq<Page>, id: string)
    ensures id in InPages(pages) <==> Shown(pages, id)
  {
    if pages != [] {
      ListsTheShown(pages[..|pages| - 1], id);
      PageShows(pages[|pages| - 1], id);
      assert pages == pages[..|pages| - 1] + [pages[|pages| - 1]];
    }
  }

  /** So it is empty, and the gate opens, exactly when no page shows an instance that is not terminated. */
  lemma EmptyIffNoneRuns(pages: seq<Page>)
    ensures InPages(pages) == [] <==> forall id :: !Shown(pages, id)
  {
    if InPages(pages) != [] {
      ListsTheShown(pages, InPages(pages)[0]);
    }
    forall id ensures Shown(pages, id) ==> InPages(pages) != [] {
      ListsTheShown(pages, id);
    }
  }
}
