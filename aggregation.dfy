/**
 * The data side of the owner dashboard (app.py:138-180): the loop that
 * gathers one rating list per category and counts the two location tags,
 * the loop that names one histogram per non-empty category, and the pie
 * chart decision. The charts themselves are not modelled, only their files' names.
 */
module Aggregation {
  import opened Wrappers
  import opened Records
  import opened Paths

  const Place: string := "Lugar"
  const Price: string := "Precio"
  const Install: string := "Instalaciones"
  const Service: string := "Servicio"

  const Convenient: string := "Conveniente"
  const NotConvenient: string := "No conveniente"

  /** The two keys of the location counter (app.py:147); any other tag raises KeyError. */
  predicate KnownLocation(location: string) {
    location == Convenient || location == NotConvenient
  }

  /** Every review carries one of the two known location tags. */
  predicate AllKnown(reviews: seq<Review>) {
    forall i :: 0 <= i < |reviews| ==> KnownLocation(reviews[i].location)
  }

  /** What the first loop gathers: the four rating lists and the two location counts. */
  datatype Collected = Collected(
    place: seq<int>,
    price: seq<int>,
    install: seq<int>,
    service: seq<int>,
    convenient: nat,
    notConvenient: nat)

  /** The outcome of the first loop: the collected data, or the tag that raised KeyError. */
  type Tally = Result<Collected, string>

  /** The number of reviews tagged with `location`. */
  function CountLocation(reviews: seq<Review>, location: string): nat {
    if reviews == [] then 0
    else CountLocation(reviews[..|reviews| - 1], location)
         + (if reviews[|reviews| - 1].location == location then 1 else 0)
  }

  /** The four lists of `c` hold one rating per review, in review order. */
  predicate Gathered(c: Collected, reviews: seq<Review>) {
    && |c.place| == |c.price| == |c.install| == |c.service| == |reviews|
    && forall i :: 0 <= i < |reviews| ==>
         && c.place[i] == reviews[i].ratingPlace && c.price[i] == reviews[i].ratingPrice
         && c.install[i] == reviews[i].ratingInstall && c.service[i] == reviews[i].ratingService
  }

  /** Review `i` is the first whose location tag is neither key. */
  predicate FirstUnknown(reviews: seq<Review>, i: int) {
    && 0 <= i < |reviews|
    && !KnownLocation(reviews[i].location)
    && forall j :: 0 <= j < i ==> KnownLocation(reviews[j].location)
  }

  /**
   * The first dashboard loop (app.py:149-154). Each category list holds one
   * entry per review, in review order; each counter holds the number of
   * reviews with its tag. The loop stops with KeyError, carrying the tag, at
   * the first review whose location is neither key.
   */
  method Collect(reviews: seq<Review>) returns (r: Tally)
    ensures r.Ok? <==> AllKnown(reviews)
    ensures r.Err? ==> exists i :: FirstUnknown(reviews, i) && r.error == reviews[i].location
    ensures r.Ok? ==> Gathered(r.value, reviews)
    ensures r.Ok? ==> r.value.convenient == CountLocation(reviews, Convenient)
    ensures r.Ok? ==> r.value.notConvenient == CountLocation(reviews, NotConvenient)
  {
    var place, price, install, service := [], [], [], [];
    var convenient, notConvenient := 0, 0;
    var i := 0;
    while i < |reviews|
      invariant 0 <= i <= |reviews|
      invariant |place| == |price| == |install| == |service| == i
      invariant forall j :: 0 <= j < i ==>
        && place[j] == reviews[j].ratingPlace && price[j] == reviews[j].ratingPrice
        && install[j] == reviews[j].ratingInstall && service[j] == reviews[j].ratingService
      invariant forall j :: 0 <= j < i ==> KnownLocation(reviews[j].location)
      invariant convenient == CountLocation(reviews[..i], Convenient)
      invariant notConvenient == CountLocation(reviews[..i], NotConvenient)
    {
      var review := reviews[i];
      place := place + [review.ratingPlace];
      price := price + [review.ratingPrice];
      install := install + [review.ratingInstall];
      service := service + [review.ratingService];
      assert reviews[..i + 1][..i] == reviews[..i];
      if review.location == Convenient {
        convenient := convenient + 1;
      } else if review.location == NotConvenient {
        notConvenient := notConvenient + 1;
      } else {
        assert FirstUnknown(reviews, i);
        return Err(review.location);
      }
      i := i + 1;
    }
    assert reviews[..i] == reviews;
    r := Ok(Collected(place, price, install, service, convenient, notConvenient));
    assert Gathered(r.value, reviews);
  }

  /** When every tag is one of the two keys, the two counts together count every review. */
  lemma {:induction false} LocationCountsSum(reviews: seq<Review>)
    requires AllKnown(reviews)
    ensures CountLocation(reviews, Convenient) + CountLocation(reviews, NotConvenient) == |reviews|
  {
    if reviews != [] {
      LocationCountsSum(reviews[..|reviews| - 1]);
    }
  }

  /** The `categories` dictionary (app.py:140-145) as its items, in insertion order. */
  function Categories(c: Collected): seq<(string, seq<int>)> {
    [(Place, c.place), (Price, c.price), (Install, c.install), (Service, c.service)]
  }

  /** The `graph_paths` entries for the categories in order: one per category that has data. */
  function ChartEntries(categories: seq<(string, seq<int>)>, id: nat): seq<(string, string)> {
    if categories == [] then []
    else
      var last := categories[|categories| - 1];
      ChartEntries(categories[..|categories| - 1], id)
        + (if last.1 != [] then [(last.0, GraphPath(last.0, id))] else [])
  }

  /** The second dashboard loop (app.py:156-165), which fills `graph_paths` in category order. */
  method GraphPaths(categories: seq<(string, seq<int>)>, id: nat) returns (paths: seq<(string, string)>)
    ensures paths == ChartEntries(categories, id)
  {
    paths := [];
    var i := 0;
    while i < |categories|
      invariant 0 <= i <= |categories|
      invariant paths == ChartEntries(categories[..i], id)
    {
      var (category, data) := categories[i];
      assert categories[..i + 1][..i] == categories[..i];
      if data != [] {
        paths := paths + [(category, GraphPath(category, id))];
      }
      i := i + 1;
    }
    assert categories[..i] == categories;
  }

  /**
   * Every chart entry is named after a category that has data and points
   * at that category's file; every category with data gets an entry.
   */
  lemma {:induction false} ChartEntriesSound(categories: seq<(string, seq<int>)>, id: nat)
    ensures var entries := ChartEntries(categories, id);
      && |entries| <= |categories|
      && (forall e :: e in entries ==> e.1 == GraphPath(e.0, id) && exists c :: c in categories && c.0 == e.0 && c.1 != [])
      && (forall c :: c in categories && c.1 != [] ==> (c.0, GraphPath(c.0, id)) in entries)
  {
    if categories != [] {
      var init := categories[..|categories| - 1];
      ChartEntriesSound(init, id);
      assert categories == init + [categories[|categories| - 1]];
    }
  }

  /**
   * With the four lists of equal length, `graph_paths` has all four
   * categories, in order, each with its file, when there is at least one
   * review, and is empty when there is none.
   */
  lemma DashboardCharts(c: Collected, id: nat)
    requires |c.place| == |c.price| == |c.install| == |c.service|
    ensures |c.place| == 0 ==> ChartEntries(Categories(c), id) == []
    ensures |c.place| > 0 ==>
      ChartEntries(Categories(c), id)
      == [(Place, GraphPath(Place, id)), (Price, GraphPath(Price, id)),
          (Install, GraphPath(Install, id)), (Service, GraphPath(Service, id))]
  {
    var cats := Categories(c);
    var e1 := if c.place != [] then [(Place, GraphPath(Place, id))] else [];
    var e2 := if c.price != [] then [(Price, GraphPath(Price, id))] else [];
    var e3 := if c.install != [] then [(Install, GraphPath(Install, id))] else [];
    var e4 := if c.service != [] then [(Service, GraphPath(Service, id))] else [];
    assert cats[..1][..0] == [];
    assert ChartEntries(cats[..1], id) == e1;
    assert cats[..2][..1] == cats[..1];
    assert ChartEntries(cats[..2], id) == e1 + e2;
    assert cats[..3][..2] == cats[..2];
    assert ChartEntries(cats[..3], id) == e1 + e2 + e3;
    assert cats[..3] == cats[..|cats| - 1];
    assert ChartEntries(cats, id) == e1 + e2 + e3 + e4;
  }

  /** The pie chart file, set only when the location counts sum to more than zero (app.py:167-174). */
  function PiePath(c: Collected, id: nat): Option<string> {
    if c.convenient + c.notConvenient > 0 then Some(LocationPath(id)) else None
  }
}
