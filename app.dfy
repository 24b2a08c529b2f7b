/**
 * The request handlers of the review site (app.py:55-180) over an
 * in-memory store of the three tables. The signed-in user is passed
 * explicitly as an optional user id; page rendering and redirects are
 * reduced to the tags of `Response`.
 */
module App {
  import opened Wrappers
  import opened Records
  import opened Paths
  import opened Auth
  import opened Reviews
  import opened Aggregation

  /** The pages a handler can redirect to. */
  datatype Page = IndexPage | LoginPage | BusinessPage(id: nat)

  /** The ways a request ends in an error instead of a page. */
  datatype Failure =
    | NotFound              // get_or_404 on an unknown business id
    | KeyError(key: string) // a location tag the dashboard counter has no key for
    | IntegrityError        // the unique constraint on usernames rejected an insert

  /** What a handler answers: a redirect, a rendered view, or an error. */
  datatype Response<V> = Redirect(to: Page) | Render(view: V) | Abort(failure: Failure)

  /** What the business page shows (app.py:125-128). */
  datatype DetailView = DetailView(business: Business, reviews: seq<Review>, existing: Option<Review>)

  /** What the dashboard shows (app.py:176-180). */
  datatype DashboardView = DashboardView(
    business: Business,
    graphPaths: seq<(string, string)>,
    piePath: Option<string>,
    totalReviews: nat)

  /** The business with a given primary key, as `Business.query.get_or_404(id)` looks it up. */
  function BusinessById(businesses: seq<Business>, id: int): (r: Option<Business>)
    ensures r.Some? ==> r.value in businesses && r.value.id == id
    ensures r.None? ==> forall j :: 0 <= j < |businesses| ==> businesses[j].id != id
  {
    if |businesses| == 0 then None
    else if businesses[0].id == id then Some(businesses[0])
    else BusinessById(businesses[1..], id)
  }

  /** In a table whose ids are row numbers, the row with id `k + 1` is the `k`-th one. */
  lemma BusinessByRowId(businesses: seq<Business>, k: nat)
    requires forall i :: 0 <= i < |businesses| ==> businesses[i].id == i + 1
    requires k < |businesses|
    ensures BusinessById(businesses, k + 1) == Some(businesses[k])
  {
  }

  /**
   * The GET side of `business_detail` (app.py:97-106, 125-128): the business,
   * its reviews in table order and, for a signed-in caller, the caller's own
   * review of it, which prefills the form.
   */
  function DetailPage(businesses: seq<Business>, reviews: seq<Review>, current: Option<int>, id: nat): (resp: Response<DetailView>)
    ensures BusinessById(businesses, id).None? <==> resp == Abort(NotFound)
    ensures BusinessById(businesses, id).Some? ==> resp.Render?
    ensures resp.Render? ==>
      && resp.view.business.id == id && resp.view.business in businesses
      && resp.view.reviews == ReviewsOf(reviews, id)
      && (resp.view.existing.Some? <==>
            current.Some? && exists k :: FirstReviewBy(reviews, current.value, id, k))
      && (resp.view.existing.Some? ==>
            exists k :: FirstReviewBy(reviews, current.value, id, k) && resp.view.existing.value == reviews[k])
  {
    match BusinessById(businesses, id)
    case None => Abort(NotFound)
    case Some(business) =>
      var existing :=
        if current.None? then None
        else match FindReview(reviews, current.value, id)
          case Some(k) => Some(reviews[k])
          case None => None;
      Render(DetailView(business, ReviewsOf(reviews, id), existing))
  }

  /**
   * The table invariant of the store: ids are row numbers (the database
   * hands out the next integer and nothing is ever deleted), usernames are
   * unique, every reference names an existing row, and there is at most one
   * review per (user, business) pair.
   */
  predicate Consistent(users: seq<User>, businesses: seq<Business>, reviews: seq<Review>) {
    && (forall i :: 0 <= i < |users| ==> users[i].id == i + 1)
    && (forall i :: 0 <= i < |businesses| ==> businesses[i].id == i + 1)
    && (forall i :: 0 <= i < |reviews| ==> reviews[i].id == i + 1)
    && (forall i, j :: 0 <= i < j < |users| ==> users[i].username != users[j].username)
    && (forall i :: 0 <= i < |businesses| ==> 1 <= businesses[i].ownerId <= |users|)
    && (forall i :: 0 <= i < |reviews| ==>
          1 <= reviews[i].userId <= |users| && 1 <= reviews[i].businessId <= |businesses|)
    && Unique(reviews)
  }

  /** The database: the user, business and review tables. */
  class Store {
    var users: seq<User>
    var businesses: seq<Business>
    var reviews: seq<Review>

    ghost predicate Valid()
      reads this
    {
      Consistent(users, businesses, reviews)
    }

    /** A signed-in caller is a user of the table (the session loads it by id). */
    predicate SignedIn(current: Option<int>)
      reads this
    {
      current.Some? ==> 1 <= current.value <= |users|
    }

    /** A freshly created, empty database (app.py:184). */
    constructor ()
      ensures Valid()
      ensures users == [] && businesses == [] && reviews == []
    {
      users, businesses, reviews := [], [], [];
    }

    /**
     * The POST branch of register (app.py:57-64): a new user with the hash
     * of the password, then a redirect to the login page. A taken name
     * fails on the unique constraint and leaves the table as it was.
     */
    method Register(username: string, password: string, scheme: PasswordScheme) returns (resp: Response<()>)
      requires Valid()
      modifies this
      ensures Valid()
      ensures businesses == old(businesses) && reviews == old(reviews)
      ensures FindUser(old(users), username).Some? ==> resp == Abort(IntegrityError) && users == old(users)
      ensures FindUser(old(users), username).None? ==>
        && resp == Redirect(LoginPage)
        && users == old(users) + [User(|old(users)| + 1, username, scheme.hash(password))]
      ensures resp.Redirect? && Sound(scheme) ==>
        Login(users, username, password, scheme) == LoggedIn(|old(users)| + 1)
    {
      if FindUser(users, username).Some? {
        return Abort(IntegrityError);
      }
      ghost var before := users;
      users := users + [User(|users| + 1, username, scheme.hash(password))];
      if Sound(scheme) {
        RegisterThenLogin(before, username, password, scheme);
      }
      resp := Redirect(LoginPage);
    }

    /**
     * The POST branch of create_business (app.py:84-93): sign-in is required,
     * and the new business is always owned by the caller.
     */
    method CreateBusiness(current: Option<int>, name: string) returns (resp: Response<()>)
      requires Valid() && SignedIn(current)
      modifies this
      ensures Valid()
      ensures users == old(users) && reviews == old(reviews)
      ensures current.None? ==> resp == Redirect(LoginPage) && businesses == old(businesses)
      ensures current.Some? ==>
        && resp == Redirect(IndexPage)
        && businesses == old(businesses) + [Business(|old(businesses)| + 1, name, current.value)]
      ensures current.Some? ==>
        BusinessById(businesses, |businesses|) == Some(Business(|businesses|, name, current.value))
    {
      if current.None? {
        return Redirect(LoginPage);
      }
      businesses := businesses + [Business(|businesses| + 1, name, current.value)];
      BusinessByRowId(businesses, |businesses| - 1);
      resp := Redirect(IndexPage);
    }

    /**
     * The POST branch of business_detail (app.py:96-123). An unknown business
     * is not found. A caller who is not signed in gets the page and changes
     * nothing. A signed-in caller's submission overwrites that caller's
     * review of the business in place, or appends a new one, and leads back
     * to the business page.
     */
    method SubmitReview(current: Option<int>, id: nat, form: ReviewForm) returns (resp: Response<DetailView>)
      requires Valid() && SignedIn(current)
      modifies this
      ensures Valid()
      ensures users == old(users) && businesses == old(businesses)
      ensures BusinessById(businesses, id).None? ==> resp == Abort(NotFound) && reviews == old(reviews)
      ensures BusinessById(businesses, id).Some? && current.None? ==>
        && resp == DetailPage(businesses, old(reviews), current, id)
        && reviews == old(reviews)
      ensures BusinessById(businesses, id).Some? && current.Some? ==>
        && resp == Redirect(BusinessPage(id))
        && reviews == Upsert(old(reviews), current.value, id, form)
    {
      if BusinessById(businesses, id).None? {
        return Abort(NotFound);
      }
      if current.None? {
        return DetailPage(businesses, reviews, current, id);
      }
      var userId := current.value;
      UpsertPreservesUnique(reviews, userId, id, form);
      var existing := FindReview(reviews, userId, id);
      match existing {
        case Some(k) =>
          reviews := reviews[k := Fill(reviews[k], form)];
        case None =>
          reviews := reviews + [NewReview(|reviews| + 1, userId, id, form)];
      }
      resp := Redirect(BusinessPage(id));
    }

    /**
     * The dashboard (app.py:130-180). Sign-in is required; an unknown
     * business is not found; anybody but the owner is sent to the index and
     * sees no aggregate. For the owner: one histogram file per rating
     * category when the business has reviews and none otherwise, a pie chart
     * file exactly when it has reviews, and the number of its reviews. A
     * location tag outside the two known ones ends the request with KeyError.
     */
    method Dashboard(current: Option<int>, id: nat) returns (resp: Response<DashboardView>)
      ensures current.None? ==> resp == Redirect(LoginPage)
      ensures current.Some? && BusinessById(businesses, id).None? ==> resp == Abort(NotFound)
      ensures current.Some? ==> match BusinessById(businesses, id)
        case None => true
        case Some(b) => b.ownerId != current.value ==> resp == Redirect(IndexPage)
      ensures resp.Render? ==>
        && BusinessById(businesses, id) == Some(resp.view.business)
        && current == Some(resp.view.business.ownerId)
      ensures resp.Render? ==> var own := ReviewsOf(reviews, id);
        && resp.view.totalReviews == |own|
        && (|own| == 0 ==> resp.view.graphPaths == [] && resp.view.piePath == None)
        && (|own| > 0 ==>
              && resp.view.graphPaths
                 == [(Place, GraphPath(Place, id)), (Price, GraphPath(Price, id)),
                     (Install, GraphPath(Install, id)), (Service, GraphPath(Service, id))]
              && resp.view.piePath == Some(LocationPath(id)))
      ensures resp.Abort? && resp.failure.KeyError? ==>
        exists i :: FirstUnknown(ReviewsOf(reviews, id), i) && ReviewsOf(reviews, id)[i].location == resp.failure.key
      ensures current.Some? ==> match BusinessById(businesses, id)
        case None => true
        case Some(b) => b.ownerId == current.value ==>
          && (AllKnown(ReviewsOf(reviews, id)) ==> resp.Render?)
          && (!AllKnown(ReviewsOf(reviews, id)) ==> resp.Abort? && resp.failure.KeyError?)
    {
      if current.None? {
        return Redirect(LoginPage);
      }
      var found := BusinessById(businesses, id);
      if found.None? {
        return Abort(NotFound);
      }
      var business := found.value;
      if business.ownerId != current.value {
        return Redirect(IndexPage);
      }
      var own := ReviewsOf(reviews, id);
      var collected := Collect(own);
      if collected.Err? {
        return Abort(KeyError(collected.error));
      }
      var c := collected.value;
      var graphPaths := GraphPaths(Categories(c), id);
      LocationCountsSum(own);
      DashboardCharts(c, id);
      resp := Render(DashboardView(business, graphPaths, PiePath(c, id), |own|));
    }
  }

  /** A user registers and logs in; the same name cannot be registered twice. */
  method RegisterScenario() {
    var scheme := PasswordScheme(p => "h" + p, (h, p) => h == "h" + p);
    var store := new Store();
    var r := store.Register("ana", "secret", scheme);
    assert r == Redirect(LoginPage);
    assert scheme.hash("secret") == "hsecret";
    assert store.users == [User(1, "ana", "hsecret")];
    r := store.Register("ana", "other", scheme);
    assert r == Abort(IntegrityError);
    assert Login(store.users, "ana", "secret", scheme) == LoggedIn(1);
    assert Login(store.users, "ana", "other", scheme) == Rejected(BadCredentials);
  }

  /**
   * An owner opens a business, another user reviews it twice, and the
   * owner's dashboard shows one review; the reviewer is turned away from it.
   */
  method ReviewScenario(scheme: PasswordScheme, form: ReviewForm, again: ReviewForm)
    requires KnownLocation(form.location) && KnownLocation(again.location)
  {
    var store := new Store();
    var r := store.Register("ana", "x", scheme);
    r := store.Register("luis", "y", scheme);
    assert |store.users| == 2;
    r := store.CreateBusiness(Some(1), "Cafe");
    assert store.businesses == [Business(1, "Cafe", 1)];
    var view := store.Dashboard(Some(1), 1);
    assert view.Render? && view.view.totalReviews == 0 && view.view.graphPaths == [];

    var d := store.SubmitReview(Some(2), 1, form);
    assert store.reviews == [NewReview(1, 2, 1, form)];
    d := store.SubmitReview(Some(2), 1, again);
    assert store.reviews == [NewReview(1, 2, 1, again)];
    assert store.reviews == [] + [NewReview(1, 2, 1, again)];
    ReviewsOfAppend([], NewReview(1, 2, 1, again), 1);
    view := store.Dashboard(Some(1), 1);
    assert view.Render? && view.view.totalReviews == 1 && view.view.piePath == Some(LocationPath(1));

    view := store.Dashboard(Some(2), 1);
    assert view == Redirect(IndexPage);
  }
}
