# Review site: a verified model of its data logic

This project models the data logic of a small review site (`app.py`),
with the web framework, the database layer and the charting left out.
Users register and log in. A signed-in user opens a business and becomes its owner.
Any signed-in user can rate a business on four categories (place, price,
installations, service), tag its location and leave a comment. Each user has
at most one review per business, and a second submission overwrites the first.
The owner's dashboard gathers the business's reviews into four rating lists
and a count of the two location tags. From those it decides which chart files
the page links to.

Modules, one file each:

- `Wrappers` (`wrappers.dfy`): `Option` and `Result`.
- `Records` (`records.dfy`): the `User`, `Business` and `Review` rows and the submitted `ReviewForm`.
- `Paths` (`paths.dfy`): the decimal form of an id and the chart file names `static/graphs/{category}_{id}.png` and `static/graphs/location_{id}.png`.
- `Auth` (`auth.dfy`): the first-user-by-name lookup and the login check. Password hashing is a `PasswordScheme`, a pair of functions `hash` and `check`. The model assumes only `Sound`: `check(hash(p), p)` holds for every password `p`.
- `Reviews` (`reviews.dfy`): the caller's-review lookup, the per-business filter and `Upsert`. `Upsert` is the table that results from a submission. The lemmas about it state what the handler promises.
- `Aggregation` (`aggregation.dfy`): the two dashboard loops as methods (`Collect`, `GraphPaths`), proved against the reference functions `CountLocation` and `ChartEntries`, and `PiePath`.
- `App` (`app.dfy`): the `Store` class with the three tables as `seq` fields, which its methods reassign. It has the handlers `Register`, `CreateBusiness`, `SubmitReview` and `Dashboard`, and the page view `DetailPage`. `Consistent` is the table invariant every state-changing handler keeps:
  - ids are row numbers;
  - usernames are unique;
  - every reference names an existing row;
  - there is at most one review per (user, business).

  Two client methods, `RegisterScenario` and `ReviewScenario`, step through a session of the site, and verify from the handlers' contracts alone.

Conventions of the model:

- The signed-in user is an explicit `Option<int>` user id. A page is a `Response`: either `Redirect` to a page, `Render` of a view, or `Abort` with `NotFound`, `KeyError` or `IntegrityError`.
- The database hands out ids as the next integer, and no deletion exists. So the row at position `k` has id `k + 1`, and a new row gets `|table| + 1`.
- Queries without an ordering (`filter_by(...).all()`, `.first()`) return rows in table order.
- `graph_paths`, a Python dict, is an insertion-ordered sequence of (category, path) pairs. The four category names are distinct, so this is the same thing.
- The username column is declared `unique=True` (app.py:25), but `register` checks nothing before inserting. The location counter has only the two keys "Conveniente" and "No conveniente" (app.py:147), but the review submission stores any location string, and an unknown one makes the dashboard raise `KeyError`. A duplicate username fails only on the database's unique constraint, as an unhandled error. The model follows the code: `SubmitReview` stores any location, `Dashboard` aborts with `KeyError`, and `Register` aborts with `IntegrityError` and leaves the table as it was.

## Model

| member | source | states |
|---|---|---|
| `Paths.NatToString` | app.py:162 | the id as it appears in a file name is a non-empty string of decimal digits, starting with `0` only for id 0 |
| `Paths.NatToStringRoundTrip` | app.py:162 | reading the decimal form back gives the id, so the form is unambiguous |
| `Paths.GraphPath` | app.py:162 | the histogram file name `static/graphs/{category}_{id}.png`; `GraphPathInjective` and `Store.Dashboard` state its properties |
| `Paths.LocationPath` | app.py:172 | the pie chart file name `static/graphs/location_{id}.png`; `LocationPathInjective` and `Store.Dashboard` state its properties |
| `Paths.GraphPathInjective` | app.py:162 | two businesses never share the histogram file of a category |
| `Paths.LocationPathInjective` | app.py:172 | two businesses never share the pie chart file |
| `Auth.FindUser` | app.py:70 | the lookup returns the position of the first user with the name, and nothing exactly when no user has it |
| `Auth.FindUserIs` | app.py:70 | the first user with a name is the one the lookup returns |
| `Auth.Login` | app.py:67-75 | login succeeds exactly when the FIRST user with the name has a stored hash that verifies against the password, and then logs in that user's id; otherwise it flashes "Credenciales incorrectas" |
| `Auth.RegisterThenLogin` | app.py:57-64 | with a sound hash scheme, a user appended under an unused name logs in straight away with the same password, as the new id |
| `Auth.LoginUnknownUser` | app.py:70-74 | a name no user has is rejected whatever the password |
| `Reviews.FindReview` | app.py:101-106 | the lookup returns the position of the first review by (user, business), and nothing exactly when there is none |
| `Reviews.FindReviewIs` | app.py:103-106 | the first review by a pair is the one the lookup returns |
| `Reviews.Upsert` | app.py:109-122 | the table after a submission; what it computes is stated by `UpsertUpdatesInPlace`, `UpsertAppendsNew`, `UpsertThenFind`, `UpsertPreservesUnique`, `LastSubmissionWins` and `UpsertReviewCount` |
| `Reviews.ReviewsOf` | app.py:99 | the filtered list contains the business's reviews and only them, all from the table |
| `Reviews.ReviewsOfConcat` | app.py:99 | filtering a table split in two gives the two filtered parts one after the other, so the filter keeps table order |
| `Reviews.ReviewsOfCounts` | app.py:99 | every row of the business occurs in the filtered list exactly as often as in the table, and no row of another business occurs; so its length is the business's number of reviews |
| `Reviews.UpsertUpdatesInPlace` | app.py:109-110 | when the caller already has a review, the table keeps its length; that row keeps its id and keys and holds exactly the six submitted fields; every other row is unchanged |
| `Reviews.UpsertAppendsNew` | app.py:111-122 | when the caller has no review, exactly one row is appended, with the next id, `user_id` the caller, `business_id` the business and the six submitted fields; the earlier rows are unchanged |
| `Reviews.UpsertThenFind` | app.py:103-122 | after a submission, the caller's review of the business is found and holds exactly what was submitted |
| `Reviews.UpsertPreservesUnique` | app.py:103-112 | a submission keeps "at most one review per (user_id, business_id)" |
| `Reviews.LastSubmissionWins` | app.py:103-122 | two submissions by the same user for the same business leave the table exactly as the second one alone would |
| `Reviews.ReviewsOfUpdate` | app.py:99 | rewriting a row in place, keeping its business, keeps every business's review count |
| `Reviews.UpsertReviewCount` | app.py:99-122 | a submission adds one review to its business exactly when the caller had none there, and changes no other business's count |
| `Reviews.ResubmitKeepsCount` | app.py:99-122 | a second submission by the same user never raises the business's review count |
| `Aggregation.Collect` | app.py:140-154 | each category list has one entry per review, in review order, with that review's rating; each location counter is the number of reviews with its tag; the loop fails with KeyError, carrying the tag, exactly when some tag is neither key, at the first such review |
| `Aggregation.LocationCountsSum` | app.py:147-154 | when every tag is "Conveniente" or "No conveniente", the two counts sum to the number of reviews |
| `Aggregation.GraphPaths` | app.py:156-165 | the loop yields the chart entries of the categories in order, leaving out those with no data |
| `Aggregation.ChartEntriesSound` | app.py:158-165 | every entry names a category that has data and points at that category's file; every category with data has an entry; there are no more entries than categories |
| `Aggregation.DashboardCharts` | app.py:140-165 | with four lists of equal length, `graph_paths` is empty for no reviews, and otherwise holds exactly the four categories in order with their files |
| `Aggregation.PiePath` | app.py:167-174 | the pie chart file is set only when the location counts sum to more than zero; `Store.Dashboard` states that for the owner's view it is absent exactly when the business has no reviews |
| `App.BusinessById` | app.py:98 | the lookup by primary key returns a business of the table with that id, and nothing exactly when no business has it |
| `App.BusinessByRowId` | app.py:98 | when ids are row numbers, the business with id `k + 1` is row `k` |
| `App.DetailPage` | app.py:96-128 | an unknown business is not found and a known one is always rendered; the page shows that business and its reviews, and the caller's own review exactly when the caller is signed in and has one; that review is the first one by (caller, business) in the table, as `.first()` returns it |
| `App.Store.constructor` | app.py:184 | a fresh database starts with three empty tables, which satisfy the table invariant |
| `App.Store.Register` | app.py:55-64 | a taken name fails with the table unchanged; otherwise one user is appended with the next id and the hash of the password, the other tables are unchanged, the invariant is kept, and that user can log in with that password |
| `App.Store.CreateBusiness` | app.py:83-93 | a caller who is not signed in is sent to login with nothing changed; otherwise one business is appended whose owner is always the caller, and it can be found by its new id; the other tables are unchanged |
| `App.Store.SubmitReview` | app.py:96-123 | an unknown business is not found and nothing changes; a caller who is not signed in gets the business page and nothing changes; a signed-in caller's review table becomes `Upsert` of the old one and the response leads back to the business page; users and businesses never change; the invariant is kept |
| `App.Store.Dashboard` | app.py:130-180 | a caller who is not signed in goes to login; an unknown business is not found; anyone but the owner is sent to the index and gets no aggregate; only the owner gets the view; for the owner, the view is produced when every tag is known, and otherwise the request fails with a KeyError carrying the tag of the first of the business's reviews whose tag is unknown; `total_reviews` is the number of the business's reviews; with no reviews `graph_paths` is empty and `pie_path` is absent; with reviews both are set to their files |

## Left out

- Flask routing, templates, `redirect`/`url_for` and `flash`: only the `Response` tags and the flash text are modelled. The GET branches that just render a form (register, login, create_business) are not modelled.
- The `index` handler (app.py:50-53) returns the whole business table; it has no logic to state.
- `logout` and all of flask_login's session handling (`login_user`, `logout_user`, `load_user`): the signed-in user is a parameter. `Login` returns the id a session would hold.
- `Auth.Login`: werkzeug's hashing is a foreign, cryptographic call. It is the `PasswordScheme` parameter, and only `check(hash(p), p)` is assumed of it. Werkzeug salts each hash at random; the model's `hash` is a fixed function, so it does not capture that two registrations of one password store different hashes.
- SQLAlchemy sessions, commits, transactions and concurrent requests: each handler is one atomic step on the store. A failing insert (the username constraint) leaves the table as it was.
- `int()` parsing of the rating fields: ratings arrive as integers. No 1-10 range is checked, because the code checks none. The model assumes every form field is present, although a missing key in `request.form` aborts register, login, create_business and the review submission with a 400 response. It also assumes every rating fits SQLite's 64-bit INTEGER column, although a larger one fails at commit. It also assumes every business id in a URL fits a 64-bit INTEGER. A larger one makes the lookup fail with an unhandled OverflowError, not a 404.
- matplotlib: histogram binning, the pie percentages (floating point), `savefig` and `os.makedirs`. Only the file names the page links to are modelled.
- `App.DetailPage`, `App.Store.SubmitReview`, `App.Store.Dashboard`: an unknown id is answered with not found only for ids within SQLite's 64-bit INTEGER range. A wider id, which Werkzeug's `<int:id>` converter admits (app.py:96, app.py:130), makes `get_or_404` fail with an unhandled OverflowError (a 500 response). The model does not capture that error.
- The overwrite race between concurrent dashboard views of one business: it is about concurrency.
