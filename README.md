# do_good microblog: a Dafny model of its follow graph, feed and login bookkeeping

do_good is a small Flask/SQLAlchemy microblog. Users register, log in, post
short texts, follow each other and read a feed. This project models the part
of it that holds decisions and state changes:

- the `followers` association table and `User.follow`, `User.unfollow`,
  `User.is_following` (`models.dfy`, module `Models`);
- the feed query `User.followed_posts`: the union of one's own posts and the
  posts of the followed users, newest first (`Models.FollowedPosts`);
- `User.set_location`, which records the login address and, when the address
  is new and the GeoIP lookup succeeds, the eight geolocation columns
  (`Models.User.SetLocation`, specified by `Models.Relocate`);
- the handlers of `app/routes.py` that change state or decide something:
  posting on the index page, login (with its rejection paths and the
  `next` redirect check), registration, follow and unfollow (`routes.dfy`,
  module `Routes`);
- the two string operations those handlers rely on: Python's `str.rpartition`,
  which takes the client address out of the first `X-Forwarded-For` value,
  and the network location of a URL (section 3.2 of RFC 3986), which decides
  whether `next` is followed (`urls.dfy`, module `Urls`).

The database is a `Routes.Db` object: the `user` table is a sequence of
`Models.User` objects, the `post` table a sequence of `Models.Post` values,
and the `followers` table a `Models.FollowersTable` object holding a sequence
of `(follower, followed)` rows. Ids are auto-incremented from 1 and no user or
post row is ever deleted, so `Db.Valid()` says that row `i` has id `i + 1`. The
`followers` table holds no duplicate rows (`FollowersTable.Valid()`), and
follow and unfollow keep it that way.

A request arrives as plain parameters. These are the `X-Forwarded-For`
values (empty when the header is absent), the peer address, the validated
form (`None` when `validate_on_submit` fails) and the `next` argument. The
clock (`now`), the password check, the password hash and the GeoIP2 reader
are parameters too. The reader is a function from an address to an optional
`Location`, where `None` stands for the exception that `reader.city` raises.
A handler returns a `Routes.Response`, either a redirect or a rendered page.

The `username` and `email` columns are declared `unique` (app/models.py:20-21),
so `Db.Valid()` also says that no two users share a name or an e-mail address.
A registration that would break this makes the commit fail. The session is
rolled back and the 500 page is shown (app/errors.py:9-12), and `Register`
models exactly that.

SQL leaves the order of posts with equal timestamps open. `FollowedPosts`
picks one order, and its contract promises only the sorting.

## Model

| member | source | states |
|---|---|---|
| `Models.CountRowsPositive` | app/models.py:65-67 | the `count()` of rows equal to an edge is positive exactly when such a row exists |
| `Models.IsFollowing` | app/models.py:65-67 | `is_following` is true if and only if the row (follower, followed) is in the table |
| `Models.RemoveFirst` | app/models.py:61-63 | removing a row takes exactly one copy of the edge out of the table's multiset of rows, and leaves the table as it was when the edge is absent |
| `Models.FollowRows` | app/models.py:57-59 | after `follow` the edge is present, every other edge is present exactly when it was before, and a duplicate-free table stays duplicate-free |
| `Models.UnfollowRows` | app/models.py:61-63 | after `unfollow` on a duplicate-free table the edge is absent and the table stays duplicate-free; every other edge is present exactly when it was before |
| `Models.FollowIdempotent` | app/models.py:57-59 | following twice leaves the same table as following once: no duplicate row |
| `Models.UnfollowIdempotent` | app/models.py:61-63 | unfollowing twice leaves the same table as unfollowing once |
| `Models.UnfollowUndoesFollow` | app/models.py:57-63 | unfollowing a user one has just started to follow restores the table row for row |
| `Models.FollowKeepsNoSelfFollow` | app/routes.py:144-147 | a follow whose two ends differ adds no self-follow row |
| `Models.FeedRows` | app/models.py:70-73 | the union of the two queries holds each post of the table as often as the table does when the user wrote it or follows its author, and not at all otherwise |
| `Models.InsertByTimestamp` | app/models.py:74 | inserting a post into a newest-first list adds exactly that post and keeps the list newest-first |
| `Models.SortByTimestampDesc` | app/models.py:74 | `order_by(timestamp.desc())` returns a permutation of its input, sorted by non-increasing timestamp |
| `Models.FollowedPosts` | app/models.py:69-74 | the feed holds exactly the posts of the table whose author is the user or is followed by the user, each once when the table's rows are distinct, ordered by non-increasing timestamp |
| `Models.FeedExample` | app/models.py:69-74 | alice follows bob: bob's post is in alice's feed, the post of carol (not followed) is not |
| `Models.Relocate` | app/models.py:76-102 | the current address becomes the new one; the last address becomes the previous current one if that was non-empty, else the new one; the geolocation columns change only when the address changed and the lookup succeeded, and then take the looked-up values |
| `Models.RelocateAgain` | app/models.py:76-82 | a second login from the same address consults no lookup, keeps the geolocation columns and leaves both address columns at that address |
| `Models.FollowersTable.constructor` | app/models.py:12-15 | the `followers` table starts empty and duplicate-free |
| `Models.User.constructor` | app/models.py:18-34 | a new user has the given id, name, e-mail and password hash and no address or geolocation recorded |
| `Models.User.SetLocation` | app/models.py:76-102 | the user's address and geolocation columns become `Relocate` of their old values; no other column changes |
| `Models.User.Follow` | app/models.py:57-59 | the table becomes `FollowRows` of the old one with the edge (self, user), stays duplicate-free, and `is_following(user)` holds afterwards |
| `Models.User.Unfollow` | app/models.py:61-63 | the table becomes `UnfollowRows` of the old one with the edge (self, user), stays duplicate-free, and `is_following(user)` is false afterwards |
| `Urls.RPartition` | app/routes.py:46 | `rpartition(' ')` gives (head, separator, tail) whose concatenation is the input; the tail holds no space; the separator is missing only when the input has no space, and then the head is empty |
| `Urls.AfterScheme` | app/routes.py:69 | dropping the scheme leaves a suffix of the URL, and anything it drops is a scheme followed by ':' (with `AfterSchemeOf`, which gives the value when there is a scheme, this fixes the result) |
| `Urls.Authority` | app/routes.py:69 | text that does not start with "//" has an empty authority; text that does has the authority right after the "//", followed by nothing or by '/', '?' or '#'; the authority holds none of those three characters |
| `Urls.Netloc` | app/routes.py:69 | a URL's network location is the authority after its optional scheme and holds none of '/', '?', '#'; the lemmas below fix its value for every URL |
| `Urls.AfterSchemeOf` | app/routes.py:69 | a URL "scheme:rest" loses exactly its scheme and colon |
| `Urls.NetlocOfProtocolRelative` | app/routes.py:69 | the network location of "//host..." is the host |
| `Urls.NetlocOfAbsolute` | app/routes.py:69 | the network location of "scheme://host..." is the host |
| `Urls.NetlocOfLocalPath` | app/routes.py:69 | a path "/x" that does not start with "//" has an empty network location |
| `Urls.NetlocNamesHost` | app/routes.py:69 | a non-empty network location stands right after a leading "//" or after "scheme://"; every other URL has none |
| `Urls.NetlocOfSchemeWithoutAuthority` | app/routes.py:69 | "scheme:rest" with no "//" after the colon (such as "https:evil.com") has no network location |
| `Urls.NetlocOfRelativeReference` | app/routes.py:69 | a relative reference such as "a/b", "?x" or "/x" that does not start with "//" has no network location |
| `Routes.ClientAddress` | app/routes.py:44-48 | with `X-Forwarded-For` present the client address is the suffix of its first value after the last space: it holds no space, is preceded by a space when shorter than the value, and is the whole value when the value has no space; without the header it is the peer address, or "untrackable" when there is none (the same code is at app/routes.py:83-87) |
| `Routes.RedirectTarget` | app/routes.py:68-71 | the login redirect goes to `next` if and only if `next` is non-empty and its network location is empty; otherwise it goes to the index |
| `Routes.RedirectStaysOnSite` | app/routes.py:68-71 | a `next` of the form "//host..." or "scheme://host..." with a non-empty host is never followed |
| `Routes.RedirectFollowsLocalPath` | app/routes.py:68-71 | a `next` that is a path on this site is followed |
| `Routes.RedirectRefusedOnlyForHost` | app/routes.py:68-71 | a non-empty `next` goes to the index only when it names a host after "//" or "scheme://" |
| `Routes.FirstNamed` | app/routes.py:57 | the index found is that of the first user with the name, or the table's length when no user has it |
| `Routes.FindUser` | app/routes.py:57 | `filter_by(username=...).first()` returns a user of the table with that name, and None exactly when no user has the name |
| `Routes.FindUserUnique` | app/routes.py:57 | with the names unique, looking up a user's name finds that user |
| `Routes.NumberedPostsDistinct` | app/models.py:105-109 | posts numbered consecutively are pairwise distinct, so the feed holds each post once |
| `Routes.SameIdSameUser` | app/models.py:18-19 | in a valid database two users with the same primary key are the same object |
| `Routes.Index` | app/routes.py:21-39 | a submitted post appends exactly one post, with the next id, the body, the time and the current user as author, and redirects to the index; otherwise nothing changes and the page shows the current user's feed, each post once |
| `Routes.Login` | app/routes.py:42-72 | an authenticated user stays logged in, has the client address recorded and goes to the index; an unknown name or a wrong password redirects to the login page, authenticates nobody and records no address; a correct pair logs that user in, records the address for that user only and redirects to `RedirectTarget(next)` |
| `Routes.Register` | app/routes.py:81-103 | an authenticated user has the address recorded and goes to the index; a validated form whose name or e-mail is already in use adds no user and shows the 500 page; any other validated form appends exactly one fresh user with the next id, the form's name and e-mail, the hashed password and the client address recorded, and redirects to the login page; no other user changes |
| `Routes.Follow` | app/routes.py:137-150 | an unknown name redirects to the index and one's own name to one's page, both leaving the table unchanged; any other user is followed afterwards, only that edge is added, and no self-follow row is ever created |
| `Routes.Unfollow` | app/routes.py:152-165 | an unknown name redirects to the index and one's own name to one's page, both leaving the table unchanged; any other user is not followed afterwards and only that edge is removed |

## Left out

- The GeoIP2 reader and its `.mmdb` format (app/models.py:83-102) are a foreign library. The lookup is a function parameter returning an optional `Location`. A failure to open the database file, which raises outside the `try`, is not modelled.
- Latitude and longitude are floats in the lookup result. The model keeps them as opaque optional strings.
- Password hashing and checking (app/models.py:47-51) are werkzeug calls. They are the parameters `hashPassword` and `checkPassword`.
- The gravatar URL (app/models.py:53-55) and `__repr__` are left out: they are formatting only.
- `werkzeug.urls.url_parse` is not part of this model. `Urls.Netloc` follows the split of Appendix B of RFC 3986. Werkzeug accepts a scheme only from letters, digits and the characters '+' to '.' (its class `[a-zA-Z0-9+-.]` holds the range `+-.`, so ',' too), and it rejects one only when the rest is non-empty and all digits ("x:80" has no scheme, "x:" keeps its scheme). Every scheme it accepts is one the model accepts too, so an empty network location in the model is empty in werkzeug as well. The converse fails, so the model sends to the index some `next` values (e.g. `a_b://evil.com`) that the program follows. Werkzeug's `ValueError` on an unbalanced IPv6 bracket is not modelled.
- Flask routing, templates, `flash` messages, sessions and cookies, `login_required` and `login_user`'s `remember` flag are not modelled. The logged-in user is a parameter, and `Login` returns the user logged in afterwards.
- `db.session` add, commit and rollback are not modelled. Each handler's changes are applied at once. Requests are handled one at a time. The `followers` table has no unique constraint (app/models.py:12-15), so two interleaved `follow` requests could both pass `is_following` and insert the row twice; `FollowersTable.Valid()` (no duplicate rows) holds only because requests do not interleave.
- Pagination (`paginate`, `POSTS_PER_PAGE`, the next and previous links) is not modelled. The index page shows the whole feed.
- The clock is a parameter. `datetime.utcnow` defaults become the given `now`. The `last_seen` update in `before_request` (app/routes.py:12-16) is not modelled.
- Form validation lives in `app/forms.py`, which is not part of this model. That covers the post length, registration's uniqueness checks and the login form's required fields. A name or e-mail that is already taken therefore reaches the database, whose `unique` columns refuse it. A form is either `None` (not validated) or its field values.
- `edit_profile`, `user`, `explore` and `logout` (app/routes.py:75-78, 106-135, 168-180) only read rows or edit profile text. They are not modelled, and `User.username` is therefore a constant.
- The `IP_TRACKABLE = False` path is not modelled: `remote_addr` would be unbound there (app/routes.py:44-51). The model assumes `IP_TRACKABLE = True`, as config.py:21 sets it.
- Logging, mail alerts, error pages, configuration from the environment and the shell context (app/__init__.py, app/errors.py, config.py, do_good.py) are left out.
- Models.FollowedPosts: ties in timestamp are put in one particular order. The SQL query leaves their order unspecified, so the contract states only that the feed is sorted and holds the right posts.
