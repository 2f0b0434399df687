/** The data model of app/models.py: the followers association table, the
    follow/unfollow/is_following operations on it, the feed query of
    User.followed_posts, and the login-address bookkeeping of User.set_location.
    Database tables are in-memory collections; the GeoIP2 reader is a function
    from an address to an optional record. */
module Models {
  import opened Wrappers

  type UserId = int

  /** One row of the `followers` table: `follower` follows `followed`. */
  datatype Edge = Edge(follower: UserId, followed: UserId)

  /** One row of the `post` table. Timestamps are given integers. */
  datatype Post = Post(id: int, body: string, timestamp: int, author: UserId)

  /** Every value occurs at most once. */
  ghost predicate Distinct<T(!new)>(s: seq<T>) {
    forall x :: multiset(s)[x] <= 1
  }

  /** No row says that a user follows themselves. */
  predicate NoSelfFollow(rows: seq<Edge>) {
    forall i :: 0 <= i < |rows| ==> rows[i].follower != rows[i].followed
  }

  // ---------------------------------------------------------------------------
  // The follow relation

  /** Number of rows equal to `e`: the SQL `count()` of the filtered relation. */
  function CountRows(rows: seq<Edge>, e: Edge): nat
  {
    if rows == [] then 0
    else (if rows[0] == e then 1 else 0) + CountRows(rows[1..], e)
  }

  lemma {:induction false} CountRowsPositive(rows: seq<Edge>, e: Edge)
    ensures CountRows(rows, e) > 0 <==> e in rows
  {
    if rows != [] {
      CountRowsPositive(rows[1..], e);
      assert rows == [rows[0]] + rows[1..];
    }
  }

  /** `User.is_following`: the count of rows (follower, followed) is positive,
      that is, such a row exists. */
  function IsFollowing(rows: seq<Edge>, follower: UserId, followed: UserId): (r: bool)
    ensures r <==> Edge(follower, followed) in rows
  {
    CountRowsPositive(rows, Edge(follower, followed));
    CountRows(rows, Edge(follower, followed)) > 0
  }

  /** Removing the row `e` from the relation: the first row equal to `e` goes,
      the others keep their order. The dynamic relationship's `remove` deletes
      every row equal to `e`; on a duplicate-free table (FollowersTable.Valid)
      there is at most one, so the two agree. */
  function RemoveFirst(rows: seq<Edge>, e: Edge): (r: seq<Edge>)
    ensures multiset(r) == multiset(rows) - multiset{e}
    ensures e !in rows ==> r == rows
  {
    if rows == [] then []
    else
      assert rows == [rows[0]] + rows[1..];
      if rows[0] == e then rows[1..]
      else [rows[0]] + RemoveFirst(rows[1..], e)
  }

  /** The rows after `follower.follow(followed)`: a row is appended unless the
      edge is already there. */
  function FollowRows(rows: seq<Edge>, e: Edge): (r: seq<Edge>)
    ensures IsFollowing(r, e.follower, e.followed)
    ensures forall x :: x != e ==> (x in r <==> x in rows)
    ensures Distinct(rows) ==> Distinct(r)
  {
    if IsFollowing(rows, e.follower, e.followed) then rows else rows + [e]
  }

  /** The rows after `follower.unfollow(followed)`: the edge's row is removed
      when there is one. */
  function UnfollowRows(rows: seq<Edge>, e: Edge): (r: seq<Edge>)
    ensures Distinct(rows) ==> Distinct(r) && !IsFollowing(r, e.follower, e.followed)
    ensures forall x :: x != e ==> (x in r <==> x in rows)
  {
    var r := if IsFollowing(rows, e.follower, e.followed) then RemoveFirst(rows, e) else rows;
    assert forall x :: x != e ==> (x in r <==> x in multiset(rows));
    r
  }

  lemma FollowIdempotent(rows: seq<Edge>, e: Edge)
    ensures FollowRows(FollowRows(rows, e), e) == FollowRows(rows, e)
  {
  }

  lemma UnfollowIdempotent(rows: seq<Edge>, e: Edge)
    requires Distinct(rows)
    ensures UnfollowRows(UnfollowRows(rows, e), e) == UnfollowRows(rows, e)
  {
  }

  /** Unfollowing right after a fresh follow restores the table exactly. */
  lemma {:induction false} UnfollowUndoesFollow(rows: seq<Edge>, e: Edge)
    requires !IsFollowing(rows, e.follower, e.followed)
    ensures UnfollowRows(FollowRows(rows, e), e) == rows
  {
    RemoveLast(rows, e);
  }

  lemma {:induction false} RemoveLast(rows: seq<Edge>, e: Edge)
    requires e !in rows
    ensures RemoveFirst(rows + [e], e) == rows
  {
    if rows != [] {
      assert (rows + [e])[1..] == rows[1..] + [e];
      RemoveLast(rows[1..], e);
    }
  }

  /** Following and unfollowing keep the follow relation free of self-loops
      as long as the edge itself is not one. */
  lemma FollowKeepsNoSelfFollow(rows: seq<Edge>, e: Edge)
    requires NoSelfFollow(rows) && e.follower != e.followed
    ensures NoSelfFollow(FollowRows(rows, e))
  {
  }

  // ---------------------------------------------------------------------------
  // The feed

  /** A post belongs in `uid`'s feed when `uid` wrote it or follows its author. */
  predicate InFeed(rows: seq<Edge>, uid: UserId, p: Post) {
    p.author == uid || IsFollowing(rows, uid, p.author)
  }

  /** The union of the two queries of followed_posts over a post table. */
  function FeedRows(posts: seq<Post>, rows: seq<Edge>, uid: UserId): (r: seq<Post>)
    ensures forall p :: multiset(r)[p] == if InFeed(rows, uid, p) then multiset(posts)[p] else 0
  {
    if posts == [] then []
    else
      assert posts == [posts[0]] + posts[1..];
      (if InFeed(rows, uid, posts[0]) then [posts[0]] else []) + FeedRows(posts[1..], rows, uid)
  }

  predicate SortedByTimestampDesc(s: seq<Post>) {
    forall i, j :: 0 <= i < j < |s| ==> s[i].timestamp >= s[j].timestamp
  }

  /** No post of `s` is newer than `t`. */
  predicate NoneNewerThan(s: seq<Post>, t: int) {
    forall k :: 0 <= k < |s| ==> s[k].timestamp <= t
  }

  lemma NoneNewerThanPermutation(s: seq<Post>, s': seq<Post>, t: int)
    requires multiset(s) == multiset(s') && NoneNewerThan(s, t)
    ensures NoneNewerThan(s', t)
  {
    forall k | 0 <= k < |s'| ensures s'[k].timestamp <= t {
      assert s'[k] in multiset(s);
    }
  }

  lemma SortedCons(x: Post, t: seq<Post>)
    requires SortedByTimestampDesc(t) && NoneNewerThan(t, x.timestamp)
    ensures SortedByTimestampDesc([x] + t)
  {
  }

  /** A post no older than the head of a newest-first list may go in front. */
  lemma InsertAtHead(p: Post, s: seq<Post>)
    requires (s == [] || s[0].timestamp <= p.timestamp) && SortedByTimestampDesc(s)
    ensures SortedByTimestampDesc([p] + s)
  {
    assert NoneNewerThan(s, p.timestamp);
    SortedCons(p, s);
  }

  /** Inserting `p` below the head of a newest-first `s` that is newer than `p`
      keeps the list newest-first. */
  lemma InsertBelowHead(p: Post, s: seq<Post>, tail: seq<Post>)
    requires s != [] && s[0].timestamp > p.timestamp && SortedByTimestampDesc(s)
    requires multiset(tail) == multiset(s[1..]) + multiset{p} && SortedByTimestampDesc(tail)
    ensures SortedByTimestampDesc([s[0]] + tail)
  {
    assert NoneNewerThan(s[1..] + [p], s[0].timestamp);
    NoneNewerThanPermutation(s[1..] + [p], tail, s[0].timestamp);
    SortedCons(s[0], tail);
  }

  function InsertByTimestamp(p: Post, s: seq<Post>): (r: seq<Post>)
    ensures multiset(r) == multiset(s) + multiset{p}
    ensures SortedByTimestampDesc(s) ==> SortedByTimestampDesc(r)
  {
    if s == [] || s[0].timestamp <= p.timestamp then
      assert SortedByTimestampDesc(s) ==> SortedByTimestampDesc([p] + s) by {
        if SortedByTimestampDesc(s) {
          InsertAtHead(p, s);
        }
      }
      [p] + s
    else
      var tail := InsertByTimestamp(p, s[1..]);
      assert multiset([s[0]] + tail) == multiset(s) + multiset{p} by {
        assert s == [s[0]] + s[1..];
      }
      assert SortedByTimestampDesc(s) ==> SortedByTimestampDesc([s[0]] + tail) by {
        if SortedByTimestampDesc(s) {
          InsertBelowHead(p, s, tail);
        }
      }
      [s[0]] + tail
  }

  /** `order_by(Post.timestamp.desc())`. SQL leaves the order of equal
      timestamps open; this sort picks one. */
  function SortByTimestampDesc(s: seq<Post>): (r: seq<Post>)
    ensures multiset(r) == multiset(s)
    ensures SortedByTimestampDesc(r)
  {
    if s == [] then []
    else
      assert s == [s[0]] + s[1..];
      InsertByTimestamp(s[0], SortByTimestampDesc(s[1..]))
  }

  /** `User.followed_posts`: the posts of `uid` and of everyone `uid` follows,
      each once, newest first. */
  function FollowedPosts(posts: seq<Post>, rows: seq<Edge>, uid: UserId): (feed: seq<Post>)
    ensures forall p :: p in feed <==> p in posts && (p.author == uid || Edge(uid, p.author) in rows)
    ensures Distinct(posts) ==> Distinct(feed)
    ensures SortedByTimestampDesc(feed)
  {
    var union := FeedRows(posts, rows, uid);
    var feed := SortByTimestampDesc(union);
    assert forall p :: p in feed <==> p in posts && (p.author == uid || Edge(uid, p.author) in rows) by {
      forall p ensures p in feed <==> p in posts && (p.author == uid || Edge(uid, p.author) in rows) {
        assert p in feed <==> p in multiset(feed);
        assert p in posts <==> p in multiset(posts);
      }
    }
    assert Distinct(posts) ==> Distinct(feed) by {
      if Distinct(posts) {
        forall p ensures multiset(feed)[p] <= 1 {
          assert multiset(feed)[p] == multiset(union)[p];
        }
      }
    }
    feed
  }

  /** alice follows bob; bob's post is in alice's feed and carol's is not. */
  lemma FeedExample()
    ensures var alice, bob, carol := 1, 2, 3;
            var hello, hi := Post(1, "hello", 10, bob), Post(2, "hi", 20, carol);
            var feed := FollowedPosts([hello, hi], [Edge(alice, bob)], alice);
            hello in feed && hi !in feed
  {
  }

  // ---------------------------------------------------------------------------
  // Login-address bookkeeping

  /** The eight geolocation columns of a user, and the record a GeoIP lookup
      yields for them. Latitude and longitude are kept as opaque strings. */
  datatype Location = Location(
    countryIsoCode: Option<string>,
    countryName: Option<string>,
    subdivisionsName: Option<string>,
    subdivisionsIsoCode: Option<string>,
    cityName: Option<string>,
    postalCode: Option<string>,
    latitude: Option<string>,
    longitude: Option<string>)

  const NoLocation := Location(None, None, None, None, None, None, None, None)

  /** The columns `set_location` writes. */
  datatype LoginTrace = LoginTrace(lastLoginIp: Option<string>, currentLoginIp: Option<string>, location: Location)

  /** `set_location(remoteAddr)` as a function of the columns it reads and
      writes; `lookup` is the GeoIP reader, None when `reader.city` raises. */
  function Relocate(t: LoginTrace, remoteAddr: string, lookup: string -> Option<Location>): (r: LoginTrace)
    ensures r.currentLoginIp == Some(remoteAddr)
    ensures r.lastLoginIp == if Truthy(t.currentLoginIp) then t.currentLoginIp else Some(remoteAddr)
    ensures r.location != t.location ==>
              t.currentLoginIp != Some(remoteAddr) && lookup(remoteAddr) == Some(r.location)
    ensures t.currentLoginIp != Some(remoteAddr) && lookup(remoteAddr).Some? ==>
              r.location == lookup(remoteAddr).value
  {
    var last := if Truthy(t.currentLoginIp) then t.currentLoginIp else Some(remoteAddr);
    var location :=
      if t.currentLoginIp != Some(remoteAddr) && lookup(remoteAddr).Some? then lookup(remoteAddr).value
      else t.location;
    LoginTrace(last, Some(remoteAddr), location)
  }

  /** Logging in again from the same address consults no lookup and changes
      no geolocation column; both address columns then hold that address. */
  lemma RelocateAgain(t: LoginTrace, remoteAddr: string, lookup: string -> Option<Location>, lookup': string -> Option<Location>)
    ensures var once := Relocate(t, remoteAddr, lookup);
            Relocate(once, remoteAddr, lookup') == LoginTrace(Some(remoteAddr), Some(remoteAddr), once.location)
  {
  }

  // ---------------------------------------------------------------------------
  // Entities that are updated in place

  /** The `followers` association table. */
  class FollowersTable {
    var rows: seq<Edge>

    ghost predicate Valid()
      reads this
    {
      Distinct(rows)
    }

    constructor ()
      ensures Valid() && rows == []
    {
      rows := [];
    }
  }

  /** A row of the `user` table. Columns no core operation writes are constants. */
  class User {
    const id: UserId
    const username: string
    const email: string
    const passwordHash: string
    var aboutMe: Option<string>
    var lastSeen: int
    var lastLoginIp: Option<string>
    var currentLoginIp: Option<string>
    var countryIsoCode: Option<string>
    var countryName: Option<string>
    var subdivisionsName: Option<string>
    var subdivisionsIsoCode: Option<string>
    var cityName: Option<string>
    var postalCode: Option<string>
    var locationLatitude: Option<string>
    var locationLongitude: Option<string>

    function Geo(): Location
      reads this
    {
      Location(countryIsoCode, countryName, subdivisionsName, subdivisionsIsoCode,
                      cityName, postalCode, locationLatitude, locationLongitude)
    }

    function Trace(): LoginTrace
      reads this
    {
      LoginTrace(lastLoginIp, currentLoginIp, Geo())
    }

    constructor (id: UserId, username: string, email: string, passwordHash: string, now: int)
      ensures this.id == id && this.username == username && this.email == email
      ensures this.passwordHash == passwordHash && aboutMe == None && lastSeen == now
      ensures Trace() == LoginTrace(None, None, NoLocation)
    {
      this.id, this.username, this.email, this.passwordHash := id, username, email, passwordHash;
      aboutMe, lastSeen := None, now;
      lastLoginIp, currentLoginIp := None, None;
      countryIsoCode, countryName, subdivisionsName, subdivisionsIsoCode := None, None, None, None;
      cityName, postalCode, locationLatitude, locationLongitude := None, None, None, None;
    }

    /** `User.set_location`. */
    method SetLocation(remoteAddr: string, lookup: string -> Option<Location>)
      modifies this
      ensures Trace() == Relocate(old(Trace()), remoteAddr, lookup)
      ensures aboutMe == old(aboutMe) && lastSeen == old(lastSeen)
    {
      var oldCurrentIp, newCurrentIp := currentLoginIp, remoteAddr;
      lastLoginIp := if Truthy(oldCurrentIp) then oldCurrentIp else Some(newCurrentIp);
      currentLoginIp := Some(newCurrentIp);
      if oldCurrentIp != Some(newCurrentIp) {
        var response := lookup(newCurrentIp);
        if response.Some? {
          var g := response.value;
          countryIsoCode := g.countryIsoCode;
          countryName := g.countryName;
          subdivisionsName := g.subdivisionsName;
          subdivisionsIsoCode := g.subdivisionsIsoCode;
          cityName := g.cityName;
          postalCode := g.postalCode;
          locationLatitude := g.latitude;
          locationLongitude := g.longitude;
        }
      }
    }

    /** `User.follow`. */
    method Follow(table: FollowersTable, user: User)
      requires table.Valid()
      modifies table
      ensures table.Valid()
      ensures table.rows == FollowRows(old(table.rows), Edge(id, user.id))
      ensures IsFollowing(table.rows, id, user.id)
    {
      if !IsFollowing(table.rows, id, user.id) {
        table.rows := table.rows + [Edge(id, user.id)];
      }
    }

    /** `User.unfollow`. */
    method Unfollow(table: FollowersTable, user: User)
      requires table.Valid()
      modifies table
      ensures table.Valid()
      ensures table.rows == UnfollowRows(old(table.rows), Edge(id, user.id))
      ensures !IsFollowing(table.rows, id, user.id)
    {
      if IsFollowing(table.rows, id, user.id) {
        table.rows := RemoveFirst(table.rows, Edge(id, user.id));
      }
    }
  }
}
