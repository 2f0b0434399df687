/** The request handlers of app/routes.py that change state or decide
    something: posting on the index page, login, registration, follow and
    unfollow. The database is a `Db` object; the request arrives as plain
    parameters (the X-Forwarded-For values, the peer address, the validated form
    or None when the form did not validate, the `next` argument); the response
    is the redirect or the page the handler returns. Flash messages, templates
    and the transaction commit are not modelled. */
module Routes {
  import opened Wrappers
  import opened Models
  import opened Urls

  /** Redirect targets: the `url_for` endpoints, or the `next` URL itself. */
  datatype Target = IndexPage | LoginPage | UserPage(username: string) | NextUrl(url: string)

  /** Pages rendered in place. The index page shows the whole feed (pagination
      is not modelled). ServerErrorView is the 500 page, shown after the
      session is rolled back. */
  datatype View = IndexView(feed: seq<Post>) | LoginView | RegisterView | ServerErrorView

  datatype Response = Redirect(target: Target) | Render(view: View)

  datatype LoginForm = LoginForm(username: string, password: string, rememberMe: bool)

  datatype RegistrationForm = RegistrationForm(username: string, email: string, password: string)

  /** The database session: the `user` and `post` tables and the `followers`
      table. Both ids are auto-incremented from 1 and no user or post row is
      ever deleted; the schema keeps user names and e-mail addresses unique. */
  class Db {
    var users: seq<User>
    var posts: seq<Post>
    const followers: FollowersTable

    ghost predicate Valid()
      reads this, followers
    {
      followers.Valid() &&
      (forall i :: 0 <= i < |users| ==> users[i].id == i + 1) &&
      (forall i, j :: 0 <= i < j < |users| ==>
         users[i].username != users[j].username && users[i].email != users[j].email) &&
      (forall i :: 0 <= i < |posts| ==> posts[i].id == i + 1)
    }

    constructor ()
      ensures Valid() && fresh(followers)
      ensures users == [] && posts == [] && followers.rows == []
    {
      users, posts := [], [];
      followers := new FollowersTable();
    }
  }

  /** Posts numbered consecutively are pairwise distinct, so the feed's union
      holds each post once. */
  lemma {:induction false} NumberedPostsDistinct(posts: seq<Post>, first: int)
    requires forall i :: 0 <= i < |posts| ==> posts[i].id == first + i
    ensures Distinct(posts)
  {
    if posts != [] {
      NumberedPostsDistinct(posts[1..], first + 1);
      assert posts == [posts[0]] + posts[1..];
      assert posts[0] !in posts[1..];
    }
  }

  // ---------------------------------------------------------------------------
  // Decisions taken from the request

  /** The client address of `login` and `register` (with IP tracking on): the
      text after the last space of the first X-Forwarded-For value when the
      header is present, else the peer address, else "untrackable". */
  function ClientAddress(forwardedFor: seq<string>, peer: Option<string>): (addr: string)
    ensures forwardedFor != [] ==>
              var value := forwardedFor[0];
              ' ' !in addr && |addr| <= |value| && value[|value| - |addr|..] == addr &&
              (|addr| < |value| ==> value[|value| - |addr| - 1] == ' ')
    ensures forwardedFor != [] && ' ' !in forwardedFor[0] ==> addr == forwardedFor[0]
    ensures forwardedFor == [] ==> addr == if Truthy(peer) then peer.value else "untrackable"
  {
    if forwardedFor != [] then
      var (head, sep, tail) := RPartition(forwardedFor[0], ' ');
      assert forwardedFor[0] == (head + sep) + tail;
      tail
    else if Truthy(peer) then peer.value
    else "untrackable"
  }

  /** Where `login` sends a user it has just authenticated: to `next` when it is
      non-empty and names no network location, else to the index. */
  function RedirectTarget(next: Option<string>): (t: Target)
    ensures t != IndexPage ==> next.Some? && t == NextUrl(next.value) && next.value != "" && Netloc(next.value) == ""
    ensures Truthy(next) && Netloc(next.value) == "" ==> t == NextUrl(next.value)
  {
    if !Truthy(next) || Netloc(next.value) != "" then IndexPage else NextUrl(next.value)
  }

  /** An absolute or protocol-relative `next` that names a host is never followed. */
  lemma RedirectStaysOnSite(scheme: string, host: string, tail: string)
    requires IsHost(host) && host != "" && IsAfterAuthority(tail)
    ensures RedirectTarget(Some("//" + host + tail)) == IndexPage
    ensures IsScheme(scheme) ==> RedirectTarget(Some(scheme + "://" + host + tail)) == IndexPage
  {
    NetlocOfProtocolRelative(host, tail);
    if IsScheme(scheme) {
      NetlocOfAbsolute(scheme, host, tail);
    }
  }

  /** A `next` that is a path on this site is followed. */
  lemma RedirectFollowsLocalPath(url: string)
    requires |url| >= 1 && url[0] == '/' && (|url| == 1 || url[1] != '/')
    ensures RedirectTarget(Some(url)) == NextUrl(url)
  {
    NetlocOfLocalPath(url);
    assert Truthy(Some(url));
  }

  /** Conversely, a non-empty `next` is refused only when it names a host
      right after "//" or after "scheme://". */
  lemma RedirectRefusedOnlyForHost(url: string)
    requires url != "" && RedirectTarget(Some(url)) == IndexPage
    ensures var host := Netloc(url);
            host != "" &&
            (IntroducesAuthority(url, host) ||
             exists k :: 0 < k < |url| && IsScheme(url[..k]) && url[k] == ':' && IntroducesAuthority(url[k + 1..], host))
  {
    NetlocNamesHost(url);
  }

  /** Index of the first user called `username`, or |users|. */
  function FirstNamed(users: seq<User>, username: string): (i: nat)
    ensures i <= |users|
    ensures forall j :: 0 <= j < i ==> users[j].username != username
    ensures i < |users| ==> users[i].username == username
  {
    if users == [] then 0
    else if users[0].username == username then 0
    else 1 + FirstNamed(users[1..], username)
  }

  /** `User.query.filter_by(username=username).first()`. */
  function FindUser(users: seq<User>, username: string): (r: Option<User>)
    ensures r.Some? ==> r.value in users && r.value.username == username
    ensures r.None? <==> forall j :: 0 <= j < |users| ==> users[j].username != username
  {
    var i := FirstNamed(users, username);
    if i < |users| then Some(users[i]) else None
  }

  /** Two users of a valid database with the same id are the same object. */
  lemma SameIdSameUser(db: Db, u: User, v: User)
    requires db.Valid() && u in db.users && v in db.users && u.id == v.id
    ensures u == v
  {
    var i :| 0 <= i < |db.users| && db.users[i] == u;
    var j :| 0 <= j < |db.users| && db.users[j] == v;
  }

  /** With unique names, the lookup by name finds the one user who has it. */
  lemma FindUserUnique(db: Db, u: User)
    requires db.Valid() && u in db.users
    ensures FindUser(db.users, u.username) == Some(u)
  {
    var k :| 0 <= k < |db.users| && db.users[k] == u;
    var i := FirstNamed(db.users, u.username);
    assert i <= k;
  }

  /** Some user already has this name or this e-mail address. */
  predicate Taken(users: seq<User>, username: string, email: string) {
    exists u :: u in users && (u.username == username || u.email == email)
  }

  // ---------------------------------------------------------------------------
  // Handlers

  /** `index`: a submitted post is appended under the current user; otherwise
      the current user's feed is shown. */
  method Index(db: Db, current: User, form: Option<string>, now: int) returns (resp: Response)
    requires db.Valid() && current in db.users
    modifies db
    ensures db.Valid() && db.users == old(db.users)
    ensures form.Some? ==>
              resp == Redirect(IndexPage) &&
              db.posts == old(db.posts) + [Post(|old(db.posts)| + 1, form.value, now, current.id)]
    ensures form.None? ==>
              db.posts == old(db.posts) &&
              resp == Render(IndexView(FollowedPosts(db.posts, db.followers.rows, current.id))) &&
              Distinct(resp.view.feed)
  {
    if form.Some? {
      var post := Post(|db.posts| + 1, form.value, now, current.id);
      db.posts := db.posts + [post];
      return Redirect(IndexPage);
    }
    NumberedPostsDistinct(db.posts, 1);
    resp := Render(IndexView(FollowedPosts(db.posts, db.followers.rows, current.id)));
  }

  /** `login`. An authenticated user only has the address recorded. Otherwise
      an unknown name or a wrong password sends the user back to the login
      page, unauthenticated and with no address recorded; a correct pair logs
      the user in, records the address and redirects as RedirectTarget says.
      `session` is the user logged in after the request. */
  method Login(db: Db, current: Option<User>, forwardedFor: seq<string>, peer: Option<string>,
               form: Option<LoginForm>, next: Option<string>,
               checkPassword: (string, string) -> bool, lookup: string -> Option<Location>)
    returns (resp: Response, session: Option<User>)
    requires current.Some? ==> current.value in db.users
    modifies db.users
    ensures current.Some? ==> resp == Redirect(IndexPage) && session == current
    ensures current.None? && form.None? ==> resp == Render(LoginView) && session == None
    ensures current.None? && form.Some? ==>
              var user := FindUser(db.users, form.value.username);
              if user.None? || !checkPassword(user.value.passwordHash, form.value.password)
              then resp == Redirect(LoginPage) && session == None
              else resp == Redirect(RedirectTarget(next)) && session == user
    ensures var located := if current.Some? then current else session;
            forall u :: u in db.users ==>
              u.aboutMe == old(u.aboutMe) && u.lastSeen == old(u.lastSeen) &&
              u.Trace() == if Some(u) == located
                           then Relocate(old(u.Trace()), ClientAddress(forwardedFor, peer), lookup)
                           else old(u.Trace())
  {
    var remoteAddr := ClientAddress(forwardedFor, peer);
    if current.Some? {
      current.value.SetLocation(remoteAddr, lookup);
      return Redirect(IndexPage), current;
    }
    if form.None? {
      return Render(LoginView), None;
    }
    var user := FindUser(db.users, form.value.username);
    if user.None? {
      return Redirect(LoginPage), None;
    } else if !checkPassword(user.value.passwordHash, form.value.password) {
      return Redirect(LoginPage), None;
    }
    session := user;
    user.value.SetLocation(remoteAddr, lookup);
    resp := Redirect(RedirectTarget(next));
  }

  /** `register`. An authenticated user only has the address recorded;
      otherwise a validated form adds one user, with the next id, the hashed
      password and the client address recorded, and redirects to the login
      page. A name or e-mail address already in use violates the `unique`
      columns: the commit fails, the session is rolled back and the 500 page
      is shown. */
  method Register(db: Db, current: Option<User>, forwardedFor: seq<string>, peer: Option<string>,
                  form: Option<RegistrationForm>, hashPassword: string -> string,
                  lookup: string -> Option<Location>, now: int)
    returns (resp: Response)
    requires db.Valid()
    requires current.Some? ==> current.value in db.users
    modifies db, db.users
    ensures db.Valid() && db.posts == old(db.posts)
    ensures current.Some? ==> resp == Redirect(IndexPage) && db.users == old(db.users)
    ensures current.None? && form.None? ==> resp == Render(RegisterView) && db.users == old(db.users)
    ensures current.None? && form.Some? && Taken(old(db.users), form.value.username, form.value.email) ==>
              resp == Render(ServerErrorView) && db.users == old(db.users)
    ensures current.None? && form.Some? && !Taken(old(db.users), form.value.username, form.value.email) ==>
              resp == Redirect(LoginPage) &&
              |db.users| == |old(db.users)| + 1 && db.users[..|old(db.users)|] == old(db.users) &&
              var u := db.users[|old(db.users)|];
              fresh(u) && u.id == |old(db.users)| + 1 &&
              u.username == form.value.username && u.email == form.value.email &&
              u.passwordHash == hashPassword(form.value.password) &&
              u.aboutMe == None && u.lastSeen == now &&
              u.Trace() == Relocate(LoginTrace(None, None, NoLocation), ClientAddress(forwardedFor, peer), lookup)
    ensures forall u :: u in old(db.users) ==>
              u.aboutMe == old(u.aboutMe) && u.lastSeen == old(u.lastSeen) &&
              u.Trace() == if Some(u) == current
                           then Relocate(old(u.Trace()), ClientAddress(forwardedFor, peer), lookup)
                           else old(u.Trace())
  {
    var remoteAddr := ClientAddress(forwardedFor, peer);
    if current.Some? {
      current.value.SetLocation(remoteAddr, lookup);
      return Redirect(IndexPage);
    }
    if form.None? {
      return Render(RegisterView);
    }
    if Taken(db.users, form.value.username, form.value.email) {
      return Render(ServerErrorView);
    }
    var user := new User(|db.users| + 1, form.value.username, form.value.email,
                         hashPassword(form.value.password), now);
    user.SetLocation(remoteAddr, lookup);
    db.users := db.users + [user];
    resp := Redirect(LoginPage);
  }

  /** `follow/<username>`: an unknown name redirects to the index, the current
      user's own name to their page, both with the table untouched; any other
      user becomes followed. No handler call creates a self-follow row. */
  method Follow(db: Db, current: User, username: string) returns (resp: Response)
    requires db.Valid() && current in db.users
    modifies db.followers
    ensures db.Valid()
    ensures match FindUser(db.users, username)
            case None => resp == Redirect(IndexPage) && db.followers.rows == old(db.followers.rows)
            case Some(u) =>
              resp == Redirect(UserPage(username)) &&
              if u == current then db.followers.rows == old(db.followers.rows)
              else db.followers.rows == FollowRows(old(db.followers.rows), Edge(current.id, u.id)) &&
                   IsFollowing(db.followers.rows, current.id, u.id)
    ensures NoSelfFollow(old(db.followers.rows)) ==> NoSelfFollow(db.followers.rows)
  {
    var user := FindUser(db.users, username);
    if user.None? {
      return Redirect(IndexPage);
    }
    if user.value == current {
      return Redirect(UserPage(username));
    }
    if user.value.id == current.id {
      SameIdSameUser(db, user.value, current);
    }
    if NoSelfFollow(db.followers.rows) {
      FollowKeepsNoSelfFollow(db.followers.rows, Edge(current.id, user.value.id));
    }
    current.Follow(db.followers, user.value);
    resp := Redirect(UserPage(username));
  }

  /** `unfollow/<username>`: the same guards as `follow`; any other user stops
      being followed. */
  method Unfollow(db: Db, current: User, username: string) returns (resp: Response)
    requires db.Valid() && current in db.users
    modifies db.followers
    ensures db.Valid()
    ensures match FindUser(db.users, username)
            case None => resp == Redirect(IndexPage) && db.followers.rows == old(db.followers.rows)
            case Some(u) =>
              resp == Redirect(UserPage(username)) &&
              if u == current then db.followers.rows == old(db.followers.rows)
              else db.followers.rows == UnfollowRows(old(db.followers.rows), Edge(current.id, u.id)) &&
                   !IsFollowing(db.followers.rows, current.id, u.id)
  {
    var user := FindUser(db.users, username);
    if user.None? {
      return Redirect(IndexPage);
    }
    if user.value == current {
      return Redirect(UserPage(username));
    }
    current.Unfollow(db.followers, user.value);
    resp := Redirect(UserPage(username));
  }
}
