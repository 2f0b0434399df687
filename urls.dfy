/** The two string operations app/routes.py relies on: `str.rpartition`, used to
    take the client address out of an X-Forwarded-For value, and the network
    location (authority) of a URL, used to vet the `next` redirect parameter. */
module Urls {

  /** Python's `s.rpartition(sep)` for a one-character separator: split at the
      last occurrence of `sep` into (head, sep, tail), or ("", "", s) when `sep`
      does not occur. */
  function RPartition(s: string, sep: char): (r: (string, string, string))
    ensures r.0 + r.1 + r.2 == s
    ensures sep !in r.2
    ensures r.1 == [sep] || (r.1 == [] && r.0 == [] && sep !in s)
  {
    if s == [] then ([], [], [])
    else if s[|s| - 1] == sep then
      assert s == s[..|s| - 1] + [sep] + [];
      (s[..|s| - 1], [sep], [])
    else
      var (head, mid, tail) := RPartition(s[..|s| - 1], sep);
      assert s == s[..|s| - 1] + [s[|s| - 1]];
      (head, mid, tail + [s[|s| - 1]])
  }

  /** Index of the first character of `s` that is in `delims`, or |s|. */
  function IndexOfAny(s: string, delims: set<char>): (i: nat)
    ensures i <= |s|
    ensures forall k :: 0 <= k < i ==> s[k] !in delims
    ensures i < |s| ==> s[i] in delims
  {
    if s == [] then 0
    else if s[0] in delims then 0
    else 1 + IndexOfAny(s[1..], delims)
  }

  /** The URL with its scheme and colon removed, when it has one: the scheme is
      the non-empty text before the first ':' that holds none of '/', '?', '#'
      (Appendix B of RFC 3986). */
  function AfterScheme(url: string): (rest: string)
    ensures |rest| <= |url| && url[|url| - |rest|..] == rest
    ensures rest != url ==>
              |rest| < |url| && IsScheme(url[..|url| - |rest| - 1]) && url[|url| - |rest| - 1] == ':'
  {
    var i := IndexOfAny(url, {':', '/', '?', '#'});
    if 0 < i < |url| && url[i] == ':' then url[i + 1..] else url
  }

  /** The authority that a "//" at the start of `rest` introduces: the text
      after it up to the next '/', '?' or '#'; empty when there is no "//". */
  function Authority(rest: string): (authority: string)
    ensures IsHost(authority)
    ensures (|rest| < 2 || rest[..2] != "//") ==> authority == ""
    ensures |rest| >= 2 && rest[..2] == "//" ==> IntroducesAuthority(rest, authority)
  {
    if |rest| >= 2 && rest[..2] == "//" then
      var n := IndexOfAny(rest[2..], {'/', '?', '#'});
      assert forall c :: c in rest[2..][..n] ==> c !in {'/', '?', '#'};
      assert rest[..n + 2] == "//" + rest[2..][..n];
      rest[2..][..n]
    else ""
  }

  /** `rest` is "//", then `host`, then nothing or a path, query or fragment. */
  predicate IntroducesAuthority(rest: string, host: string) {
    |rest| >= |host| + 2 && rest[..|host| + 2] == "//" + host && IsAfterAuthority(rest[|host| + 2..])
  }

  /** The network location (section 3.2 of RFC 3986, "authority") of a URL:
      the authority after its optional scheme. */
  function Netloc(url: string): (netloc: string)
    ensures '/' !in netloc && '?' !in netloc && '#' !in netloc
  {
    Authority(AfterScheme(url))
  }

  /** A host name or address: no character that ends the authority. */
  predicate IsHost(host: string) {
    '/' !in host && '?' !in host && '#' !in host
  }

  /** What may follow the authority: nothing, or a path, query or fragment. */
  predicate IsAfterAuthority(tail: string) {
    tail == [] || tail[0] in {'/', '?', '#'}
  }

  predicate IsScheme(scheme: string) {
    scheme != [] && ':' !in scheme && '/' !in scheme && '?' !in scheme && '#' !in scheme
  }

  lemma {:induction false} IndexOfAnyPrefix(prefix: string, tail: string, delims: set<char>)
    requires forall c :: c in prefix ==> c !in delims
    requires tail == [] || tail[0] in delims
    ensures IndexOfAny(prefix + tail, delims) == |prefix|
  {
    if prefix != [] {
      assert (prefix + tail)[1..] == prefix[1..] + tail;
      IndexOfAnyPrefix(prefix[1..], tail, delims);
    }
  }

  lemma AuthorityOf(host: string, tail: string)
    requires IsHost(host) && IsAfterAuthority(tail)
    ensures Authority("//" + host + tail) == host
  {
    var rest := "//" + host + tail;
    assert rest[..2] == "//" && rest[2..] == host + tail;
    assert forall c :: c in host ==> c !in {'/', '?', '#'};
    IndexOfAnyPrefix(host, tail, {'/', '?', '#'});
    assert (host + tail)[..|host|] == host;
  }

  /** A protocol-relative URL "//host..." names `host` as its network location. */
  lemma NetlocOfProtocolRelative(host: string, tail: string)
    requires IsHost(host) && IsAfterAuthority(tail)
    ensures Netloc("//" + host + tail) == host
  {
    assert AfterScheme("//" + host + tail) == "//" + host + tail;
    AuthorityOf(host, tail);
  }

  lemma AfterSchemeOf(scheme: string, rest: string)
    requires IsScheme(scheme)
    ensures AfterScheme(scheme + [':'] + rest) == rest
  {
    var url := scheme + [':'] + rest;
    assert url == scheme + ([':'] + rest);
    assert forall c :: c in scheme ==> c !in {':', '/', '?', '#'};
    IndexOfAnyPrefix(scheme, [':'] + rest, {':', '/', '?', '#'});
    assert url[|scheme|] == ':';
    assert url[|scheme| + 1..] == rest;
  }

  /** An absolute URL "scheme://host..." names `host` as its network location. */
  lemma NetlocOfAbsolute(scheme: string, host: string, tail: string)
    requires IsScheme(scheme) && IsHost(host) && IsAfterAuthority(tail)
    ensures Netloc(scheme + "://" + host + tail) == host
  {
    var rest := "//" + host + tail;
    assert scheme + "://" + host + tail == scheme + [':'] + rest by {
      assert "://" == [':'] + "//";
    }
    AfterSchemeOf(scheme, rest);
    AuthorityOf(host, tail);
  }

  /** Conversely, a URL with a non-empty network location has it right after a
      leading "//", or after "scheme://". Every other URL ("https:evil.com",
      "a/b", "?x", "/x") has none. */
  lemma NetlocNamesHost(url: string)
    ensures var host := Netloc(url);
            host != "" ==>
              IntroducesAuthority(url, host) ||
              exists k :: 0 < k < |url| && IsScheme(url[..k]) && url[k] == ':' && IntroducesAuthority(url[k + 1..], host)
  {
    var rest := AfterScheme(url);
    if Netloc(url) != "" && rest != url {
      var k := |url| - |rest| - 1;
      assert url[k + 1..] == rest;
    }
  }

  /** "scheme:rest" with no "//" after the colon ("https:evil.com",
      "mailto:x") has no network location. */
  lemma NetlocOfSchemeWithoutAuthority(scheme: string, rest: string)
    requires IsScheme(scheme) && (|rest| < 2 || rest[..2] != "//")
    ensures Netloc(scheme + [':'] + rest) == ""
  {
    AfterSchemeOf(scheme, rest);
  }

  /** A relative reference whose first delimiter is '/', '?' or '#' and that
      does not start with "//" ("a/b", "?x", "#top", "/x") has no network
      location. */
  lemma NetlocOfRelativeReference(prefix: string, tail: string)
    requires forall c :: c in prefix ==> c !in {':', '/', '?', '#'}
    requires tail != [] && tail[0] in {'/', '?', '#'}
    requires |prefix + tail| < 2 || (prefix + tail)[..2] != "//"
    ensures Netloc(prefix + tail) == ""
  {
    NoSchemeBeforeDelimiter(prefix, tail);
  }

  /** A URL whose first delimiter is '/', '?' or '#' has no scheme. */
  lemma NoSchemeBeforeDelimiter(prefix: string, tail: string)
    requires forall c :: c in prefix ==> c !in {':', '/', '?', '#'}
    requires tail != [] && tail[0] in {'/', '?', '#'}
    ensures AfterScheme(prefix + tail) == prefix + tail
  {
    IndexOfAnyPrefix(prefix, tail, {':', '/', '?', '#'});
    assert (prefix + tail)[|prefix|] == tail[0];
  }

  /** A path on this site ("/x", not "//x") has no network location. */
  lemma NetlocOfLocalPath(url: string)
    requires |url| >= 1 && url[0] == '/' && (|url| == 1 || url[1] != '/')
    ensures Netloc(url) == ""
  {
    assert AfterScheme(url) == url;
  }
}
