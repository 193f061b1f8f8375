/** The path component of `urllib.parse.urlparse(url)`: the scheme (letters,
    digits, `+`, `-`, `.` before the first `:`, starting with a letter) is cut
    off, then the network location after a leading `//`, then the fragment
    after `#` and the query after `?`. */
module Urls {
  import opened Text

  predicate IsAsciiLetter(c: char) { 'a' <= c <= 'z' || 'A' <= c <= 'Z' }

  predicate IsSchemeChar(c: char) { IsAsciiLetter(c) || '0' <= c <= '9' || c == '+' || c == '-' || c == '.' }

  predicate HasScheme(url: string)
  {
    var s := Before(url, ':');
    |s| < |url| && |s| > 0 && IsAsciiLetter(s[0]) && forall i :: 0 <= i < |s| ==> IsSchemeChar(s[i])
  }

  /** What follows the scheme and its `:`, or the whole URL when it has no scheme. */
  function AfterScheme(url: string): (r: string)
    ensures IsSuffix(r, url)
  {
    if HasScheme(url) then url[|Before(url, ':')| + 1..] else url
  }

  predicate StartsPath(c: char) { c == '/' || c == '?' || c == '#' }

  /** `_splitnetloc`'s remainder: from the first `/`, `?` or `#` on. */
  function FromPathStart(s: string): (r: string)
    ensures IsSuffix(r, s)
    ensures r == [] || StartsPath(r[0])
    decreases |s|
  {
    if |s| == 0 || StartsPath(s[0]) then s else FromPathStart(s[1..])
  }

  /** The path of what follows the scheme: a leading `//` and the network
      location after it are dropped, then the fragment and the query. */
  function PathOf(rest: string): (p: string)
    ensures '#' !in p && '?' !in p
  {
    var afterNetloc := if IsPrefix("//", rest) then FromPathStart(rest[2..]) else rest;
    Before(Before(afterNetloc, '#'), '?')
  }

  function UrlPath(url: string): (p: string)
    ensures '#' !in p && '?' !in p
  {
    PathOf(AfterScheme(url))
  }

  /** No ':', '?' or '#', the characters at which `UrlPath` ends a scheme, a
      path and a query. */
  predicate PlainText(s: string)
  {
    forall i :: 0 <= i < |s| ==> s[i] != ':' && s[i] != '?' && s[i] != '#'
  }

  lemma PlainConcat(a: string, b: string)
    requires PlainText(a) && PlainText(b)
    ensures PlainText(a + b)
  {
    forall i | 0 <= i < |a + b| ensures (a + b)[i] != ':' && (a + b)[i] != '?' && (a + b)[i] != '#' {
      if i < |a| { assert (a + b)[i] == a[i]; } else { assert (a + b)[i] == b[i - |a|]; }
    }
  }

  /** A plain relative location (no `:`, `?` or `#`, not starting with `//`)
      is its own path. */
  lemma RelativeLocationIsPath(u: string)
    requires ':' !in u && '#' !in u && '?' !in u && !IsPrefix("//", u)
    ensures UrlPath(u) == u
  {
  }

  /** `FromPathStart` skips a host that holds none of `/`, `?`, `#`. */
  lemma {:induction false} SkipHost(host: string, path: string)
    requires forall i :: 0 <= i < |host| ==> !StartsPath(host[i])
    requires IsPrefix("/", path)
    ensures FromPathStart(host + path) == path
    decreases |host|
  {
    if |host| == 0 {
      assert host + path == path;
    } else {
      assert (host + path)[1..] == host[1..] + path;
      SkipHost(host[1..], path);
    }
  }

  lemma CutScheme(scheme: string, rest: string)
    requires |scheme| > 0 && IsAsciiLetter(scheme[0])
    requires forall i :: 0 <= i < |scheme| ==> IsSchemeChar(scheme[i])
    ensures AfterScheme(scheme + [':'] + rest) == rest
  {
    assert ':' !in scheme by {
      forall i | 0 <= i < |scheme| ensures scheme[i] != ':' {
        assert IsSchemeChar(scheme[i]);
      }
    }
    BeforeCut(scheme, rest, ':');
    var u := scheme + [':'] + rest;
    assert u[|scheme| + 1..] == rest;
  }

  /** After `//host`, a path with no query or fragment is the whole path. */
  lemma NetlocPath(host: string, path: string)
    requires forall i :: 0 <= i < |host| ==> !StartsPath(host[i])
    requires IsPrefix("/", path) && '#' !in path && '?' !in path
    ensures PathOf("//" + host + path) == path
  {
    var rest := "//" + host + path;
    assert rest[..2] == "//" && rest[2..] == host + path;
    SkipHost(host, path);
    assert Before(path, '#') == path;
    assert Before(path, '?') == path;
  }

  /** The path of `scheme://host/path` is `/path` when the path has no query
      or fragment: the S3 key the cluster downloads is read from here. */
  lemma AbsoluteUrlPath(scheme: string, host: string, path: string)
    requires |scheme| > 0 && IsAsciiLetter(scheme[0])
    requires forall i :: 0 <= i < |scheme| ==> IsSchemeChar(scheme[i])
    requires forall i :: 0 <= i < |host| ==> !StartsPath(host[i])
    requires IsPrefix("/", path) && '#' !in path && '?' !in path
    ensures UrlPath(scheme + "://" + host + path) == path
  {
    var rest := "//" + host + path;
    assert scheme + "://" + host + path == scheme + [':'] + rest;
    CutScheme(scheme, rest);
    NetlocPath(host, path);
  }
}
