/**
 * Project information of pkg/repository/info.go: the repository location
 * derived from a git remote URL, the version lookup, the semantic-version
 * check and the information gathered outside a git repository. Commands,
 * the working directory and the current user are inputs.
 */
module Repository {
  import opened Wrappers
  import opened Strs
  import opened Paths
  import opened Semver
  import Promu

  // ---------------------------------------------------------------------
  // SCP-like remotes

  /** hasSchemePattern `^[^:]+://`: the first ':' is not the first character and starts "://". */
  predicate HasScheme(s: string) {
    var i := IndexOf(s, ':');
    i >= 1 && HasPrefix(s[i..], "://")
  }

  /**
   * The `:/?(.+)$` tail of scpLikeURLPattern after a host: the text after
   * the ':' with one leading '/' taken off when something follows it; `.`
   * does not match a newline.
   */
  function ScpPath(after: string): Option<string> {
    if |after| >= 2 && after[0] == '/' && '\n' !in after[1..] then Some(after[1..])
    else if |after| >= 1 && '\n' !in after then Some(after)
    else None
  }

  /** `([^:]+):/?(.+)$`: a non-empty host up to the first ':', then the path. */
  function ScpHostPath(t: string): (r: Option<(string, string)>)
    ensures r.Some? ==> r.value.0 != "" && ':' !in r.value.0 && r.value.1 != "" && HasPrefix(t, r.value.0 + ":")
  {
    var c := IndexOf(t, ':');
    if c < 1 then None
    else
      var p := ScpPath(t[c + 1..]);
      if p.None? then None else Some((t[..c], p.value))
  }

  /**
   * scpLikeURLPattern `^([^@]+@)?([^:]+):/?(.+)$` with its submatches
   * (user, host, path): the optional user part, up to and including the
   * first '@', is tried first.
   */
  function ScpMatch(s: string): (r: Option<(string, string, string)>)
    ensures r.Some? ==> HasPrefix(s, r.value.0 + r.value.1 + ":")
    ensures r.Some? ==> r.value.1 != "" && ':' !in r.value.1 && r.value.2 != ""
  {
    var a := IndexOf(s, '@');
    var withUser := if a >= 1 then ScpHostPath(s[a + 1..]) else None;
    if withUser.Some? then
      assert s == s[..a + 1] + s[a + 1..];
      Some((s[..a + 1], withUser.value.0, withUser.value.1))
    else
      var plain := ScpHostPath(s);
      if plain.None? then None else Some(("", plain.value.0, plain.value.1))
  }

  /** The SCP-like form `[user@]host:path` rewritten to `ssh://[user@]host/path`; other text unchanged. */
  function Rewrite(s: string): (r: string)
    ensures HasScheme(s) || ScpMatch(s).None? ==> r == s
    ensures !HasScheme(s) && ScpMatch(s).Some? ==>
              r == "ssh://" + ScpMatch(s).value.0 + ScpMatch(s).value.1 + "/" + ScpMatch(s).value.2
  {
    var m := ScpMatch(s);
    if !HasScheme(s) && m.Some? then "ssh://" + m.value.0 + m.value.1 + "/" + m.value.2 else s
  }

  // ---------------------------------------------------------------------
  // The shape of url.Parse

  /** The parts of a parsed URL that the location uses. */
  datatype Url = Url(scheme: string, opaquePart: string, host: string, path: string)

  predicate IsLetter(c: char) {
    'a' <= c <= 'z' || 'A' <= c <= 'Z'
  }

  /** getScheme from index `i` on: letters, then digits, '+', '-' or '.' after the first, up to a ':'. */
  function SchemeFrom(s: string, i: nat): Result<(string, string)>
    requires i <= |s|
    decreases |s| - i
  {
    if i == |s| then Ok(("", s))
    else
      var c := s[i];
      if IsLetter(c) then SchemeFrom(s, i + 1)
      else if '0' <= c <= '9' || c == '+' || c == '-' || c == '.' then
        (if i == 0 then Ok(("", s)) else SchemeFrom(s, i + 1))
      else if c == ':' then
        (if i == 0 then Err("missing protocol scheme") else Ok((s[..i], s[i + 1..])))
      else Ok(("", s))
  }

  /** The text before the first `c`, or all of it (strings.Cut's first result). */
  function Before(s: string, c: char): (r: string)
    ensures c !in r && HasPrefix(s, r)
  {
    var i := IndexOf(s, c);
    if i < 0 then s else s[..i]
  }

  predicate IsControl(c: char) {
    c < ' ' || c == '\U{007F}'
  }

  /** validOptionalPort: empty, or ':' followed by decimal digits only. */
  predicate ValidOptionalPort(port: string) {
    port == "" || (port[0] == ':' && forall i :: 1 <= i < |port| ==> '0' <= port[i] <= '9')
  }

  /** parseAuthority: the host is what follows the last '@'; a port must be decimal. */
  function AuthorityHost(authority: string): (r: Result<string>)
    ensures r.Ok? ==> HasSuffix(authority, r.value) && '@' !in r.value
  {
    var at := LastIndexOf(authority, '@');
    var host := authority[at + 1..];
    var colon := LastIndexOf(host, ':');
    var port := if colon < 0 then "" else host[colon..];
    assert HasSuffix(authority, host);
    if ValidOptionalPort(port) then Ok(host) else Err("invalid port " + GoQuote(port) + " after host")
  }

  /**
   * url.Parse, as far as the location needs it: the fragment and query are
   * cut off, the scheme read, an opaque remainder recognised, and
   * "//authority" split into host and path.
   */
  function UrlParse(raw: string): (r: Result<Url>)
    ensures r.Err? ==> HasPrefix(r.msg, "parse \"")
  {
    var u := Before(raw, '#');
    var parsed := ParseNoFragment(u);
    if parsed.Err? then Err("parse " + GoQuote(u) + ": " + parsed.msg) else parsed
  }

  predicate HasControl(u: string) {
    exists i :: 0 <= i < |u| && IsControl(u[i])
  }

  function ParseNoFragment(u: string): Result<Url> {
    if HasControl(u) then Err("net/url: invalid control character in URL")
    else if u == "*" then Ok(Url("", "", "", "*"))
    else
      var sr := SchemeFrom(u, 0);
      if sr.Err? then Err(sr.msg) else ParseRest(sr.value.0, Before(sr.value.1, '?'))
  }

  /** What follows the scheme and precedes the query: opaque, "//authority/path" or a path. */
  function ParseRest(scheme: string, rest: string): Result<Url> {
    if !HasPrefix(rest, "/") && scheme != "" then Ok(Url(scheme, rest, "", ""))
    else if !HasPrefix(rest, "/") && ':' in Before(rest, '/') then
      Err("first path segment in URL cannot contain colon")
    else if (scheme != "" || !HasPrefix(rest, "///")) && HasPrefix(rest, "//") then
      ParseAuthority(scheme, rest[2..])
    else Ok(Url(scheme, "", "", rest))
  }

  /** The authority runs to the next '/', the path is the rest. */
  function ParseAuthority(scheme: string, tail: string): Result<Url> {
    var authority := Before(tail, '/');
    var host := AuthorityHost(authority);
    if host.Err? then Err(host.msg) else Ok(Url(scheme, "", host.value, tail[|authority|..]))
  }

  /**
   * repoLocation: the SCP-like form rewritten, the URL parsed, then the
   * host without its port followed by the path, one trailing ".git" removed.
   */
  function RepoLocation(repo: string): (r: Result<string>)
    ensures r.Err? <==> UrlParse(Rewrite(repo)).Err?
    ensures r.Err? ==> HasPrefix(r.msg, "parse \"")
  {
    var parsed := UrlParse(Rewrite(repo));
    if parsed.Err? then Err(parsed.msg)
    else
      var u := parsed.value;
      Ok(TrimSuffix(Split(u.host, ':')[0] + u.path, ".git"))
  }

  /** Text a URL part may hold here: no fragment or query marker, no control character. */
  predicate Tame(s: string) {
    '#' !in s && '?' !in s && forall i :: 0 <= i < |s| ==> !IsControl(s[i])
  }

  /** A scheme of letters only. */
  predicate Letters(s: string) {
    forall i :: 0 <= i < |s| ==> IsLetter(s[i])
  }

  lemma {:induction false} SchemeFromLetters(s: string, i: nat, k: nat)
    requires 1 <= k < |s| && i <= k && s[k] == ':'
    requires forall j :: 0 <= j < k ==> IsLetter(s[j])
    ensures SchemeFrom(s, i) == Ok((s[..k], s[k + 1..]))
    decreases k - i
  {
    if i < k {
      SchemeFromLetters(s, i + 1, k);
    }
  }

  /** A user part for a location: empty, or a name without '@', ':' or '/' followed by '@'. */
  predicate UserPart(user: string) {
    user == "" ||
    (|user| >= 2 && user[|user| - 1] == '@' && Tame(user) &&
     forall i :: 0 <= i < |user| - 1 ==> user[i] !in {'@', ':', '/'})
  }

  /** A host name: non-empty, with no ':', '@' or '/'. */
  predicate HostPart(host: string) {
    host != "" && Tame(host) && ':' !in host && '@' !in host && '/' !in host
  }

  lemma UserHostSplit(user: string, host: string, tail: string)
    requires UserPart(user) && HostPart(host)
    ensures LastIndexOf(user + host + tail, '@') == |user| - 1 || '@' in tail
  {
    var s := user + host + tail;
    if '@' !in tail && user != "" {
      assert s[|user| - 1] == '@';
      assert s[|user|..] == host + tail;
      LastIndexOfAt(s, '@', |user| - 1);
    } else if '@' !in tail {
      assert s == host + tail;
    }
  }

  lemma LastIndexOfAt(s: string, c: char, i: int)
    requires 0 <= i < |s| && s[i] == c && c !in s[i + 1..]
    ensures LastIndexOf(s, c) == i
  {
  }

  lemma IndexOfAt(s: string, c: char, i: int)
    requires 0 <= i < |s| && s[i] == c && c !in s[..i]
    ensures IndexOf(s, c) == i
  {
  }

  lemma TameConcat(a: string, b: string)
    requires Tame(a) && Tame(b)
    ensures Tame(a + b)
  {
    forall i | 0 <= i < |a + b|
      ensures !IsControl((a + b)[i])
    {
      if i >= |a| {
        assert (a + b)[i] == b[i - |a|];
      }
    }
  }

  lemma LettersTame(s: string)
    requires Letters(s)
    ensures Tame(s) && ':' !in s && '/' !in s && '@' !in s
  {
    forall i | 0 <= i < |s|
      ensures s[i] !in "#?:/@"
    {
      assert IsLetter(s[i]);
    }
  }

  lemma PortTame(port: string)
    requires ValidOptionalPort(port)
    ensures Tame(port) && '/' !in port && '@' !in port && (port != "" ==> ':' !in port[1..])
  {
    forall i | 0 <= i < |port|
      ensures port[i] !in "#?/@" && !IsControl(port[i])
    {
    }
    if port != "" {
      forall i | 0 <= i < |port| - 1
        ensures port[1..][i] != ':'
      {
        assert port[1..][i] == port[i + 1];
      }
    }
  }

  /** The host and port after a colon-free host: the port is found by the last ':'. */
  lemma HostPortSplit(host: string, port: string)
    requires HostPart(host) && ValidOptionalPort(port)
    ensures var h := host + port;
            var colon := LastIndexOf(h, ':');
            (if colon < 0 then "" else h[colon..]) == port
    ensures Split(host + port, ':')[0] == host
  {
    PortTame(port);
    var h := host + port;
    if port == "" {
      assert h == host;
    } else {
      assert h[|host|..] == port;
      assert h[|host| + 1..] == port[1..];
      assert h[..|host|] == host;
      LastIndexOfAt(h, ':', |host|);
      IndexOfAt(h, ':', |host|);
    }
  }

  /** The authority `user host port` yields the host with its port. */
  lemma AuthorityOf(user: string, host: string, port: string)
    requires UserPart(user) && HostPart(host) && ValidOptionalPort(port)
    ensures AuthorityHost(user + host + port) == Ok(host + port)
  {
    PortTame(port);
    var authority := user + host + port;
    UserHostSplit(user, host, port);
    AppendAssoc(user, host, port);
    AppendParts(user, host + port);
    HostPortSplit(host, port);
  }

  lemma SchemeOfLetters(scheme: string, rest: string)
    requires scheme != "" && Letters(scheme)
    ensures SchemeFrom(scheme + ":" + rest, 0) == Ok((scheme, rest))
  {
    var raw := scheme + ":" + rest;
    assert raw[|scheme|] == ':';
    assert raw[..|scheme|] == scheme && raw[|scheme| + 1..] == rest;
    SchemeFromLetters(raw, 0, |scheme|);
  }

  /** An authority without '/' followed by an absolute path or nothing. */
  lemma ParseAuthorityOf(scheme: string, authority: string, path: string)
    requires '/' !in authority && (path == "" || path[0] == '/')
    ensures var h := AuthorityHost(authority);
            ParseAuthority(scheme, authority + path) ==
              (if h.Err? then Err(h.msg) else Ok(Url(scheme, "", h.value, path)))
  {
    var tail := authority + path;
    if path == "" {
      assert tail == authority;
    } else {
      assert tail[|authority|] == '/';
      assert tail[..|authority|] == authority;
      IndexOfAt(tail, '/', |authority|);
    }
    assert tail[|authority|..] == path;
  }

  lemma ParseSchemeSlashes(scheme: string, authority: string, path: string)
    requires scheme != "" && Letters(scheme) && Tame(authority) && Tame(path)
    ensures ParseNoFragment(scheme + "://" + authority + path) == ParseRest(scheme, "//" + authority + path)
  {
    var raw := scheme + "://" + authority + path;
    var rest := "//" + authority + path;
    assert raw == scheme + ":" + rest;
    LettersTame(scheme);
    TameConcat("//", authority);
    TameConcat("//" + authority, path);
    TameConcat(scheme, ":");
    TameConcat(scheme + ":", rest);
    assert !HasControl(raw);
    SchemeOfLetters(scheme, rest);
    assert Before(rest, '?') == rest;
  }

  lemma ParseRestAuthority(scheme: string, tail: string)
    requires scheme != ""
    ensures ParseRest(scheme, "//" + tail) == ParseAuthority(scheme, tail)
  {
    AppendParts("//", tail);
    assert HasPrefix("//" + tail, "//") && HasPrefix("//" + tail, "/");
  }

  /** A scheme, "://", an authority without '/' and an absolute path parse into the authority's host and the path. */
  lemma ParseAuthorityForm(scheme: string, authority: string, path: string)
    requires scheme != "" && Letters(scheme) && Tame(authority) && Tame(path)
    requires '/' !in authority && (path == "" || path[0] == '/')
    ensures var h := AuthorityHost(authority);
            ParseNoFragment(scheme + "://" + authority + path) ==
              (if h.Err? then Err(h.msg) else Ok(Url(scheme, "", h.value, path)))
  {
    ParseSchemeSlashes(scheme, authority, path);
    AppendAssoc("//", authority, path);
    ParseRestAuthority(scheme, authority + path);
    ParseAuthorityOf(scheme, authority, path);
  }

  lemma TameAuthority(user: string, host: string, port: string)
    requires UserPart(user) && HostPart(host) && ValidOptionalPort(port)
    ensures Tame(user + host + port) && '/' !in user + host + port
  {
    PortTame(port);
    TameConcat(user, host);
    TameConcat(user + host, port);
  }

  /**
   * A URL with a scheme, an optional user, a host, an optional port and a
   * path gives the host followed by the path, ".git" trimmed: the port and
   * user are dropped.
   */
  lemma SchemeLocation(scheme: string, user: string, host: string, port: string, path: string)
    requires scheme != "" && Letters(scheme)
    requires UserPart(user) && HostPart(host) && ValidOptionalPort(port)
    requires path == "" || (path[0] == '/' && Tame(path))
    ensures RepoLocation(scheme + "://" + user + host + port + path) == Ok(TrimSuffix(host + path, ".git"))
  {
    var raw := scheme + "://" + user + host + port + path;
    SchemeUrlParts(scheme, user, host, port, path);
    LocationOfParsed(raw, Url(scheme, "", host + port, path));
    HostPortSplit(host, port);
  }

  lemma SchemeUrlParts(scheme: string, user: string, host: string, port: string, path: string)
    requires scheme != "" && Letters(scheme)
    requires UserPart(user) && HostPart(host) && ValidOptionalPort(port)
    requires path == "" || (path[0] == '/' && Tame(path))
    ensures var raw := scheme + "://" + user + host + port + path;
            Rewrite(raw) == raw && '#' !in raw && ParseNoFragment(raw) == Ok(Url(scheme, "", host + port, path))
  {
    var authority := user + host + port;
    var raw := scheme + "://" + authority + path;
    assert raw == scheme + "://" + user + host + port + path;
    SchemeKept(scheme, authority + path);
    assert raw == scheme + "://" + (authority + path);
    SchemeUrlParse(scheme, user, host, port, path);
    SchemeUrlTame(scheme, user, host, port, path);
  }

  lemma SchemeUrlParse(scheme: string, user: string, host: string, port: string, path: string)
    requires scheme != "" && Letters(scheme)
    requires UserPart(user) && HostPart(host) && ValidOptionalPort(port)
    requires path == "" || (path[0] == '/' && Tame(path))
    ensures ParseNoFragment(scheme + "://" + (user + host + port) + path) == Ok(Url(scheme, "", host + port, path))
  {
    var authority := user + host + port;
    TameAuthority(user, host, port);
    ParseAuthorityForm(scheme, authority, path);
    AuthorityOf(user, host, port);
  }

  lemma SchemeUrlTame(scheme: string, user: string, host: string, port: string, path: string)
    requires scheme != "" && Letters(scheme)
    requires UserPart(user) && HostPart(host) && ValidOptionalPort(port)
    requires path == "" || (path[0] == '/' && Tame(path))
    ensures '#' !in scheme + "://" + (user + host + port) + path
  {
    var authority := user + host + port;
    LettersTame(scheme);
    TameAuthority(user, host, port);
    TameConcat(scheme, "://");
    TameConcat(scheme + "://", authority);
    TameConcat(scheme + "://" + authority, path);
  }

  /** A text with a scheme is not rewritten. */
  lemma SchemeKept(scheme: string, rest: string)
    requires scheme != "" && Letters(scheme)
    ensures Rewrite(scheme + "://" + rest) == scheme + "://" + rest
  {
    var raw := scheme + "://" + rest;
    LettersTame(scheme);
    assert raw[|scheme|] == ':' && raw[..|scheme|] == scheme;
    IndexOfAt(raw, ':', |scheme|);
    assert raw[|scheme|..][..3] == "://";
  }

  /** A remote whose rewritten form has no fragment and parses: the location is its host without port, then its path. */
  lemma LocationOfParsed(repo: string, u: Url)
    requires '#' !in Rewrite(repo) && ParseNoFragment(Rewrite(repo)) == Ok(u)
    ensures RepoLocation(repo) == Ok(TrimSuffix(Split(u.host, ':')[0] + u.path, ".git"))
  {
    assert Before(Rewrite(repo), '#') == Rewrite(repo);
  }

  /**
   * An SCP-like remote `[user@]host:path` is rewritten to the ssh:// form
   * and gives the host followed by "/" and the path, ".git" trimmed.
   */
  lemma ScpLocation(user: string, host: string, path: string)
    requires UserPart(user) && HostPart(host)
    requires path != "" && path[0] != '/' && Tame(path) && '\n' !in path && '@' !in path
    ensures RepoLocation(user + host + ":" + path) == Ok(TrimSuffix(host + "/" + path, ".git"))
  {
    var raw := user + host + ":" + path;
    ScpParsed(user, host, path);
    LocationOfParsed(raw, Url("ssh", "", host, "/" + path));
    HostPortSplit(host, "");
    assert host + "" == host;
    AppendAssoc(host, "/", path);
  }

  /** The scheme an SCP-like remote is rewritten to is made of letters. */
  lemma SshLetters()
    ensures "ssh" != "" && Letters("ssh")
  {
    var s := "ssh";
    assert s[0] == 's' && s[1] == 's' && s[2] == 'h' && |s| == 3;
  }

  /** The rewritten SCP-like remote parses as an ssh URL with the host and "/" + path. */
  lemma ScpParsed(user: string, host: string, path: string)
    requires UserPart(user) && HostPart(host)
    requires path != "" && path[0] != '/' && Tame(path) && '\n' !in path && '@' !in path
    ensures var rw := Rewrite(user + host + ":" + path);
            '#' !in rw && ParseNoFragment(rw) == Ok(Url("ssh", "", host, "/" + path))
  {
    var p := "/" + path;
    ScpRewrite(user, host, path);
    TameConcat("/", path);
    SshLetters();
    SchemeUrlParts("ssh", user, host, "", p);
    assert host + "" == host;
  }

  lemma ScpRewrite(user: string, host: string, path: string)
    requires UserPart(user) && HostPart(host)
    requires path != "" && path[0] != '/' && '\n' !in path && '@' !in path
    ensures Rewrite(user + host + ":" + path) == "ssh" + "://" + user + host + "" + ("/" + path)
  {
    SshForm(user, host, path);
    ScpNoScheme(user, host, path);
    ScpMatchOf(user, host, path);
  }

  /** The rewritten text, regrouped as the parts of a URL with scheme "ssh", no port, and path "/" + path. */
  lemma SshForm(user: string, host: string, path: string)
    ensures "ssh://" + user + host + "/" + path == "ssh" + "://" + user + host + "" + ("/" + path)
  {
    var x := "ssh://" + user + host;
    assert "ssh" + "://" == "ssh://";
    assert x + "" == x;
    AppendAssoc(x, "/", path);
  }

  lemma ScpNoScheme(user: string, host: string, path: string)
    requires UserPart(user) && HostPart(host) && path != "" && path[0] != '/'
    ensures !HasScheme(user + host + ":" + path)
  {
    var raw := user + host + ":" + path;
    var at := |user| + |host|;
    if user != "" {
      assert forall i :: 0 <= i < |user| ==> user[i] != ':' by {
        forall i | 0 <= i < |user| ensures user[i] != ':' {
          if i < |user| - 1 {
            assert user[i] !in {'@', ':', '/'};
          }
        }
      }
    }
    assert raw[at] == ':' && raw[..at] == user + host;
    IndexOfAt(raw, ':', at);
    assert raw[at..][1] == path[0];
  }

  lemma ScpMatchOf(user: string, host: string, path: string)
    requires UserPart(user) && HostPart(host)
    requires path != "" && path[0] != '/' && '\n' !in path && '@' !in path
    ensures ScpMatch(user + host + ":" + path) == Some((user, host, path))
  {
    var raw := user + host + ":" + path;
    var t := host + ":" + path;
    var cp := ":" + path;
    AppendAssoc(host, ":", path);
    AppendParts(host, cp);
    AppendParts(":", path);
    assert t[|host|..][1..] == path;
    IndexAfter(host, cp);
    assert t[|host|] == ':' && t[|host| + 1..] == path;
    IndexOfAt(t, ':', |host|);
    assert ScpHostPath(t) == Some((host, path));
    AppendAssoc(user, host, ":");
    AppendAssoc(user, host + ":", path);
    assert raw == user + t;
    if user != "" {
      AppendParts(user, t);
      assert raw[|user| - 1] == '@' && raw[..|user| - 1] == user[..|user| - 1];
      IndexOfAt(raw, '@', |user| - 1);
    } else {
      assert raw == t;
      assert '@' !in raw;
    }
  }
  /** One trailing ".git" is removed. */
  lemma TrimGitSuffix(s: string)
    ensures TrimSuffix(s + ".git", ".git") == s
  {
    assert (s + ".git")[|s|..] == ".git";
  }

  /** An SCP-like remote naming a ".git" repository: its location is host, '/', then the repository path. */
  lemma ScpGitLocation(user: string, host: string, repo: string)
    requires UserPart(user) && HostPart(host)
    requires repo != "" && repo[0] != '/' && Tame(repo) && '\n' !in repo && '@' !in repo
    ensures RepoLocation(user + host + ":" + repo + ".git") == Ok(host + "/" + repo)
  {
    var path := repo + ".git";
    TameConcat(repo, ".git");
    ScpLocation(user, host, path);
    AppendAssoc(user + host + ":", repo, ".git");
    AppendAssoc(host + "/", repo, ".git");
    TrimGitSuffix(host + "/" + repo);
  }

  /** A URL naming a ".git" repository: its location is the host, without port or user, then the path. */
  lemma SchemeGitLocation(scheme: string, user: string, host: string, port: string, repo: string)
    requires scheme != "" && Letters(scheme)
    requires UserPart(user) && HostPart(host) && ValidOptionalPort(port)
    requires repo != "" && repo[0] == '/' && Tame(repo)
    ensures RepoLocation(scheme + "://" + user + host + port + repo + ".git") == Ok(host + repo)
  {
    var path := repo + ".git";
    TameConcat(repo, ".git");
    SchemeLocation(scheme, user, host, port, path);
    AppendAssoc(scheme + "://" + user + host + port, repo, ".git");
    AppendAssoc(host, repo, ".git");
    TrimGitSuffix(host + repo);
  }

  // The remotes of the location table in pkg/repository/info_test.go, each
  // written as the parts the lemmas above name.

  /** The hosts of the examples below. */
  lemma ExampleHosts()
    ensures HostPart("github.com") && HostPart("gitlab.fr")
  {
  }

  /** The users of the examples below. */
  lemma ExampleUsers()
    ensures UserPart("git@") && UserPart("sdurrheimer@")
  {
  }

  /** The repository paths of the examples below. */
  lemma ExamplePaths()
    ensures Tame("prometheus/promu") && Tame("/prometheus/promu")
    ensures "prometheus/promu"[0] != '/' && '\n' !in "prometheus/promu" && '@' !in "prometheus/promu"
  {
    assert Letters("prometheus") && Letters("promu");
    LettersTame("prometheus");
    LettersTame("promu");
    assert Tame("/");
    TameConcat("prometheus", "/");
    TameConcat("prometheus" + "/", "promu");
    assert "prometheus" + "/" + "promu" == "prometheus/promu";
    TameConcat("/", "prometheus/promu");
    assert "/" + "prometheus/promu" == "/prometheus/promu";
  }

  lemma ScpRemoteExample()
    ensures RepoLocation("git@" + "github.com" + ":" + "prometheus/promu" + ".git") == Ok("github.com" + "/" + "prometheus/promu")
  {
    ExampleUsers();
    ExampleHosts();
    ExamplePaths();
    ScpGitLocation("git@", "github.com", "prometheus/promu");
  }

  lemma HttpsRemoteExample()
    ensures RepoLocation("https" + "://" + "" + "github.com" + "" + "/prometheus/promu" + ".git") == Ok("github.com" + "/prometheus/promu")
  {
    assert Letters("https");
    ExampleHosts();
    ExamplePaths();
    SchemeGitLocation("https", "", "github.com", "", "/prometheus/promu");
  }

  lemma SshPortRemoteExample()
    ensures RepoLocation("ssh" + "://" + "git@" + "gitlab.fr" + ":22443" + "/prometheus/promu" + ".git") == Ok("gitlab.fr" + "/prometheus/promu")
  {
    assert Letters("ssh");
    ExampleUsers();
    ExampleHosts();
    assert ValidOptionalPort(":22443");
    ExamplePaths();
    SchemeGitLocation("ssh", "git@", "gitlab.fr", ":22443", "/prometheus/promu");
  }

  lemma HttpsUserRemoteExample()
    ensures RepoLocation("https" + "://" + "sdurrheimer@" + "gitlab.fr" + "" + "/prometheus/promu" + ".git") == Ok("gitlab.fr" + "/prometheus/promu")
  {
    assert Letters("https");
    ExampleUsers();
    ExampleHosts();
    ExamplePaths();
    SchemeGitLocation("https", "sdurrheimer@", "gitlab.fr", "", "/prometheus/promu");
  }

  // ---------------------------------------------------------------------
  // Version and project information

  /** Info: what the tool knows about the project. */
  datatype Info = Info(branch: string, name: string, owner: string, repo: string, revision: string, version: string)

  /**
   * Info.ToSemver: a version written with a leading 'v' is refused;
   * otherwise the library's parse decides, its error wrapped.
   */
  function ToSemver(version: string, parse: string -> Result<Version>): (r: Result<Version>)
    ensures r.Ok? <==> !HasPrefix(version, "v") && parse(version).Ok?
    ensures r.Ok? ==> r == parse(version)
    ensures HasPrefix(version, "v") ==> r == Err("version " + GoQuote(version) + " shouldn't start with 'v'")
    ensures !HasPrefix(version, "v") && parse(version).Err? ==> r.msg == "invalid semver version: " + parse(version).msg
  {
    if HasPrefix(version, "v") then Err("version " + GoQuote(version) + " shouldn't start with 'v'")
    else
      var v := parse(version);
      if v.Err? then Err("invalid semver version: " + v.msg) else v
  }

  /** The files that may hold the version, in the order they are tried. */
  const VersionFiles: seq<string> := ["VERSION", "version/VERSION"]

  /** The content of the first of `candidates` that can be read. */
  function FirstReadable(files: map<string, string>, candidates: seq<string>): (r: Option<string>)
    ensures r.None? <==> forall f :: f in candidates ==> f !in files
    ensures r.Some? ==> exists i :: 0 <= i < |candidates| && candidates[i] in files &&
                          r.value == files[candidates[i]] &&
                          forall j :: 0 <= j < i ==> candidates[j] !in files
  {
    if candidates == [] then None
    else if candidates[0] in files then Some(files[candidates[0]])
    else
      var r := FirstReadable(files, candidates[1..]);
      assert forall f :: f in candidates[1..] ==> f in candidates;
      if r.Some? then
        var i :| 0 <= i < |candidates[1..]| && candidates[1..][i] in files &&
                 r.value == files[candidates[1..][i]] &&
                 forall j :: 0 <= j < i ==> candidates[1..][j] !in files;
        assert candidates[i + 1] == candidates[1..][i];
        assert forall j :: 0 <= j < i + 1 ==> candidates[j] !in files by {
          forall j | 0 <= j < i + 1 ensures candidates[j] !in files {
            if j > 0 {
              assert candidates[j] == candidates[1..][j - 1];
            }
          }
        }
        r
      else
        r
  }

  /**
   * findVersion: the first version file that can be read, trimmed of
   * newlines and spaces; without one, the `git describe` output with one
   * leading 'v' removed.
   */
  function ProjectVersion(files: map<string, string>, describe: string): (r: string)
    ensures "VERSION" in files ==> r == Promu.ReadFile(Some(files["VERSION"]))
    ensures "VERSION" !in files && "version/VERSION" in files ==> r == Promu.ReadFile(Some(files["version/VERSION"]))
    ensures "VERSION" !in files && "version/VERSION" !in files ==> r == TrimPrefix(Promu.ShellOutput(describe), "v")
  {
    var content := FirstReadable(files, VersionFiles);
    if content.Some? then
      Promu.ReadFile(content)
    else
      assert VersionFiles[0] in VersionFiles && VersionFiles[1] in VersionFiles;
      TrimPrefix(Promu.ShellOutput(describe), "v")
  }

  /** findVersion's loop over the candidate files. */
  method FindVersion(files: map<string, string>, describe: string) returns (v: string)
    ensures v == ProjectVersion(files, describe)
  {
    var i := 0;
    while i < |VersionFiles|
      invariant 0 <= i <= |VersionFiles|
      invariant FirstReadable(files, VersionFiles) == FirstReadable(files, VersionFiles[i..])
    {
      var file := VersionFiles[i];
      if file in files {
        return Promu.ReadFile(Some(files[file]));
      }
      assert VersionFiles[i..][1..] == VersionFiles[i + 1..];
      i := i + 1;
    }
    v := TrimPrefix(Promu.ShellOutput(describe), "v");
  }

  /** What a command printed and whether it succeeded, with its error text. */
  datatype Output = Output(out: string, ok: bool, err: string)

  /** shellOutputWithError's trimmed text, whether or not the command failed. */
  function Text(o: Output): string {
    Promu.ShellOutput(o.out)
  }

  /** NewInfo's result: the information and the warnings passed to `warnf`. */
  datatype Gathered = Gathered(info: Info, warnings: seq<string>)

  /**
   * NewInfo. Outside a git repository the working directory, stripped of
   * GOPATH and "/src/", names the project and the user owns it. Inside one,
   * the branch's remote (by default "origin") gives the URL whose location
   * names the repository and its owner. `git` answers each git command.
   */
  function NewInfo(inGit: bool, cwd: Result<string>, gopath: string, username: Result<string>,
                   git: seq<string> -> Output, files: map<string, string>): (r: Result<Gathered>)
    ensures r.Ok? ==> r.value.info.name == Base(r.value.info.repo)
    ensures r.Ok? ==> r.value.info.version == ProjectVersion(files, Text(git(["describe", "--tags", "--always", "--dirty"])))
    ensures !inGit ==> (r.Ok? <==> cwd.Ok? && username.Ok?)
    ensures !inGit && cwd.Err? ==> r == Err("couldn't get current working directory: " + cwd.msg)
    ensures !inGit && cwd.Ok? && username.Err? ==> r == Err("couldn't get current user: " + username.msg)
    ensures !inGit && r.Ok? ==> r.value.info.branch == "non-git" && r.value.info.revision == "non-git" &&
                                r.value.info.owner == username.value && r.value.warnings == []
    ensures !inGit && r.Ok? ==> r.value.info.repo == TrimPrefix(TrimPrefix(cwd.value, gopath), "/src/")
    ensures inGit && !git(["rev-parse", "--abbrev-ref", "HEAD"]).ok ==>
              r == Err("unable to get the current branch: " + git(["rev-parse", "--abbrev-ref", "HEAD"]).err)
    ensures inGit && r.Ok? ==> r.value.info.branch == Text(git(["rev-parse", "--abbrev-ref", "HEAD"])) &&
                               r.value.info.revision == Text(git(["rev-parse", "HEAD"]))
    ensures inGit && r.Ok? ==>
              var url := git(["config", "--get", "remote." + RemoteOf(git) + ".url"]);
              (r.value.warnings == [] <==> url.ok) &&
              (!url.ok ==> r.value.warnings == ["unable to get repository location for remote " + GoQuote(RemoteOf(git)) + ": " + url.err])
    ensures inGit && git(["rev-parse", "--abbrev-ref", "HEAD"]).ok ==>
              var url := Text(git(["config", "--get", "remote." + RemoteOf(git) + ".url"]));
              (r.Ok? <==> RepoLocation(url).Ok?) &&
              (RepoLocation(url).Err? ==>
                 r == Err("couldn't parse repository location: " + GoQuote(url) + ": " + RepoLocation(url).msg))
    ensures inGit && r.Ok? ==> RepoLocation(Text(git(["config", "--get", "remote." + RemoteOf(git) + ".url"]))) == Ok(r.value.info.repo)
    ensures inGit && r.Ok? ==> r.value.info.owner == Base(Dir(r.value.info.repo))
    ensures inGit && r.Err? ==> HasPrefix(r.msg, "unable to get the current branch: ") ||
                                HasPrefix(r.msg, "couldn't parse repository location: ")
  {
    var version := ProjectVersion(files, Text(git(["describe", "--tags", "--always", "--dirty"])));
    if !inGit then
      if cwd.Err? then Err("couldn't get current working directory: " + cwd.msg)
      else
        var repo := TrimPrefix(TrimPrefix(cwd.value, gopath), "/src/");
        if username.Err? then Err("couldn't get current user: " + username.msg)
        else Ok(Gathered(Info("non-git", Base(repo), username.value, repo, "non-git", version), []))
    else
      var branch := git(["rev-parse", "--abbrev-ref", "HEAD"]);
      if !branch.ok then
        PrefixOfAppend("unable to get the current branch: ", branch.err);
        Err("unable to get the current branch: " + branch.err)
      else
        var remote := RemoteOf(git);
        var url := git(["config", "--get", "remote." + remote + ".url"]);
        var warnings := if url.ok then [] else
          ["unable to get repository location for remote " + GoQuote(remote) + ": " + url.err];
        var repo := RepoLocation(Text(url));
        if repo.Err? then
          var msg := "couldn't parse repository location: ";
          AppendAssoc(msg, GoQuote(Text(url)), ": ");
          AppendAssoc(msg, GoQuote(Text(url)) + ": ", repo.msg);
          PrefixOfAppend(msg, GoQuote(Text(url)) + ": " + repo.msg);
          Err(msg + GoQuote(Text(url)) + ": " + repo.msg)
        else
          var info := Info(Text(branch), Base(repo.value), Base(Dir(repo.value)), repo.value,
                           Text(git(["rev-parse", "HEAD"])), version);
          Ok(Gathered(info, warnings))
  }

  /** The current branch's remote, "origin" when git has none configured. */
  function RemoteOf(git: seq<string> -> Output): (r: string)
    ensures !git(["config", "--get", "branch." + Text(git(["rev-parse", "--abbrev-ref", "HEAD"])) + ".remote"]).ok ==> r == "origin"
  {
    var branch := Text(git(["rev-parse", "--abbrev-ref", "HEAD"]));
    var remote := git(["config", "--get", "branch." + branch + ".remote"]);
    if remote.ok then Text(remote) else "origin"
  }

  /**
   * A location of two or more plain path elements names the repository by
   * its last element and the owner by the one before.
   */
  lemma OwnerAndName(elems: seq<string>)
    requires |elems| >= 2
    requires forall e :: e in elems ==> Plain(e)
    ensures Base(Join(elems, "/")) == elems[|elems| - 1]
    ensures Base(Dir(Join(elems, "/"))) == elems[|elems| - 2]
  {
    PlainPrefix(elems);
    OwnerOf(elems, elems[..|elems| - 1], elems[|elems| - 1]);
    BaseOfPlainJoin(elems);
  }

  /** The owner: Base of Dir of the joined elements is the one before the last. */
  lemma OwnerOf(elems: seq<string>, init: seq<string>, last: string)
    requires |init| >= 1 && elems == init + [last]
    requires forall e :: e in elems ==> Plain(e)
    ensures Base(Dir(Join(elems, "/"))) == init[|init| - 1]
  {
    assert elems[..|elems| - 1] == init;
    assert forall e :: e in init ==> e in elems;
    DirOfPlainJoin(elems);
    BaseOfPlainJoin(init);
  }

  /** All elements but the last: still plain, and the list is them plus the last. */
  lemma PlainPrefix(elems: seq<string>)
    requires |elems| >= 2
    requires forall e :: e in elems ==> Plain(e)
    ensures forall e :: e in elems[..|elems| - 1] ==> Plain(e)
    ensures elems[..|elems| - 1][|elems| - 2] == elems[|elems| - 2]
    ensures elems == elems[..|elems| - 1] + [elems[|elems| - 1]]
  {
  }
}
