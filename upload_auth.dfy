/** The upload server's static authentication: a user is known by name,
    proves itself with a password checked against a bcrypt hash, and may
    write below one of the allowed directories when the rest of the path
    matches the user's wildcard pattern. The stream slug is the first
    element of that rest. bcrypt and the wildcard matcher are parameters. */
module UploadAuth {
  import opened Wrappers
  import GoStrings

  /** One [[auth]] entry of the configuration. */
  datatype ConfigEntry = ConfigEntry(pattern: string, user: string, pass: string)

  /** The loaded configuration: allowed directory prefixes, in order, and
      the entries by user name. */
  datatype StaticAuth = StaticAuth(allowedDirs: seq<string>, conf: map<string, ConfigEntry>)

  /** The first allowed directory that `path` starts with. */
  function FirstAllowed(dirs: seq<string>, path: string): (r: Option<string>)
    ensures r.Some? ==> r.value in dirs && GoStrings.HasPrefix(path, r.value)
  {
    if dirs == [] then None
    else if GoStrings.HasPrefix(path, dirs[0]) then Some(dirs[0])
    else FirstAllowed(dirs[1..], path)
  }

  /** FirstAllowed finds a prefix exactly when some allowed directory is a
      prefix, and it is the earliest such one in the list. */
  lemma {:induction false} FirstAllowedIsFirst(dirs: seq<string>, path: string)
    ensures FirstAllowed(dirs, path).None? <==> forall i :: 0 <= i < |dirs| ==> !GoStrings.HasPrefix(path, dirs[i])
    ensures FirstAllowed(dirs, path).Some? ==>
              exists i :: 0 <= i < |dirs| && dirs[i] == FirstAllowed(dirs, path).value &&
                GoStrings.HasPrefix(path, dirs[i]) &&
                forall j :: 0 <= j < i ==> !GoStrings.HasPrefix(path, dirs[j])
    decreases |dirs|
  {
    if dirs != [] && !GoStrings.HasPrefix(path, dirs[0]) {
      FirstAllowedIsFirst(dirs[1..], path);
      if FirstAllowed(dirs, path).Some? {
        var i :| 0 <= i < |dirs[1..]| && dirs[1..][i] == FirstAllowed(dirs, path).value &&
                 GoStrings.HasPrefix(path, dirs[1..][i]) &&
                 forall j :: 0 <= j < i ==> !GoStrings.HasPrefix(path, dirs[1..][j]);
        assert dirs[i + 1] == dirs[1..][i];
        forall j | 0 <= j < i + 1
          ensures !GoStrings.HasPrefix(path, dirs[j])
        {
          if j > 0 {
            assert dirs[j] == dirs[1..][j - 1];
          }
        }
      } else {
        forall i | 0 <= i < |dirs|
          ensures !GoStrings.HasPrefix(path, dirs[i])
        {
          if i > 0 {
            assert dirs[i] == dirs[1..][i - 1];
          }
        }
      }
    }
  }

  /** The prefix loop of Auth: strips the first allowed directory that
      `path` starts with, or reports that there is none. */
  method StripAllowed(dirs: seq<string>, path: string) returns (found: bool, rest: string)
    ensures found <==> FirstAllowed(dirs, path).Some?
    ensures found ==> rest == path[|FirstAllowed(dirs, path).value|..]
    ensures !found ==> rest == path
  {
    found := false;
    rest := path;
    var i := 0;
    while i < |dirs|
      invariant 0 <= i <= |dirs|
      invariant FirstAllowed(dirs, path) == FirstAllowed(dirs[i..], path)
      invariant !found && rest == path
    {
      assert dirs[i..][1..] == dirs[i + 1..];
      if GoStrings.HasPrefix(rest, dirs[i]) {
        found := true;
        rest := rest[|dirs[i]|..];
        break;
      }
      i := i + 1;
    }
  }

  /** A relative remainder gets a leading separator. */
  function Rooted(p: string): (r: string)
    ensures GoStrings.IsAbs(r)
  {
    if GoStrings.IsAbs(p) then p else "/" + p
  }

  /** The path the user's pattern is matched against: the cleaned path with
      its allowed prefix stripped, made absolute; None when no allowed
      directory is a prefix. */
  function Resolved(a: StaticAuth, path: string): (r: Option<string>)
  {
    var cleaned := GoStrings.Clean(path);
    match FirstAllowed(a.allowedDirs, cleaned)
    case None => None
    case Some(prefix) => Some(Rooted(cleaned[|prefix|..]))
  }

  /** The prefix test is on characters, not on path elements: an allowed
      directory "/allowed" also admits "/allowedfoo/slug/...", and the
      remainder "foo/slug/..." is taken as the path below it. */
  lemma PrefixWithoutBoundary(a: StaticAuth, path: string, dir: string, rest: string)
    requires a.allowedDirs == [dir]
    requires GoStrings.Clean(path) == dir + rest && rest != [] && rest[0] != '/'
    ensures Resolved(a, path) == Some("/" + rest)
  {
    var cleaned := GoStrings.Clean(path);
    assert cleaned[..|dir|] == dir;
    assert FirstAllowed(a.allowedDirs, cleaned) == Some(dir);
    assert cleaned[|dir|..] == rest;
  }

  /** An absolute path's first element: between the first and the second
      separator. */
  lemma FirstElement(p: string)
    requires GoStrings.IsAbs(p)
    ensures var parts := GoStrings.Split(p, '/');
            |parts| >= 2 && parts[0] == "" && '/' !in parts[1] &&
            GoStrings.HasPrefix(p, "/" + parts[1])
  {
    var parts := GoStrings.Split(p, '/');
    var rest := GoStrings.Split(p[1..], '/');
    assert parts == [""] + rest;
    assert GoStrings.JoinWith(rest, '/') == p[1..];
    if |rest| >= 2 {
      GoStrings.JoinWithAppend([rest[0]], rest[1..], '/');
      assert [rest[0]] + rest[1..] == rest;
    }
    assert GoStrings.HasPrefix(p[1..], rest[0]);
  }

  /** StaticAuth.Auth: the slug the user may upload to, and whether access
      is granted. `passwordMatches(hash, pass)` stands for bcrypt accepting
      the password, `matches(pattern, path)` for wildcard.MatchSimple. */
  method Auth(a: StaticAuth, user: string, pass: string, path: string,
              passwordMatches: (string, string) -> bool, matches: (string, string) -> bool)
    returns (slug: string, ok: bool)
    ensures ok <==> user in a.conf && passwordMatches(a.conf[user].pass, pass) &&
                    Resolved(a, path).Some? && matches(a.conf[user].pattern, Resolved(a, path).value)
    ensures !ok ==> slug == ""
    ensures ok ==> slug == GoStrings.Split(Resolved(a, path).value, '/')[1]
    ensures ok ==> '/' !in slug && GoStrings.HasPrefix(Resolved(a, path).value, "/" + slug)
  {
    if user !in a.conf {
      return "", false;
    }
    var entry := a.conf[user];
    if !passwordMatches(entry.pass, pass) {
      return "", false;
    }
    var cleaned := GoStrings.Clean(path);
    var found, rest := StripAllowed(a.allowedDirs, cleaned);
    if !found {
      return "", false;
    }
    if !GoStrings.IsAbs(rest) {
      rest := "/" + rest;
    }
    assert Resolved(a, path) == Some(rest);
    if !matches(entry.pattern, rest) {
      return "", false;
    }
    FirstElement(rest);
    var parts := GoStrings.Split(rest, '/');
    return parts[1], true;
  }
}
