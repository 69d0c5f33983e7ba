/** The key grammar of the coordination store (client/path.go): keys are
    '/'-separated, services live under /service/<service>/<client>, streams
    under /stream/<slug> with the children "transcoder" and "settings", and
    stream settings under /streamSettings/<slug>. */
module ClientPath {
  import opened GoStrings

  const TranscoderPrefix := "/service/transcode/"
  const SourcePrefix := "/service/source/"
  const FanoutPrefix := "/service/fanout/"
  const StreamPrefix := "/stream/"
  const StreamSettingsPrefix := "/streamSettings/"
  const ServiceRoot := "/service/"

  /** The prefixes spelled out element by element. */
  lemma Spelling()
    ensures StreamPrefix == "/" + "stream" + "/"
    ensures ServiceRoot == "/" + "service" + "/"
    ensures StreamSettingsPrefix == "/" + "streamSettings" + "/"
    ensures "/transcoder" == "/" + "transcoder"
    ensures "/settings" == "/" + "settings"
  {
    SameSpelling(StreamPrefix, "/" + "stream" + "/");
    SameSpelling(ServiceRoot, "/" + "service" + "/");
    SameSpelling(StreamSettingsPrefix, "/" + "streamSettings" + "/");
    SameSpelling("/transcoder", "/" + "transcoder");
    SameSpelling("/settings", "/" + "settings");
  }

  lemma SameSpelling(a: string, b: string)
    requires |a| == |b| && forall i :: 0 <= i < |a| ==> a[i] == b[i]
    ensures a == b
  {
  }

  /** Number of slashes in a key. */
  function Slashes(p: string): nat
  {
    multiset(p)['/']
  }

  // ---------------------------------------------------------------------
  // Parsers

  /** The last element of a key with exactly three slashes, "" for any
      other key. */
  function ParseServiceName(p: string): (name: string)
    ensures '/' !in name
    ensures Slashes(p) != 3 ==> name == ""
    ensures Slashes(p) == 3 ==> HasSuffix(p, "/" + name)
  {
    var parts := Split(p, '/');
    SplitCount(p, '/');
    if |parts| != 4 then ""
    else
      LastPiece(p, '/');
      parts[3]
  }

  /** Same rule as ParseServiceName, applied to /stream/<slug>/transcoder. */
  function ParseStreamTranscoder(p: string): (name: string)
  {
    ParseServiceName(p)
  }

  /** The third element (the slug of /stream/<slug>...), "" when the key has
      fewer than two slashes. */
  function ParseStreamName(p: string): (name: string)
    ensures '/' !in name
    ensures Slashes(p) < 2 ==> name == ""
    ensures |Split(p, '/')| > 2 ==> name == Split(p, '/')[2]
  {
    var parts := Split(p, '/');
    SplitCount(p, '/');
    if |parts| <= 2 then "" else parts[2]
  }

  lemma JoinThree(a: string, b: string)
    ensures JoinWith(["", a, b], '/') == "/" + a + "/" + b
  {
    var parts := ["", a, b];
    assert parts[1..] == [a, b];
    assert [a, b][1..] == [b];
    assert JoinWith([b], '/') == b;
    assert JoinWith([a, b], '/') == a + ['/'] + b;
    assert JoinWith(parts, '/') == "" + ['/'] + (a + ['/'] + b);
  }

  lemma JoinFour(a: string, b: string, c: string)
    ensures JoinWith(["", a, b, c], '/') == "/" + a + "/" + b + "/" + c
  {
    var parts := ["", a, b, c];
    assert parts[1..] == [a, b, c];
    assert [a, b, c][1..] == [b, c];
    assert [b, c][1..] == [c];
    assert JoinWith([c], '/') == c;
    assert JoinWith([b, c], '/') == b + ['/'] + c;
    assert JoinWith([a, b, c], '/') == a + ['/'] + (b + ['/'] + c);
    assert JoinWith(parts, '/') == "" + ['/'] + (a + ['/'] + (b + ['/'] + c));
  }

  /** Split gives ["", a, b] exactly for "/a/b" with slash-free a and b. */
  lemma ThreeParts(p: string, a: string, b: string)
    ensures Split(p, '/') == ["", a, b] <==> ('/' !in a && '/' !in b && p == "/" + a + "/" + b)
  {
    var parts := ["", a, b];
    JoinThree(a, b);
    SplitUnique(p, parts, '/');
    assert (forall i :: 0 <= i < |parts| ==> '/' !in parts[i]) <==> ('/' !in a && '/' !in b) by {
      assert parts[0] == "" && parts[1] == a && parts[2] == b;
    }
  }

  /** Split gives ["", a, b, c] exactly for "/a/b/c" with slash-free parts. */
  lemma FourParts(p: string, a: string, b: string, c: string)
    ensures Split(p, '/') == ["", a, b, c] <==>
            ('/' !in a && '/' !in b && '/' !in c && p == "/" + a + "/" + b + "/" + c)
  {
    var parts := ["", a, b, c];
    JoinFour(a, b, c);
    SplitUnique(p, parts, '/');
    assert (forall i :: 0 <= i < |parts| ==> '/' !in parts[i]) <==> ('/' !in a && '/' !in b && '/' !in c) by {
      assert parts[0] == "" && parts[1] == a && parts[2] == b && parts[3] == c;
    }
  }

  /** A key of the form /stream/<slug>. */
  predicate PathIsStream(p: string)
  {
    var parts := Split(p, '/');
    |parts| == 3 && parts[0] == "" && parts[1] == "stream"
  }

  /** PathIsStream holds exactly for "/stream/" followed by a slash-free
      slug (possibly empty). */
  lemma PathIsStreamShape(p: string)
    ensures PathIsStream(p) <==> HasPrefix(p, StreamPrefix) && '/' !in p[|StreamPrefix|..]
  {
    Spelling();
    var parts := Split(p, '/');
    if PathIsStream(p) {
      assert parts == ["", "stream", parts[2]];
      ThreeParts(p, "stream", parts[2]);
    }
    if HasPrefix(p, StreamPrefix) && '/' !in p[|StreamPrefix|..] {
      var x := p[|StreamPrefix|..];
      assert p == "/" + "stream" + "/" + x;
      ThreeParts(p, "stream", x);
    }
  }

  /** A key of the form /stream/<slug>/transcoder. */
  predicate PathIsStreamTranscoder(p: string)
  {
    var parts := Split(p, '/');
    |parts| == 4 && parts[0] == "" && parts[1] == "stream" && parts[3] == "transcoder"
  }

  /** PathIsStreamTranscoder holds exactly for "/stream/" + slug +
      "/transcoder" with a slash-free slug. */
  lemma PathIsStreamTranscoderShape(p: string)
    ensures PathIsStreamTranscoder(p) <==>
            (|p| >= 19 && HasPrefix(p, StreamPrefix) && HasSuffix(p, "/transcoder") && '/' !in p[8..|p| - 11])
  {
    Spelling();
    var parts := Split(p, '/');
    if PathIsStreamTranscoder(p) {
      assert parts == ["", "stream", parts[2], "transcoder"];
      FourParts(p, "stream", parts[2], "transcoder");
      assert p[8..|p| - 11] == parts[2];
    }
    if |p| >= 19 && HasPrefix(p, StreamPrefix) && HasSuffix(p, "/transcoder") && '/' !in p[8..|p| - 11] {
      var x := p[8..|p| - 11];
      assert p == "/" + "stream" + "/" + x + "/" + "transcoder";
      FourParts(p, "stream", x, "transcoder");
    }
  }

  /** A key of the form /stream/<slug>/settings. */
  predicate PathIsStreamSettings(p: string)
  {
    var parts := Split(p, '/');
    |parts| == 4 && parts[0] == "" && parts[1] == "stream" && parts[3] == "settings"
  }

  /** PathIsStreamSettings holds exactly for "/stream/" + slug + "/settings"
      with a slash-free slug. */
  lemma PathIsStreamSettingsShape(p: string)
    ensures PathIsStreamSettings(p) <==>
            (|p| >= 17 && HasPrefix(p, StreamPrefix) && HasSuffix(p, "/settings") && '/' !in p[8..|p| - 9])
  {
    Spelling();
    var parts := Split(p, '/');
    if PathIsStreamSettings(p) {
      assert parts == ["", "stream", parts[2], "settings"];
      FourParts(p, "stream", parts[2], "settings");
      assert p[8..|p| - 9] == parts[2];
    }
    if |p| >= 17 && HasPrefix(p, StreamPrefix) && HasSuffix(p, "/settings") && '/' !in p[8..|p| - 9] {
      var x := p[8..|p| - 9];
      assert p == "/" + "stream" + "/" + x + "/" + "settings";
      FourParts(p, "stream", x, "settings");
    }
  }

  /** The three key kinds under /stream/ are pairwise exclusive. */
  lemma StreamKindsExclusive(p: string)
    ensures !(PathIsStream(p) && PathIsStreamTranscoder(p))
    ensures !(PathIsStream(p) && PathIsStreamSettings(p))
    ensures !(PathIsStreamTranscoder(p) && PathIsStreamSettings(p))
  {
  }

  // ---------------------------------------------------------------------
  // Builders (path.Join, which cleans its result)

  function ServicePath(serviceName: string, clientName: string): string
  {
    Join([ServiceRoot, serviceName, clientName])
  }

  function StreamPath(name: string): string
  {
    Join([StreamPrefix, name])
  }

  function StreamTranscoderPath(name: string): string
  {
    Join([StreamPrefix, name, "transcoder"])
  }

  function StreamSettingsPath(name: string): string
  {
    Join([StreamSettingsPrefix, name])
  }

  function ServicePrefix(prefix: string): string
  {
    Join([ServiceRoot, prefix])
  }

  /** For plain names the builders only insert single slashes. */
  lemma ServicePathOfNames(s: string, c: string)
    requires IsName(s) && IsName(c)
    ensures ServicePath(s, c) == "/service/" + s + "/" + c
  {
    Spelling();
    JoinUnderPrefix("service", [s, c]);
    assert ["", "service"] + [s, c] == ["", "service", s, c];
    JoinFour("service", s, c);
  }

  lemma StreamPathOfName(n: string)
    requires IsName(n)
    ensures StreamPath(n) == "/stream/" + n
  {
    Spelling();
    JoinUnderPrefix("stream", [n]);
    assert ["", "stream"] + [n] == ["", "stream", n];
    JoinThree("stream", n);
  }

  lemma StreamTranscoderPathOfName(n: string)
    requires IsName(n)
    ensures StreamTranscoderPath(n) == "/stream/" + n + "/transcoder"
  {
    Spelling();
    JoinUnderPrefix("stream", [n, "transcoder"]);
    assert ["", "stream"] + [n, "transcoder"] == ["", "stream", n, "transcoder"];
    JoinFour("stream", n, "transcoder");
  }

  lemma StreamSettingsPathOfName(n: string)
    requires IsName(n)
    ensures StreamSettingsPath(n) == "/streamSettings/" + n
  {
    Spelling();
    JoinUnderPrefix("streamSettings", [n]);
    assert ["", "streamSettings"] + [n] == ["", "streamSettings", n];
    JoinThree("streamSettings", n);
  }

  /** A settings key splits into its root, "streamSettings" and the name. */
  lemma StreamSettingsPathSplit(n: string)
    requires IsName(n)
    ensures Split(StreamSettingsPath(n), '/') == ["", "streamSettings", n]
  {
    Spelling();
    JoinUnderPrefix("streamSettings", [n]);
    var parts := ["", "streamSettings", n];
    assert ["", "streamSettings"] + [n] == parts;
    assert '/' !in parts[1] by {
      assert forall i :: 0 <= i < |parts[1]| ==> parts[1][i] != '/';
    }
    SplitOfJoin(parts, '/');
  }

  lemma ServicePrefixOfName(prefix: string)
    requires IsName(prefix)
    ensures ServicePrefix(prefix) == "/service/" + prefix
  {
    Spelling();
    JoinUnderPrefix("service", [prefix]);
    assert ["", "service"] + [prefix] == ["", "service", prefix];
    JoinThree("service", prefix);
  }

  // ---------------------------------------------------------------------
  // Round trips

  /** The client name comes back out of a service key. */
  lemma ParseServicePath(s: string, c: string)
    requires IsName(s) && IsName(c)
    ensures ParseServiceName(ServicePath(s, c)) == c
  {
    ServicePathOfNames(s, c);
    ParseServiceKey(s, c);
  }

  lemma ParseServiceKey(s: string, c: string)
    requires IsName(s) && IsName(c)
    ensures ParseServiceName("/service/" + s + "/" + c) == c
  {
    Spelling();
    var p := "/service/" + s + "/" + c;
    assert p == "/" + "service" + "/" + s + "/" + c;
    FourParts(p, "service", s, c);
    assert '/' !in "service" && '/' !in s && '/' !in c;
    var parts := Split(p, '/');
    assert parts == ["", "service", s, c];
    assert |parts| == 4 && parts[3] == c;
  }

  /** A stream key is recognised as one and yields its slug. */
  lemma ParseStreamPath(n: string)
    requires IsName(n)
    ensures PathIsStream(StreamPath(n))
    ensures ParseStreamName(StreamPath(n)) == n
  {
    Spelling();
    StreamPathOfName(n);
    var p := StreamPath(n);
    assert p == "/" + "stream" + "/" + n;
    ThreeParts(p, "stream", n);
  }

  /** A stream-transcoder key is recognised as one, and yields its slug. */
  lemma ParseStreamTranscoderPath(n: string)
    requires IsName(n)
    ensures PathIsStreamTranscoder(StreamTranscoderPath(n))
    ensures !PathIsStream(StreamTranscoderPath(n))
    ensures ParseStreamName(StreamTranscoderPath(n)) == n
    ensures ParseStreamTranscoder(StreamTranscoderPath(n)) == "transcoder"
  {
    Spelling();
    StreamTranscoderPathOfName(n);
    var p := StreamTranscoderPath(n);
    assert p == "/" + "stream" + "/" + n + "/" + "transcoder";
    FourParts(p, "stream", n, "transcoder");
  }

  /** The settings key builder and the settings key recogniser disagree:
      one writes under /streamSettings/, the other looks under /stream/. */
  lemma StreamSettingsPathNotRecognised(n: string)
    requires IsName(n)
    ensures !PathIsStreamSettings(StreamSettingsPath(n))
  {
    StreamSettingsPathSplit(n);
  }
}
