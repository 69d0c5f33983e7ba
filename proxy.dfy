/** The upload proxy: accepts PUT, POST and DELETE uploads and copies each
    one to every configured sink. A sink rewrites the request onto its own
    address and queues it in a bounded queue that drops its oldest request
    when full; a worker sends the queued requests on. */
module UploadProxy {
  import opened Wrappers
  import GoStrings

  /** time.Duration is a count of nanoseconds. */
  const Second: int := 1_000_000_000

  const DefaultQueueSize: int := 128

  // ---------------------------------------------------------------------
  // URL paths

  /** singleJoiningSlash: `a` and `b` joined with one slash at the seam. */
  function SingleJoiningSlash(a: string, b: string): string
  {
    var aslash := GoStrings.HasSuffix(a, "/");
    var bslash := GoStrings.HasPrefix(b, "/");
    if aslash && bslash then a + b[1..]
    else if !aslash && !bslash then a + "/" + b
    else a + b
  }

  function DropTrailingSlash(a: string): (r: string)
    ensures a == r || a == r + "/"
  {
    if GoStrings.HasSuffix(a, "/") then a[..|a| - 1] else a
  }

  function DropLeadingSlash(b: string): (r: string)
    ensures b == r || b == "/" + r
  {
    if GoStrings.HasPrefix(b, "/") then b[1..] else b
  }

  /** Whichever side brings a slash, the join is `a` without its trailing
      slash, one slash, and `b` without its leading slash; it starts with
      `a` and ends with `b` minus its leading slash. */
  lemma SeamHasOneSlash(a: string, b: string)
    ensures SingleJoiningSlash(a, b) == DropTrailingSlash(a) + "/" + DropLeadingSlash(b)
    ensures GoStrings.HasPrefix(SingleJoiningSlash(a, b), a)
    ensures GoStrings.HasSuffix(SingleJoiningSlash(a, b), DropLeadingSlash(b))
  {
    var r := SingleJoiningSlash(a, b);
    if GoStrings.HasSuffix(a, "/") {
      assert a == a[..|a| - 1] + "/";
    }
    if GoStrings.HasPrefix(b, "/") {
      assert b == "/" + b[1..];
    }
    assert r == DropTrailingSlash(a) + "/" + DropLeadingSlash(b);
    assert r[..|a|] == a;
    assert r[|r| - |DropLeadingSlash(b)|..] == DropLeadingSlash(b);
  }

  /** A sink at /upload receiving /test.mp4 forwards to /upload/test.mp4. */
  lemma UploadBaseJoin()
    ensures SingleJoiningSlash("/upload", "/test.mp4") == "/upload/test.mp4"
  {
    assert !GoStrings.HasSuffix("/upload", "/");
    assert GoStrings.HasPrefix("/test.mp4", "/");
  }

  /** The parts of url.URL the proxy touches. */
  datatype URL = URL(scheme: string, host: string, path: string, rawPath: string)

  /** joinURLPath: the decoded and the raw path of `b` below `a`.
      `escapedPath` stands for url.URL.EscapedPath, which starts with a
      slash only when the decoded path does. */
  function JoinURLPath(a: URL, b: URL, escapedPath: URL -> string): (string, string)
    requires GoStrings.HasPrefix(escapedPath(b), "/") ==> GoStrings.HasPrefix(b.path, "/")
  {
    if a.rawPath == "" && b.rawPath == "" then (SingleJoiningSlash(a.path, b.path), "")
    else
      var apath := escapedPath(a);
      var bpath := escapedPath(b);
      var aslash := GoStrings.HasSuffix(apath, "/");
      var bslash := GoStrings.HasPrefix(bpath, "/");
      if aslash && bslash then (a.path + b.path[1..], apath + bpath[1..])
      else if !aslash && !bslash then (a.path + "/" + b.path, apath + "/" + bpath)
      else (a.path + b.path, apath + bpath)
  }

  /** Without raw paths the join is singleJoiningSlash of the paths; with
      one, the raw path is singleJoiningSlash of the escaped paths and the
      decoded path puts its seam where the escaped one does. */
  lemma JoinURLPathSeams(a: URL, b: URL, escapedPath: URL -> string)
    requires GoStrings.HasPrefix(escapedPath(b), "/") ==> GoStrings.HasPrefix(b.path, "/")
    ensures a.rawPath == "" && b.rawPath == "" ==>
              JoinURLPath(a, b, escapedPath) == (SingleJoiningSlash(a.path, b.path), "")
    ensures !(a.rawPath == "" && b.rawPath == "") ==>
              JoinURLPath(a, b, escapedPath).1 == SingleJoiningSlash(escapedPath(a), escapedPath(b))
    ensures !(a.rawPath == "" && b.rawPath == "") ==>
              GoStrings.HasPrefix(JoinURLPath(a, b, escapedPath).0, a.path)
  {
    var r := JoinURLPath(a, b, escapedPath);
    assert r.0[..|a.path|] == a.path;
  }

  // ---------------------------------------------------------------------
  // Requests

  /** getDeadline: playlists and manifests (.m3u8, .mpd) must be through
      within 6 seconds, everything else within 60. */
  function Deadline(path: string, now: int): int
  {
    var ext := GoStrings.Ext(path);
    if ext == ".m3u8" || ext == ".mpd" then now + 6 * Second else now + 60 * Second
  }

  /** One step of filepath.Ext from the end of a name. */
  lemma ExtStep(s: string)
    requires s != [] && s[|s| - 1] != '/' && s[|s| - 1] != '.'
    ensures var e := GoStrings.Ext(s[..|s| - 1]);
            GoStrings.Ext(s) == if e == "" then "" else e + [s[|s| - 1]]
  {
  }

  /** A name ending in `.` plus dot- and slash-free characters has exactly
      that extension. */
  lemma {:induction false} ExtOfSuffix(p: string, e: string)
    requires '.' !in e && '/' !in e
    ensures GoStrings.Ext(p + "." + e) == "." + e
    decreases |e|
  {
    var s := p + "." + e;
    if e == [] {
      assert s == p + ".";
    } else {
      assert s[..|s| - 1] == p + "." + e[..|e| - 1];
      assert s[|s| - 1] == e[|e| - 1];
      ExtOfSuffix(p, e[..|e| - 1]);
      ExtStep(s);
      assert "." + e == "." + e[..|e| - 1] + [e[|e| - 1]];
    }
  }

  /** A name ending in a dot-led extension without further dots or
      slashes has that extension. */
  lemma ExtIs(name: string, ext: string)
    requires |ext| >= 1 && ext[0] == '.' && '.' !in ext[1..] && '/' !in ext[1..]
    ensures GoStrings.Ext(name + ext) == ext
  {
    ExtOfSuffix(name, ext[1..]);
    assert name + ext == name + "." + ext[1..];
    assert ext == "." + ext[1..];
  }

  /** Every playlist gets the short deadline, every segment the long one. */
  lemma PlaylistDeadlines(name: string, now: int)
    ensures Deadline(name + ".m3u8", now) == now + 6 * Second
    ensures Deadline(name + ".mpd", now) == now + 6 * Second
    ensures Deadline(name + ".ts", now) == now + 60 * Second
    ensures Deadline(name + ".m4s", now) == now + 60 * Second
  {
    ExtIs(name, ".m3u8");
    ExtIs(name, ".mpd");
    ExtIs(name, ".ts");
    ExtIs(name, ".m4s");
  }

  /** The methods HandleUpload forwards. */
  predicate Forwarded(verb: string)
  {
    verb == "PUT" || verb == "POST" || verb == "DELETE"
  }

  /** The parts of an http.Request the proxy and the sinks set. */
  datatype Request = Request(verb: string, url: URL, basicAuth: Option<(string, string)>,
                             deadline: int, requestURI: string)

  // ---------------------------------------------------------------------
  // Sinks

  datatype SinkConfig = SinkConfig(address: string, username: string, password: string, queueSize: int)

  /** NewSink: a zero queue size takes the default. */
  function SinkDefaults(conf: SinkConfig): (r: SinkConfig)
    ensures conf.queueSize == 0 ==> r == conf.(queueSize := 128)
    ensures conf.queueSize != 0 ==> r == conf
  {
    if conf.queueSize == 0 then conf.(queueSize := DefaultQueueSize) else conf
  }

  /** The size of a buffered channel: at least one once defaults apply. */
  type Capacity = n: int | n >= 1 witness 1

  /** The bounded queue after one enqueue on a queue of capacity `cap`:
      while full, the oldest request goes. */
  function Enqueued(queue: seq<Request>, req: Request, cap: Capacity): seq<Request>
  {
    (if |queue| < cap then queue else queue[|queue| - cap + 1..]) + [req]
  }

  /** The queue never exceeds its capacity, the new request is last, and
      the requests before it are the newest of the old queue, in order. */
  lemma EnqueuedShape(queue: seq<Request>, req: Request, cap: Capacity)
    ensures var r := Enqueued(queue, req, cap);
            1 <= |r| <= cap && r[|r| - 1] == req &&
            |r| == (if |queue| < cap then |queue| + 1 else cap) &&
            r[..|r| - 1] == queue[|queue| - (|r| - 1)..]
  {
    var kept := if |queue| < cap then queue else queue[|queue| - cap + 1..];
    assert (kept + [req])[..|kept|] == kept;
  }

  /** Below capacity nothing is dropped; at capacity exactly the oldest. */
  lemma EnqueueDropsOnlyWhenFull(queue: seq<Request>, req: Request, cap: Capacity)
    requires |queue| <= cap
    ensures |queue| < cap ==> Enqueued(queue, req, cap) == queue + [req]
    ensures |queue| == cap ==> Enqueued(queue, req, cap) == queue[1..] + [req]
  {
    var r := Enqueued(queue, req, cap);
    EnqueuedShape(queue, req, cap);
    assert r == r[..|r| - 1] + [req];
  }

  class Sink {
    const conf: SinkConfig
    const url: URL
    const capacity: Capacity
    /** The buffered channel of requests, oldest first. */
    var queue: seq<Request>

    ghost predicate Valid()
      reads this
    {
      |queue| <= capacity
    }

    /** NewSink once the address parsed: make(chan, n) panics for n < 0,
        so the configured size must not be negative. */
    constructor (conf: SinkConfig, url: URL)
      requires conf.queueSize >= 0
      ensures this.conf == SinkDefaults(conf) && capacity == this.conf.queueSize
      ensures this.url == url && queue == [] && Valid()
    {
      this.conf := SinkDefaults(conf);
      capacity := SinkDefaults(conf).queueSize;
      this.url := url;
      queue := [];
    }

    /** What handle sends: the request moved onto the sink's scheme, host
        and base path, with the sink's credentials. */
    function Rewritten(req: Request, escapedPath: URL -> string): Request
      requires GoStrings.HasPrefix(escapedPath(req.url), "/") ==> GoStrings.HasPrefix(req.url.path, "/")
    {
      var joined := JoinURLPath(url, req.url, escapedPath);
      req.(url := req.url.(scheme := url.scheme, host := url.host, path := joined.0, rawPath := joined.1),
           basicAuth := Some((conf.username, conf.password)), requestURI := "")
    }

    /** handle: rewrite the request and queue it, dropping from the front
        while the queue is full. */
    method Handle(req: Request, escapedPath: URL -> string)
      requires Valid()
      requires GoStrings.HasPrefix(escapedPath(req.url), "/") ==> GoStrings.HasPrefix(req.url.path, "/")
      modifies this
      ensures Valid()
      ensures queue == Enqueued(old(queue), Rewritten(req, escapedPath), capacity)
    {
      var out := Rewritten(req, escapedPath);
      while |queue| >= capacity
        invariant Valid()
        invariant 0 <= |old(queue)| - |queue| <= 1 && queue == old(queue)[|old(queue)| - |queue|..]
        invariant |queue| < |old(queue)| ==> |old(queue)| == capacity
        decreases |queue|
      {
        queue := queue[1..];
      }
      queue := queue + [out];
    }

    /** A worker receiving from the queue: the oldest request, if any. */
    method Next() returns (r: Option<Request>)
      requires Valid()
      modifies this
      ensures Valid()
      ensures old(queue) == [] ==> r == None && queue == []
      ensures old(queue) != [] ==> r == Some(old(queue)[0]) && queue == old(queue)[1..]
    {
      if queue == [] {
        return None;
      }
      r := Some(queue[0]);
      queue := queue[1..];
    }
  }

  /** NewSink: fails when the address does not parse (`parsed` is what
      url.Parse gave). The parse comes first, so a negative queue size only
      panics, in make, for an address that parsed. */
  method NewSink(conf: SinkConfig, parsed: Option<URL>) returns (r: Option<Sink>)
    requires parsed.Some? ==> conf.queueSize >= 0
    ensures parsed.None? <==> r.None?
    ensures r.Some? ==> fresh(r.value) && r.value.conf == SinkDefaults(conf) &&
                        r.value.capacity == r.value.conf.queueSize &&
                        r.value.url == parsed.value && r.value.queue == [] && r.value.Valid()
  {
    if parsed.None? {
      return None;
    }
    var s := new Sink(conf, parsed.value);
    return Some(s);
  }

  class Proxy {
    const sinks: seq<Sink>

    ghost predicate Valid()
      reads this, sinks
    {
      (forall i, j :: 0 <= i < j < |sinks| ==> sinks[i] != sinks[j]) &&
      (forall i :: 0 <= i < |sinks| ==> sinks[i].Valid())
    }

    constructor (sinks: seq<Sink>)
      ensures this.sinks == sinks
    {
      this.sinks := sinks;
    }

    /** The sink loop of HandleUpload: every sink queues its copy. */
    method Broadcast(req: Request, escapedPath: URL -> string)
      requires Valid()
      requires GoStrings.HasPrefix(escapedPath(req.url), "/") ==> GoStrings.HasPrefix(req.url.path, "/")
      modifies sinks
      ensures Valid()
      ensures forall i :: 0 <= i < |sinks| ==>
                sinks[i].queue == Enqueued(old(sinks[i].queue), sinks[i].Rewritten(req, escapedPath),
                                           sinks[i].capacity)
    {
      var k := 0;
      while k < |sinks|
        invariant 0 <= k <= |sinks| && Valid()
        invariant forall i :: 0 <= i < k ==>
                    sinks[i].queue == Enqueued(old(sinks[i].queue), sinks[i].Rewritten(req, escapedPath),
                                               sinks[i].capacity)
        invariant forall i :: k <= i < |sinks| ==> sinks[i].queue == old(sinks[i].queue)
      {
        sinks[k].Handle(req, escapedPath);
        k := k + 1;
      }
    }

    /** HandleUpload: the HTTP status and reply body. Other methods are
        answered 200 "Invalid method" and go nowhere; when the body cannot
        be read (`bodyRead` false) the answer is 500; otherwise every sink
        queues its rewritten copy with the deadline for the path. */
    method HandleUpload(req: Request, now: int, bodyRead: bool, escapedPath: URL -> string)
      returns (status: int, reply: string)
      requires Valid()
      requires GoStrings.HasPrefix(escapedPath(req.url), "/") ==> GoStrings.HasPrefix(req.url.path, "/")
      modifies sinks
      ensures Valid()
      ensures !Forwarded(req.verb) ==> status == 200 && reply == "Invalid method"
      ensures Forwarded(req.verb) && !bodyRead ==> status == 500 && reply == ""
      ensures Forwarded(req.verb) && bodyRead ==> status == 200 && reply == ""
      ensures !(Forwarded(req.verb) && bodyRead) ==>
                forall i :: 0 <= i < |sinks| ==> sinks[i].queue == old(sinks[i].queue)
      ensures Forwarded(req.verb) && bodyRead ==>
                forall i :: 0 <= i < |sinks| ==>
                  sinks[i].queue == Enqueued(old(sinks[i].queue),
                                             sinks[i].Rewritten(req.(deadline := Deadline(req.url.path, now)), escapedPath),
                                             sinks[i].capacity)
    {
      if !Forwarded(req.verb) {
        return 200, "Invalid method";
      }
      if !bodyRead {
        return 500, "";
      }
      Broadcast(req.(deadline := Deadline(req.url.path, now)), escapedPath);
      return 200, "";
    }
  }
}
