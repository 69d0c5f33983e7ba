/** The log receiver's viewer count: every segment a user fetches is
    remembered with its time; a count keeps, per user, only the segments
    after the last one that left the sliding window, and counts the user as
    one viewer of the video stream and one of the audio stream it fetched
    most, provided that is more than the configured minimum. */
module ViewerCount {
  import opened Wrappers

  /** A user: address, user agent and country. */
  datatype UserId = UserId(ip: string, agent: string, country: string)

  /** A stream representation; `kind` is "video" or "audio". */
  datatype StreamId = StreamId(slug: string, transport: string, kind: string, variant: string,
                               quality: string, meta: string)

  /** StreamId{}: what maxQuality returns when nothing was counted. */
  const NoStream := StreamId("", "", "", "", "", "")

  const StreamTypeVideo := "video"

  datatype Segment = Segment(timestamp: int, stream: StreamId)

  datatype ParserConfig = ParserConfig(slidingWindow: int, minSegments: int)

  /** time.Since(segment.Timestamp) > SlidingWindow */
  predicate Expired(s: Segment, now: int, window: int)
  {
    now - s.timestamp > window
  }

  /** m[k] += 1 on a Go map. */
  function Inc(m: map<StreamId, int>, k: StreamId): map<StreamId, int>
  {
    m[k := (if k in m then m[k] else 0) + 1]
  }

  /** The tally the inner loop of count builds: segments inside the window,
      of video streams (`video`) or of all the others, by stream. */
  function Tally(segs: seq<Segment>, now: int, window: int, video: bool): map<StreamId, int>
  {
    if segs == [] then map[]
    else
      var t := Tally(segs[..|segs| - 1], now, window, video);
      var s := segs[|segs| - 1];
      if Expired(s, now, window) || (s.stream.kind == StreamTypeVideo) != video then t
      else Inc(t, s.stream)
  }

  /** A stream is tallied exactly when some segment of it inside the window
      is of the tallied kind, and no stream more often than there are
      segments. */
  lemma {:induction false} TallyCounts(segs: seq<Segment>, now: int, window: int, video: bool, k: StreamId)
    ensures k in Tally(segs, now, window, video) <==>
            exists i :: 0 <= i < |segs| && segs[i].stream == k && !Expired(segs[i], now, window) &&
                        (k.kind == StreamTypeVideo) == video
    ensures k in Tally(segs, now, window, video) ==> 1 <= Tally(segs, now, window, video)[k] <= |segs|
  {
    if segs != [] {
      var front := segs[..|segs| - 1];
      TallyCounts(front, now, window, video, k);
      if exists i :: 0 <= i < |front| && front[i].stream == k && !Expired(front[i], now, window) &&
                     (k.kind == StreamTypeVideo) == video {
        var i :| 0 <= i < |front| && front[i].stream == k && !Expired(front[i], now, window) &&
                 (k.kind == StreamTypeVideo) == video;
        assert segs[i] == front[i];
      }
      if exists i :: 0 <= i < |segs| && segs[i].stream == k && !Expired(segs[i], now, window) &&
                     (k.kind == StreamTypeVideo) == video {
        var i :| 0 <= i < |segs| && segs[i].stream == k && !Expired(segs[i], now, window) &&
                 (k.kind == StreamTypeVideo) == video;
        if i < |front| {
          assert front[i] == segs[i];
        }
      }
    }
  }

  /** How many leading segments count removes: all up to the last one
      outside the window. */
  function Trim(segs: seq<Segment>, now: int, window: int): (r: nat)
    ensures r <= |segs|
  {
    if segs == [] then 0
    else if Expired(segs[|segs| - 1], now, window) then |segs|
    else Trim(segs[..|segs| - 1], now, window)
  }

  /** Trim cuts right after the last segment outside the window: it is
      outside, and everything kept is inside. */
  lemma {:induction false} TrimIsLastExpired(segs: seq<Segment>, now: int, window: int)
    ensures var r := Trim(segs, now, window);
            (r > 0 ==> Expired(segs[r - 1], now, window)) &&
            forall i :: r <= i < |segs| ==> !Expired(segs[i], now, window)
  {
    if segs != [] && !Expired(segs[|segs| - 1], now, window) {
      var front := segs[..|segs| - 1];
      TrimIsLastExpired(front, now, window);
      var r := Trim(segs, now, window);
      forall i | r <= i < |segs|
        ensures !Expired(segs[i], now, window)
      {
        if i < |front| {
          assert segs[i] == front[i];
        }
      }
      if r > 0 {
        assert segs[r - 1] == front[r - 1];
      }
    }
  }

  /** The segments after a count: users whose last segment left the window
      are gone, the others keep what follows their last expired segment. */
  function Trimmed(segments: map<UserId, seq<Segment>>, now: int, window: int): map<UserId, seq<Segment>>
  {
    map u | u in segments && Trim(segments[u], now, window) < |segments[u]| ::
      segments[u][Trim(segments[u], now, window)..]
  }

  /** A user whose segments all left the window is forgotten; a user with
      a recent segment is kept with recent segments only. */
  lemma TrimmedUsers(segments: map<UserId, seq<Segment>>, now: int, window: int, u: UserId)
    requires u in segments
    ensures u !in Trimmed(segments, now, window) <==>
            segments[u] == [] || Expired(segments[u][|segments[u]| - 1], now, window)
    ensures u in Trimmed(segments, now, window) ==>
              Trimmed(segments, now, window)[u] != [] &&
              forall s :: s in Trimmed(segments, now, window)[u] ==> !Expired(s, now, window)
  {
    var segs := segments[u];
    TrimIsLastExpired(segs, now, window);
    if segs != [] && !Expired(segs[|segs| - 1], now, window) {
      assert Trim(segs, now, window) < |segs|;
    }
  }

  /** maxQuality's outcome: the most counted stream (ties go either way) and
      whether its count exceeds the minimum; with nothing counted, the zero
      StreamId and a count of 0. */
  ghost predicate MaxOutcome(m: map<StreamId, int>, minSegments: int, best: StreamId, ok: bool)
  {
    if exists q :: q in m && m[q] > 0 then
      best in m && m[best] > 0 && (forall q :: q in m ==> m[q] <= m[best]) && (ok <==> m[best] > minSegments)
    else
      best == NoStream && (ok <==> 0 > minSegments)
  }

  /** ok says that some stream was counted more often than the minimum
      (or that the minimum is negative). */
  lemma OkIffAboveMinimum(m: map<StreamId, int>, minSegments: int, best: StreamId, ok: bool)
    requires MaxOutcome(m, minSegments, best, ok)
    ensures ok <==> (exists q :: q in m && m[q] > 0 && m[q] > minSegments) || 0 > minSegments
  {
  }

  /** maxQuality, walking the map in any order. */
  method MaxQuality(qualities: map<StreamId, int>, minSegments: int) returns (best: StreamId, ok: bool)
    ensures MaxOutcome(qualities, minSegments, best, ok)
  {
    var max := 0;
    best := NoStream;
    var todo := qualities.Keys;
    while todo != {}
      invariant todo <= qualities.Keys && max >= 0
      invariant max == 0 ==> best == NoStream && forall q :: q in qualities && q !in todo ==> qualities[q] <= 0
      invariant max > 0 ==> best in qualities && qualities[best] == max &&
                            forall q :: q in qualities && q !in todo ==> qualities[q] <= max
      decreases todo
    {
      var q :| q in todo;
      if qualities[q] > max {
        max := qualities[q];
        best := q;
      }
      todo := todo - {q};
    }
    ok := max > minSegments;
  }

  /** What count decided for one kept user. */
  datatype Pick = Pick(video: StreamId, videoOk: bool, audio: StreamId, audioOk: bool)

  /** The viewers a user's pick adds: at most one video and one audio. */
  function Counted(p: Pick): (r: multiset<StreamId>)
    ensures |r| <= 2
  {
    (if p.videoOk then multiset{p.video} else multiset{}) + (if p.audioOk then multiset{p.audio} else multiset{})
  }

  /** The viewers of the users visited in `order`. */
  function Along(order: seq<UserId>, picks: map<UserId, Pick>): (r: multiset<StreamId>)
  {
    if order == [] then multiset{}
    else
      var last := order[|order| - 1];
      Along(order[..|order| - 1], picks) + (if last in picks then Counted(picks[last]) else multiset{})
  }

  /** Each user adds at most one video and one audio viewer. */
  lemma {:induction false} AlongBound(order: seq<UserId>, picks: map<UserId, Pick>)
    ensures |Along(order, picks)| <= 2 * |order|
  {
    if order != [] {
      AlongBound(order[..|order| - 1], picks);
    }
  }

  /** A pick for a user not yet visited does not change the tally. */
  lemma {:induction false} AlongFrame(order: seq<UserId>, picks: map<UserId, Pick>, u: UserId, p: Pick)
    requires u !in order
    ensures Along(order, picks[u := p]) == Along(order, picks)
  {
    if order != [] {
      AlongFrame(order[..|order| - 1], picks, u, p);
    }
  }

  /** The pick is what maxQuality may give on the user's tallies. */
  ghost predicate PickFits(p: Pick, segs: seq<Segment>, now: int, conf: ParserConfig)
  {
    MaxOutcome(Tally(segs, now, conf.slidingWindow, true), conf.minSegments, p.video, p.videoOk) &&
    MaxOutcome(Tally(segs, now, conf.slidingWindow, false), conf.minSegments, p.audio, p.audioOk)
  }

  /** The inner loop of count over one user's segments. */
  method Scan(segs: seq<Segment>, now: int, window: int)
    returns (video: map<StreamId, int>, audio: map<StreamId, int>, remove: nat)
    ensures video == Tally(segs, now, window, true) && audio == Tally(segs, now, window, false)
    ensures remove == Trim(segs, now, window)
  {
    video := map[];
    audio := map[];
    remove := 0;
    for i := 0 to |segs|
      invariant video == Tally(segs[..i], now, window, true)
      invariant audio == Tally(segs[..i], now, window, false)
      invariant remove == Trim(segs[..i], now, window)
    {
      assert segs[..i + 1][..i] == segs[..i];
      var segment := segs[i];
      if now - segment.timestamp > window {
        remove := i + 1;
        continue;
      }
      if segment.stream.kind == StreamTypeVideo {
        video := Inc(video, segment.stream);
      } else {
        audio := Inc(audio, segment.stream);
      }
    }
    assert segs[..|segs|] == segs;
  }

  class Parser {
    const conf: ParserConfig
    var segments: map<UserId, seq<Segment>>
    /** viewers[s] is how many users count as watching s. */
    var viewers: multiset<StreamId>
    var lastCount: int

    constructor (conf: ParserConfig)
      ensures this.conf == conf && segments == map[] && viewers == multiset{} && lastCount == 0
    {
      this.conf := conf;
      segments := map[];
      viewers := multiset{};
      lastCount := 0;
    }

    /** addSegment: the user fetched a segment of `stream` at `now`. */
    method AddSegment(user: UserId, stream: StreamId, now: int)
      modifies this
      ensures segments == old(segments)[user := (if user in old(segments) then old(segments)[user] else []) +
                                                [Segment(now, stream)]]
      ensures viewers == old(viewers) && lastCount == old(lastCount)
    {
      var segs := if user in segments then segments[user] else [];
      segs := segs + [Segment(now, stream)];
      segments := segments[user := segs];
    }

    /** One user of count: trim or forget the user, and count its most
        watched video and audio streams. */
    method CountUser(u: UserId, now: int) returns (ghost pick: Option<Pick>)
      requires u in segments
      modifies this
      ensures lastCount == old(lastCount)
      ensures var segs := old(segments)[u];
              var r := Trim(segs, now, conf.slidingWindow);
              if r == |segs| then segments == old(segments) - {u} && pick.None? && viewers == old(viewers)
              else segments == old(segments)[u := segs[r..]] && pick.Some? &&
                   PickFits(pick.value, segs, now, conf) && viewers == old(viewers) + Counted(pick.value)
    {
      var segs := segments[u];
      var video, audio, remove := Scan(segs, now, conf.slidingWindow);
      if remove == |segs| {
        segments := segments - {u};
        return None;
      }
      segments := segments[u := segs[remove..]];
      var p := Account(video, audio);
      pick := Some(p);
    }

    /** Account for the most watched video and audio stream of one user. */
    method Account(video: map<StreamId, int>, audio: map<StreamId, int>) returns (ghost pick: Pick)
      modifies this
      ensures MaxOutcome(video, conf.minSegments, pick.video, pick.videoOk)
      ensures MaxOutcome(audio, conf.minSegments, pick.audio, pick.audioOk)
      ensures viewers == old(viewers) + Counted(pick)
      ensures segments == old(segments) && lastCount == old(lastCount)
    {
      var videoStream, videoOk := MaxQuality(video, conf.minSegments);
      if videoOk {
        viewers := viewers + multiset{videoStream};
      }
      var audioStream, audioOk := MaxQuality(audio, conf.minSegments);
      if audioOk {
        viewers := viewers + multiset{audioStream};
      }
      pick := Pick(videoStream, videoOk, audioStream, audioOk);
    }

    /** One turn of count's loop: visit `u`. */
    method Visit(u: UserId, now: int, ghost start: map<UserId, seq<Segment>>, ghost todo: set<UserId>,
                 ghost order: seq<UserId>, ghost picks: map<UserId, Pick>)
      returns (ghost order': seq<UserId>, ghost picks': map<UserId, Pick>)
      requires u in todo && Counting(start, todo, order, picks, now, conf, segments, viewers)
      modifies this
      ensures order' == order + [u] && lastCount == old(lastCount)
      ensures Counting(start, todo - {u}, order', picks', now, conf, segments, viewers)
    {
      OrderStep(start, todo, order, u);
      ghost var before := segments;
      var pick := CountUser(u, now);
      KeptStep(start, todo, before, picks, u, pick, segments, now, conf.slidingWindow);
      picks' := Chosen(picks, u, pick);
      PicksStep(start, picks, u, pick, now, conf);
      AlongStep(order, picks, u, pick);
      order' := order + [u];
    }

    /** count: the viewers start from zero; users are visited in some order
        (`order`), and `picks` records what each kept user counted. */
    method Count(now: int) returns (ghost order: seq<UserId>, ghost picks: map<UserId, Pick>)
      modifies this
      ensures lastCount == now
      ensures segments == Trimmed(old(segments), now, conf.slidingWindow)
      ensures |order| == |old(segments)| && (forall u :: u in order <==> u in old(segments))
      ensures picks.Keys == segments.Keys
      ensures forall u :: u in picks ==> PickFits(picks[u], old(segments)[u], now, conf)
      ensures viewers == Along(order, picks)
    {
      lastCount := now;
      viewers := multiset{};
      ghost var start := segments;
      order := [];
      picks := map[];
      var todo := segments.Keys;
      PartlyEnds(start, now, conf.slidingWindow);
      while todo != {}
        invariant Counting(start, todo, order, picks, now, conf, segments, viewers) && lastCount == now
        decreases todo
      {
        var u :| u in todo;
        order, picks := Visit(u, now, start, todo, order, picks);
        todo := todo - {u};
      }
    }
  }

  /** Partway through count: the users in `todo` are not visited yet,
      those in `order` are, each once, and the counted viewers are those
      the visited users' picks add. */
  ghost predicate Counting(start: map<UserId, seq<Segment>>, todo: set<UserId>, order: seq<UserId>,
                           picks: map<UserId, Pick>, now: int, conf: ParserConfig,
                           segments: map<UserId, seq<Segment>>, viewers: multiset<StreamId>)
  {
    todo <= start.Keys &&
    (forall u :: u in order <==> u in start && u !in todo) &&
    |order| + |todo| == |start| &&
    segments == Partly(start, todo, now, conf.slidingWindow) &&
    picks.Keys == segments.Keys - todo &&
    (forall u :: u in picks ==> PickFits(picks[u], start[u], now, conf)) &&
    viewers == Along(order, picks)
  }

  /** The picks after visiting `u`: its pick, if it was kept. */
  function Chosen(picks: map<UserId, Pick>, u: UserId, pick: Option<Pick>): map<UserId, Pick>
  {
    if pick.Some? then picks[u := pick.value] else picks
  }

  /** Visiting `u` moves it from `todo` to the end of `order`. */
  lemma OrderStep(start: map<UserId, seq<Segment>>, todo: set<UserId>, order: seq<UserId>, u: UserId)
    requires u in todo && todo <= start.Keys
    requires forall v :: v in order <==> v in start && v !in todo
    requires |order| + |todo| == |start|
    ensures u !in order
    ensures forall v :: v in order + [u] <==> v in start && v !in todo - {u}
    ensures |order + [u]| + |todo - {u}| == |start|
  {
  }

  /** Visiting `u` trims or forgets it, and keeps its pick exactly when
      it is kept. */
  lemma KeptStep(start: map<UserId, seq<Segment>>, todo: set<UserId>, segments: map<UserId, seq<Segment>>,
                 picks: map<UserId, Pick>, u: UserId, pick: Option<Pick>, segments': map<UserId, seq<Segment>>,
                 now: int, window: int)
    requires u in todo && todo <= start.Keys
    requires segments == Partly(start, todo, now, window) && picks.Keys == segments.Keys - todo
    requires u in segments
    requires var r := Trim(segments[u], now, window);
             if r == |segments[u]| then segments' == segments - {u} && pick.None?
             else segments' == segments[u := segments[u][r..]] && pick.Some?
    ensures segments' == Partly(start, todo - {u}, now, window)
    ensures Chosen(picks, u, pick).Keys == segments'.Keys - (todo - {u})
  {
    PartlyStep(start, todo, now, window, u);
  }

  /** A visited user's pick fits its segments, so all picks still do. */
  lemma PicksStep(start: map<UserId, seq<Segment>>, picks: map<UserId, Pick>, u: UserId, pick: Option<Pick>,
                  now: int, conf: ParserConfig)
    requires u in start && picks.Keys <= start.Keys
    requires forall v :: v in picks ==> PickFits(picks[v], start[v], now, conf)
    requires pick.Some? ==> PickFits(pick.value, start[u], now, conf)
    ensures var p := Chosen(picks, u, pick);
            p.Keys <= start.Keys && forall v :: v in p ==> PickFits(p[v], start[v], now, conf)
  {
  }

  /** A user visited for the first time adds what its pick counts. */
  lemma AlongStep(order: seq<UserId>, picks: map<UserId, Pick>, u: UserId, pick: Option<Pick>)
    requires u !in order && u !in picks
    ensures Along(order + [u], Chosen(picks, u, pick)) ==
            Along(order, picks) + (if pick.Some? then Counted(pick.value) else multiset{})
  {
    assert (order + [u])[..|order|] == order;
    if pick.Some? {
      AlongFrame(order, picks, u, pick.value);
    }
  }

  /** The segments partway through count: users in `todo` are not visited. */
  function Partly(start: map<UserId, seq<Segment>>, todo: set<UserId>, now: int, window: int): map<UserId, seq<Segment>>
  {
    map u | u in start && (u in todo || Trim(start[u], now, window) < |start[u]|) ::
      if u in todo then start[u] else start[u][Trim(start[u], now, window)..]
  }

  /** Before the loop nothing is trimmed; after it, all is. */
  lemma PartlyEnds(start: map<UserId, seq<Segment>>, now: int, window: int)
    ensures Partly(start, start.Keys, now, window) == start
    ensures Partly(start, {}, now, window) == Trimmed(start, now, window)
  {
  }

  lemma PartlyStep(start: map<UserId, seq<Segment>>, todo: set<UserId>, now: int, window: int, u: UserId)
    requires u in todo && todo <= start.Keys
    ensures var before := Partly(start, todo, now, window);
            var after := Partly(start, todo - {u}, now, window);
            var r := Trim(start[u], now, window);
            u in before && before[u] == start[u] &&
            after == if r == |start[u]| then before - {u} else before[u := start[u][r..]]
  {
  }
}
