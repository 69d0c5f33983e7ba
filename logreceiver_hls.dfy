/** The log receiver's HLS bookkeeping: which stream representation a
    fetched segment file belongs to. A stream is registered the first time
    one of its segments is seen; its qualities come from the master
    playlist, which is fetched elsewhere, so a fresh stream knows none. */
module SegmentQuality {
  import opened Wrappers
  import GoStrings
  import ViewerCount

  const TransportHLS := "hls"
  const TransportHLSLL := "hlsll"

  /** The directory and file name of each transport's master playlist. */
  const HlsMasterDir := "http://localhost/hls"
  const HlsMasterFile := "native_hd.m3u8"
  const HlsllMasterDir := "http://localhost/hlsll"
  const HlsllMasterFile := "index.m3u8"

  /** masterPlaylistUrl: where the stream's master playlist lives, by
      transport; any other transport is an error. */
  function MasterPlaylistUrl(transport: string, slug: string): (r: Result<string, string>)
    ensures r.Err? <==> transport != TransportHLS && transport != TransportHLSLL
  {
    if transport == TransportHLS then Ok(HlsMasterDir + "/" + slug + "/" + HlsMasterFile)
    else if transport == TransportHLSLL then Ok(HlsllMasterDir + "/" + slug + "/" + HlsllMasterFile)
    else Err("unknown transport: " + transport)
  }

  /** A master playlist URL names the stream as its next-to-last path
      element, so a slug without a separator can be read back from it. */
  lemma MasterPlaylistSlug(transport: string, slug: string)
    requires MasterPlaylistUrl(transport, slug).Ok? && '/' !in slug
    ensures var parts := GoStrings.Split(MasterPlaylistUrl(transport, slug).value, '/');
            |parts| >= 3 && parts[|parts| - 2] == slug &&
            parts[|parts| - 1] == (if transport == TransportHLS then HlsMasterFile else HlsllMasterFile)
  {
    var dir := if transport == TransportHLS then HlsMasterDir else HlsllMasterDir;
    var file := if transport == TransportHLS then HlsMasterFile else HlsllMasterFile;
    assert '/' !in file;
    assert MasterPlaylistUrl(transport, slug).value == dir + ['/'] + (slug + ['/'] + file);
    GoStrings.SplitAround(dir, slug + ['/'] + file, '/');
    GoStrings.SplitAround(slug, file, '/');
    GoStrings.SplitNoSep(slug, '/');
    GoStrings.SplitNoSep(file, '/');
  }

  /** Only transport-stream, fragment and MP4 files are segments. */
  predicate IsSegmentFile(file: string)
  {
    GoStrings.HasSuffix(file, ".ts") || GoStrings.HasSuffix(file, ".m4s") || GoStrings.HasSuffix(file, ".mp4")
  }

  /** qualityFromSegmentURI: for HLS the segment name up to its first '_',
      for low-latency HLS the second '_'-separated field; an error for a
      low-latency name without '_' and for any other transport. */
  function QualityFromSegmentURI(uri: string, transport: string): (r: Result<string, string>)
    ensures r.Ok? ==> '_' !in r.value
  {
    var parts := GoStrings.Split(GoStrings.Base(uri), '_');
    if transport == TransportHLS then Ok(parts[0])
    else if transport == TransportHLSLL then
      if |parts| < 2 then Err("unexpected segment uri " + uri) else Ok(parts[1])
    else Err("unknown transport: " + transport)
  }

  /** For HLS the quality is the segment's base name up to its first '_'
      (or all of it), and it never fails. */
  lemma HlsQualityIsFirstField(uri: string)
    ensures var r := QualityFromSegmentURI(uri, TransportHLS);
            var name := GoStrings.Base(uri);
            r.Ok? && GoStrings.HasPrefix(name, r.value) &&
            (|r.value| == |name| || name[|r.value|] == '_')
  {
    GoStrings.FirstPiece(GoStrings.Base(uri), '_');
  }

  /** For low-latency HLS the lookup fails exactly when the base name has
      no '_'; otherwise the quality is the field after the first '_', up to
      the next '_' or the end. */
  lemma HlsllQualityIsSecondField(uri: string)
    ensures var r := QualityFromSegmentURI(uri, TransportHLSLL);
            var name := GoStrings.Base(uri);
            (r.Err? <==> '_' !in name) &&
            (r.Ok? ==> exists head :: '_' !in head &&
                          GoStrings.HasPrefix(name, head + "_" + r.value) &&
                          (|head| + 1 + |r.value| == |name| || name[|head| + 1 + |r.value|] == '_'))
  {
    var name := GoStrings.Base(uri);
    GoStrings.SeveralPieces(name, '_');
    var parts := GoStrings.Split(name, '_');
    if |parts| >= 2 {
      GoStrings.SecondPiece(name, '_');
      assert parts[0] + "_" + parts[1] == parts[0] + ['_'] + parts[1];
    }
  }

  /** An HLSStream: its transport, the qualities its master playlist names
      and when a segment of it was last seen. */
  datatype HLSStream = HLSStream(transport: string, qualities: map<string, ViewerCount.StreamId>, lastUsed: int)

  /** What GetQuality answers for the streams as they are. */
  function Lookup(streams: map<string, HLSStream>, slug: string, transport: string, file: string)
    : (r: Option<ViewerCount.StreamId>)
  {
    if !IsSegmentFile(file) || slug !in streams then None
    else match QualityFromSegmentURI(file, transport)
      case Err(_) => None
      case Ok(name) => if name in streams[slug].qualities then Some(streams[slug].qualities[name]) else None
  }

  /** A segment is attributed exactly when it is a segment file of a known
      stream whose master playlist names the quality in its file name. */
  lemma LookupFinds(streams: map<string, HLSStream>, slug: string, transport: string, file: string)
    ensures Lookup(streams, slug, transport, file).Some? <==>
              IsSegmentFile(file) && slug in streams && QualityFromSegmentURI(file, transport).Ok? &&
              QualityFromSegmentURI(file, transport).value in streams[slug].qualities
    ensures Lookup(streams, slug, transport, file).Some? ==>
              Lookup(streams, slug, transport, file).value in streams[slug].qualities.Values
  {
  }

  const Second: int := 1_000_000_000
  const Minute: int := 60 * Second

  /** A stream whose last segment was seen more than `timeout` before
      `now`. */
  predicate Idle(s: HLSStream, now: int, timeout: int)
  {
    now - s.lastUsed > timeout
  }

  /** The streams a tick of updatePlaylists at `now` keeps. */
  function Active(streams: map<string, HLSStream>, now: int, timeout: int): (r: map<string, HLSStream>)
    ensures forall slug :: slug in r <==> slug in streams && !Idle(streams[slug], now, timeout)
    ensures forall slug :: slug in r ==> r[slug] == streams[slug]
  {
    map slug | slug in streams && !Idle(streams[slug], now, timeout) :: streams[slug]
  }

  /** A stream whose segment was fetched at `used` outlives a tick at
      `later` exactly when no more than the timeout has passed, and a tick
      never touches the streams it keeps. */
  lemma {:induction false} UsedStreamLifetime(streams: map<string, HLSStream>, slug: string, used: int,
                                              later: int, timeout: int)
    requires slug in streams && streams[slug].lastUsed == used
    ensures slug in Active(streams, later, timeout) <==> later - used <= timeout
    ensures Active(Active(streams, later, timeout), later, timeout) == Active(streams, later, timeout)
  {
    var once := Active(streams, later, timeout);
    assert Active(once, later, timeout).Keys == once.Keys;
  }

  class HLSParser {
    var streams: map<string, HLSStream>
    const streamTimeout: int

    /** NewHLSParser: no streams; a zero timeout means 15 minutes. */
    constructor (streamTimeout: int)
      ensures streams == map[]
      ensures this.streamTimeout == if streamTimeout == 0 then 15 * Minute else streamTimeout
    {
      streams := map[];
      this.streamTimeout := if streamTimeout == 0 then 15 * Minute else streamTimeout;
    }

    /** One tick of updatePlaylists: every stream idle for longer than the
        timeout is deleted, whatever order the map is walked in. Fetching
        the master playlists of the others is left out. */
    method ExpireIdle(now: int)
      modifies this
      ensures streams == Active(old(streams), now, streamTimeout)
    {
      ghost var start := streams;
      var todo := streams.Keys;
      while todo != {}
        invariant todo <= start.Keys
        invariant forall slug :: slug in streams <==> slug in start && (slug in todo || !Idle(start[slug], now, streamTimeout))
        invariant forall slug :: slug in streams ==> streams[slug] == start[slug]
        decreases todo
      {
        var slug :| slug in todo;
        if now - streams[slug].lastUsed > streamTimeout {
          streams := streams - {slug};
        }
        todo := todo - {slug};
      }
      assert streams.Keys == Active(start, now, streamTimeout).Keys;
    }

    /** addStream: registers the slug unless it is known already. */
    method AddStream(slug: string, transport: string, now: int)
      modifies this
      ensures slug in old(streams) ==> streams == old(streams)
      ensures slug !in old(streams) ==> streams == old(streams)[slug := HLSStream(transport, map[], now)]
    {
      if slug in streams {
        return;
      }
      streams := streams[slug := HLSStream(transport, map[], now)];
    }

    /** GetQuality: the representation a fetched file belongs to. A segment
        of an unknown stream registers the stream; one of a known stream
        marks it used at `now`. */
    method GetQuality(slug: string, transport: string, file: string, now: int)
      returns (quality: Option<ViewerCount.StreamId>)
      modifies this
      ensures quality == Lookup(old(streams), slug, transport, file)
      ensures !IsSegmentFile(file) ==> streams == old(streams)
      ensures IsSegmentFile(file) && slug !in old(streams) ==>
                streams == old(streams)[slug := HLSStream(transport, map[], now)]
      ensures IsSegmentFile(file) && slug in old(streams) ==>
                streams == old(streams)[slug := old(streams)[slug].(lastUsed := now)]
    {
      if !(GoStrings.HasSuffix(file, ".ts") || GoStrings.HasSuffix(file, ".m4s") || GoStrings.HasSuffix(file, ".mp4")) {
        return None;
      }
      if slug !in streams {
        AddStream(slug, transport, now);
        return None;
      }
      var stream := streams[slug];
      streams := streams[slug := stream.(lastUsed := now)];
      var name := QualityFromSegmentURI(file, transport);
      if name.Err? {
        return None;
      }
      if name.value !in stream.qualities {
        return None;
      }
      return Some(stream.qualities[name.value]);
    }
  }

  /** The first segment of a stream only registers it, and without a
      master playlist the next one is not attributed either. */
  method FirstSegmentsScenario(slug: string, file: string) returns (first: Option<ViewerCount.StreamId>,
                                                                  second: Option<ViewerCount.StreamId>)
    requires IsSegmentFile(file)
    ensures first.None? && second.None?
  {
    var h := new HLSParser(0);
    first := h.GetQuality(slug, TransportHLS, file, 1000);
    assert h.streams[slug].qualities == map[];
    second := h.GetQuality(slug, TransportHLS, file, 2000);
  }
}
