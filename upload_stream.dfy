/** The upload server's streams (upload/stream.go) and the store that keeps
    them alive while data keeps arriving (upload/stream_store.go). A stream
    is a value held in the store's map; its HLS parser is an object. Each
    tick of the store's ticker is one call of Timeout; the current time is a
    parameter. */
module UploadStream {
  import opened Wrappers
  import Hls
  import FileRegistry
  import Keeps

  /** time.Duration is a count of nanoseconds; the zero time.Time is 0. */
  const Millisecond: int := 1_000_000
  const Second: int := 1000 * Millisecond

  /** The one parser type of the upload server. */
  const ParserTypeHLS: string := "hls"

  datatype Error = InvalidOrigin

  /** What newHLSParser takes from the request handler: the slug, the
      stream's directory, the live playlist size and the file registry. */
  datatype HLSConfiguration = HLSConfiguration(slug: string, basePath: string, size: int,
                                               registry: FileRegistry.Registry)

  /** A stream: `alive` says its alive channel is still open. */
  datatype Stream = Stream(timeout: int, originTimeout: int, ttl: int,
                           origin: string, originUpdated: int, alive: bool,
                           parsers: map<string, Hls.HLSParser>)

  /** NewStream: a full ttl, no origin yet, no parsers. Times count
      nanoseconds, and the origin's update time 0 stands for Go's zero
      `time.Time`, the time before any upload that the handover rule in
      Update compares against. */
  function NewStream(timeout: int, originTimeout: int): (s: Stream)
    ensures s.timeout == timeout && s.originTimeout == originTimeout
    ensures s.ttl == timeout && s.origin == "" && s.originUpdated == 0
    ensures s.alive && s.parsers == map[]
  {
    Stream(timeout, originTimeout, timeout, "", 0, true, map[])
  }

  datatype Updated = Updated(s: Stream, err: Option<Error>)

  /** Update: a different origin is refused while the current one was
      confirmed less than originTimeout ago, and the stream stays as it
      was; otherwise the origin is taken, confirmed now, and the ttl is
      full again. */
  function Update(s: Stream, origin: string, now: int): (r: Updated)
    ensures r.err.Some? <==> origin != s.origin && s.originUpdated + s.originTimeout > now
    ensures r.err.Some? ==> r.err == Some(InvalidOrigin) && r.s == s
    ensures r.err.None? ==> r.s == s.(origin := origin, originUpdated := now, ttl := s.timeout)
  {
    if origin != s.origin && s.originUpdated + s.originTimeout > now then Updated(s, Some(InvalidOrigin))
    else Updated(s.(origin := origin, originUpdated := now, ttl := s.timeout), None)
  }

  /** The uploader holding the origin is never refused, and another one is
      taken over once originTimeout has passed since the last confirmation. */
  lemma OriginHandover(s: Stream, origin: string, now: int)
    ensures origin == s.origin ==> Update(s, origin, now).err.None?
    ensures now >= s.originUpdated + s.originTimeout ==> Update(s, origin, now).err.None?
    ensures Update(s, origin, now).err.None? ==>
              Update(Update(s, origin, now).s, origin, now).s == Update(s, origin, now).s
  {
  }

  datatype Aged = Aged(s: Stream, expired: bool)

  /** Age: the ttl runs down by `duration`; expired once it is used up. */
  function Age(s: Stream, duration: int): (r: Aged)
    ensures r.s == s.(ttl := s.ttl - duration)
    ensures r.expired <==> s.ttl <= duration
  {
    var t := s.(ttl := s.ttl - duration);
    Aged(t, t.ttl <= 0)
  }

  function AgedBy(s: Stream, interval: int, n: nat): Stream
  {
    if n == 0 then s else Age(AgedBy(s, interval, n - 1), interval).s
  }

  /** `n` ticks of `interval` after an update, the ttl is `n` intervals
      short of the timeout: a stream is dropped at the first tick whose
      total reaches its timeout. */
  lemma {:induction false} AgeTicks(s: Stream, interval: int, n: nat)
    ensures AgedBy(s, interval, n).ttl == s.ttl - n * interval
    ensures n > 0 ==> (Age(AgedBy(s, interval, n - 1), interval).expired <==> s.ttl <= n * interval)
  {
    if n > 0 {
      AgeTicks(s, interval, n - 1);
    }
  }

  /** The parser and its keep channel table, when there is one. */
  function Parts(s: Stream): set<object>
  {
    if ParserTypeHLS in s.parsers then {s.parsers[ParserTypeHLS], s.parsers[ParserTypeHLS].channels} else {}
  }

  /** What removing a stream does to its parser: the paths it tracks and
      the channels of its table that are closed. */
  datatype ParserSnapshot = NoParser | ParserSnapshot(files: map<string, Keeps.Keep>, closed: set<Keeps.Keep>)

  ghost function Snapshot(s: Stream): ParserSnapshot
    reads Parts(s)
  {
    if ParserTypeHLS in s.parsers
    then ParserSnapshot(s.parsers[ParserTypeHLS].files, s.parsers[ParserTypeHLS].channels.closed)
    else NoParser
  }

  /** A stream's parser after a timeout tick, given what it was before: an
      expired stream's parser tracks nothing and has closed every channel
      it tracked; any other parser is as it was. */
  predicate Settled(after: ParserSnapshot, expired: bool, before: ParserSnapshot)
  {
    if expired && before.ParserSnapshot? then after == ParserSnapshot(map[], before.closed + before.files.Values)
    else after == before
  }

  /** One step of the timeout walk, over the parser snapshots of all of
      `start` before (`mid`) and after (`now`) the slug's tick: the slug's
      parser settles, and every other one stays as the walk so far left it. */
  lemma SettleStep(start: map<string, Stream>, slug: string, todo: set<string>, interval: int,
                   before: map<string, ParserSnapshot>, mid: map<string, ParserSnapshot>,
                   now: map<string, ParserSnapshot>)
    requires start.Keys <= before.Keys && start.Keys <= mid.Keys && start.Keys <= now.Keys
    requires forall t :: t in start ==> Settled(mid[t], t !in todo && Age(start[t], interval).expired, before[t])
    requires forall t :: t in start ==> Settled(now[t], t == slug && Age(start[t], interval).expired, mid[t])
    requires slug in todo
    ensures forall t :: t in start ==>
              Settled(now[t], t !in todo - {slug} && Age(start[t], interval).expired, before[t])
  {
    forall t | t in start
      ensures Settled(now[t], t !in todo - {slug} && Age(start[t], interval).expired, before[t])
    {
      SettledThen(now[t], t == slug && Age(start[t], interval).expired,
                  mid[t], t !in todo && Age(start[t], interval).expired, before[t]);
    }
  }

  /** Two ticks, of which at most one removes the stream, settle the parser
      as one tick would. */
  lemma SettledThen(c: ParserSnapshot, second: bool, b: ParserSnapshot, first: bool, a: ParserSnapshot)
    requires Settled(b, first, a) && Settled(c, second, b) && !(first && second)
    ensures Settled(c, first || second, a)
  {
  }

  /** Only the HLS parser type is ever stored, and the parser keeps its own
      invariant. */
  ghost predicate Sound(s: Stream)
    reads Parts(s)
  {
    && s.parsers.Keys <= {ParserTypeHLS}
    && (ParserTypeHLS in s.parsers ==> s.parsers[ParserTypeHLS].Valid())
  }

  /** Cleanup: closes the alive channel (a second close would panic), and
      cleans up and forgets every parser. With only the HLS parser type
      stored, the walk over the parser map has at most one step. */
  method Cleanup(s: Stream) returns (r: Stream)
    requires s.alive && Sound(s)
    modifies Parts(s)
    ensures r == s.(alive := false, parsers := map[]) && Sound(r)
    ensures ParserTypeHLS in s.parsers ==>
              var p := s.parsers[ParserTypeHLS];
              p.files == map[] && p.subs == old(p.subs) &&
              p.channels.closed == old(p.channels.closed) + old(p.files).Values
  {
    if ParserTypeHLS in s.parsers {
      s.parsers[ParserTypeHLS].Cleanup();
    }
    r := s.(alive := false, parsers := map[]);
  }

  /** GetHLSParser: the stream's HLS parser, made on first use. */
  method GetHLSParser(s: Stream, config: HLSConfiguration) returns (r: Stream, p: Hls.HLSParser)
    requires Sound(s)
    ensures ParserTypeHLS in s.parsers ==> p == s.parsers[ParserTypeHLS] && r == s
    ensures ParserTypeHLS !in s.parsers ==>
              fresh(p) && fresh(p.channels) && r == s.(parsers := s.parsers[ParserTypeHLS := p]) &&
              p.slug == config.slug && p.basePath == config.basePath && p.size == config.size &&
              p.registry == config.registry && p.files == map[] && p.subs == map[]
    ensures r.parsers == map[ParserTypeHLS := p] && Sound(r)
  {
    r := s;
    if ParserTypeHLS !in s.parsers {
      var q := new Hls.HLSParser(config.slug, config.basePath, config.size, config.registry);
      r := s.(parsers := s.parsers[ParserTypeHLS := q]);
    }
    p := r.parsers[ParserTypeHLS];
  }

  const DefaultStreamTimeout: int := 10 * Second
  const DefaultStreamExpireInterval: int := 2 * Second
  const DefaultStreamOriginDuration: int := 6 * Second

  datatype StoreConfig = StoreConfig(streamTimeout: int, streamExpireInterval: int, streamOriginDuration: int)

  /** NewStreamStore: a zero duration takes its default, any other is kept. */
  function WithDefaults(c: StoreConfig): (r: StoreConfig)
    ensures r.streamTimeout != 0 && r.streamExpireInterval != 0 && r.streamOriginDuration != 0
    ensures c.streamTimeout != 0 ==> r.streamTimeout == c.streamTimeout
    ensures c.streamExpireInterval != 0 ==> r.streamExpireInterval == c.streamExpireInterval
    ensures c.streamOriginDuration != 0 ==> r.streamOriginDuration == c.streamOriginDuration
    ensures c.streamTimeout == 0 ==> r.streamTimeout == 10 * Second
    ensures c.streamExpireInterval == 0 ==> r.streamExpireInterval == 2 * Second
    ensures c.streamOriginDuration == 0 ==> r.streamOriginDuration == 6 * Second
  {
    StoreConfig(if c.streamTimeout == 0 then DefaultStreamTimeout else c.streamTimeout,
                if c.streamExpireInterval == 0 then DefaultStreamExpireInterval else c.streamExpireInterval,
                if c.streamOriginDuration == 0 then DefaultStreamOriginDuration else c.streamOriginDuration)
  }

  /** The parsers and channel tables of all streams. */
  function Footprint(data: map<string, Stream>): set<object>
  {
    set slug, o | slug in data && o in Parts(data[slug]) :: o
  }

  /** No two slugs share a parser or a channel table. */
  predicate Apart(data: map<string, Stream>)
  {
    forall a, b :: a in data && b in data && a != b ==> Parts(data[a]) !! Parts(data[b])
  }

  class StreamStore {
    const config: StoreConfig
    var data: map<string, Stream>

    /** NewStreamStore: no streams, and the configuration with defaults. */
    constructor (config: StoreConfig)
      ensures this.config == WithDefaults(config) && data == map[] && Valid()
    {
      this.config := WithDefaults(config);
      data := map[];
    }

    /** Every registered stream is alive, made with the store's durations,
        and sound, and no two share a parser. */
    ghost predicate Valid()
      reads this, Footprint(data)
    {
      && (forall slug :: slug in data ==> Fits(data[slug]))
      && Apart(data)
    }

    ghost predicate Fits(s: Stream)
      reads Parts(s)
    {
      && s.alive && Sound(s)
      && s.timeout == config.streamTimeout
      && s.originTimeout == config.streamOriginDuration
    }

    /** UpdateStream: registers an unknown slug with a new stream, then
        updates that stream's origin. */
    method UpdateStream(slug: string, origin: string, now: int) returns (err: Option<Error>)
      requires Valid()
      modifies this
      ensures Valid()
      ensures var s := if slug in old(data) then old(data)[slug]
                       else NewStream(config.streamTimeout, config.streamOriginDuration);
              data == old(data)[slug := Update(s, origin, now).s] && err == Update(s, origin, now).err
    {
      var s := if slug in data then data[slug] else NewStream(config.streamTimeout, config.streamOriginDuration);
      var u := Update(s, origin, now);
      data := data[slug := u.s];
      err := u.err;
      assert Parts(u.s) == Parts(s);
      ApartReplace(old(data), slug, u.s);
    }

    /** GetStream: the stream registered under `slug`, None (nil) if none. */
    method GetStream(slug: string) returns (s: Option<Stream>)
      ensures s.Some? <==> slug in data
      ensures s.Some? ==> s.value == data[slug]
    {
      if slug in data {
        return Some(data[slug]);
      }
      return None;
    }

    /** What the upload handler does with a registered stream: fetch its
        HLS parser, made on first use. */
    method Parser(slug: string, config: HLSConfiguration) returns (p: Hls.HLSParser)
      requires Valid() && slug in data
      modifies this
      ensures Valid() && data.Keys == old(data).Keys
      ensures forall t :: t in data && t != slug ==> data[t] == old(data)[t]
      ensures ParserTypeHLS in old(data)[slug].parsers ==>
                p == old(data)[slug].parsers[ParserTypeHLS] && data == old(data)
      ensures ParserTypeHLS !in old(data)[slug].parsers ==>
                fresh(p) && data[slug] == old(data)[slug].(parsers := map[ParserTypeHLS := p]) &&
                p.slug == config.slug && p.basePath == config.basePath && p.size == config.size &&
                p.registry == config.registry
    {
      var s := data[slug];
      var r;
      r, p := GetHLSParser(s, config);
      data := data[slug := r];
      if ParserTypeHLS in s.parsers {
        ApartReplace(old(data), slug, r);
      } else {
        ApartFresh(old(data), slug, r);
      }
    }

    /** removeStream: an unknown slug is left alone; a registered stream is
        cleaned up and forgotten. */
    method RemoveStream(slug: string)
      requires Valid()
      modifies this, if slug in data then Parts(data[slug]) else {}
      ensures Valid() && data == old(data) - {slug}
      ensures slug in old(data) && ParserTypeHLS in old(data)[slug].parsers ==>
                var p := old(data)[slug].parsers[ParserTypeHLS];
                p.files == map[] && p.channels.closed == old(p.channels.closed) + old(p.files).Values
    {
      if slug !in data {
        return;
      }
      var s := Cleanup(data[slug]);
      data := data - {slug};
    }

    /** The shutdown branch of run: every stream is cleaned up and removed. */
    method RemoveAll()
      requires Valid()
      modifies this, Footprint(data)
      ensures Valid() && data == map[]
    {
      var todo := data.Keys;
      while todo != {}
        invariant Valid() && data.Keys == todo
        invariant forall slug :: slug in data ==> data[slug] == old(data)[slug]
        decreases todo
      {
        var slug :| slug in todo;
        RemoveStream(slug);
        todo := todo - {slug};
      }
    }

    /** One slug of the timeout walk. `start` is the map the walk began
        with, and the slug's stream is still as it was there: its parser is
        settled, and the parsers of the other streams are not touched. */
    method Tick(slug: string, ghost start: map<string, Stream>)
      requires Valid() && slug in data
      requires Apart(start) && slug in start && data[slug] == start[slug]
      modifies this, Parts(data[slug])
      ensures Valid()
      ensures var a := Age(old(data)[slug], config.streamExpireInterval);
              data == if a.expired then old(data) - {slug} else old(data)[slug := a.s]
      ensures forall t :: t in start ==>
                Settled(Snapshot(start[t]), t == slug && Age(start[t], config.streamExpireInterval).expired,
                        old(Snapshot(start[t])))
    {
      var s0 := data[slug];
      ghost var snap := Snapshot(s0);
      var a := Age(s0, config.streamExpireInterval);
      data := data[slug := a.s];
      ApartReplace(old(data), slug, a.s);
      if a.expired {
        RemoveStream(slug);
        ReplaceThenRemove(old(data), slug, a.s);
        assert Settled(Snapshot(s0), true, snap);
      } else {
        assert Snapshot(s0) == snap;
      }
      forall t | t in start && t != slug
        ensures Snapshot(start[t]) == old(Snapshot(start[t]))
      {
        assert Parts(start[t]) !! Parts(start[slug]);
      }
    }

    /** timeout: every stream ages by the expire interval, and exactly those
        whose ttl is used up are cleaned up and removed. */
    method Timeout()
      requires Valid()
      modifies this, Footprint(data)
      ensures Valid()
      ensures data == Aging(old(data), old(data).Keys, config.streamExpireInterval)
      ensures forall slug :: slug in old(data) ==>
                Settled(Snapshot(old(data)[slug]), Age(old(data)[slug], config.streamExpireInterval).expired,
                        old(Snapshot(data[slug])))
    {
      ghost var start := data;
      ghost var before := map slug | slug in data :: Snapshot(data[slug]);
      var todo := data.Keys;
      while todo != {}
        invariant todo <= data.Keys
        invariant data == Aging(start, start.Keys - todo, config.streamExpireInterval)
        invariant Valid()
        invariant Apart(start)
        invariant forall t :: t in start ==>
                    Settled(Snapshot(start[t]), t !in todo && Age(start[t], config.streamExpireInterval).expired,
                            before[t])
        decreases todo
      {
        var slug :| slug in todo;
        ghost var done := start.Keys - todo;
        AgingStep(start, done, slug, config.streamExpireInterval);
        ghost var mid := map t | t in start :: Snapshot(start[t]);
        Tick(slug, start);
        ghost var now := map t | t in start :: Snapshot(start[t]);
        SettleStep(start, slug, todo, config.streamExpireInterval, before, mid, now);
        DoneStep(start.Keys, todo, slug);
        todo := todo - {slug};
      }
    }
  }

  /** The streams of `data` after the slugs in `done` have aged by
      `interval`: those among them that expired are gone. */
  function Aging(data: map<string, Stream>, done: set<string>, interval: int): (r: map<string, Stream>)
    ensures r.Keys <= data.Keys
  {
    map slug | slug in data && (slug !in done || !Age(data[slug], interval).expired) ::
      if slug in done then Age(data[slug], interval).s else data[slug]
  }

  lemma AgingStep(data: map<string, Stream>, done: set<string>, slug: string, interval: int)
    requires slug in data && slug !in done
    ensures var before := Aging(data, done, interval);
            var a := Age(data[slug], interval);
            slug in before && before[slug] == data[slug] &&
            Aging(data, done + {slug}, interval) ==
              if a.expired then before - {slug} else before[slug := a.s]
  {
  }

  /** Replacing a stream by one with the same parsers keeps the streams
      apart. */
  lemma ApartReplace(data: map<string, Stream>, slug: string, s: Stream)
    requires Apart(data)
    requires slug in data ==> Parts(s) == Parts(data[slug])
    requires slug !in data ==> Parts(s) == {}
    ensures Apart(data[slug := s])
  {
  }

  /** Removing a key just replaced removes the original entry. */
  lemma ReplaceThenRemove<K, V>(m: map<K, V>, k: K, v: V)
    ensures m[k := v] - {k} == m - {k}
  {
    assert (m[k := v] - {k}).Keys == (m - {k}).Keys;
  }

  /** One more slug of a walk is done. */
  lemma DoneStep(all: set<string>, todo: set<string>, slug: string)
    requires slug in todo && slug in all
    ensures all - (todo - {slug}) == (all - todo) + {slug}
  {
  }

  /** Aging a store of one stream. */
  lemma AgingOne(slug: string, s: Stream, interval: int)
    ensures var a := Age(s, interval);
            Aging(map[slug := s], {slug}, interval) == if a.expired then map[] else map[slug := a.s]
  {
  }

  /** A stream without parser may take parts no other stream has. */
  lemma ApartFresh(data: map<string, Stream>, slug: string, s: Stream)
    requires Apart(data) && slug in data && Parts(data[slug]) == {}
    requires Parts(s) !! Footprint(data)
    ensures Apart(data[slug := s])
  {
  }

  /** A tick of a store that holds one stream without parser. */
  method OneStreamTick(store: StreamStore, slug: string, s: Stream)
    requires store.Valid() && store.data == map[slug := s] && s.parsers == map[]
    modifies store
    ensures store.Valid()
    ensures var a := Age(s, store.config.streamExpireInterval);
            store.data == if a.expired then map[] else map[slug := a.s]
  {
    AgingOne(slug, s, store.config.streamExpireInterval);
    assert Footprint(store.data) == {};
    store.Timeout();
  }

  /** The clock reading the scenarios start at; the zero time.Time (0 here)
      lies long before it. */
  const T0: int := 1000 * Second

  /** The first scenario of upload/stream_store_test.go, at 50ms ticks: a
      stream that is not updated again is gone after timeout/interval
      ticks. */
  method UnusedStreamScenario() returns (before: bool, during: bool, after: bool)
    ensures !before && during && !after
  {
    var s := new StreamStore(StoreConfig(100 * Millisecond, 50 * Millisecond, 0));
    assert s.config == StoreConfig(100 * Millisecond, 50 * Millisecond, 6 * Second);
    var got := s.GetStream("test");
    before := got.Some?;
    var err := s.UpdateStream("test", "foo.com", T0);
    got := s.GetStream("test");
    during := got.Some?;
    var st := Stream(100 * Millisecond, 6 * Second, 100 * Millisecond, "foo.com", T0, true, map[]);
    assert s.data == map["test" := st];
    OneStreamTick(s, "test", st);
    OneStreamTick(s, "test", st.(ttl := 50 * Millisecond));
    got := s.GetStream("test");
    after := got.Some?;
  }

  /** The second scenario of upload/stream_store_test.go, at 50ms ticks. A
      second origin is refused right away, and still after three ticks
      (150ms), where the test expects it to be accepted: the default origin
      duration is 6s. It is accepted once the stream has timed out and been
      removed, at the fourth tick. */
  method SecondOriginScenario() returns (first: Option<Error>, second: Option<Error>,
                                         third: Option<Error>, fourth: Option<Error>)
    ensures first == None && second == Some(InvalidOrigin)
    ensures third == Some(InvalidOrigin) && fourth == None
  {
    var t := new StreamStore(StoreConfig(200 * Millisecond, 50 * Millisecond, 0));
    assert t.config == StoreConfig(200 * Millisecond, 50 * Millisecond, 6 * Second);
    first := t.UpdateStream("test", "foo.com", T0);
    second := t.UpdateStream("test", "bar.com", T0);
    var st := Stream(200 * Millisecond, 6 * Second, 200 * Millisecond, "foo.com", T0, true, map[]);
    assert t.data == map["test" := st];
    OneStreamTick(t, "test", st);
    OneStreamTick(t, "test", st.(ttl := 150 * Millisecond));
    OneStreamTick(t, "test", st.(ttl := 100 * Millisecond));
    third := t.UpdateStream("test", "bar.com", T0 + 150 * Millisecond);
    OneStreamTick(t, "test", st.(ttl := 50 * Millisecond));
    fourth := t.UpdateStream("test", "bar.com", T0 + 200 * Millisecond);
  }
}
