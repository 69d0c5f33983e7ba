/** The upload server's stream registry: every stream that uploads files
    has a registration with a time to live and the directories its files
    went to. A ticker counts the time to live down; a stream whose time runs
    out is removed, and the cleanup callback is called once for each of its
    directories. The callback's effect belongs to the caller, so the model
    records the calls in order. */
module UploadRegistry {
  import GoStrings

  /** time.Duration is a count of nanoseconds. */
  const Second: int := 1_000_000_000

  /** The ticker interval NewRegistry sets. */
  const Interval: int := 2 * Second

  /** The time to live of a stream registered by addStream. */
  const InitialTTL: int := 10 * Second

  datatype Registration = Registration(ttl: int, directories: set<string>)

  /** One call of the cleanup callback. */
  datatype Call = Call(slug: string, path: string)

  /** `c` is a way of removing the streams `removed` of `data`: it calls the
      callback for directories of those streams only, for none twice, and
      for every directory of every one of them. */
  ghost predicate CallsFor(c: seq<Call>, data: map<string, Registration>, removed: set<string>)
  {
    (forall i :: 0 <= i < |c| ==>
       c[i].slug in removed && c[i].slug in data && c[i].path in data[c[i].slug].directories) &&
    (forall i, j :: 0 <= i < j < |c| ==> c[i] != c[j]) &&
    (forall s, d :: s in removed && s in data && d in data[s].directories ==>
       exists i :: 0 <= i < |c| && c[i] == Call(s, d))
  }

  /** The registration of `slug`, or the one addStream would make. */
  function Current(data: map<string, Registration>, slug: string): Registration
  {
    if slug in data then data[slug] else Registration(InitialTTL, {})
  }

  /** AddFile: the directory of `path` joins the stream's directories. */
  function FileAdded(data: map<string, Registration>, slug: string, path: string): map<string, Registration>
  {
    var reg := Current(data, slug);
    data[slug := reg.(directories := reg.directories + {GoStrings.Dir(path)})]
  }

  /** Keepalive: the stream's time to live becomes `timeout`. */
  function KeptAlive(data: map<string, Registration>, slug: string, timeout: int): map<string, Registration>
  {
    data[slug := Current(data, slug).(ttl := timeout)]
  }

  /** The streams one tick removes. */
  function Expiring(data: map<string, Registration>): set<string>
  {
    set s | s in data && data[s].ttl <= Interval
  }

  /** The registrations after one tick. */
  function Ticked(data: map<string, Registration>): map<string, Registration>
  {
    map s | s in data && data[s].ttl > Interval :: data[s].(ttl := data[s].ttl - Interval)
  }

  /** The registrations after `n` ticks with no upload and no keepalive. */
  function TickedN(data: map<string, Registration>, n: nat): map<string, Registration>
  {
    if n == 0 then data else Ticked(TickedN(data, n - 1))
  }

  /** A stream lives through `n` > 0 ticks exactly when its time to live
      exceeds `n` intervals; it then has that much less and the same
      directories. */
  lemma {:induction false} TickedNStays(data: map<string, Registration>, n: nat, s: string)
    ensures s in TickedN(data, n) <==> s in data && (n == 0 || data[s].ttl > n * Interval)
    ensures s in TickedN(data, n) ==> TickedN(data, n)[s] == data[s].(ttl := data[s].ttl - n * Interval)
  {
    if n > 0 {
      TickedNStays(data, n - 1, s);
      var m := TickedN(data, n - 1);
      assert TickedN(data, n) == Ticked(m);
      assert n * Interval == (n - 1) * Interval + Interval;
      if s in m {
        assert s in Ticked(m) <==> m[s].ttl > Interval;
      }
    }
  }

  /** After Keepalive(slug, timeout), and no further upload or keepalive,
      the stream is still registered after `n` > 0 ticks iff
      timeout > n * 2s. */
  lemma KeepaliveLifetime(data: map<string, Registration>, slug: string, timeout: int, n: nat)
    requires n > 0
    ensures slug in TickedN(KeptAlive(data, slug, timeout), n) <==> timeout > n * Interval
  {
    TickedNStays(KeptAlive(data, slug, timeout), n, slug);
  }

  /** A stream first seen by AddFile is still registered after four ticks
      and removed by the fifth. */
  lemma NewStreamLifetime(data: map<string, Registration>, slug: string, path: string)
    requires slug !in data
    ensures slug in TickedN(FileAdded(data, slug, path), 4)
    ensures slug !in TickedN(FileAdded(data, slug, path), 5)
  {
    TickedNStays(FileAdded(data, slug, path), 4, slug);
    TickedNStays(FileAdded(data, slug, path), 5, slug);
  }

  /** Whatever order the callbacks come in, removing a stream after
      AddFile(slug, path) cleans up the directory of `path`. */
  lemma FileDirCleaned(data: map<string, Registration>, slug: string, path: string, c: seq<Call>)
    requires CallsFor(c, FileAdded(data, slug, path), {slug})
    ensures Call(slug, GoStrings.Dir(path)) in c
  {
    var after := FileAdded(data, slug, path);
    assert GoStrings.Dir(path) in after[slug].directories;
    var i :| 0 <= i < |c| && c[i] == Call(slug, GoStrings.Dir(path));
  }

  /** Removing one more stream extends a removal of others. */
  lemma CallsJoin(a: seq<Call>, b: seq<Call>, start: map<string, Registration>, removed: set<string>,
                  mid: map<string, Registration>, slug: string)
    requires CallsFor(a, start, removed) && CallsFor(b, mid, {slug})
    requires slug !in removed && slug in start && slug in mid
    requires mid[slug].directories == start[slug].directories
    ensures CallsFor(a + b, start, removed + {slug})
  {
    var c := a + b;
    forall s, d | s in removed + {slug} && s in start && d in start[s].directories
      ensures exists i :: 0 <= i < |c| && c[i] == Call(s, d)
    {
      if s == slug {
        var k :| 0 <= k < |b| && b[k] == Call(s, d);
        assert c[|a| + k] == Call(s, d);
      } else {
        var k :| 0 <= k < |a| && a[k] == Call(s, d);
        assert c[k] == Call(s, d);
      }
    }
  }

  /** The registrations partway through a tick: the streams in `todo` are
      not visited yet. */
  function TickedPart(start: map<string, Registration>, todo: set<string>): map<string, Registration>
  {
    map s | s in start && (s in todo || start[s].ttl > Interval) ::
      if s in todo then start[s] else start[s].(ttl := start[s].ttl - Interval)
  }

  /** One stream of the tick: its time to live goes down by the interval,
      and it is dropped when nothing is left. */
  lemma TickedPartStep(start: map<string, Registration>, todo: set<string>, slug: string)
    requires slug in todo && todo <= start.Keys
    ensures var before := TickedPart(start, todo);
            var counted := start[slug].(ttl := start[slug].ttl - Interval);
            var after := TickedPart(start, todo - {slug});
            slug in before && before[slug] == start[slug] &&
            Expiring(start) - (todo - {slug}) ==
              (if counted.ttl <= 0 then (Expiring(start) - todo) + {slug} else Expiring(start) - todo) &&
            after == if counted.ttl <= 0 then before[slug := counted] - {slug} else before[slug := counted]
  {
  }

  class Registry {
    var data: map<string, Registration>
    /** The cleanup callback's calls so far, oldest first. */
    var calls: seq<Call>

    /** NewRegistry: no streams yet. */
    constructor ()
      ensures data == map[] && calls == []
    {
      data := map[];
      calls := [];
    }

    /** AddFile: registers the stream if it is new (10 seconds to live) and
        tracks the directory of `path`; it never fails. */
    method AddFile(slug: string, path: string)
      modifies this
      ensures data == FileAdded(old(data), slug, path) && calls == old(calls)
    {
      if slug !in data {
        AddStream(slug);
      }
      var reg := data[slug];
      var dir := GoStrings.Dir(path);
      data := data[slug := reg.(directories := reg.directories + {dir})];
    }

    /** Keepalive: registers the stream if it is new and sets its time to
        live to `timeout`. */
    method Keepalive(slug: string, timeout: int)
      modifies this
      ensures data == KeptAlive(old(data), slug, timeout) && calls == old(calls)
    {
      if slug !in data {
        AddStream(slug);
      }
      var reg := data[slug];
      data := data[slug := reg.(ttl := timeout)];
    }

    /** addStream: a fresh registration with no directories. */
    method AddStream(slug: string)
      modifies this
      ensures data == old(data)[slug := Registration(InitialTTL, {})] && calls == old(calls)
    {
      data := data[slug := Registration(InitialTTL, {})];
    }

    /** removeStream: calls the callback for each directory of the stream,
        in map order, then forgets the stream; an unknown slug is ignored. */
    method RemoveStream(slug: string) returns (ghost made: seq<Call>)
      modifies this
      ensures data == old(data) - {slug}
      ensures calls == old(calls) + made && CallsFor(made, old(data), {slug})
    {
      made := [];
      if slug !in data {
        assert data == old(data) - {slug};
        return;
      }
      var dirs := data[slug].directories;
      var todo := dirs;
      while todo != {}
        invariant todo <= dirs && data == old(data)
        invariant calls == old(calls) + made
        invariant forall i :: 0 <= i < |made| ==> made[i].slug == slug && made[i].path in dirs - todo
        invariant forall i, j :: 0 <= i < j < |made| ==> made[i] != made[j]
        invariant forall d :: d in dirs - todo ==> exists i :: 0 <= i < |made| && made[i] == Call(slug, d)
        decreases todo
      {
        var dir :| dir in todo;
        ghost var prev := made;
        calls := calls + [Call(slug, dir)];
        made := made + [Call(slug, dir)];
        forall d | d in dirs - (todo - {dir})
          ensures exists i :: 0 <= i < |made| && made[i] == Call(slug, d)
        {
          if d == dir {
            assert made[|prev|] == Call(slug, d);
          } else {
            var i :| 0 <= i < |prev| && prev[i] == Call(slug, d);
            assert made[i] == Call(slug, d);
          }
        }
        todo := todo - {dir};
      }
      assert dirs - todo == dirs;
      data := data - {slug};
    }

    /** timeout: one tick counts every time to live down by the interval
        and removes the streams whose time ran out. */
    method Timeout() returns (ghost made: seq<Call>)
      modifies this
      ensures data == Ticked(old(data))
      ensures calls == old(calls) + made && CallsFor(made, old(data), Expiring(old(data)))
    {
      ghost var start := data;
      made := [];
      var todo := data.Keys;
      while todo != {}
        invariant todo <= start.Keys
        invariant data == TickedPart(start, todo)
        invariant calls == old(calls) + made
        invariant CallsFor(made, start, Expiring(start) - todo)
        decreases todo
      {
        var slug :| slug in todo;
        TickedPartStep(start, todo, slug);
        var reg := data[slug];
        reg := reg.(ttl := reg.ttl - Interval);
        data := data[slug := reg];
        if reg.ttl <= 0 {
          ghost var mid := data;
          var block := RemoveStream(slug);
          CallsJoin(made, block, start, Expiring(start) - todo, mid, slug);
          made := made + block;
        }
        todo := todo - {slug};
      }
      assert TickedPart(start, {}) == Ticked(start);
    }

    /** The shutdown branch of the run loop: every stream is removed. */
    method RemoveAll() returns (ghost made: seq<Call>)
      modifies this
      ensures data == map[]
      ensures calls == old(calls) + made && CallsFor(made, old(data), old(data).Keys)
    {
      ghost var start := data;
      made := [];
      var todo := data.Keys;
      while todo != {}
        invariant todo <= start.Keys
        invariant data == map s | s in todo :: start[s]
        invariant calls == old(calls) + made
        invariant CallsFor(made, start, start.Keys - todo)
        decreases todo
      {
        var slug :| slug in todo;
        ghost var mid := data;
        var block := RemoveStream(slug);
        CallsJoin(made, block, start, start.Keys - todo, mid, slug);
        made := made + block;
        assert start.Keys - (todo - {slug}) == (start.Keys - todo) + {slug};
        todo := todo - {slug};
      }
    }
  }
}
