/** The publisher: each scrape of a source yields the streams on offer; a
    stream whose slug is not stored yet is published under a lease and, if
    that succeeds, stored; a stored one has its lease refreshed. The store
    reports expired stream keys, which are then dropped. Publication
    outcomes (the lease granted, or a failure) are parameters; the calls
    made to the store are kept as logs. */
module Publish {
  import opened Wrappers
  import opened Watch
  import GoStrings
  import Streams

  type LeaseID = nat

  /** A published stream and the lease it was published under. */
  datatype StoredStream = StoredStream(stream: Streams.Stream, lease: LeaseID)

  // ---------------------------------------------------------------------
  // processUpdate

  /** The streams processUpdate collects: each one whose slug is not stored
      and whose publication was granted a lease, in input order. `leases[i]`
      is the outcome publishing `input[i]` would have. */
  function NewStreams(stored: map<string, StoredStream>, input: seq<Streams.Stream>,
                      leases: seq<Option<LeaseID>>): (r: seq<StoredStream>)
    requires |leases| == |input|
    decreases |input|
  {
    if input == [] then []
    else
      var n := |input| - 1;
      var rest := NewStreams(stored, input[..n], leases[..n]);
      if input[n].slug !in stored && leases[n].Some? then rest + [StoredStream(input[n], leases[n].value)]
      else rest
  }

  /** The streams publishStream is called for: those whose slug is not
      stored, in input order, successful or not. */
  function Attempts(stored: map<string, StoredStream>, input: seq<Streams.Stream>): (r: seq<Streams.Stream>)
    decreases |input|
  {
    if input == [] then []
    else
      var n := |input| - 1;
      Attempts(stored, input[..n]) + (if input[n].slug !in stored then [input[n]] else [])
  }

  /** The leases RefreshLease is called with: those of the stored slugs, in
      input order. */
  function Refreshes(stored: map<string, StoredStream>, input: seq<Streams.Stream>): (r: seq<LeaseID>)
    decreases |input|
  {
    if input == [] then []
    else
      var n := |input| - 1;
      Refreshes(stored, input[..n]) + (if input[n].slug in stored then [stored[input[n].slug].lease] else [])
  }

  /** processUpdate's first loop, one stream further. */
  lemma CollectStep(stored: map<string, StoredStream>, input: seq<Streams.Stream>,
                    leases: seq<Option<LeaseID>>, i: nat)
    requires |leases| == |input| && i < |input|
    ensures NewStreams(stored, input[..i + 1], leases[..i + 1]) ==
              NewStreams(stored, input[..i], leases[..i]) +
              (if input[i].slug !in stored && leases[i].Some? then [StoredStream(input[i], leases[i].value)] else [])
    ensures Attempts(stored, input[..i + 1]) ==
              Attempts(stored, input[..i]) + (if input[i].slug !in stored then [input[i]] else [])
    ensures Refreshes(stored, input[..i + 1]) ==
              Refreshes(stored, input[..i]) + (if input[i].slug in stored then [stored[input[i].slug].lease] else [])
  {
    assert input[..i + 1][..i] == input[..i] && leases[..i + 1][..i] == leases[..i];
  }

  /** Exactly the streams with a slug not stored are published, each
      once per occurrence; every other one refreshes its stored lease. */
  lemma {:induction false} AttemptsAndRefreshes(stored: map<string, StoredStream>, input: seq<Streams.Stream>)
    ensures forall s :: s in Attempts(stored, input) <==> s in input && s.slug !in stored
    ensures |Attempts(stored, input)| + |Refreshes(stored, input)| == |input|
    ensures forall l :: l in Refreshes(stored, input) ==>
              exists s :: s in input && s.slug in stored && stored[s.slug].lease == l
    decreases |input|
  {
    if input != [] {
      var n := |input| - 1;
      AttemptsAndRefreshes(stored, input[..n]);
      assert input == input[..n] + [input[n]];
    }
  }

  /** The table after storing `ns` in order, each under its slug. */
  function AddAll(m: map<string, StoredStream>, ns: seq<StoredStream>): (r: map<string, StoredStream>)
    ensures m.Keys <= r.Keys
    decreases |ns|
  {
    if ns == [] then m
    else
      var n := |ns| - 1;
      AddAll(m, ns[..n])[ns[n].stream.slug := ns[n]]
  }

  /** The table processUpdate leaves. */
  function Processed(m: map<string, StoredStream>, input: seq<Streams.Stream>, leases: seq<Option<LeaseID>>)
    : map<string, StoredStream>
    requires |leases| == |input|
  {
    AddAll(m, NewStreams(m, input, leases))
  }

  /** One more input stream: it is stored, replacing any entry collected
      for its slug earlier in the batch, exactly when its slug was not
      stored before and it was granted a lease. */
  lemma ProcessedStep(m: map<string, StoredStream>, input: seq<Streams.Stream>, leases: seq<Option<LeaseID>>,
                      s: Streams.Stream, l: Option<LeaseID>)
    requires |leases| == |input|
    ensures Processed(m, input + [s], leases + [l]) ==
              if s.slug !in m && l.Some? then Processed(m, input, leases)[s.slug := StoredStream(s, l.value)]
              else Processed(m, input, leases)
  {
    assert (input + [s])[..|input|] == input;
    assert (leases + [l])[..|input|] == leases;
    var ns := NewStreams(m, input, leases);
    if s.slug !in m && l.Some? {
      assert (ns + [StoredStream(s, l.value)])[..|ns|] == ns;
    }
  }

  /** Entries that were stored before a batch are still there, unchanged:
      processUpdate never removes or replaces a stored stream. */
  lemma {:induction false} ProcessedKeeps(m: map<string, StoredStream>, input: seq<Streams.Stream>,
                                          leases: seq<Option<LeaseID>>, k: string)
    requires |leases| == |input| && k in m
    ensures k in Processed(m, input, leases) && Processed(m, input, leases)[k] == m[k]
    decreases |input|
  {
    if input != [] {
      var n := |input| - 1;
      assert input == input[..n] + [input[n]] && leases == leases[..n] + [leases[n]];
      ProcessedKeeps(m, input[..n], leases[..n], k);
      ProcessedStep(m, input[..n], leases[..n], input[n], leases[n]);
    }
  }

  /** A slug that was not stored is stored after the batch exactly when one
      of its streams was granted a lease, and then it holds the last such
      stream of the batch with its lease. */
  lemma {:induction false} ProcessedNew(m: map<string, StoredStream>, input: seq<Streams.Stream>,
                                        leases: seq<Option<LeaseID>>, k: string)
    requires |leases| == |input| && k !in m
    ensures k in Processed(m, input, leases) <==>
              exists i :: 0 <= i < |input| && input[i].slug == k && leases[i].Some?
    ensures k in Processed(m, input, leases) ==>
              exists i :: 0 <= i < |input| && input[i].slug == k && leases[i].Some? &&
                Processed(m, input, leases)[k] == StoredStream(input[i], leases[i].value) &&
                forall j :: i < j < |input| && input[j].slug == k ==> leases[j].None?
    decreases |input|
  {
    if input != [] {
      var n := |input| - 1;
      assert input == input[..n] + [input[n]] && leases == leases[..n] + [leases[n]];
      ProcessedNew(m, input[..n], leases[..n], k);
      ProcessedStep(m, input[..n], leases[..n], input[n], leases[n]);
      if input[n].slug == k && leases[n].Some? {
        assert Processed(m, input, leases)[k] == StoredStream(input[n], leases[n].value);
      } else if k in Processed(m, input, leases) {
        var i :| 0 <= i < n && input[..n][i] == input[i] && input[i].slug == k && leases[i].Some? &&
                 Processed(m, input[..n], leases[..n])[k] == StoredStream(input[i], leases[i].value) &&
                 forall j :: i < j < n && input[..n][j].slug == k ==> leases[..n][j].None?;
        assert forall j :: i < j < |input| && input[j].slug == k ==> leases[j].None? by {
          forall j | i < j < |input| && input[j].slug == k
            ensures leases[j].None?
          {
            if j < n {
              assert input[..n][j] == input[j] && leases[..n][j] == leases[j];
            }
          }
        }
      } else {
        forall i | 0 <= i < |input| && input[i].slug == k
          ensures leases[i].None?
        {
          if i < n {
            assert input[..n][i] == input[i] && leases[..n][i] == leases[i];
          }
        }
      }
    }
  }

  /** Two streams with the same new slug in one batch are both published,
      since the check is against the table as it was before the batch;
      when both are granted a lease, the second is the one stored. */
  lemma DuplicateSlugPublishedTwice(m: map<string, StoredStream>, a: Streams.Stream, b: Streams.Stream,
                                    la: LeaseID, lb: LeaseID)
    requires a.slug == b.slug && a.slug !in m
    ensures Attempts(m, [a, b]) == [a, b]
    ensures Processed(m, [a, b], [Some(la), Some(lb)])[a.slug] == StoredStream(b, lb)
  {
    assert [a, b][..1] == [a] && [a][..0] == [];
    assert [Some(la), Some(lb)][..1] == [Some(la)] && [Some(la)][..0] == [];
    assert Attempts(m, [a]) == [a];
    ProcessedStep(m, [a], [Some(la)], b, Some(lb));
    assert [a] + [b] == [a, b] && [Some(la)] + [Some(lb)] == [Some(la), Some(lb)];
  }

  // ---------------------------------------------------------------------
  // Expired keys reported by the store

  /** The table after the store's reports: an update whose key is
      "<prefix>:<slug>" (exactly one ':') and that is a delete of a stored
      slug drops the slug; every other update is skipped. */
  function Expired(m: map<string, StoredStream>, updates: seq<WatchUpdate>): (r: map<string, StoredStream>)
    decreases |updates|
  {
    if updates == [] then m
    else
      var n := |updates| - 1;
      var r := Expired(m, updates[..n]);
      var parts := GoStrings.Split(updates[n].kv.key, ':');
      if |parts| == 2 && parts[1] in r && updates[n].kind.Delete? then r - {parts[1]} else r
  }

  /** The reports only ever drop entries; what stays is unchanged. */
  lemma {:induction false} ExpiredOnlyDrops(m: map<string, StoredStream>, updates: seq<WatchUpdate>)
    ensures Expired(m, updates).Keys <= m.Keys
    ensures forall k :: k in Expired(m, updates) ==> Expired(m, updates)[k] == m[k]
    decreases |updates|
  {
    if updates != [] {
      ExpiredOnlyDrops(m, updates[..|updates| - 1]);
    }
  }

  /** The delete of "<prefix>:<slug>" drops the slug, its put does not;
      publishStream's keys are of this form with the prefix "stream". */
  lemma ExpiredKey(m: map<string, StoredStream>, prefix: string, slug: string, value: Bytes)
    requires ':' !in prefix && ':' !in slug
    ensures Expired(m, [WatchUpdate(Delete, KV(prefix + [':'] + slug, value))]) == m - {slug}
    ensures Expired(m, [WatchUpdate(Put, KV(prefix + [':'] + slug, value))]) == m
  {
    GoStrings.SplitAround(prefix, slug, ':');
    GoStrings.SplitNoSep(prefix, ':');
    GoStrings.SplitNoSep(slug, ':');
    assert GoStrings.Split(prefix + [':'] + slug, ':') == [prefix, slug];
    assert [WatchUpdate(Delete, KV(prefix + [':'] + slug, value))][..0] == [];
    assert [WatchUpdate(Put, KV(prefix + [':'] + slug, value))][..0] == [];
  }

  /** A key with no ':' or with more than one is skipped. */
  lemma ExpiredSkipsMalformed(m: map<string, StoredStream>, u: WatchUpdate)
    requires |GoStrings.Split(u.kv.key, ':')| != 2
    ensures Expired(m, [u]) == m
  {
    assert [u][..0] == [];
  }

  class Publisher {
    var streams: map<string, StoredStream>
    /** Every stream publishStream was called for, oldest first. */
    var published: seq<Streams.Stream>
    /** Every lease RefreshLease was called with, oldest first. */
    var refreshed: seq<LeaseID>

    constructor ()
      ensures streams == map[] && published == [] && refreshed == []
    {
      streams, published, refreshed := map[], [], [];
    }

    /** The first loop of processUpdate: publishes every stream whose slug
        is not stored, refreshes the lease of every one whose slug is, and
        collects the streams granted a lease. */
    method Collect(input: seq<Streams.Stream>, leases: seq<Option<LeaseID>>)
      returns (newStreams: seq<StoredStream>)
      requires |leases| == |input|
      modifies this
      ensures newStreams == NewStreams(streams, input, leases)
      ensures streams == old(streams)
      ensures published == old(published) + Attempts(streams, input)
      ensures refreshed == old(refreshed) + Refreshes(streams, input)
    {
      var stored := streams;
      var attempts: seq<Streams.Stream> := [];
      var refreshes: seq<LeaseID> := [];
      newStreams := [];
      var i := 0;
      while i < |input|
        invariant 0 <= i <= |input|
        invariant newStreams == NewStreams(stored, input[..i], leases[..i])
        invariant attempts == Attempts(stored, input[..i])
        invariant refreshes == Refreshes(stored, input[..i])
        invariant streams == stored && published == old(published) && refreshed == old(refreshed)
      {
        CollectStep(stored, input, leases, i);
        var s := input[i];
        if s.slug !in stored {
          attempts := attempts + [s];
          if leases[i].Some? {
            newStreams := newStreams + [StoredStream(s, leases[i].value)];
          }
        } else {
          refreshes := refreshes + [stored[s.slug].lease];
        }
        i := i + 1;
      }
      assert input[..i] == input && leases[..i] == leases;
      published := published + attempts;
      refreshed := refreshed + refreshes;
    }

    /** The second loop of processUpdate: stores the collected streams. */
    method Store(newStreams: seq<StoredStream>)
      modifies this
      ensures streams == AddAll(old(streams), newStreams)
      ensures published == old(published) && refreshed == old(refreshed)
    {
      var i := 0;
      while i < |newStreams|
        invariant 0 <= i <= |newStreams|
        invariant streams == AddAll(old(streams), newStreams[..i])
        invariant published == old(published) && refreshed == old(refreshed)
      {
        assert newStreams[..i + 1][..i] == newStreams[..i];
        streams := streams[newStreams[i].stream.slug := newStreams[i]];
        i := i + 1;
      }
      assert newStreams[..i] == newStreams;
    }

    /** processUpdate: one scrape's streams. */
    method ProcessUpdate(input: seq<Streams.Stream>, leases: seq<Option<LeaseID>>)
      requires |leases| == |input|
      modifies this
      ensures streams == Processed(old(streams), input, leases)
      ensures published == old(published) + Attempts(old(streams), input)
      ensures refreshed == old(refreshed) + Refreshes(old(streams), input)
    {
      var newStreams := Collect(input, leases);
      Store(newStreams);
    }

    /** The watch loop: drops the stored streams the store reports as
        deleted. */
    method HandleExpired(updates: seq<WatchUpdate>)
      modifies this
      ensures streams == Expired(old(streams), updates)
      ensures published == old(published) && refreshed == old(refreshed)
    {
      var i := 0;
      while i < |updates|
        invariant 0 <= i <= |updates|
        invariant streams == Expired(old(streams), updates[..i])
        invariant published == old(published) && refreshed == old(refreshed)
      {
        assert updates[..i + 1][..i] == updates[..i];
        var parts := GoStrings.Split(updates[i].kv.key, ':');
        if |parts| != 2 {
          i := i + 1;
          continue;
        }
        var key := parts[1];
        if key in streams && updates[i].kind.Delete? {
          streams := streams - {key};
        }
        i := i + 1;
      }
      assert updates[..i] == updates;
    }
  }
}
