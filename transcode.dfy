/** The transcoder's view of the cluster: the announced transcoders with
    their load, the streams, and which transcoder runs each stream. A
    transcoder claims a stream only while it has free capacity and is the
    least loaded of all announced transcoders. */
module Transcode {
  import opened Wrappers
  import GoStrings
  import ClientPath
  import Watch
  import WatchEvents
  import Streams

  /** What a transcoder announces about itself. */
  datatype TranscoderStatus = TranscoderStatus(name: string, capacity: int, numStreams: int)

  // ---------------------------------------------------------------------
  // Ordering by load (status.go)

  /** ByLoad.Less: by stream count when either capacity is not positive,
      otherwise by load ratio, compared by cross-multiplication. */
  predicate Less(a: TranscoderStatus, b: TranscoderStatus)
  {
    if a.capacity <= 0 || b.capacity <= 0 then a.numStreams < b.numStreams
    else a.numStreams * b.capacity < b.numStreams * a.capacity
  }

  /** The load ratio NumStreams / Capacity, exactly. */
  function Load(t: TranscoderStatus): real
    requires t.capacity > 0
  {
    (t.numStreams as real) / (t.capacity as real)
  }

  /** With positive capacities, cross-multiplication orders exactly as the
      load ratios do. */
  lemma LessIsLoadOrder(a: TranscoderStatus, b: TranscoderStatus)
    requires a.capacity > 0 && b.capacity > 0
    ensures Less(a, b) <==> Load(a) < Load(b)
  {
    var ca, cb := a.capacity as real, b.capacity as real;
    var la, lb := Load(a), Load(b);
    assert la * ca == a.numStreams as real;
    assert lb * cb == b.numStreams as real;
    assert (a.numStreams * b.capacity) as real == la * (ca * cb);
    assert (b.numStreams * a.capacity) as real == lb * (ca * cb);
    assert ca * cb > 0.0;
    if la < lb {
      assert la * (ca * cb) < lb * (ca * cb);
    } else {
      assert lb * (ca * cb) <= la * (ca * cb);
    }
  }

  lemma LessAsymmetric(a: TranscoderStatus, b: TranscoderStatus)
    ensures Less(a, b) ==> !Less(b, a)
  {
  }

  /** Either every capacity is positive or none is: then Less compares one
      quantity throughout. */
  predicate Uniform(s: seq<TranscoderStatus>)
  {
    (forall i :: 0 <= i < |s| ==> s[i].capacity > 0) || (forall i :: 0 <= i < |s| ==> s[i].capacity <= 0)
  }

  lemma MulMono(x: int, y: int, k: int)
    requires x <= y && k > 0
    ensures x * k <= y * k
  {
  }

  /** Cross-multiplied ratios an/ac <= bn/bc <= cn/cc chain when every
      denominator is positive. */
  lemma RatioTransitive(an: int, ac: int, bn: int, bc: int, cn: int, cc: int)
    requires ac > 0 && bc > 0 && cc > 0
    requires an * bc <= bn * ac && bn * cc <= cn * bc
    ensures an * cc <= cn * ac
  {
    MulMono(an * bc, bn * ac, cc);
    MulMono(bn * cc, cn * bc, ac);
    assert an * bc * cc == (an * cc) * bc;
    assert bn * ac * cc == (bn * cc) * ac;
    assert cn * bc * ac == (cn * ac) * bc;
    if cn * ac < an * cc {
      MulMono(cn * ac + 1, an * cc, bc);
      assert false;
    }
  }

  /** "Not less loaded" is transitive when the capacities are uniform. */
  lemma NotLessTransitive(a: TranscoderStatus, b: TranscoderStatus, c: TranscoderStatus)
    requires Uniform([a, b, c])
    requires !Less(b, a) && !Less(c, b)
    ensures !Less(c, a)
  {
    assert [a, b, c][0] == a && [a, b, c][1] == b && [a, b, c][2] == c;
    if a.capacity > 0 {
      RatioTransitive(a.numStreams, a.capacity, b.numStreams, b.capacity, c.numStreams, c.capacity);
    }
  }

  /** Mixing transcoders with and without capacity breaks transitivity:
      three announcements can each be less loaded than the next. */
  lemma LessCycle()
    ensures exists a, b, c :: Less(a, b) && Less(b, c) && Less(c, a)
  {
    var a := TranscoderStatus("a", 1, 1);
    var b := TranscoderStatus("b", 0, 3);
    var c := TranscoderStatus("c", 10, 5);
    assert Less(a, b) && Less(b, c);
    assert Less(c, a);
  }

  /** Each element is not less than the one before it. */
  predicate AdjacentSorted(s: seq<TranscoderStatus>)
  {
    forall k :: 0 < k < |s| ==> !Less(s[k], s[k - 1])
  }

  /** With uniform capacities the head of a sorted list is least loaded. */
  lemma {:induction false} HeadIsLeast(s: seq<TranscoderStatus>, k: nat)
    requires Uniform(s) && AdjacentSorted(s) && k < |s|
    ensures !Less(s[k], s[0])
  {
    if k > 1 {
      HeadIsLeast(s, k - 1);
      assert Uniform([s[0], s[k - 1], s[k]]);
      NotLessTransitive(s[0], s[k - 1], s[k]);
    }
  }

  /** ByLoad.Swap: exchanges two elements and nothing else. */
  method Swap(l: array<TranscoderStatus>, i: int, j: int)
    requires 0 <= i < l.Length && 0 <= j < l.Length
    modifies l
    ensures l[..] == old(l[..])[i := old(l[j])][j := old(l[i])]
    ensures multiset(l[..]) == multiset(old(l[..]))
  {
    l[i], l[j] := l[j], l[i];
  }

  /** sort.Sort(ByLoad(l)): Go sorts up to twelve elements by insertion,
      which leaves every element not less than its predecessor whatever
      Less is, provided it is asymmetric. */
  method Sort(l: array<TranscoderStatus>)
    modifies l
    ensures multiset(l[..]) == multiset(old(l[..]))
    ensures AdjacentSorted(l[..])
  {
    if l.Length == 0 {
      return;
    }
    var i := 1;
    while i < l.Length
      invariant 1 <= i <= l.Length
      invariant multiset(l[..]) == multiset(old(l[..]))
      invariant forall k :: 0 < k < i ==> !Less(l[k], l[k - 1])
    {
      var j := i;
      while j > 0 && Less(l[j], l[j - 1])
        invariant 0 <= j <= i
        invariant multiset(l[..]) == multiset(old(l[..]))
        invariant forall k :: 0 < k <= i && k != j ==> !Less(l[k], l[k - 1])
        invariant 0 < j < i ==> !Less(l[j + 1], l[j - 1])
      {
        LessAsymmetric(l[j], l[j - 1]);
        Swap(l, j, j - 1);
        j := j - 1;
      }
      i := i + 1;
    }
  }

  // ---------------------------------------------------------------------
  // The transcoder's state (transcoder.go)

  /** The statuses of the keys in `order`. */
  function Statuses(m: map<string, TranscoderStatus>, order: seq<string>): (r: seq<TranscoderStatus>)
    requires forall i :: 0 <= i < |order| ==> order[i] in m
    ensures |r| == |order| && forall i :: 0 <= i < |order| ==> r[i] == m[order[i]]
  {
    seq(|order|, i requires 0 <= i < |order| => m[order[i]])
  }

  /** shouldClaim's decision: with capacity left, `sorted` is the
      announced statuses (in some map order) sorted by load, and the claim
      is made exactly when this transcoder's name heads it. */
  ghost predicate Decided(capacity: int, services: nat, m: map<string, TranscoderStatus>, name: string,
                          claim: bool, sorted: seq<TranscoderStatus>)
  {
    (claim <==> capacity - services > 0 && sorted != [] && sorted[0].name == name) &&
    (capacity - services > 0 ==>
       AdjacentSorted(sorted) &&
       exists order :: Watch.Enumerates(order, m.Keys) && multiset(sorted) == multiset(Statuses(m, order)))
  }

  /** All announced capacities are positive, or none is. */
  predicate UniformMap(m: map<string, TranscoderStatus>)
  {
    (forall k :: k in m ==> m[k].capacity > 0) || (forall k :: k in m ==> m[k].capacity <= 0)
  }

  /** A claim is only made with free capacity, by the transcoder whose
      name heads the sorted announcements; when the capacities are uniform
      no announced transcoder is less loaded than that head. */
  lemma ClaimGoesToLeastLoaded(capacity: int, services: nat, m: map<string, TranscoderStatus>, name: string,
                               sorted: seq<TranscoderStatus>)
    requires Decided(capacity, services, m, name, true, sorted) && UniformMap(m)
    ensures services < capacity && sorted[0].name == name
    ensures exists k :: k in m && m[k] == sorted[0]
    ensures forall k :: k in m ==> !Less(m[k], sorted[0])
  {
    var order :| Watch.Enumerates(order, m.Keys) && multiset(sorted) == multiset(Statuses(m, order));
    SortedFromMap(m, order, sorted);
    MapInSorted(m, order, sorted);
    assert Uniform(sorted);
    forall k | k in m
      ensures !Less(m[k], sorted[0])
    {
      assert m[k] in sorted;
      var i :| 0 <= i < |sorted| && sorted[i] == m[k];
      HeadIsLeast(sorted, i);
    }
  }

  /** Every entry of a sorted listing of a map's statuses is one of the
      map's values. */
  lemma SortedFromMap(m: map<string, TranscoderStatus>, order: seq<string>, sorted: seq<TranscoderStatus>)
    requires Watch.Enumerates(order, m.Keys) && multiset(sorted) == multiset(Statuses(m, order))
    ensures forall i :: 0 <= i < |sorted| ==> exists k :: k in m && sorted[i] == m[k]
  {
    var listed := Statuses(m, order);
    forall i | 0 <= i < |sorted|
      ensures exists k :: k in m && sorted[i] == m[k]
    {
      assert sorted[i] in multiset(listed);
      var j :| 0 <= j < |listed| && listed[j] == sorted[i];
      assert m[order[j]] == sorted[i];
    }
  }

  /** Every value of the map appears in a sorted listing of its
      statuses. */
  lemma MapInSorted(m: map<string, TranscoderStatus>, order: seq<string>, sorted: seq<TranscoderStatus>)
    requires Watch.Enumerates(order, m.Keys) && multiset(sorted) == multiset(Statuses(m, order))
    ensures forall k :: k in m ==> m[k] in sorted
  {
    var listed := Statuses(m, order);
    forall k | k in m
      ensures m[k] in sorted
    {
      var j :| 0 <= j < |order| && order[j] == k;
      assert listed[j] == m[k];
      assert m[k] in multiset(sorted);
    }
  }

  /** No claim is made at full capacity, nor while no transcoder is
      announced. */
  lemma NoClaimWhenFullOrAlone(capacity: int, services: nat, m: map<string, TranscoderStatus>, name: string,
                               claim: bool, sorted: seq<TranscoderStatus>)
    requires Decided(capacity, services, m, name, claim, sorted)
    ensures capacity - services <= 0 ==> !claim
    ensures m == map[] ==> !claim
  {
    if m == map[] && capacity - services > 0 {
      var order :| Watch.Enumerates(order, m.Keys) && multiset(sorted) == multiset(Statuses(m, order));
      assert |order| == 0 by {
        assert forall i :: 0 <= i < |order| ==> order[i] in m.Keys;
      }
      assert |multiset(sorted)| == 0;
    }
  }

  class Transcoder {
    const name: string
    const capacity: int
    /** The streams this transcoder runs a service for. */
    var services: set<string>
    var transcoders: map<string, TranscoderStatus>
    var streams: map<string, Streams.Stream>
    /** Which transcoder runs each stream, by slug. */
    var streamTranscoders: map<string, string>
    /** The slugs claimed so far, oldest first. */
    var claims: seq<string>

    constructor (name: string, capacity: int)
      ensures this.name == name && this.capacity == capacity
      ensures services == {} && transcoders == map[] && streams == map[] && streamTranscoders == map[]
      ensures claims == []
    {
      this.name := name;
      this.capacity := capacity;
      services := {};
      transcoders := map[];
      streams := map[];
      streamTranscoders := map[];
      claims := [];
    }

    /** shouldClaim: with capacity left, collects the announced statuses
        in map order, sorts them by load and claims when this transcoder
        heads the list. */
    method ShouldClaim() returns (claim: bool, ghost sorted: seq<TranscoderStatus>)
      ensures Decided(capacity, |services|, transcoders, name, claim, sorted)
    {
      sorted := [];
      if capacity - |services| <= 0 {
        return false, sorted;
      }
      var order, listed := ListAll();
      sorted := listed;
      if |listed| < 1 {
        return false, sorted;
      }
      var l := new TranscoderStatus[|listed|](i requires 0 <= i < |listed| => listed[i]);
      assert l[..] == listed;
      Sort(l);
      sorted := l[..];
      claim := l[0].name == name;
    }

    /** The loop of shouldClaim that copies the map's values into a list. */
    method ListAll() returns (order: seq<string>, listed: seq<TranscoderStatus>)
      ensures Watch.Enumerates(order, transcoders.Keys) && listed == Statuses(transcoders, order)
    {
      order := [];
      listed := [];
      var todo := transcoders.Keys;
      while todo != {}
        invariant todo <= transcoders.Keys
        invariant forall i :: 0 <= i < |order| ==> order[i] in transcoders && order[i] !in todo
        invariant forall k :: k in transcoders && k !in todo ==> k in order
        invariant forall i, j :: 0 <= i < j < |order| ==> order[i] != order[j]
        invariant listed == Statuses(transcoders, order)
        decreases todo
      {
        var k :| k in todo;
        order := order + [k];
        listed := listed + [transcoders[k]];
        todo := todo - {k};
      }
    }

    /** claimStream: announce the claim under the stream's transcoder key;
        when that succeeds, a service is started for the stream. */
    method ClaimStream(s: Streams.Stream, putOk: bool)
      modifies this
      ensures putOk ==> services == old(services) + {s.slug} && claims == old(claims) + [s.slug]
      ensures !putOk ==> services == old(services) && claims == old(claims)
      ensures transcoders == old(transcoders) && streams == old(streams)
      ensures streamTranscoders == old(streamTranscoders)
    {
      if !putOk {
        return;
      }
      services := services + {s.slug};
      claims := claims + [s.slug];
    }

    /** handleTranscoder: a put stores the decoded status under the name
        the key ends in, a delete forgets it; a nil pair, a key that is not
        a service key and undecodable data are ignored. */
    method HandleTranscoder(u: WatchEvents.Event, decode: Watch.Bytes -> Option<TranscoderStatus>)
      modifies this
      ensures services == old(services) && streams == old(streams) && claims == old(claims)
      ensures streamTranscoders == old(streamTranscoders)
      ensures transcoders == WatchEvents.ServiceTable(old(transcoders), u, decode)
    {
      if u.kv.None? {
        return;
      }
      var name := ClientPath.ParseServiceName(u.kv.value.key);
      if name == "" {
        return;
      }
      match u.kind {
        case Put =>
          var status := decode(u.kv.value.value);
          if status.None? {
            return;
          }
          transcoders := transcoders[name := status.value];
        case Delete =>
          transcoders := transcoders - {name};
      }
    }

    /** handleStreamUpdate: a put stores the decoded stream and, when this
        transcoder should claim, claims it; a delete forgets the stream. */
    method HandleStreamUpdate(key: string, u: WatchEvents.Event, decode: Watch.Bytes -> Option<Streams.Stream>,
                              putOk: bool)
      returns (ghost claim: bool, ghost sorted: seq<TranscoderStatus>)
      requires u.kv.Some?
      modifies this
      ensures transcoders == old(transcoders) && streamTranscoders == old(streamTranscoders)
      ensures u.kind.Delete? ==> streams == old(streams) - {key} && !claim &&
                                 services == old(services) && claims == old(claims)
      ensures u.kind.Put? && decode(u.kv.value.value).None? ==>
                streams == old(streams) && !claim && services == old(services) && claims == old(claims)
      ensures u.kind.Put? && decode(u.kv.value.value).Some? ==>
                var s := decode(u.kv.value.value).value;
                streams == old(streams)[key := s] &&
                Decided(capacity, |old(services)|, transcoders, name, claim, sorted) &&
                services == old(services) + (if claim && putOk then {s.slug} else {}) &&
                claims == old(claims) + (if claim && putOk then [s.slug] else [])
    {
      claim := false;
      sorted := [];
      match u.kind {
        case Put =>
          var s := decode(u.kv.value.value);
          if s.None? {
            return;
          }
          streams := streams[key := s.value];
          var c;
          c, sorted := ShouldClaim();
          claim := c;
          if !c {
            return;
          }
          ClaimStream(s.value, putOk);
        case Delete =>
          streams := streams - {key};
      }
    }

    /** handleStreamTranscoder: a put records which transcoder runs the
        stream; a delete forgets that and, for a known stream, claims it
        when this transcoder should. */
    method HandleStreamTranscoder(key: string, u: WatchEvents.Event, putOk: bool)
      returns (ghost claim: bool, ghost sorted: seq<TranscoderStatus>)
      requires u.kv.Some?
      modifies this
      ensures transcoders == old(transcoders) && streams == old(streams)
      ensures u.kind.Put? ==> streamTranscoders == old(streamTranscoders)[key := WatchEvents.Text(u.kv.value.value)] &&
                              !claim && services == old(services) && claims == old(claims)
      ensures u.kind.Delete? ==> streamTranscoders == old(streamTranscoders) - {key}
      ensures u.kind.Delete? && key !in streams ==> !claim && services == old(services) && claims == old(claims)
      ensures u.kind.Delete? && key in streams ==>
                Decided(capacity, |old(services)|, transcoders, name, claim, sorted) &&
                services == old(services) + (if claim && putOk then {streams[key].slug} else {}) &&
                claims == old(claims) + (if claim && putOk then [streams[key].slug] else [])
    {
      claim := false;
      sorted := [];
      match u.kind {
        case Put =>
          streamTranscoders := streamTranscoders[key := WatchEvents.Text(u.kv.value.value)];
        case Delete =>
          streamTranscoders := streamTranscoders - {key};
          if key !in streams {
            return;
          }
          var c;
          c, sorted := ShouldClaim();
          claim := c;
          if !c {
            return;
          }
          ClaimStream(streams[key], putOk);
      }
    }

    /** handleStream: routes a key under /stream/ by its shape; a nil pair,
        a key without a slug and any other key are ignored. */
    method HandleStream(u: WatchEvents.Event, decode: Watch.Bytes -> Option<Streams.Stream>, putOk: bool)
      returns (ghost claim: bool, ghost sorted: seq<TranscoderStatus>)
      modifies this
      ensures transcoders == old(transcoders)
      ensures !WatchEvents.Routed(u) ==>
                streams == old(streams) && streamTranscoders == old(streamTranscoders) &&
                services == old(services) && claims == old(claims) && !claim
      ensures WatchEvents.Routed(u) && ClientPath.PathIsStream(u.kv.value.key) ==>
                var key := ClientPath.ParseStreamName(u.kv.value.key);
                && streamTranscoders == old(streamTranscoders)
                && (u.kind.Delete? ==> streams == old(streams) - {key} && !claim &&
                                       services == old(services) && claims == old(claims))
                && (u.kind.Put? && decode(u.kv.value.value).None? ==>
                      streams == old(streams) && !claim && services == old(services) && claims == old(claims))
                && (u.kind.Put? && decode(u.kv.value.value).Some? ==>
                      var s := decode(u.kv.value.value).value;
                      streams == old(streams)[key := s] &&
                      Decided(capacity, |old(services)|, transcoders, name, claim, sorted) &&
                      services == old(services) + (if claim && putOk then {s.slug} else {}) &&
                      claims == old(claims) + (if claim && putOk then [s.slug] else []))
      ensures WatchEvents.Routed(u) && ClientPath.PathIsStreamTranscoder(u.kv.value.key) ==>
                var key := ClientPath.ParseStreamName(u.kv.value.key);
                && streams == old(streams)
                && (u.kind.Put? ==> streamTranscoders == old(streamTranscoders)[key := WatchEvents.Text(u.kv.value.value)] &&
                                    !claim && services == old(services) && claims == old(claims))
                && (u.kind.Delete? ==> streamTranscoders == old(streamTranscoders) - {key})
                && (u.kind.Delete? && key !in streams ==> !claim && services == old(services) && claims == old(claims))
                && (u.kind.Delete? && key in streams ==>
                      Decided(capacity, |old(services)|, transcoders, name, claim, sorted) &&
                      services == old(services) + (if claim && putOk then {streams[key].slug} else {}) &&
                      claims == old(claims) + (if claim && putOk then [streams[key].slug] else []))
    {
      claim, sorted := false, [];
      if u.kv.None? {
        return;
      }
      var path := u.kv.value.key;
      var key := ClientPath.ParseStreamName(path);
      if key == "" {
        return;
      }
      ClientPath.StreamKindsExclusive(path);
      if ClientPath.PathIsStream(path) {
        claim, sorted := HandleStreamUpdate(key, u, decode, putOk);
      } else if ClientPath.PathIsStreamTranscoder(path) {
        claim, sorted := HandleStreamTranscoder(key, u, putOk);
      }
    }
  }
}
