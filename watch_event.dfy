/** Watch updates as the service handlers receive them. */
module WatchEvents {
  import opened Wrappers
  import opened Watch
  import GoStrings
  import ClientPath

  /** A watch update as the service handlers receive it: its key-value
      pointer may be nil. */
  datatype Event = Event(kind: UpdateType, kv: Option<KV>)

  /** string(value): each byte becomes one character. */
  function Text(b: Bytes): (s: string)
    ensures |s| == |b| && forall i :: 0 <= i < |b| ==> s[i] as int == b[i] as int
  {
    seq(|b|, i requires 0 <= i < |b| => (b[i] as int) as char)
  }

  /** Whether a handler of service announcements acts on an event: a
      non-nil pair under a service key, and for a put, data that decodes. */
  predicate ServiceEventApplies<V>(u: Event, decode: Bytes -> Option<V>)
  {
    u.kv.Some? && ClientPath.ParseServiceName(u.kv.value.key) != "" &&
    (u.kind.Put? ==> decode(u.kv.value.value).Some?)
  }

  /** A table of service announcements after an event: a put stores the
      decoded value under the name the key ends in, a delete forgets it;
      an event that does not apply changes nothing. */
  function ServiceTable<V>(m: map<string, V>, u: Event, decode: Bytes -> Option<V>): (r: map<string, V>)
    ensures !ServiceEventApplies(u, decode) ==> r == m
  {
    if u.kv.None? || ClientPath.ParseServiceName(u.kv.value.key) == "" then m
    else
      var name := ClientPath.ParseServiceName(u.kv.value.key);
      match u.kind
      case Put => (match decode(u.kv.value.value) case None => m case Some(s) => m[name := s])
      case Delete => m - {name}
  }

  /** A put and then a delete under a key naming `n`. */
  lemma PutThenDelete<V>(m: map<string, V>, key: string, n: string, data: Bytes,
                         decode: Bytes -> Option<V>, s: V)
    requires ClientPath.ParseServiceName(key) == n != "" && decode(data) == Some(s)
    ensures var put := ServiceTable(m, Event(Put, Some(KV(key, data))), decode);
            put == m[n := s] &&
            ServiceTable(put, Event(Delete, Some(KV(key, data))), decode) == m - {n}
  {
    assert m[n := s] - {n} == m - {n} by {
      assert (m[n := s] - {n}).Keys == (m - {n}).Keys;
    }
  }

  /** A service announced under its key is stored, and the matching delete
      forgets it again. */
  lemma AnnounceThenLeave<V>(m: map<string, V>, service: string, n: string, data: Bytes,
                             decode: Bytes -> Option<V>, s: V)
    requires GoStrings.IsName(service) && GoStrings.IsName(n) && decode(data) == Some(s)
    ensures var key := ClientPath.ServicePath(service, n);
            var put := ServiceTable(m, Event(Put, Some(KV(key, data))), decode);
            put == m[n := s] &&
            ServiceTable(put, Event(Delete, Some(KV(key, data))), decode) == m - {n}
  {
    ClientPath.ParseServicePath(service, n);
    PutThenDelete(m, ClientPath.ServicePath(service, n), n, data, decode, s);
  }

  /** Whether handleStream acts on an event: a non-nil pair whose key names
      a slug and has the shape of a stream or a stream's transcoder key. */
  predicate Routed(u: Event)
  {
    u.kv.Some? && ClientPath.ParseStreamName(u.kv.value.key) != "" &&
    (ClientPath.PathIsStream(u.kv.value.key) || ClientPath.PathIsStreamTranscoder(u.kv.value.key))
  }
}
