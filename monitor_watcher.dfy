/** The monitor's watcher: it mirrors four tables from the watch (the
    transcoders, the fanouts, the streams and which transcoder serves each
    stream) and, after each change, relays a full copy of the changed table
    as a one-key update named after it. */
module MonitorWatch {
  import opened Wrappers
  import Watch
  import WatchEvents
  import ClientPath
  import Transcode
  import Streams
  import GoMaps

  /** A fanout's announcement: its name, its sink and the streams it relays. */
  datatype FanoutStatus = FanoutStatus(name: string, sink: string, streams: seq<string>)

  /** The value relayed under one key: a full copy of one table. */
  datatype Snapshot =
    | TranscodersSnap(transcoders: map<string, Transcode.TranscoderStatus>)
    | FanoutsSnap(fanouts: map<string, FanoutStatus>)
    | StreamsSnap(streams: map<string, Streams.Stream>)
    | StreamTranscodersSnap(streamTranscoders: map<string, string>)
  {
    /** Whether the copied table has no entries. */
    predicate Empty()
    {
      match this
      case TranscodersSnap(m) => m == map[]
      case FanoutsSnap(m) => m == map[]
      case StreamsSnap(m) => m == map[]
      case StreamTranscodersSnap(m) => m == map[]
    }
  }

  /** An update as relayed to the server: snapshots by key. */
  type Update = map<string, Snapshot>

  const TranscodersKey := "transcoders"
  const FanoutsKey := "fanouts"
  const StreamsKey := "streams"
  const StreamTranscodersKey := "streamTranscoders"

  /** The four keys are distinct. */
  lemma KeysDistinct()
    ensures TranscodersKey != FanoutsKey && TranscodersKey != StreamsKey && TranscodersKey != StreamTranscodersKey
    ensures FanoutsKey != StreamsKey && FanoutsKey != StreamTranscodersKey && StreamsKey != StreamTranscodersKey
  {
    assert TranscodersKey[0] == 't' && FanoutsKey[0] == 'f' && StreamsKey[0] == 's';
    assert |StreamsKey| != |StreamTranscodersKey|;
  }

  /** The state a receiver holds after merging `updates` in order into
      `state`, each key of an update replacing the one held. */
  function Replay(state: Update, updates: seq<Update>): (r: Update)
    decreases |updates|
  {
    if updates == [] then state
    else Replay(state, updates[..|updates| - 1]) + updates[|updates| - 1]
  }

  /** Merging one more update is merging it into what the earlier ones gave. */
  lemma {:induction false} ReplayAppend(state: Update, updates: seq<Update>, u: Update)
    ensures Replay(state, updates + [u]) == Replay(state, updates) + u
  {
    assert (updates + [u])[..|updates|] == updates;
  }

  /** A key that no update names keeps the value it had, or stays absent. */
  lemma {:induction false} ReplayUntouched(state: Update, updates: seq<Update>, k: string)
    requires forall i :: 0 <= i < |updates| ==> k !in updates[i]
    ensures k in Replay(state, updates) <==> k in state
    ensures k in state ==> Replay(state, updates)[k] == state[k]
    decreases |updates|
  {
    if updates != [] {
      var front := updates[..|updates| - 1];
      forall i | 0 <= i < |front|
        ensures k !in front[i]
      {
        assert front[i] == updates[i];
      }
      ReplayUntouched(state, front, k);
    }
  }

  /** A key named by the last update holds that update's value. */
  lemma {:induction false} ReplayLatest(state: Update, updates: seq<Update>, u: Update, k: string)
    requires k in u
    ensures k in Replay(state, updates + [u]) && Replay(state, updates + [u])[k] == u[k]
  {
    ReplayAppend(state, updates, u);
  }

  /** Whether every relayed update names exactly one key. */
  predicate OneKeyEach(updates: seq<Update>)
  {
    forall i :: 0 <= i < |updates| ==> |updates[i].Keys| == 1
  }

  /** `r` shows `snap` under `key`: it holds that very copy, or it has never
      heard of the table and the table is empty. */
  predicate Shown(r: Update, key: string, snap: Snapshot)
  {
    if key in r then r[key] == snap else snap.Empty()
  }

  /** `r` shows the four tables: it holds no other key, and under each key
      the current copy of that table, unless the table is still empty and
      has never been relayed. */
  predicate Mirrors(r: Update, t: map<string, Transcode.TranscoderStatus>, f: map<string, FanoutStatus>,
                    s: map<string, Streams.Stream>, st: map<string, string>)
  {
    r.Keys <= {TranscodersKey, FanoutsKey, StreamsKey, StreamTranscodersKey} &&
    Shown(r, TranscodersKey, TranscodersSnap(t)) && Shown(r, FanoutsKey, FanoutsSnap(f)) &&
    Shown(r, StreamsKey, StreamsSnap(s)) && Shown(r, StreamTranscodersKey, StreamTranscodersSnap(st))
  }

  /** One more one-key update keeps every update at one key. */
  lemma OneKeyMore(sent: seq<Update>, key: string, snap: Snapshot)
    requires OneKeyEach(sent)
    ensures OneKeyEach(sent + [map[key := snap]])
  {
    assert map[key := snap].Keys == {key};
  }

  /** Relaying a new copy of the transcoder table keeps a replaying receiver
      in step with the tables. */
  lemma RelayTranscoders(sent: seq<Update>, t: map<string, Transcode.TranscoderStatus>,
                         f: map<string, FanoutStatus>, s: map<string, Streams.Stream>, st: map<string, string>,
                         t': map<string, Transcode.TranscoderStatus>)
    requires OneKeyEach(sent) && Mirrors(Replay(map[], sent), t, f, s, st)
    ensures OneKeyEach(sent + [map[TranscodersKey := TranscodersSnap(t')]])
    ensures Mirrors(Replay(map[], sent + [map[TranscodersKey := TranscodersSnap(t')]]), t', f, s, st)
  {
    ReplayAppend(map[], sent, map[TranscodersKey := TranscodersSnap(t')]);
    OneKeyMore(sent, TranscodersKey, TranscodersSnap(t'));
    KeysDistinct();
  }

  /** Relaying a new copy of the fanout table keeps a replaying receiver
      in step with the tables. */
  lemma RelayFanouts(sent: seq<Update>, t: map<string, Transcode.TranscoderStatus>,
                     f: map<string, FanoutStatus>, s: map<string, Streams.Stream>, st: map<string, string>,
                     f': map<string, FanoutStatus>)
    requires OneKeyEach(sent) && Mirrors(Replay(map[], sent), t, f, s, st)
    ensures OneKeyEach(sent + [map[FanoutsKey := FanoutsSnap(f')]])
    ensures Mirrors(Replay(map[], sent + [map[FanoutsKey := FanoutsSnap(f')]]), t, f', s, st)
  {
    ReplayAppend(map[], sent, map[FanoutsKey := FanoutsSnap(f')]);
    OneKeyMore(sent, FanoutsKey, FanoutsSnap(f'));
    KeysDistinct();
  }

  /** Relaying a new copy of the stream table keeps a replaying receiver
      in step with the tables. */
  lemma RelayStreams(sent: seq<Update>, t: map<string, Transcode.TranscoderStatus>,
                     f: map<string, FanoutStatus>, s: map<string, Streams.Stream>, st: map<string, string>,
                     s': map<string, Streams.Stream>)
    requires OneKeyEach(sent) && Mirrors(Replay(map[], sent), t, f, s, st)
    ensures OneKeyEach(sent + [map[StreamsKey := StreamsSnap(s')]])
    ensures Mirrors(Replay(map[], sent + [map[StreamsKey := StreamsSnap(s')]]), t, f, s', st)
  {
    ReplayAppend(map[], sent, map[StreamsKey := StreamsSnap(s')]);
    OneKeyMore(sent, StreamsKey, StreamsSnap(s'));
    KeysDistinct();
  }

  /** Relaying a new copy of the stream-transcoder table keeps a replaying receiver
      in step with the tables. */
  lemma RelayStreamTranscoders(sent: seq<Update>, t: map<string, Transcode.TranscoderStatus>,
                               f: map<string, FanoutStatus>, s: map<string, Streams.Stream>, st: map<string, string>,
                               st': map<string, string>)
    requires OneKeyEach(sent) && Mirrors(Replay(map[], sent), t, f, s, st)
    ensures OneKeyEach(sent + [map[StreamTranscodersKey := StreamTranscodersSnap(st')]])
    ensures Mirrors(Replay(map[], sent + [map[StreamTranscodersKey := StreamTranscodersSnap(st')]]), t, f, s, st')
  {
    ReplayAppend(map[], sent, map[StreamTranscodersKey := StreamTranscodersSnap(st')]);
    OneKeyMore(sent, StreamTranscodersKey, StreamTranscodersSnap(st'));
    KeysDistinct();
  }

  /** Whether handleStream's update branch acts on a routed event: a delete
      always, a put when the data decodes. */
  predicate StreamEventApplies(u: WatchEvents.Event, decode: Watch.Bytes -> Option<Streams.Stream>)
    requires u.kv.Some?
  {
    u.kind.Put? ==> decode(u.kv.value.value).Some?
  }

  class Watcher {
    var transcoders: map<string, Transcode.TranscoderStatus>
    var fanouts: map<string, FanoutStatus>
    var streams: map<string, Streams.Stream>
    var streamTranscoders: map<string, string>
    /** Every update relayed so far, oldest first. */
    var sent: seq<Update>

    /** Each relayed update names one table, and a receiver that merged
        them all in order holds exactly the current tables. */
    ghost predicate Valid()
      reads this
    {
      OneKeyEach(sent) && Mirrors(Replay(map[], sent), transcoders, fanouts, streams, streamTranscoders)
    }

    constructor ()
      ensures Valid()
      ensures transcoders == map[] && fanouts == map[] && streams == map[] && streamTranscoders == map[]
      ensures sent == []
    {
      transcoders, fanouts, streams, streamTranscoders := map[], map[], map[], map[];
      sent := [];
    }

    /** sendUpdate: relays one snapshot under one key. */
    method SendUpdate(key: string, snap: Snapshot)
      modifies this
      ensures sent == old(sent) + [map[key := snap]]
      ensures transcoders == old(transcoders) && fanouts == old(fanouts)
      ensures streams == old(streams) && streamTranscoders == old(streamTranscoders)
    {
      var tmp: Update := map[];
      tmp := tmp[key := snap];
      sent := sent + [tmp];
    }

    /** handleTranscoder: applies the event to the transcoder table and
        relays a copy of it; an ignored event relays nothing. */
    method HandleTranscoder(u: WatchEvents.Event, decode: Watch.Bytes -> Option<Transcode.TranscoderStatus>)
      requires Valid()
      modifies this
      ensures Valid()
      ensures transcoders == WatchEvents.ServiceTable(old(transcoders), u, decode)
      ensures fanouts == old(fanouts) && streams == old(streams) && streamTranscoders == old(streamTranscoders)
      ensures sent == if WatchEvents.ServiceEventApplies(u, decode)
                      then old(sent) + [map[TranscodersKey := TranscodersSnap(transcoders)]]
                      else old(sent)
    {
      if u.kv.None? {
        return;
      }
      var name := ClientPath.ParseServiceName(u.kv.value.key);
      if name == "" {
        return;
      }
      match u.kind {
        case Put =>
          var status := decode(u.kv.value.value);
          if status.None? {
            return;
          }
          transcoders := transcoders[name := status.value];
        case Delete =>
          transcoders := transcoders - {name};
      }
      var tmp := GoMaps.CopyMap(transcoders);
      RelayTranscoders(sent, old(transcoders), fanouts, streams, streamTranscoders, tmp);
      SendUpdate(TranscodersKey, TranscodersSnap(tmp));
    }

    /** handleFanout: the same for the fanout table. */
    method HandleFanout(u: WatchEvents.Event, decode: Watch.Bytes -> Option<FanoutStatus>)
      requires Valid()
      modifies this
      ensures Valid()
      ensures fanouts == WatchEvents.ServiceTable(old(fanouts), u, decode)
      ensures transcoders == old(transcoders) && streams == old(streams) && streamTranscoders == old(streamTranscoders)
      ensures sent == if WatchEvents.ServiceEventApplies(u, decode)
                      then old(sent) + [map[FanoutsKey := FanoutsSnap(fanouts)]]
                      else old(sent)
    {
      if u.kv.None? {
        return;
      }
      var name := ClientPath.ParseServiceName(u.kv.value.key);
      if name == "" {
        return;
      }
      match u.kind {
        case Put =>
          var status := decode(u.kv.value.value);
          if status.None? {
            return;
          }
          fanouts := fanouts[name := status.value];
        case Delete =>
          fanouts := fanouts - {name};
      }
      var tmp := GoMaps.CopyMap(fanouts);
      RelayFanouts(sent, transcoders, old(fanouts), streams, streamTranscoders, tmp);
      SendUpdate(FanoutsKey, FanoutsSnap(tmp));
    }

    /** handleStreamUpdate: a put stores the decoded stream under its slug,
        a delete forgets the slug; either relays a copy of the stream table.
        Data that does not decode changes and relays nothing. */
    method HandleStreamUpdate(name: string, u: WatchEvents.Event, decode: Watch.Bytes -> Option<Streams.Stream>)
      requires Valid() && u.kv.Some?
      modifies this
      ensures Valid()
      ensures transcoders == old(transcoders) && fanouts == old(fanouts) && streamTranscoders == old(streamTranscoders)
      ensures !StreamEventApplies(u, decode) ==> streams == old(streams) && sent == old(sent)
      ensures StreamEventApplies(u, decode) ==>
                streams == (if u.kind.Put? then old(streams)[name := decode(u.kv.value.value).value]
                            else old(streams) - {name}) &&
                sent == old(sent) + [map[StreamsKey := StreamsSnap(streams)]]
    {
      match u.kind {
        case Put =>
          var str := decode(u.kv.value.value);
          if str.None? {
            return;
          }
          streams := streams[name := str.value];
        case Delete =>
          streams := streams - {name};
      }
      var tmp := GoMaps.CopyMap(streams);
      RelayStreams(sent, transcoders, fanouts, old(streams), streamTranscoders, tmp);
      SendUpdate(StreamsKey, StreamsSnap(tmp));
    }

    /** handleStreamTranscoder: a put records the value, as text, as the
        slug's transcoder; a delete forgets it; either relays a copy. */
    method HandleStreamTranscoder(name: string, u: WatchEvents.Event)
      requires Valid() && u.kv.Some?
      modifies this
      ensures Valid()
      ensures transcoders == old(transcoders) && fanouts == old(fanouts) && streams == old(streams)
      ensures streamTranscoders == if u.kind.Put? then old(streamTranscoders)[name := WatchEvents.Text(u.kv.value.value)]
                                   else old(streamTranscoders) - {name}
      ensures sent == old(sent) + [map[StreamTranscodersKey := StreamTranscodersSnap(streamTranscoders)]]
    {
      match u.kind {
        case Put =>
          streamTranscoders := streamTranscoders[name := WatchEvents.Text(u.kv.value.value)];
        case Delete =>
          streamTranscoders := streamTranscoders - {name};
      }
      var tmp := GoMaps.CopyMap(streamTranscoders);
      RelayStreamTranscoders(sent, transcoders, fanouts, streams, old(streamTranscoders), tmp);
      SendUpdate(StreamTranscodersKey, StreamTranscodersSnap(tmp));
    }

    /** handleStream: routes a key under the stream prefix by its shape; a
        nil pair, a key without a slug and any other key are ignored. */
    method HandleStream(u: WatchEvents.Event, decode: Watch.Bytes -> Option<Streams.Stream>)
      requires Valid()
      modifies this
      ensures Valid()
      ensures transcoders == old(transcoders) && fanouts == old(fanouts)
      ensures !WatchEvents.Routed(u) ==>
                streams == old(streams) && streamTranscoders == old(streamTranscoders) && sent == old(sent)
      ensures WatchEvents.Routed(u) && ClientPath.PathIsStream(u.kv.value.key) ==>
                var name := ClientPath.ParseStreamName(u.kv.value.key);
                && streamTranscoders == old(streamTranscoders)
                && (!StreamEventApplies(u, decode) ==> streams == old(streams) && sent == old(sent))
                && (StreamEventApplies(u, decode) ==>
                      streams == (if u.kind.Put? then old(streams)[name := decode(u.kv.value.value).value]
                                  else old(streams) - {name}) &&
                      sent == old(sent) + [map[StreamsKey := StreamsSnap(streams)]])
      ensures WatchEvents.Routed(u) && ClientPath.PathIsStreamTranscoder(u.kv.value.key) ==>
                var name := ClientPath.ParseStreamName(u.kv.value.key);
                && streams == old(streams)
                && streamTranscoders == (if u.kind.Put? then old(streamTranscoders)[name := WatchEvents.Text(u.kv.value.value)]
                                         else old(streamTranscoders) - {name})
                && sent == old(sent) + [map[StreamTranscodersKey := StreamTranscodersSnap(streamTranscoders)]]
    {
      if u.kv.None? {
        return;
      }
      var path := u.kv.value.key;
      var name := ClientPath.ParseStreamName(path);
      if name == "" {
        return;
      }
      ClientPath.StreamKindsExclusive(path);
      if ClientPath.PathIsStream(path) {
        HandleStreamUpdate(name, u, decode);
      } else if ClientPath.PathIsStreamTranscoder(path) {
        HandleStreamTranscoder(name, u);
      }
    }
  }
}
