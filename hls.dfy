/** The HLS side of the upload service (upload/hls.go): every uploaded
    media playlist is folded into a bounded live output playlist, with a
    discontinuity inserted when the source's media sequence goes backwards,
    and every segment in the output window holds a keep channel so that the
    file registry does not delete it. */
module Hls {
  import opened Wrappers
  import opened GoStrings
  import opened Keeps
  import FileRegistry

  /** The playlist items the service tells apart. */
  datatype Item =
    | SegmentItem(segment: string)
    | DiscontinuityItem
    | MediaItem(isDefault: Option<bool>, language: Option<string>)
    | PlaylistItem(width: Option<int>)
    | OtherItem

  /** A parsed uploaded playlist: media sequence, items, target duration. */
  datatype Source = Source(sequence: int, items: seq<Item>, target: int)

  /** The segment items of a playlist, in order. */
  function SegmentsOf(items: seq<Item>): (segs: seq<Item>)
    ensures |segs| <= |items|
    ensures forall i :: 0 <= i < |segs| ==> segs[i].SegmentItem?
  {
    if items == [] then []
    else
      var last := items[|items| - 1];
      SegmentsOf(items[..|items| - 1]) + (if last.SegmentItem? then [last] else [])
  }

  /** m3u8's SegmentSize: the number of segments. */
  function SegmentSize(s: Source): nat
  {
    |SegmentsOf(s.items)|
  }

  // ---------------------------------------------------------------------
  // The live window (LivePlaylist)

  /** What a live playlist shows: its items and its two counters. */
  datatype Window = Window(items: seq<Item>, sequence: int, discontinuitySequence: int)

  const Fresh := Window([], 0, 0)

  datatype Pushed = Pushed(w: Window, deleted: Option<Item>)

  /** LivePlaylist.append on a window of capacity `size`. At capacity the
      first item is evicted and counted; a window of capacity 0 panics on
      its first append (it reads the first item of an empty list). */
  function Push(w: Window, size: int, item: Item): (r: Pushed)
    requires size != 0 || w.items != []
  {
    if |w.items| == size then
      var first := w.items[0];
      Pushed(Window(w.items[1..] + [item],
                    if first.SegmentItem? then w.sequence + 1 else w.sequence,
                    if first.DiscontinuityItem? then w.discontinuitySequence + 1 else w.discontinuitySequence),
             Some(first))
    else
      Pushed(Window(w.items + [item], w.sequence, w.discontinuitySequence), None)
  }

  /** Appending a whole list, first to last. */
  function PushAll(w: Window, size: int, items: seq<Item>): (r: Window)
    requires size != 0 || w.items != []
    ensures items != [] || w.items != [] ==> r.items != []
  {
    if items == [] then w
    else Push(PushAll(w, size, items[..|items| - 1]), size, items[|items| - 1]).w
  }

  function CountSegments(items: seq<Item>): nat
  {
    if items == [] then 0
    else CountSegments(items[..|items| - 1]) + (if items[|items| - 1].SegmentItem? then 1 else 0)
  }

  function CountDiscontinuities(items: seq<Item>): nat
  {
    if items == [] then 0
    else CountDiscontinuities(items[..|items| - 1]) + (if items[|items| - 1].DiscontinuityItem? then 1 else 0)
  }

  /** One append: the item goes last; below capacity nothing leaves; at
      capacity exactly the first item leaves, and the window never grows
      beyond its capacity. */
  lemma PushFacts(w: Window, size: int, item: Item)
    requires size > 0 && |w.items| <= size
    ensures var r := Push(w, size, item);
            && |r.w.items| <= size
            && r.w.items[|r.w.items| - 1] == item
            && (|w.items| < size ==> r.deleted.None? && r.w.items[..|w.items|] == w.items)
            && (|w.items| == size ==> r.deleted == Some(w.items[0]) && r.w.items[..size - 1] == w.items[1..])
  {
  }

  /** The window after any history of appends to a fresh playlist of
      capacity `size` is the last `size` items of that history, and the two
      counters count the segments and discontinuities that fell out. */
  lemma {:induction false} WindowIsSuffix(size: int, h: seq<Item>)
    requires size > 0
    ensures SuffixWindow(PushAll(Fresh, size, h), size, h)
    decreases |h|
  {
    if h != [] {
      var init := h[..|h| - 1];
      WindowIsSuffix(size, init);
      assert init + [h[|h| - 1]] == h;
      SuffixStep(PushAll(Fresh, size, init), size, init, h[|h| - 1]);
    }
  }

  /** The window holds the last `size` items of history `h`, and the
      counters count what fell out before them. */
  ghost predicate SuffixWindow(w: Window, size: int, h: seq<Item>)
    requires size > 0
  {
    var e := if |h| > size then |h| - size else 0;
    && w.items == h[e..]
    && w.sequence == CountSegments(h[..e])
    && w.discontinuitySequence == CountDiscontinuities(h[..e])
  }

  lemma SuffixStep(w: Window, size: int, h: seq<Item>, x: Item)
    requires size > 0 && SuffixWindow(w, size, h)
    ensures SuffixWindow(Push(w, size, x).w, size, h + [x])
  {
    var e := if |h| > size then |h| - size else 0;
    var h2 := h + [x];
    if |h| >= size {
      assert w.items[0] == h[e];
      assert h2[..e + 1] == h[..e] + [h[e]];
      assert (h[..e] + [h[e]])[..e] == h[..e];
      assert w.items[1..] + [x] == h2[e + 1..];
    } else {
      assert w.items + [x] == h2[0..];
      assert h2[..0] == h[..0];
    }
  }

  /** A playlist of negative capacity never evicts. */
  lemma {:induction false} NegativeSizeGrows(size: int, h: seq<Item>)
    requires size < 0
    ensures PushAll(Fresh, size, h) == Window(h, 0, 0)
    decreases |h|
  {
    if h != [] {
      NegativeSizeGrows(size, h[..|h| - 1]);
      assert h[..|h| - 1] + [h[|h| - 1]] == h;
    }
  }

  /** Capacity 3: a discontinuity and three segments evict the
      discontinuity; one more segment evicts the first segment. */
  lemma AppendScenario()
    ensures var h := [DiscontinuityItem, SegmentItem("a"), SegmentItem("b"), SegmentItem("c")];
            && PushAll(Fresh, 3, h).discontinuitySequence == 1
            && PushAll(Fresh, 3, h).sequence == 0
            && PushAll(Fresh, 3, h + [SegmentItem("d")]).sequence == 1
  {
    var h := [DiscontinuityItem, SegmentItem("a"), SegmentItem("b"), SegmentItem("c")];
    WindowIsSuffix(3, h);
    assert h[..1] == [DiscontinuityItem];
    assert CountDiscontinuities([DiscontinuityItem]) == 1;
    var h2 := h + [SegmentItem("d")];
    WindowIsSuffix(3, h2);
    assert h2[..2] == [DiscontinuityItem, SegmentItem("a")];
    assert [DiscontinuityItem, SegmentItem("a")][..1] == [DiscontinuityItem];
  }

  /** The output playlist: a window of fixed capacity plus the target
      duration copied from the source. */
  class LivePlaylist {
    var items: seq<Item>
    var sequence: int
    var discontinuitySequence: int
    var target: int
    const size: int

    /** newLivePlaylist: version 3, live, counters at zero. */
    constructor (size: int)
      ensures this.size == size
      ensures Current() == Fresh && target == 0
    {
      this.size := size;
      items := [];
      sequence := 0;
      discontinuitySequence := 0;
      target := 0;
    }

    function Current(): Window
      reads this
    {
      Window(items, sequence, discontinuitySequence)
    }

    method Append(item: Item) returns (deleted: Option<Item>)
      requires size != 0 || items != []
      modifies this
      ensures Current() == Push(old(Current()), size, item).w
      ensures deleted == Push(old(Current()), size, item).deleted
      ensures target == old(target)
    {
      deleted := None;
      if |items| == size {
        deleted := Some(items[0]);
        if items[0].SegmentItem? {
          sequence := sequence + 1;
        } else if items[0].DiscontinuityItem? {
          discontinuitySequence := discontinuitySequence + 1;
        }
        items := items[1..];
      }
      items := items + [item];
    }

    method ApplyDiscontinuity() returns (deleted: Option<Item>)
      requires size != 0 || items != []
      modifies this
      ensures Current() == Push(old(Current()), size, DiscontinuityItem).w
      ensures deleted == Push(old(Current()), size, DiscontinuityItem).deleted
      ensures target == old(target)
    {
      deleted := Append(DiscontinuityItem);
    }

    method SetSegmentTarget(t: int)
      modifies this
      ensures target == t && Current() == old(Current())
    {
      target := t;
    }
  }

  /** The method on the class and the function agree on a whole history:
      the scenario above, replayed through LivePlaylist. */
  method AppendScenarioOnPlaylist() returns (disc: int, seqBefore: int, seqAfter: int)
    ensures disc == 1 && seqBefore == 0 && seqAfter == 1
  {
    var p := new LivePlaylist(3);
    var evicted := p.Append(DiscontinuityItem);
    evicted := p.Append(SegmentItem("a"));
    evicted := p.Append(SegmentItem("b"));
    evicted := p.Append(SegmentItem("c"));
    disc, seqBefore := p.discontinuitySequence, p.sequence;
    evicted := p.Append(SegmentItem("d"));
    seqAfter := p.sequence;
  }

  // ---------------------------------------------------------------------
  // Following one uploaded media playlist (VariantPlaylist)

  class VariantPlaylist {
    var lastIndex: int
    var lastSize: int
    var lastSequence: int
    const output: LivePlaylist

    constructor (size: int)
      ensures lastIndex == 0 && lastSize == 0 && lastSequence == 0
      ensures fresh(output) && output.size == size && output.Current() == Fresh && output.target == 0
    {
      lastIndex := 0;
      lastSize := 0;
      lastSequence := 0;
      output := new LivePlaylist(size);
    }
  }

  /** The segments appendItems copies: those whose position among the
      source's segments is at least `from`. */
  function FromIndex(segs: seq<Item>, from: int): seq<Item>
  {
    if from <= 0 then segs else if from >= |segs| then [] else segs[from..]
  }

  /** What copying segments changes: the output window, the tracked paths
      with their channels, how many channels were made and which are
      closed, and the file registry's entries. */
  datatype Tracked = Tracked(w: Window, files: map<string, Keep>, made: nat, closed: set<Keep>,
                             registered: map<string, FileRegistry.Entry>)

  /** keepFile on the tracked state: the next channel of `table` guards the
      path, and the registry keeps the path while that channel is open. */
  function Kept(t: Tracked, table: Channels, path: string): (r: Tracked)
    ensures r.files.Keys == t.files.Keys + {path} && r.closed == t.closed
  {
    t.(files := t.files[path := t.made], made := t.made + 1,
       registered := FileRegistry.Added(t.registered, FileRegistry.Entry(path, 0, Some(Handle(table, t.made)))))
  }

  /** expireFile on the tracked state: a tracked path's channel is closed
      and the path forgotten. */
  function Released(t: Tracked, path: string): (r: Tracked)
    ensures r.files.Keys == t.files.Keys - {path}
    ensures path in t.files ==> r.closed == t.closed + {t.files[path]}
    ensures r.made == t.made && r.registered == t.registered
  {
    if path in t.files then t.(files := t.files - {path}, closed := t.closed + {t.files[path]}) else t
  }

  /** Appending one item: a segment's path is kept first, the item is
      appended, and the path of a segment the append evicts is released. */
  /** Released, as expireFile's contract states its effect. */
  lemma ReleasedIs(t: Tracked, path: string, files: map<string, Keep>, closed: set<Keep>)
    requires files == t.files - {path}
    requires closed == t.closed + (if path in t.files then {t.files[path]} else {})
    ensures Released(t, path) == t.(files := files, closed := closed)
  {
    if path !in t.files {
      assert files == t.files;
    }
  }

  function Step(t: Tracked, size: int, pathOf: string -> string, table: Channels, item: Item): (r: Tracked)
    requires size != 0 || t.w.items != []
    ensures r.w == Push(t.w, size, item).w
  {
    var pushed := Push(t.w, size, item);
    var kept := (if item.SegmentItem? then Kept(t, table, pathOf(item.segment)) else t).(w := pushed.w);
    if pushed.deleted.Some? && pushed.deleted.value.SegmentItem?
    then Released(kept, pathOf(pushed.deleted.value.segment))
    else kept
  }

  function Track(t: Tracked, size: int, pathOf: string -> string, table: Channels, segs: seq<Item>): (r: Tracked)
    requires size != 0 || t.w.items != []
    ensures r.w == PushAll(t.w, size, segs)
  {
    if segs == [] then t
    else Step(Track(t, size, pathOf, table, segs[..|segs| - 1]), size, pathOf, table, segs[|segs| - 1])
  }

  /** Copying a segment releases the one the append evicts: its channel is
      closed and its path forgotten, unless the copied segment reuses that
      path. */
  lemma StepReleasesEvicted(t: Tracked, size: int, pathOf: string -> string, table: Channels, seg: Item)
    requires size != 0 || t.w.items != []
    requires seg.SegmentItem?
    ensures var pushed := Push(t.w, size, seg);
            var r := Step(t, size, pathOf, table, seg);
            pushed.deleted.Some? && pushed.deleted.value.SegmentItem? &&
            pathOf(pushed.deleted.value.segment) in t.files && pathOf(pushed.deleted.value.segment) != pathOf(seg.segment) ==>
              t.files[pathOf(pushed.deleted.value.segment)] in r.closed &&
              pathOf(pushed.deleted.value.segment) !in r.files
  {
  }

  /** Copying segments makes one channel per segment, only ever closes
      more channels, and closes no channel but those tracked before or made
      on the way. */
  lemma {:induction false} TrackChannels(t: Tracked, size: int, pathOf: string -> string, table: Channels, segs: seq<Item>)
    requires size != 0 || t.w.items != []
    ensures var r := Track(t, size, pathOf, table, segs);
            && r.made == t.made + CountSegments(segs)
            && t.closed <= r.closed
            && (forall k :: k in r.closed - t.closed ==> k in t.files.Values || t.made <= k < r.made)
            && (forall p :: p in r.files ==> r.files[p] in t.files.Values || t.made <= r.files[p] < r.made)
  {
    if segs != [] {
      var init := segs[..|segs| - 1];
      TrackChannels(t, size, pathOf, table, init);
      StepRegistry(Track(t, size, pathOf, table, init), size, pathOf, table, segs[|segs| - 1]);
    }
  }

  /** The registry entry of a path no copied segment lives at is left as
      it was. */
  lemma {:induction false} TrackLeavesOthers(t: Tracked, size: int, pathOf: string -> string, table: Channels,
                                              segs: seq<Item>, q: string)
    requires size != 0 || t.w.items != []
    requires q in t.registered
    requires forall i :: 0 <= i < |segs| && segs[i].SegmentItem? ==> pathOf(segs[i].segment) != q
    ensures q in Track(t, size, pathOf, table, segs).registered
    ensures Track(t, size, pathOf, table, segs).registered[q] == t.registered[q]
  {
    if segs != [] {
      TrackLeavesOthers(t, size, pathOf, table, segs[..|segs| - 1], q);
    }
  }

  /** Every copied segment's path ends up in the registry with a keep
      channel made by the copy. */
  lemma {:induction false} TrackRegisters(t: Tracked, size: int, pathOf: string -> string, table: Channels,
                                          segs: seq<Item>, i: nat)
    requires size != 0 || t.w.items != []
    requires i < |segs| && segs[i].SegmentItem?
    ensures var r := Track(t, size, pathOf, table, segs);
            pathOf(segs[i].segment) in r.registered &&
            r.registered[pathOf(segs[i].segment)].keep.Some? &&
            r.registered[pathOf(segs[i].segment)].keep.value.table == table &&
            t.made <= r.registered[pathOf(segs[i].segment)].keep.value.id < r.made
  {
    var init := segs[..|segs| - 1];
    var last := segs[|segs| - 1];
    var r0 := Track(t, size, pathOf, table, init);
    TrackChannels(t, size, pathOf, table, init);
    StepRegistry(r0, size, pathOf, table, last);
    if i < |segs| - 1 {
      TrackRegisters(t, size, pathOf, table, init, i);
    }
  }

  /** What one step does to the registry and the channel count. */
  lemma StepRegistry(t: Tracked, size: int, pathOf: string -> string, table: Channels, item: Item)
    requires size != 0 || t.w.items != []
    ensures var r := Step(t, size, pathOf, table, item);
            && r.made == t.made + (if item.SegmentItem? then 1 else 0)
            && r.registered == if item.SegmentItem?
                               then FileRegistry.Added(t.registered, FileRegistry.Entry(pathOf(item.segment), 0, Some(Handle(table, t.made))))
                               else t.registered
  {
  }

  /** Copying one more segment extends the fold by one step. */
  lemma TrackAppend(t: Tracked, size: int, pathOf: string -> string, table: Channels, segs: seq<Item>, seg: Item)
    requires size != 0 || t.w.items != []
    ensures Track(t, size, pathOf, table, segs + [seg]) == Step(Track(t, size, pathOf, table, segs), size, pathOf, table, seg)
  {
    assert (segs + [seg])[..|segs|] == segs;
  }

  /** The copied part of a segment list that grows by one segment. */
  lemma FromIndexAppend(segs: seq<Item>, from: int, seg: Item)
    ensures FromIndex(segs + [seg], from) ==
            if |segs| >= from then FromIndex(segs, from) + [seg] else FromIndex(segs, from)
  {
    if 0 < from < |segs| {
      assert (segs + [seg])[from..] == segs[from..] + [seg];
    }
  }

  // ---------------------------------------------------------------------
  // The parser

  /** filepath.Join(base, name), as a function of the name. */
  function Under(base: string): string -> string
  {
    name => Join([base, name])
  }

  lemma UnderJoins(base: string, name: string)
    ensures Under(base)(name) == Join([base, name])
  {
  }

  class HLSParser {
    const slug: string
    const basePath: string
    const size: int
    /** Where a segment named in a playlist lives: filepath.Join(basePath, name). */
    const pathOf: string -> string
    /** The keep channels this parser makes; the file registry reads them. */
    const channels: Channels
    /** The upload server's file registry, shared by every parser. */
    const registry: FileRegistry.Registry
    var subs: map<string, VariantPlaylist>
    var files: map<string, Keep>

    /** newHLSParser: no playlists and no files tracked yet. */
    constructor (slug: string, basePath: string, size: int, registry: FileRegistry.Registry)
      ensures this.slug == slug && this.basePath == basePath && this.size == size
      ensures pathOf == Under(basePath) && this.registry == registry
      ensures fresh(channels) && channels.made == 0 && channels.closed == {}
      ensures subs == map[] && files == map[]
      ensures Valid() && Registered()
    {
      this.slug := slug;
      this.basePath := basePath;
      pathOf := Under(basePath);
      this.size := size;
      this.registry := registry;
      channels := new Channels();
      subs := map[];
      files := map[];
    }

    /** Every tracked segment has a registry entry that holds its keep
        channel. */
    ghost predicate Registered()
      reads this, registry
    {
      forall p :: p in files ==> p in registry.files && registry.files[p].keep == Some(Handle(channels, files[p]))
    }

    /** Every tracked channel is open and guards one path only. */
    ghost predicate Valid()
      reads this, channels
    {
      && channels.Valid()
      && (forall p :: p in files ==> channels.Open(files[p]))
      && (forall p, q :: p in files && q in files && p != q ==> files[p] != files[q])
    }

    /** The parser's part of the state a copy into `out` changes. */
    ghost function Tracking(out: LivePlaylist): Tracked
      reads this, channels, registry, out
    {
      Tracked(out.Current(), files, channels.made, channels.closed, registry.files)
    }

    /** keepFile: a new channel now guards the segment's path (one that
        guarded it before is dropped, not closed), and the file registry is
        told to keep the path while that channel is open. */
    method KeepFile(name: string)
      requires Valid()
      modifies this, channels, registry
      ensures Valid()
      ensures files == old(files)[pathOf(name) := old(channels.made)]
      ensures channels.made == old(channels.made) + 1 && channels.closed == old(channels.closed)
      ensures registry.files ==
              FileRegistry.Added(old(registry.files), FileRegistry.Entry(pathOf(name), 0, Some(Handle(channels, old(channels.made)))))
      ensures subs == old(subs)
      ensures old(Registered()) ==> Registered()
    {
      var path := pathOf(name);
      var keep := channels.Make();
      files := files[path := keep];
      registry.KeepFile(path, Handle(channels, keep));
    }

    /** expireFile: the segment's channel, if tracked, is closed and
        forgotten. */
    method ExpireFile(name: string)
      requires Valid()
      modifies this, channels
      ensures Valid()
      ensures files == old(files) - {pathOf(name)}
      ensures channels.made == old(channels.made)
      ensures channels.closed == old(channels.closed) +
                (if pathOf(name) in old(files) then {old(files)[pathOf(name)]} else {})
      ensures subs == old(subs)
      ensures old(Registered()) ==> Registered()
    {
      var path := pathOf(name);
      if path in files {
        channels.Close(files[path]);
        files := files - {path};
      }
    }

    /** getVariantPlaylist: a playlist outside the stream's directory is
        refused; otherwise the tracker for its file name, created empty on
        first use. */
    method GetVariantPlaylist(path: string) returns (r: Result<VariantPlaylist, string>)
      modifies this
      ensures files == old(files)
      ensures Dir(path) != basePath ==> r.Err? && subs == old(subs)
      ensures Dir(path) == basePath && Base(path) in old(subs) ==>
                r == Ok(old(subs)[Base(path)]) && subs == old(subs)
      ensures Dir(path) == basePath && Base(path) !in old(subs) ==>
                && r.Ok? && fresh(r.value) && fresh(r.value.output)
                && r.value.output.size == size && r.value.output.Current() == Fresh
                && r.value.lastIndex == 0 && r.value.lastSize == 0 && r.value.lastSequence == 0
                && subs == old(subs)[Base(path) := r.value]
    {
      if Dir(path) != basePath {
        return Err("invalid playlist directory " + path);
      }
      var name := Base(path);
      if name in subs {
        r := Ok(subs[name]);
      } else {
        var sub := new VariantPlaylist(size);
        subs := subs[name := sub];
        r := Ok(sub);
      }
    }

    /** checkDiscontinuity: a source whose media sequence went backwards
        gets a discontinuity in the output and is copied again from its
        first segment; otherwise the copy position moves back by the number
        of segments that vanished from the source without the sequence
        accounting for them. */
    method CheckDiscontinuity(v: VariantPlaylist, source: Source)
      requires Valid()
      requires v.output.size != 0 || v.output.items != []
      modifies this, v, v.output, channels
      ensures old(Registered()) ==> Registered()
      ensures Valid()
      ensures subs == old(subs) && v.output.target == old(v.output.target)
      ensures v.lastSequence == source.sequence && v.lastSize == SegmentSize(source)
      ensures source.sequence < old(v.lastSequence) ==>
                && Tracking(v.output) == Step(old(Tracking(v.output)), v.output.size, pathOf, channels, DiscontinuityItem)
                && v.lastIndex == 0
      ensures source.sequence >= old(v.lastSequence) ==>
                var diff := old(v.lastSequence) - source.sequence + SegmentSize(source) - old(v.lastSize);
                && Tracking(v.output) == old(Tracking(v.output))
                && v.lastIndex == (if diff < 0 then old(v.lastIndex) + diff else old(v.lastIndex))
    {
      if source.sequence < v.lastSequence {
        ghost var before := Tracking(v.output);
        var deleted := v.output.ApplyDiscontinuity();
        ghost var appended := before.(w := v.output.Current());
        if deleted.Some? && deleted.value.SegmentItem? {
          ExpireFile(deleted.value.segment);
          ReleasedIs(appended, pathOf(deleted.value.segment), files, channels.closed);
        }
        v.lastIndex := 0;
      } else {
        var diff := v.lastSequence - source.sequence + SegmentSize(source) - v.lastSize;
        if diff < 0 {
          v.lastIndex := v.lastIndex + diff;
        }
      }
      v.lastSequence := source.sequence;
      v.lastSize := SegmentSize(source);
    }

    /** appendItems: the source's segments from position lastIndex on are
        kept and appended to the output, segments the output evicts are
        released, and lastIndex becomes the source's segment count. */
    method AppendItems(v: VariantPlaylist, source: Source)
      requires Valid()
      requires v.output.size != 0 || v.output.items != []
      modifies this, v, v.output, channels, registry
      ensures old(Registered()) ==> Registered()
      ensures Valid()
      ensures subs == old(subs) && v.output.target == old(v.output.target)
      ensures v.lastIndex == SegmentSize(source)
      ensures v.lastSequence == old(v.lastSequence) && v.lastSize == old(v.lastSize)
      ensures Tracking(v.output) ==
              Track(old(Tracking(v.output)), v.output.size, pathOf, channels,
                    FromIndex(SegmentsOf(source.items), old(v.lastIndex)))
    {
      var index := CopyFrom(v, source.items, v.lastIndex);
      v.lastIndex := index;
    }

    /** The loop of appendItems: walks the items, counting segments, and
        copies those at or past position `from`. */
    method CopyFrom(v: VariantPlaylist, items: seq<Item>, from: int) returns (index: int)
      requires Valid()
      requires v.output.size != 0 || v.output.items != []
      modifies this, v.output, channels, registry
      ensures old(Registered()) ==> Registered()
      ensures Valid()
      ensures subs == old(subs) && v.output.target == old(v.output.target)
      ensures index == |SegmentsOf(items)|
      ensures Tracking(v.output) ==
              Track(old(Tracking(v.output)), v.output.size, pathOf, channels, FromIndex(SegmentsOf(items), from))
    {
      ghost var t0 := Tracking(v.output);
      ghost var segs: seq<Item> := [];
      ghost var copied: seq<Item> := [];
      index := 0;
      var k := 0;
      while k < |items|
        invariant 0 <= k <= |items|
        invariant Valid()
        invariant segs == SegmentsOf(items[..k]) && index == |segs|
        invariant copied == FromIndex(segs, from)
        invariant subs == old(subs) && v.output.target == old(v.output.target)
        invariant Tracking(v.output) == Track(t0, v.output.size, pathOf, channels, copied)
        invariant v.output.size != 0 || v.output.items != []
        invariant t0.w.items != [] || v.output.size != 0
        invariant old(Registered()) ==> Registered()
      {
        var item := items[k];
        Advance(items, k, from, segs, copied);
        index, copied := VisitItem(v, item, index, from, t0, copied);
        segs := if item.SegmentItem? then segs + [item] else segs;
        k := k + 1;
      }
      assert items[..|items|] == items;
    }

    /** One iteration of appendItems: a segment at or past `from` is
        copied, and every segment moves the index on. */
    method VisitItem(v: VariantPlaylist, item: Item, index: int, from: int,
                     ghost t0: Tracked, ghost copied: seq<Item>)
      returns (next: int, ghost copiedNext: seq<Item>)
      requires Valid()
      requires v.output.size != 0 || v.output.items != []
      requires t0.w.items != [] || v.output.size != 0
      requires Tracking(v.output) == Track(t0, v.output.size, pathOf, channels, copied)
      modifies this, v.output, channels, registry
      ensures old(Registered()) ==> Registered()
      ensures Valid()
      ensures subs == old(subs) && v.output.target == old(v.output.target)
      ensures v.output.size != 0 || v.output.items != []
      ensures next == if item.SegmentItem? then index + 1 else index
      ensures copiedNext == if item.SegmentItem? && index >= from then copied + [item] else copied
      ensures Tracking(v.output) == Track(t0, v.output.size, pathOf, channels, copiedNext)
    {
      next, copiedNext := index, copied;
      if item.SegmentItem? {
        if index >= from {
          TrackAppend(t0, v.output.size, pathOf, channels, copied, item);
          CopySegment(v, item);
          copiedNext := copied + [item];
        }
        next := index + 1;
      }
    }

    /** One iteration of appendItems that copies a segment. */
    method CopySegment(v: VariantPlaylist, seg: Item)
      requires Valid()
      requires seg.SegmentItem?
      requires v.output.size != 0 || v.output.items != []
      modifies this, v.output, channels, registry
      ensures old(Registered()) ==> Registered()
      ensures Valid()
      ensures subs == old(subs) && v.output.target == old(v.output.target)
      ensures Tracking(v.output) == Step(old(Tracking(v.output)), v.output.size, pathOf, channels, seg)
    {
      ghost var before := Tracking(v.output);
      KeepFile(seg.segment);
      ghost var kept := Kept(before, channels, pathOf(seg.segment));
      assert Tracking(v.output) == kept;
      var deleted := v.output.Append(seg);
      ghost var pushed := Push(before.w, v.output.size, seg);
      assert v.output.Current() == pushed.w && deleted == pushed.deleted;
      ghost var appended := kept.(w := pushed.w);
      assert Tracking(v.output) == appended;
      assert Step(before, v.output.size, pathOf, channels, seg) ==
             if deleted.Some? && deleted.value.SegmentItem? then Released(appended, pathOf(deleted.value.segment))
             else appended;
      if deleted.Some? && deleted.value.SegmentItem? {
        ExpireFile(deleted.value.segment);
        ReleasedIs(appended, pathOf(deleted.value.segment), files, channels.closed);
        assert Tracking(v.output) == appended.(files := files, closed := channels.closed);
      }
    }

    /** Cleanup: every tracked channel is closed and the map dropped. */
    method Cleanup()
      requires Valid()
      modifies this, channels
      ensures files == map[] && subs == old(subs) && Valid() && Registered()
      ensures channels.made == old(channels.made)
      ensures channels.closed == old(channels.closed) + old(files).Values
    {
      var remaining := files.Keys;
      while remaining != {}
        invariant remaining <= files.Keys
        invariant files == old(files) && subs == old(subs)
        invariant channels.made == old(channels.made) && channels.Valid()
        invariant channels.closed == old(channels.closed) + set p | p in files && p !in remaining :: files[p]
        invariant forall p :: p in remaining ==> channels.Open(files[p])
        decreases remaining
      {
        var p :| p in remaining;
        channels.Close(files[p]);
        remaining := remaining - {p};
      }
      files := map[];
    }
  }

  /** What keepFile buys a segment: while the parser tracks it, an expiry
      pass of the file registry, at any time, leaves its entry alone. */
  lemma TrackedSegmentsStay(h: HLSParser, now: int, delay: int, p: string)
    requires h.Valid() && h.Registered() && p in h.files
    ensures p in FileRegistry.Expired(h.registry.files, now, delay)
    ensures FileRegistry.Expired(h.registry.files, now, delay)[p] == h.registry.files[p]
  {
    FileRegistry.OpenKeepStays(h.registry.files, now, delay, p);
  }

  /** The segment list of a prefix grows by the next item when that item is
      a segment. */
  lemma SegmentsStep(items: seq<Item>, k: nat)
    requires k < |items|
    ensures SegmentsOf(items[..k + 1]) ==
            SegmentsOf(items[..k]) + (if items[k].SegmentItem? then [items[k]] else [])
  {
    assert items[..k + 1][..k] == items[..k];
  }

  /** One more source item, for the loop of appendItems: the segments seen
      grow by the item when it is a segment, and the copied ones grow by it
      when, in addition, its position is at least `from`. */
  lemma Advance(items: seq<Item>, k: nat, from: int, segs: seq<Item>, copied: seq<Item>)
    requires k < |items|
    requires segs == SegmentsOf(items[..k]) && copied == FromIndex(segs, from)
    ensures var item := items[k];
            var segsNext := if item.SegmentItem? then segs + [item] else segs;
            && segsNext == SegmentsOf(items[..k + 1])
            && FromIndex(segsNext, from) ==
               if item.SegmentItem? && |segs| >= from then copied + [item] else copied
  {
    SegmentsStep(items, k);
    FromIndexAppend(segs, from, items[k]);
  }

  // ---------------------------------------------------------------------
  // Master playlists

  /** A variant of width 1280 or more. */
  predicate IsHD(item: Item)
  {
    item.PlaylistItem? && item.width.Some? && item.width.value >= 1280
  }

  /** The items filterHDResolutions keeps, in order. */
  function WithoutHD(items: seq<Item>): (r: seq<Item>)
    ensures |r| <= |items|
  {
    if items == [] then []
    else
      var init := items[..|items| - 1];
      var last := items[|items| - 1];
      WithoutHD(init) + (if IsHD(last) then [] else [last])
  }

  /** The filter keeps exactly the items that are not HD variants. */
  lemma {:induction false} WithoutHDExactly(items: seq<Item>, x: Item)
    ensures x in WithoutHD(items) <==> x in items && !IsHD(x)
    decreases |items|
  {
    if items != [] {
      var init := items[..|items| - 1];
      WithoutHDExactly(init, x);
      assert items == init + [items[|items| - 1]];
    }
  }

  /** filterHDResolutions: drops the HD variants; the result says whether a
      variant is left. */
  method FilterHDResolutions(items: seq<Item>) returns (kept: seq<Item>, res: bool)
    ensures kept == WithoutHD(items)
    ensures res <==> exists x :: x in kept && x.PlaylistItem?
  {
    kept := [];
    res := false;
    var k := 0;
    while k < |items|
      invariant 0 <= k <= |items|
      invariant kept == WithoutHD(items[..k])
      invariant res <==> exists x :: x in kept && x.PlaylistItem?
    {
      var item := items[k];
      assert items[..k + 1][..k] == items[..k];
      if !item.PlaylistItem? {
        kept := kept + [item];
      } else if item.width.Some? && item.width.value >= 1280 {
      } else {
        res := true;
        kept := kept + [item];
        assert item in kept;
      }
      k := k + 1;
    }
    assert items[..|items|] == items;
  }

  /** getAlternativeLanguages: the language of every media item that is
      explicitly not the default, in order. */
  function AlternativeLanguages(items: seq<Item>): (langs: seq<string>)
    ensures |langs| <= |items|
  {
    if items == [] then []
    else
      var rest := AlternativeLanguages(items[1..]);
      match items[0]
      case MediaItem(Some(false), Some(lang)) => [lang] + rest
      case _ => rest
  }

  /** A language is listed exactly when some media item carries it with an
      explicit non-default flag. */
  lemma {:induction false} AlternativeLanguagesExactly(items: seq<Item>, lang: string)
    ensures lang in AlternativeLanguages(items) <==> MediaItem(Some(false), Some(lang)) in items
    decreases |items|
  {
    if items != [] {
      AlternativeLanguagesExactly(items[1..], lang);
      assert items == [items[0]] + items[1..];
    }
  }
}
