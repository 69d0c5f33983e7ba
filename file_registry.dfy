/** The upload server's file registry: every written file has an entry that
    either holds a keep channel (the file stays while the channel is open)
    or a deadline (the file is removed on the first expiry pass at or after
    it). Each message of the registry's goroutine is one method call here;
    removing a file from disk is the entry leaving the map. */
module FileRegistry {
  import opened Wrappers
  import opened Keeps

  /** time.Duration is a count of nanoseconds. */
  const Second: int := 1_000_000_000

  const DefaultExpireInterval: int := 5 * Second
  const DefaultKeepDelay: int := 10 * Second

  datatype Config = Config(expireInterval: int, keepDelay: int)

  /** NewFileRegistry: a zero duration takes its default, any other is kept. */
  function WithDefaults(c: Config): (r: Config)
    ensures r.expireInterval != 0 && r.keepDelay != 0
    ensures c.expireInterval != 0 ==> r.expireInterval == c.expireInterval
    ensures c.keepDelay != 0 ==> r.keepDelay == c.keepDelay
    ensures c.expireInterval == 0 ==> r.expireInterval == 5 * Second
    ensures c.keepDelay == 0 ==> r.keepDelay == 10 * Second
  {
    Config(if c.expireInterval == 0 then DefaultExpireInterval else c.expireInterval,
           if c.keepDelay == 0 then DefaultKeepDelay else c.keepDelay)
  }

  /** A registered file; time.Time is nanoseconds, its zero value 0. */
  datatype Entry = Entry(path: string, deadline: int, keep: Option<Handle>)

  /** The add case of the run loop: the new entry replaces the one for its
      path, unless it would drop a keep channel for a plain deadline. */
  function Added(files: map<string, Entry>, e: Entry): (r: map<string, Entry>)
    ensures r.Keys == files.Keys + {e.path}
    ensures forall p :: p in files && p != e.path ==> r[p] == files[p]
    ensures e.path in files && e.keep.None? && files[e.path].keep.Some? ==> r[e.path] == files[e.path]
    ensures !(e.path in files && e.keep.None? && files[e.path].keep.Some?) ==> r[e.path] == e
  {
    if e.path in files && e.keep.None? && files[e.path].keep.Some? then files
    else files[e.path := e]
  }

  /** An add never takes the keep channel away from a path: a later plain
      registration of a kept file leaves the file kept (TestKeepPriority). */
  lemma KeepPriority(files: map<string, Entry>, path: string, h: Handle, deadline: int)
    ensures var kept := Added(files, Entry(path, 0, Some(h)));
            Added(kept, Entry(path, deadline, None))[path] == Entry(path, 0, Some(h))
  {
  }

  lemma AddKeepsKeep(files: map<string, Entry>, e: Entry, p: string)
    requires p in files && files[p].keep.Some?
    ensures p in Added(files, e) && Added(files, e)[p].keep.Some?
  {
  }

  /** The tables that the keep channels of `files` belong to. */
  function Tables(files: map<string, Entry>): set<Channels>
  {
    set p | p in files && files[p].keep.Some? :: files[p].keep.value.table
  }

  /** What one expiry pass at `now` does to one entry: None removes it. A
      closed keep gives way to a deadline `delay` from now. */
  function ExpireEntry(e: Entry, now: int, delay: int): Option<Entry>
    reads if e.keep.Some? then {e.keep.value.table} else {}
  {
    if e.keep.Some? then
      if Closed(e.keep.value) then Some(e.(deadline := now + delay, keep := None)) else Some(e)
    else if e.deadline > now then Some(e)
    else None
  }

  /** The entries left after an expiry pass at `now`. Every entry is
      decided on its own, so the order of the map walk does not matter. */
  function Expired(files: map<string, Entry>, now: int, delay: int): (r: map<string, Entry>)
    reads Tables(files)
    ensures r.Keys <= files.Keys
  {
    map p | p in files && ExpireEntry(files[p], now, delay).Some? :: ExpireEntry(files[p], now, delay).value
  }

  /** An entry whose keep channel is open is neither removed nor changed. */
  lemma OpenKeepStays(files: map<string, Entry>, now: int, delay: int, p: string)
    requires p in files && files[p].keep.Some? && !Closed(files[p].keep.value)
    ensures p in Expired(files, now, delay) && Expired(files, now, delay)[p] == files[p]
  {
  }

  /** A closed keep channel turns into a deadline `delay` after the pass;
      the entry is not removed in that pass. */
  lemma ClosedKeepRearms(files: map<string, Entry>, now: int, delay: int, p: string)
    requires p in files && files[p].keep.Some? && Closed(files[p].keep.value)
    ensures p in Expired(files, now, delay)
    ensures Expired(files, now, delay)[p] == files[p].(deadline := now + delay, keep := None)
    ensures Expired(files, now, delay)[p].keep.None? && Expired(files, now, delay)[p].deadline == now + delay
  {
  }

  /** An entry without keep channel is removed exactly when its deadline is
      not after the pass, and is otherwise left as it is. */
  lemma DeadlineDecides(files: map<string, Entry>, now: int, delay: int, p: string)
    requires p in files && files[p].keep.None?
    ensures p !in Expired(files, now, delay) <==> files[p].deadline <= now
    ensures p in Expired(files, now, delay) ==> Expired(files, now, delay)[p] == files[p]
  {
  }

  /** Closing the keep channel of an entry gets the file removed: one pass
      sees the channel closed, and a pass `delay` or more later removes the
      entry, while a pass before then still keeps it. */
  lemma RemovedAfterKeepDelay(files: map<string, Entry>, now: int, later: int, delay: int, p: string)
    requires p in files && files[p].keep.Some? && Closed(files[p].keep.value)
    ensures var once := Expired(files, now, delay);
            Tables(once) <= Tables(files) &&
            (p !in Expired(once, later, delay) <==> later >= now + delay)
  {
    var once := Expired(files, now, delay);
    ClosedKeepRearms(files, now, delay, p);
    assert Tables(once) <= Tables(files) by {
      forall t | t in Tables(once)
        ensures t in Tables(files)
      {
        var q :| q in once && once[q].keep.Some? && once[q].keep.value.table == t;
        assert once[q] == ExpireEntry(files[q], now, delay).value;
      }
    }
    DeadlineDecides(once, later, delay, p);
  }

  class Registry {
    const config: Config
    var files: map<string, Entry>

    /** NewFileRegistry: no files, and the configuration with defaults. */
    constructor (config: Config)
      ensures this.config == WithDefaults(config) && files == map[]
    {
      this.config := WithDefaults(config);
      files := map[];
    }

    /** One add message of the run loop. */
    method Add(e: Entry)
      modifies this
      ensures files == Added(old(files), e)
    {
      if e.path in files {
        if e.keep.None? && files[e.path].keep.Some? {
          return;
        }
      }
      files := files[e.path := e];
    }

    /** RegisterFile: remove `path` once `deadline` has passed. */
    method RegisterFile(path: string, deadline: int)
      modifies this
      ensures files == Added(old(files), Entry(path, deadline, None))
    {
      Add(Entry(path, deadline, None));
    }

    /** KeepFile: keep `path` until `keep` is closed. */
    method KeepFile(path: string, keep: Handle)
      modifies this
      ensures files == Added(old(files), Entry(path, 0, Some(keep)))
    {
      Add(Entry(path, 0, Some(keep)));
    }

    /** expire: one tick of the run loop at time `now`. */
    method Expire(now: int)
      modifies this
      ensures files == Expired(old(files), now, config.keepDelay)
    {
      ghost var start := files;
      var todo := files.Keys;
      while todo != {}
        invariant todo <= start.Keys
        invariant files == Partly(start, todo, now, config.keepDelay)
        decreases todo
      {
        var p :| p in todo;
        assert p in files;
        var entry := files[p];
        PartlyStep(start, todo, now, config.keepDelay, p);
        if entry.keep.Some? {
          if entry.keep.value.id in entry.keep.value.table.closed {
            files := files[p := entry.(deadline := now + config.keepDelay, keep := None)];
          }
        } else if entry.deadline <= now {
          files := files - {p};
        }
        todo := todo - {p};
      }
      PartlyDone(start, now, config.keepDelay);
    }
  }

  /** The map partway through the expiry walk: the paths in `todo` are not
      visited yet, the others are decided. */
  ghost function Partly(start: map<string, Entry>, todo: set<string>, now: int, delay: int): map<string, Entry>
    reads Tables(start)
  {
    map p | p in start && (p in todo || ExpireEntry(start[p], now, delay).Some?) ::
      if p in todo then start[p] else ExpireEntry(start[p], now, delay).value
  }

  lemma PartlyStep(start: map<string, Entry>, todo: set<string>, now: int, delay: int, p: string)
    requires p in todo && todo <= start.Keys
    ensures var before := Partly(start, todo, now, delay);
            var after := Partly(start, todo - {p}, now, delay);
            p in before && before[p] == start[p] &&
            after == match ExpireEntry(start[p], now, delay)
                     case Some(e) => before[p := e]
                     case None => before - {p}
  {
  }

  lemma PartlyDone(start: map<string, Entry>, now: int, delay: int)
    ensures Partly(start, {}, now, delay) == Expired(start, now, delay)
  {
  }
}
