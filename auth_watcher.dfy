/** The ingest authoriser's watcher: it mirrors every stream's settings from
    the watch and grants an ingest when the application and the secret match
    the settings stored for the slug. */
module AuthWatch {
  import opened Wrappers
  import opened Watch
  import WatchEvents
  import GoStrings
  import ClientPath
  import Streams

  /** The settings table after handleStreamSettings: a put stores the
      decoded settings under the key's slug, a delete forgets the slug. */
  function SettingsAfter(m: map<string, Streams.Settings>, u: WatchEvents.Event,
                         decode: Bytes -> Option<Streams.Settings>): (r: map<string, Streams.Settings>)
    ensures u.kv.None? || ClientPath.ParseStreamName(u.kv.value.key) == "" ==> r == m
    ensures u.kv.Some? && u.kind.Put? && decode(u.kv.value.value).None? ==> r == m
    ensures forall slug :: slug in m && (u.kv.None? || slug != ClientPath.ParseStreamName(u.kv.value.key)) ==>
              slug in r && r[slug] == m[slug]
    ensures r.Keys <= m.Keys + (if u.kv.Some? then {ClientPath.ParseStreamName(u.kv.value.key)} else {})
  {
    if u.kv.None? then m
    else
      var name := ClientPath.ParseStreamName(u.kv.value.key);
      if name == "" then m
      else match u.kind
        case Put => (match decode(u.kv.value.value) case None => m case Some(s) => m[name := s])
        case Delete => m - {name}
  }

  /** Auth's answer for a settings table. */
  predicate Grants(settings: map<string, Streams.Settings>, app: string, slug: string, secret: string)
  {
    slug in settings && app == settings[slug].ingestType && secret == settings[slug].secret
  }

  /** The slug comes back out of a settings key. */
  lemma ParseStreamSettingsPath(n: string)
    requires GoStrings.IsName(n)
    ensures ClientPath.ParseStreamName(ClientPath.StreamSettingsPath(n)) == n
  {
    ClientPath.StreamSettingsPathSplit(n);
  }

  /** Settings put under a slug's settings key grant exactly their own
      ingest type and secret for that slug. */
  lemma PutGrants(m: map<string, Streams.Settings>, n: string, data: Bytes,
                  decode: Bytes -> Option<Streams.Settings>, app: string, secret: string)
    requires GoStrings.IsName(n) && decode(data).Some?
    ensures var r := SettingsAfter(m, WatchEvents.Event(Put, Some(KV(ClientPath.StreamSettingsPath(n), data))), decode);
            Grants(r, app, n, secret) <==>
              app == decode(data).value.ingestType && secret == decode(data).value.secret
  {
    ParseStreamSettingsPath(n);
  }

  /** Once a slug's settings are deleted, nothing is granted for it. */
  lemma DeleteRevokes(m: map<string, Streams.Settings>, n: string, data: Bytes,
                      decode: Bytes -> Option<Streams.Settings>, app: string, secret: string)
    requires GoStrings.IsName(n)
    ensures !Grants(SettingsAfter(m, WatchEvents.Event(Delete, Some(KV(ClientPath.StreamSettingsPath(n), data))), decode),
                    app, n, secret)
  {
    ParseStreamSettingsPath(n);
  }

  class Watcher {
    var settings: map<string, Streams.Settings>

    constructor ()
      ensures settings == map[]
    {
      settings := map[];
    }

    /** handleStreamSettings: a nil pair, a key without a slug and data
        that does not decode change nothing. */
    method HandleStreamSettings(u: WatchEvents.Event, decode: Bytes -> Option<Streams.Settings>)
      modifies this
      ensures settings == SettingsAfter(old(settings), u, decode)
    {
      if u.kv.None? {
        return;
      }
      var path := u.kv.value.key;
      var name := ClientPath.ParseStreamName(path);
      if name == "" {
        return;
      }
      match u.kind {
        case Put =>
          var s := decode(u.kv.value.value);
          if s.None? {
            return;
          }
          settings := settings[name := s.value];
        case Delete =>
          settings := settings - {name};
      }
    }

    /** Auth: false for an unknown slug; otherwise whether the application
        is the slug's ingest type and the secret its secret. */
    method Auth(app: string, slug: string, secret: string) returns (ok: bool)
      ensures ok == Grants(settings, app, slug, secret)
      ensures slug !in settings ==> !ok
    {
      if slug !in settings {
        return false;
      }
      var s := settings[slug];
      if app != s.ingestType || secret != s.secret {
        return false;
      }
      return true;
    }
  }
}
