/** The Icecast source scraper: the server's JSON status lists its mount
    points under icestats.source, as a list or, when there is only one, as
    a single object; each becomes a stream in Matroska format named after
    the last element of its listen URL. The HTTP request is not modelled:
    the scraper starts from the decoded document. */
module Icecast {
  import opened Wrappers
  import opened Json
  import GoStrings
  import Streams

  /** One mount point as the status page reports it; the start time is in
      Unix seconds. */
  datatype IcecastStream = IcecastStream(listeners: int, listenerPeak: int, serverType: string,
                                         streamStart: int, url: string)

  datatype ParseError =
    | NotJson      // the body is not JSON at all
    | BadStats     // the document or its icestats member is not an object
    | BadStream    // source is neither a list of streams nor a single stream

  /** The document's icestats.source member, None when it is missing. A
      null document or a null icestats reads as a missing one. */
  function StatsSource(doc: Value): (r: Result<Option<Value>, ParseError>)
    ensures r == Ok(None) <==>
              doc.JNull? ||
              (doc.JObj? && ("icestats" !in doc.fields || doc.fields["icestats"].JNull? ||
                             (doc.fields["icestats"].JObj? && "source" !in doc.fields["icestats"].fields)))
  {
    match doc
    case JNull => Ok(None)
    case JObj(f) =>
      if "icestats" !in f then Ok(None)
      else
        (match f["icestats"]
         case JNull => Ok(None)
         case JObj(g) => Ok(if "source" in g then Some(g["source"]) else None)
         case _ => Err(BadStats))
    case _ => Err(BadStats)
  }

  /** Every element decodes as a stream. */
  predicate AllDecode(items: seq<Value>, decode: Value -> Option<IcecastStream>)
  {
    forall i :: 0 <= i < |items| ==> decode(items[i]).Some?
  }

  /** parse: `doc` is the body as decoded JSON (None when it is not JSON);
      `decode` stands for json.Unmarshal of one stream object, start time
      included. The source is read as a list first, then as one stream. */
  function Parse(doc: Option<Value>, decode: Value -> Option<IcecastStream>)
    : (r: Result<seq<IcecastStream>, ParseError>)
    ensures doc.None? ==> r == Err(NotJson)
    ensures doc.Some? && StatsSource(doc.value) == Ok(None) ==> r == Ok([])
    ensures r.Ok? && doc.Some? && StatsSource(doc.value).Ok? && StatsSource(doc.value).value.Some? ==>
              var src := StatsSource(doc.value).value.value;
              (src.JArr? ==> |r.value| == |src.items| &&
                             forall i :: 0 <= i < |src.items| ==> Some(r.value[i]) == decode(src.items[i])) &&
              (src.JObj? ==> |r.value| == 1 && Some(r.value[0]) == decode(src))
  {
    if doc.None? then Err(NotJson)
    else
      match StatsSource(doc.value)
      case Err(e) => Err(e)
      case Ok(None) => Ok([])
      case Ok(Some(src)) =>
        match src
        case JNull => Ok([])
        case JArr(items) =>
          if AllDecode(items, decode) then Ok(seq(|items|, i requires 0 <= i < |items| => decode(items[i]).value))
          else Err(BadStream)
        case JObj(_) => (match decode(src) case Some(s) => Ok([s]) case None => Err(BadStream))
        case _ => Err(BadStream)
  }

  /** A status document whose icestats holds `source`. */
  function StatusWith(source: Value): Value
  {
    JObj(map["icestats" := JObj(map["source" := source])])
  }

  /** A single stream object and a list holding just that object parse to
      the same one-element list. */
  lemma SingleOrList(o: Value, decode: Value -> Option<IcecastStream>)
    requires o.JObj?
    ensures Parse(Some(StatusWith(o)), decode) == Parse(Some(StatusWith(JArr([o]))), decode)
    ensures Parse(Some(StatusWith(o)), decode).Ok? <==> decode(o).Some?
  {
    if decode(o).Some? {
      var r := Parse(Some(StatusWith(JArr([o]))), decode);
      assert AllDecode([o], decode);
      assert r.Ok? && |r.value| == 1 && r.value[0] == decode(o).value;
      assert r.value == [decode(o).value];
    } else {
      assert !AllDecode([o], decode) by {
        assert [o][0] == o;
      }
    }
  }

  /** One bad element fails the whole list. */
  lemma BadElementFailsList(items: seq<Value>, decode: Value -> Option<IcecastStream>, k: nat)
    requires k < |items| && decode(items[k]).None?
    ensures Parse(Some(StatusWith(JArr(items))), decode) == Err(BadStream)
  {
  }

  /** mapStreams: one stream per mount point, in order, in Matroska format,
      with the listen URL as source and its last element as slug; the
      publish time is left unset. */
  function MapStreams(ice: seq<IcecastStream>): (r: seq<Streams.Stream>)
    ensures |r| == |ice|
    ensures forall i :: 0 <= i < |ice| ==>
              r[i] == Streams.Stream("matroska", ice[i].url, GoStrings.Base(ice[i].url), 0)
  {
    seq(|ice|, i requires 0 <= i < |ice| => Streams.Stream("matroska", ice[i].url, GoStrings.Base(ice[i].url), 0))
  }

  /** The slug of a mount point at "<dir>/<name>" is `name`. */
  lemma SlugIsMountName(ice: seq<IcecastStream>, i: nat, dir: string, name: string)
    requires i < |ice| && ice[i].url == dir + "/" + name
    requires name != "" && '/' !in name
    ensures MapStreams(ice)[i].slug == name
  {
    var url := dir + "/" + name;
    assert url == dir + ['/'] + name;
    assert url[|url| - 1] == name[|name| - 1];
    assert GoStrings.TrimTrailingSlashes(url) == url;
    GoStrings.SplitAround(dir, name, '/');
    GoStrings.SplitNoSep(name, '/');
  }

  /** Scrape after the request: parse, then map. */
  function Scrape(doc: Option<Value>, decode: Value -> Option<IcecastStream>)
    : (r: Result<seq<Streams.Stream>, ParseError>)
    ensures r.Ok? <==> Parse(doc, decode).Ok?
    ensures r.Ok? ==> |r.value| == |Parse(doc, decode).value| &&
                      forall i :: 0 <= i < |r.value| ==> r.value[i].source == Parse(doc, decode).value[i].url
  {
    match Parse(doc, decode)
    case Err(e) => Err(e)
    case Ok(ice) => Ok(MapStreams(ice))
  }
}
