/** The log receiver's anonymised client type: a user agent is reduced to
    the first browser or player family whose marker it contains, tried in
    a fixed order, with Safari last since other HLS players also claim it. */
module UserAgent {
  import GoStrings

  datatype ClientType = Chrome | Firefox | Safari | MPV | VLC | FFmpeg | Other
  {
    /** The label the metrics carry. */
    function Label(): (s: string)
    {
      match this
      case Chrome => "chrome"
      case Firefox => "firefox"
      case Safari => "safari"
      case MPV => "mpv"
      case VLC => "vlc"
      case FFmpeg => "ffmpeg"
      case Other => "other"
    }
  }

  /** Different client types carry different labels. */
  lemma LabelsDistinct(a: ClientType, b: ClientType)
    requires a != b
    ensures a.Label() != b.Label()
  {
  }

  /** The markers in the order they are tried, with the type each selects. */
  const Rules: seq<(string, ClientType)> :=
    [("Chrome", Chrome), ("Firefox", Firefox), ("libmpv", MPV), ("VLC", VLC), ("Lavf", FFmpeg), ("Safari", Safari)]

  /** ParseUserAgent: an empty agent is Other; otherwise the markers are
      tried in the order of Rules. */
  function ParseUserAgent(userAgent: string): (c: ClientType)
  {
    if userAgent == "" then Other
    else if GoStrings.Contains(userAgent, "Chrome") then Chrome
    else if GoStrings.Contains(userAgent, "Firefox") then Firefox
    else if GoStrings.Contains(userAgent, "libmpv") then MPV
    else if GoStrings.Contains(userAgent, "VLC") then VLC
    else if GoStrings.Contains(userAgent, "Lavf") then FFmpeg
    else if GoStrings.Contains(userAgent, "Safari") then Safari
    else Other
  }

  /** A marker is only ever found in a non-empty agent. */
  lemma {:induction false} ContainsNonEmpty(s: string, sub: string)
    requires sub != "" && GoStrings.Contains(s, sub)
    ensures s != ""
  {
  }

  /** The first rule whose marker the agent contains decides its type; an
      agent containing none of them is Other. */
  lemma FirstHitWins(userAgent: string, k: nat)
    requires k < |Rules|
    ensures ParseUserAgent(userAgent) == Rules[k].1 <==>
              GoStrings.Contains(userAgent, Rules[k].0) &&
              forall j :: 0 <= j < k ==> !GoStrings.Contains(userAgent, Rules[j].0)
    ensures ParseUserAgent(userAgent) == Other <==>
              forall j :: 0 <= j < |Rules| ==> !GoStrings.Contains(userAgent, Rules[j].0)
  {
    var found := seq(|Rules|, j requires 0 <= j < |Rules| => GoStrings.Contains(userAgent, Rules[j].0));
    if userAgent == "" {
      forall j | 0 <= j < |Rules|
        ensures !found[j]
      {
        if found[j] {
          ContainsNonEmpty(userAgent, Rules[j].0);
        }
      }
    }
    assert ParseUserAgent(userAgent) ==
             if found[0] then Chrome else if found[1] then Firefox else if found[2] then MPV
             else if found[3] then VLC else if found[4] then FFmpeg else if found[5] then Safari else Other;
    assert (forall j :: 0 <= j < k ==> !found[j]) ==> forall j :: 0 <= j < k ==> !GoStrings.Contains(userAgent, Rules[j].0);
  }

  /** An agent naming both Chrome and Safari, as Chrome's own does, is
      counted as Chrome. */
  lemma ChromeBeforeSafari(userAgent: string)
    requires GoStrings.Contains(userAgent, "Chrome") && GoStrings.Contains(userAgent, "Safari")
    ensures ParseUserAgent(userAgent) == Chrome
  {
    FirstHitWins(userAgent, 0);
  }
}
