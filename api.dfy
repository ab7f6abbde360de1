/** The constants both network paths share (the integration's domain, its
    polling interval and the two endpoint templates) and the shape of an
    outgoing GET request. */
module Api {
  import Text

  const Domain: string := "donutsmpha"

  /** Seconds between two polls. */
  const ScanInterval: nat := 60

  /** Endpoint templates; `{}` is replaced by the player name. */
  const ApiStatsUrl: string := "https://api.donutsmp.net/v1/stats/{}"
  const ApiLookupUrl: string := "https://api.donutsmp.net/v1/lookup/{}"

  /** The part of each template before its replacement field. */
  const StatsBase: string := "https://api.donutsmp.net/v1/stats/"
  const LookupBase: string := "https://api.donutsmp.net/v1/lookup/"

  /** An HTTP GET: the URL and the headers sent with it. */
  datatype Request = Request(url: string, headers: map<string, string>)

  lemma NoBrace(s: string)
    requires s == LookupBase || s == StatsBase
    ensures forall i :: 0 <= i < |s| ==> s[i] != '{'
  {
  }

  /** Formatting the lookup template appends the player name to the
      lookup base, whatever characters the name holds. */
  lemma LookupUrlFormat(username: string)
    ensures Text.Format(ApiLookupUrl, username) == LookupBase + username
  {
    NoBrace(LookupBase);
    Text.FormatAt(LookupBase, [], username);
    assert ApiLookupUrl == LookupBase + "{}" + [];
    assert LookupBase + username + [] == LookupBase + username;
  }

  /** Formatting the stats template appends the player name to the stats
      base. */
  lemma StatsUrlFormat(username: string)
    ensures Text.Format(ApiStatsUrl, username) == StatsBase + username
  {
    NoBrace(StatsBase);
    Text.FormatAt(StatsBase, [], username);
    assert ApiStatsUrl == StatsBase + "{}" + [];
    assert StatsBase + username + [] == StatsBase + username;
  }

  /** No lookup URL is a stats URL: the two endpoints never coincide,
      whichever names are appended. */
  lemma EndpointsDiffer(u: string, v: string)
    ensures LookupBase + u != StatsBase + v
  {
    assert (LookupBase + u)[28] == 'l';
    assert (StatsBase + v)[28] == 's';
  }
}
