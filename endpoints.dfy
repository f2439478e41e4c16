/**
 * The two URL templates of the view, and for each a reader that takes the
 * URL apart again.  Neither template encodes what it interpolates.
 */
module Endpoints {

  import opened Common
  import opened WeatherModel

  const WeatherEndpoint: string := "https://api.openweathermap.org/data/2.5/weather"
  const QueryPrefix: string := WeatherEndpoint + "?q="
  const IconBase: string := "https://openweathermap.org/img/wn/"
  const IconSuffix: string := ".png"

  /** A template literal interpolates a missing environment variable as the text "undefined". */
  function CredentialText(apiKey: Option<string>): (text: string)
    ensures apiKey.Some? ==> text == apiKey.value
  {
    match apiKey
    case Some(k) => k
    case None => "undefined"
  }

  /** The current-conditions request: the endpoint, then city, unit and credential spliced in verbatim. */
  function RequestUrl(city: string, unit: Unit, apiKey: Option<string>): (url: string)
    ensures StartsWith(url, QueryPrefix) && url[|QueryPrefix|..] == QueryString(city, unit, apiKey)
  {
    SplitAtPrefix(QueryPrefix, QueryString(city, unit, apiKey));
    QueryPrefix + QueryString(city, unit, apiKey)
  }

  /** What follows `?q=` in the request URL: the city as typed, then the units and appid fields. */
  function QueryString(city: string, unit: Unit, apiKey: Option<string>): (q: string)
    ensures |city| < |q| && q[..|city|] == city
    ensures q[|city|..] == "&" + UnitsField(unit) + "&" + AppidField(apiKey)
  {
    SplitAtPrefix(city, "&" + UnitsField(unit) + "&" + AppidField(apiKey));
    assert QueryOf(city, UnitName(unit), CredentialText(apiKey)) == city + ("&" + UnitsField(unit) + "&" + AppidField(apiKey));
    QueryOf(city, UnitName(unit), CredentialText(apiKey))
  }

  function UnitsField(unit: Unit): string {
    "units=" + UnitName(unit)
  }

  function AppidField(apiKey: Option<string>): string {
    "appid=" + CredentialText(apiKey)
  }

  /** A concatenation splits back at the length of its left part. */
  lemma SplitAtPrefix(prefix: string, rest: string)
    ensures (prefix + rest)[..|prefix|] == prefix && (prefix + rest)[|prefix|..] == rest
  {
  }

  /** The three query parameters of a request URL, undecoded. */
  datatype Query = Query(q: string, units: string, appid: string)

  /** Splits `s` at every occurrence of `d`. */
  function SplitOn(s: string, d: char): (parts: seq<string>)
    ensures |parts| >= 1
  {
    if s == [] then [""]
    else
      var rest := SplitOn(s[1..], d);
      if s[0] == d then [""] + rest else [[s[0]] + rest[0]] + rest[1..]
  }

  /** There is one more field than there are delimiters. */
  lemma {:induction false} SplitOnCount(s: string, d: char)
    ensures |SplitOn(s, d)| == 1 + multiset(s)[d]
  {
    if s != [] {
      SplitOnCount(s[1..], d);
      assert s == [s[0]] + s[1..];
    }
  }

  lemma {:induction false} SplitOnNoDelimiter(a: string, d: char)
    requires d !in a
    ensures SplitOn(a, d) == [a]
  {
    if a != [] {
      SplitOnNoDelimiter(a[1..], d);
      assert [a[0]] + a[1..] == a;
    }
  }

  /** A field free of the delimiter is split off whole. */
  lemma {:induction false} SplitOnField(a: string, d: char, b: string)
    requires d !in a
    ensures SplitOn(a + [d] + b, d) == [a] + SplitOn(b, d)
  {
    var s := a + [d] + b;
    if a == [] {
      assert s == [d] + b;
      assert s[1..] == b;
    } else {
      assert s[1..] == a[1..] + [d] + b;
      SplitOnField(a[1..], d, b);
      assert [a[0]] + a[1..] == a;
    }
  }

  function StartsWith(s: string, prefix: string): bool {
    |prefix| <= |s| && s[..|prefix|] == prefix
  }

  /** The part of `s` before its first '#', where a URL's fragment begins. */
  function BeforeFragment(s: string): (r: string)
    ensures |r| <= |s| && r == s[..|r|] && '#' !in r
    ensures '#' !in s ==> r == s
    ensures |r| < |s| ==> s[|r|] == '#'
  {
    if s == [] || s[0] == '#' then []
    else
      var r := BeforeFragment(s[1..]);
      assert s == [s[0]] + s[1..];
      [s[0]] + r
  }

  /**
   * Reads a URL of the request's shape as a server sees it: the endpoint,
   * then the query up to the fragment, which must be exactly the fields q,
   * units and appid separated by '&'.  Percent-escapes and '+' are left
   * undecoded.
   */
  function ParseRequest(url: string): (r: Option<Query>)
    ensures r.Some? ==> StartsWith(url, QueryPrefix)
  {
    if StartsWith(url, QueryPrefix) then ParseFields(SplitOn(BeforeFragment(url[|QueryPrefix|..]), '&')) else None
  }

  function ParseFields(fields: seq<string>): Option<Query> {
    if |fields| == 3 && StartsWith(fields[1], "units=") && StartsWith(fields[2], "appid=")
    then Some(Query(fields[0], fields[1][6..], fields[2][6..]))
    else None
  }

  /** Puts split fields back together. */
  function Join(parts: seq<string>, d: char): string
    requires |parts| >= 1
  {
    if |parts| == 1 then parts[0] else parts[0] + [d] + Join(parts[1..], d)
  }

  /** Joining the fields at the delimiter gives back the split string. */
  lemma {:induction false} JoinSplitOn(s: string, d: char)
    ensures Join(SplitOn(s, d), d) == s
  {
    if s != [] {
      var rest := SplitOn(s[1..], d);
      JoinSplitOn(s[1..], d);
      assert s == [s[0]] + s[1..];
      if s[0] == d {
        assert ([""] + rest)[1..] == rest;
      } else {
        var parts := [[s[0]] + rest[0]] + rest[1..];
        if |rest| > 1 {
          assert parts[1..] == rest[1..];
        }
      }
    }
  }

  lemma JoinThreeLength(parts: seq<string>, d: char)
    requires |parts| == 3
    ensures |Join(parts, d)| == |parts[0]| + |parts[1]| + |parts[2]| + 2
  {
    assert parts[1..][1..] == [parts[2]];
    assert Join(parts[1..], d) == parts[1] + [d] + parts[2];
  }

  /**
   * The request URL carries city, unit and credential back out exactly when
   * neither the city nor the credential contains '&' or '#': nothing is
   * encoded, so a '&' typed into the city field splits the query string and
   * a '#' cuts it off.
   */
  lemma RequestUrlRoundTrip(city: string, unit: Unit, apiKey: Option<string>)
    ensures ParseRequest(RequestUrl(city, unit, apiKey)) == Some(Query(city, UnitName(unit), CredentialText(apiKey)))
        <==> '&' !in city && '#' !in city && '&' !in CredentialText(apiKey) && '#' !in CredentialText(apiKey)
  {
    var rest := QueryString(city, unit, apiKey);
    assert ParseRequest(RequestUrl(city, unit, apiKey)) == ParseFields(SplitOn(BeforeFragment(rest), '&'));
    QueryStringRoundTrip(city, UnitName(unit), CredentialText(apiKey));
  }

  /** The query string for a unit given by its name. */
  function QueryOf(city: string, unitName: string, key: string): string {
    city + "&" + ("units=" + unitName) + "&" + ("appid=" + key)
  }

  /** The query-string half of the round trip, for any unit name free of '&' and '#'. */
  lemma QueryStringRoundTrip(city: string, unitName: string, key: string)
    requires '&' !in unitName && '#' !in unitName
    ensures ParseFields(SplitOn(BeforeFragment(QueryOf(city, unitName, key)), '&')) == Some(Query(city, unitName, key))
        <==> '&' !in city && '#' !in city && '&' !in key && '#' !in key
  {
    if '&' !in city && '#' !in city && '&' !in key && '#' !in key {
      QueryCount(city, unitName, key, '#');
      QueryStringFields(city, unitName, key);
    } else if ParseFields(SplitOn(BeforeFragment(QueryOf(city, unitName, key)), '&')) == Some(Query(city, unitName, key)) {
      QueryStringReadBack(city, unitName, key);
    }
  }

  /** How often a delimiter occurs in the query string. */
  lemma QueryCount(city: string, unitName: string, key: string, c: char)
    requires c == '&' || c == '#'
    requires c !in unitName
    ensures multiset(QueryOf(city, unitName, key))[c] == multiset(city)[c] + multiset(key)[c] + (if c == '&' then 2 else 0)
  {
    assert multiset("units=")[c] == 0 && multiset("appid=")[c] == 0;
    assert multiset("&")[c] == if c == '&' then 1 else 0;
  }

  lemma QueryStringFields(city: string, unitName: string, key: string)
    requires '&' !in unitName && '&' !in city && '&' !in key
    requires '#' !in QueryOf(city, unitName, key)
    ensures ParseFields(SplitOn(BeforeFragment(QueryOf(city, unitName, key)), '&')) == Some(Query(city, unitName, key))
  {
    var units := "units=" + unitName;
    var appid := "appid=" + key;
    assert BeforeFragment(QueryOf(city, unitName, key)) == city + "&" + units + "&" + appid;
    var fields := SplitOn(city + "&" + units + "&" + appid, '&');
    assert fields == [city, units, appid] by {
      assert city + "&" + units + "&" + appid == city + ['&'] + (units + ['&'] + appid);
      assert '&' !in units && '&' !in appid;
      QueryFieldsSplit(city, units, appid);
    }
    assert StartsWith(units, "units=") && units[6..] == unitName;
    assert StartsWith(appid, "appid=") && appid[6..] == key;
  }

  /** A query string that reads back as its own city, unit and key has no '&' or '#' in city or key. */
  lemma QueryStringReadBack(city: string, unitName: string, key: string)
    requires '&' !in unitName && '#' !in unitName
    requires ParseFields(SplitOn(BeforeFragment(QueryOf(city, unitName, key)), '&')) == Some(Query(city, unitName, key))
    ensures '&' !in city && '#' !in city && '&' !in key && '#' !in key
  {
    var rest := QueryOf(city, unitName, key);
    assert BeforeFragment(rest) == rest by {
      ReadBackIsWhole(rest, city, unitName, key);
    }
    QueryCount(city, unitName, key, '#');
    QueryCount(city, unitName, key, '&');
    SplitOnCount(rest, '&');
  }

  /** A fragment cut would make the fields too short to read back whole. */
  lemma ReadBackIsWhole(rest: string, city: string, unitName: string, key: string)
    requires |rest| == |city| + |unitName| + |key| + 14
    requires ParseFields(SplitOn(BeforeFragment(rest), '&')) == Some(Query(city, unitName, key))
    ensures BeforeFragment(rest) == rest
  {
    var b := BeforeFragment(rest);
    var fields := SplitOn(b, '&');
    assert |fields| == 3 && fields[0] == city;
    assert |fields[1]| == 6 + |unitName| && |fields[2]| == 6 + |key|;
    JoinSplitOn(b, '&');
    JoinThreeLength(fields, '&');
  }

  lemma QueryFieldsSplit(a: string, b: string, c: string)
    requires '&' !in a && '&' !in b && '&' !in c
    ensures SplitOn(a + ['&'] + (b + ['&'] + c), '&') == [a, b, c]
  {
    SplitOnField(a, '&', b + ['&'] + c);
    SplitOnField(b, '&', c);
    SplitOnNoDelimiter(c, '&');
  }

  /** The icon image for an icon identifier. */
  function IconUrl(icon: string): (url: string)
    ensures IconIdOf(url) == Some(icon)
  {
    var url := IconBase + icon + IconSuffix;
    assert url[..|IconBase|] == IconBase;
    assert url[|url| - |IconSuffix|..] == IconSuffix;
    assert url[|IconBase|..|url| - |IconSuffix|] == icon;
    url
  }

  /** Reads the icon identifier back out of an icon URL. */
  function IconIdOf(url: string): Option<string> {
    if |url| >= |IconBase| + |IconSuffix| && url[..|IconBase|] == IconBase && url[|url| - |IconSuffix|..] == IconSuffix
    then Some(url[|IconBase|..|url| - |IconSuffix|])
    else None
  }

}
