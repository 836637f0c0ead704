/**
 * `RoadProvider.getUrl`: the Google Maps directions request for a route
 * between two points, asked for in KML.
 *
 * `Double.toString` is a parameter `fmt`, about which nothing is assumed;
 * the interface language is a parameter instead of being read from the
 * device configuration.
 */
module RoadProvider {

  /** The part of the URL before its first '&'. */
  const HOST: string := "http://maps.google.com/maps?f=d"
  /** The five literal pieces `getUrl` appends, each written here as its
      '&'-separated fields: `http://maps.google.com/maps?f=d&hl=`, `&saddr=`,
      `,`, `&daddr=` and `&ie=UTF8&0&om=0&output=kml`. */
  const URL_PREFIX: string := HOST + "&" + "hl="
  const FROM_KEY: string := "&" + "saddr="
  const TO_KEY: string := "&" + "daddr="
  const COORDINATE_SEPARATOR: string := ","
  const URL_SUFFIX: string := "&" + "ie=UTF8" + "&" + "0" + "&" + "om=0" + "&" + "output=kml"

  /** "lat,lon" as the URL spells a point. */
  function CoordinatePair(fmt: real -> string, lat: real, lon: real): string {
    fmt(lat) + COORDINATE_SEPARATOR + fmt(lon)
  }

  /** The directions URL: the eleven pieces `getUrl` appends, in order. */
  function RouteUrl(fromLat: real, fromLon: real, toLat: real, toLon: real, language: string, fmt: real -> string)
    : string
  {
    URL_PREFIX + language + FROM_KEY + fmt(fromLat) + COORDINATE_SEPARATOR + fmt(fromLon) +
      TO_KEY + fmt(toLat) + COORDINATE_SEPARATOR + fmt(toLon) + URL_SUFFIX
  }

  /** `getUrl`, appending to the builder piece by piece as the source does. */
  method GetUrl(fromLat: real, fromLon: real, toLat: real, toLon: real, language: string, fmt: real -> string)
    returns (url: string)
    ensures url == RouteUrl(fromLat, fromLon, toLat, toLon, language, fmt)
    ensures |url| == |URL_PREFIX| + |language| + |FROM_KEY| + |fmt(fromLat)| + |COORDINATE_SEPARATOR| +
      |fmt(fromLon)| + |TO_KEY| + |fmt(toLat)| + |COORDINATE_SEPARATOR| + |fmt(toLon)| + |URL_SUFFIX|
  {
    var urlString := "";
    urlString := urlString + URL_PREFIX;
    urlString := urlString + language;
    urlString := urlString + FROM_KEY;
    urlString := urlString + fmt(fromLat);
    urlString := urlString + COORDINATE_SEPARATOR;
    urlString := urlString + fmt(fromLon);
    urlString := urlString + TO_KEY;
    urlString := urlString + fmt(toLat);
    urlString := urlString + COORDINATE_SEPARATOR;
    urlString := urlString + fmt(toLon);
    urlString := urlString + URL_SUFFIX;
    assert "" + URL_PREFIX == URL_PREFIX;
    url := urlString;
  }

  // --- Regrouping strings ------------------------------------------------------

  lemma Regroup(a: string, b: string, c: string)
    ensures a + b + c == a + (b + c)
  {
  }

  /** The URL as seven parts: prefix, language, key, point, key, point, suffix. */
  lemma RouteUrlParts(fromLat: real, fromLon: real, toLat: real, toLon: real, language: string, fmt: real -> string)
    ensures RouteUrl(fromLat, fromLon, toLat, toLon, language, fmt) ==
      URL_PREFIX + language + FROM_KEY + CoordinatePair(fmt, fromLat, fromLon) +
        TO_KEY + CoordinatePair(fmt, toLat, toLon) + URL_SUFFIX
  {
    RegroupPoints(URL_PREFIX + language + FROM_KEY, fmt(fromLat), COORDINATE_SEPARATOR, fmt(fromLon),
                  TO_KEY, fmt(toLat), fmt(toLon), URL_SUFFIX);
  }

  lemma RegroupPoints(head: string, f1: string, c: string, f2: string, tk: string, t1: string, t2: string, s: string)
    ensures head + f1 + c + f2 + tk + t1 + c + t2 + s == head + (f1 + c + f2) + tk + (t1 + c + t2) + s
  {
    Regroup(head, f1 + c, f2);
    Regroup(head, f1, c);
    var u := head + (f1 + c + f2) + tk;
    Regroup(u, t1 + c, t2);
    Regroup(u, t1, c);
  }

  // --- Where each part sits ---------------------------------------------------

  lemma Halves(a: string, b: string)
    ensures (a + b)[..|a|] == a && (a + b)[|a|..] == b
  {
  }

  /** Where each of seven concatenated parts sits. */
  lemma PartsLayout(a: string, b: string, c: string, d: string, e: string, f: string, g: string)
    ensures var u := a + b + c + d + e + f + g;
      var o1 := |a| + |b|;
      var o2 := o1 + |c| + |d|;
      var o3 := o2 + |e| + |f|;
      |u| == o3 + |g| &&
      u[..|a|] == a && u[|a|..o1] == b && u[o1..o1 + |c|] == c && u[o1 + |c|..o2] == d &&
      u[o2..o2 + |e|] == e && u[o2 + |e|..o3] == f && u[o3..] == g
  {
    var u1 := a + b;
    var u2 := u1 + c;
    var u3 := u2 + d;
    var u4 := u3 + e;
    var u5 := u4 + f;
    var u := u5 + g;
    Halves(u5, g);
    Halves(u4, f);
    Halves(u3, e);
    Halves(u2, d);
    Halves(u1, c);
    Halves(a, b);
    assert u[..|u5|] == u5;
    assert u[|u4|..|u5|] == u5[|u4|..];
    assert u[|u3|..|u4|] == u4[|u3|..];
    assert u[|u2|..|u3|] == u3[|u2|..];
    assert u[|u1|..|u2|] == u2[|u1|..];
    assert u[|a|..|u1|] == u1[|a|..];
    assert u[..|a|] == u1[..|a|];
  }

  /** The URL opens with the fixed prefix ending in `hl=`, carries the
      language verbatim right after it, then `&saddr=` and the starting
      point, then `&daddr=` and the destination, and closes with the fixed
      suffix asking for KML. */
  lemma UrlLayout(fromLat: real, fromLon: real, toLat: real, toLon: real, language: string, fmt: real -> string)
    ensures var url := RouteUrl(fromLat, fromLon, toLat, toLon, language, fmt);
      var from, to := CoordinatePair(fmt, fromLat, fromLon), CoordinatePair(fmt, toLat, toLon);
      var o1 := |URL_PREFIX| + |language|;
      var o2 := o1 + |FROM_KEY| + |from|;
      var o3 := o2 + |TO_KEY| + |to|;
      |url| == o3 + |URL_SUFFIX| &&
      url[..|URL_PREFIX|] == URL_PREFIX &&
      url[|URL_PREFIX|..o1] == language &&
      url[o1..o1 + |FROM_KEY|] == FROM_KEY &&
      url[o1 + |FROM_KEY|..o2] == from &&
      url[o2..o2 + |TO_KEY|] == TO_KEY &&
      url[o2 + |TO_KEY|..o3] == to &&
      url[o3..] == URL_SUFFIX
  {
    RouteUrlParts(fromLat, fromLon, toLat, toLon, language, fmt);
    PartsLayout(URL_PREFIX, language, FROM_KEY, CoordinatePair(fmt, fromLat, fromLon),
                TO_KEY, CoordinatePair(fmt, toLat, toLon), URL_SUFFIX);
  }

  // --- Reading the query back -------------------------------------------------

  /** Splits a string at every '&'. */
  function SplitFields(s: string): (fields: seq<string>)
    ensures |fields| >= 1
  {
    if s == [] then [""]
    else
      var rest := SplitFields(s[1..]);
      if s[0] == '&' then [""] + rest else [[s[0]] + rest[0]] + rest[1..]
  }

  /** Joins fields with '&' between them. */
  function JoinFields(fields: seq<string>): string
    requires |fields| >= 1
  {
    if |fields| == 1 then fields[0] else fields[0] + "&" + JoinFields(fields[1..])
  }

  lemma {:induction false} SplitFieldsPrefix(a: string, b: string)
    requires '&' !in a
    ensures SplitFields(a + b) == [a + SplitFields(b)[0]] + SplitFields(b)[1..]
  {
    if a != [] {
      assert (a + b)[1..] == a[1..] + b;
      SplitFieldsPrefix(a[1..], b);
      assert [a[0]] + (a[1..] + SplitFields(b)[0]) == a + SplitFields(b)[0];
    } else {
      assert a + b == b;
      var f := SplitFields(b);
      assert a + f[0] == f[0];
      assert [f[0]] + f[1..] == f;
    }
  }

  /** Splitting at '&' undoes joining with '&', when no field holds one. */
  lemma {:induction false} SplitJoinRoundTrip(fields: seq<string>)
    requires |fields| >= 1
    requires forall i :: 0 <= i < |fields| ==> '&' !in fields[i]
    ensures SplitFields(JoinFields(fields)) == fields
  {
    if |fields| == 1 {
      SplitFieldsPrefix(fields[0], "");
      assert fields[0] + "" == fields[0];
    } else {
      var tail := JoinFields(fields[1..]);
      SplitJoinRoundTrip(fields[1..]);
      assert fields[0] + "&" + tail == fields[0] + ("&" + tail);
      SplitFieldsPrefix(fields[0], "&" + tail);
      assert ("&" + tail)[1..] == tail;
      assert fields[0] + "" == fields[0];
      assert fields == [fields[0]] + fields[1..];
    }
  }

  lemma JoinCons(field: string, rest: seq<string>)
    requires |rest| >= 1
    ensures JoinFields([field] + rest) == field + "&" + JoinFields(rest)
  {
    assert ([field] + rest)[1..] == rest;
  }

  /** The fields of the suffix after its first '&'. */
  const FIXED_FIELDS: seq<string> := ["ie=UTF8", "0", "om=0", "output=kml"]

  /** The literal pieces, with their '&' separated out. */
  lemma LiteralPieces()
    ensures URL_PREFIX == HOST + ("&" + "hl=")
    ensures FROM_KEY == "&" + "saddr=" && TO_KEY == "&" + "daddr="
    ensures URL_SUFFIX == "&" + JoinFields(FIXED_FIELDS)
  {
    Regroup(HOST, "&", "hl=");
    assert JoinFields(["output=kml"]) == "output=kml";
    JoinCons("om=0", ["output=kml"]);
    assert ["om=0"] + ["output=kml"] == ["om=0", "output=kml"];
    JoinCons("0", ["om=0", "output=kml"]);
    assert ["0"] + ["om=0", "output=kml"] == ["0", "om=0", "output=kml"];
    JoinCons("ie=UTF8", ["0", "om=0", "output=kml"]);
    assert ["ie=UTF8"] + ["0", "om=0", "output=kml"] == FIXED_FIELDS;
    Flatten("&", "ie=UTF8", "&", "0", "&", "om=0", "&", "output=kml");
  }

  /** A field `key + value` after an '&', with its key taking the '&'. */
  lemma AmpersandField(key: string, value: string, rest: seq<string>)
    requires |rest| >= 1
    ensures "&" + JoinFields([key + value] + rest) == ("&" + key) + value + ("&" + JoinFields(rest))
  {
    JoinCons(key + value, rest);
    var j := JoinFields(rest);
    Regroup(key + value, "&", j);
    Regroup("&", key + value, "&" + j);
    Regroup("&", key, value);
    Regroup("&" + key, value, "&" + j);
  }

  /** Right-nested parts flattened back to the left-to-right order of the URL. */
  lemma Flatten(p: string, h: string, l: string, k1: string, x: string, k2: string, y: string, s: string)
    ensures p + (h + l + (k1 + x + (k2 + y + s))) == p + h + l + k1 + x + k2 + y + s
  {
    var a := k2 + y + s;
    var b := k1 + x + a;
    Regroup(p, h + l, b);
    Regroup(p, h, l);
    Regroup(p + h + l, k1 + x, a);
    Regroup(p + h + l, k1, x);
    Regroup(p + h + l + k1 + x, k2 + y, s);
    Regroup(p + h + l + k1 + x, k2, y);
  }

  lemma Nest(a: string, b: string, c: string, d: string, rest: seq<string>)
    ensures [a, b, c, d] + rest == [a] + ([b] + ([c] + ([d] + rest)))
  {
  }

  /** Joining four leading fields onto a fixed tail, regrouped as the URL is built. */
  lemma JoinQuery(host: string, hl: string, sa: string, da: string, lang: string, from: string, to: string,
                  fixed: seq<string>)
    requires |fixed| >= 1
    ensures JoinFields([host, hl + lang, sa + from, da + to] + fixed) ==
      host + ("&" + hl) + lang + ("&" + sa) + from + ("&" + da) + to + ("&" + JoinFields(fixed))
  {
    var f3 := [da + to] + fixed;
    var f2 := [sa + from] + f3;
    var f1 := [hl + lang] + f2;
    Nest(host, hl + lang, sa + from, da + to, fixed);
    AmpersandField(da, to, fixed);
    AmpersandField(sa, from, f3);
    AmpersandField(hl, lang, f2);
    JoinCons(host, f1);
    Regroup(host, "&", JoinFields(f1));
    Flatten(host, "&" + hl, lang, "&" + sa, from, "&" + da, to, "&" + JoinFields(fixed));
  }

  /** The query fields of the URL, in their fixed order. */
  function QueryFields(language: string, from: string, to: string): seq<string> {
    [HOST, "hl=" + language, "saddr=" + from, "daddr=" + to] + FIXED_FIELDS
  }

  /** The URL is the query fields joined by '&'. */
  lemma UrlJoinsQueryFields(fromLat: real, fromLon: real, toLat: real, toLon: real, language: string,
                            fmt: real -> string)
    ensures var from, to := CoordinatePair(fmt, fromLat, fromLon), CoordinatePair(fmt, toLat, toLon);
      RouteUrl(fromLat, fromLon, toLat, toLon, language, fmt) == JoinFields(QueryFields(language, from, to))
  {
    var from, to := CoordinatePair(fmt, fromLat, fromLon), CoordinatePair(fmt, toLat, toLon);
    RouteUrlParts(fromLat, fromLon, toLat, toLon, language, fmt);
    LiteralPieces();
    JoinQuery(HOST, "hl=", "saddr=", "daddr=", language, from, to, FIXED_FIELDS);
  }

  /** Splitting the URL at '&' gives the fixed fields in their fixed order,
      with the language and both points recovered verbatim, provided none of
      them holds an '&' (the language is inserted unescaped). */
  lemma UrlFieldsInOrder(fromLat: real, fromLon: real, toLat: real, toLon: real, language: string,
                         fmt: real -> string)
    requires '&' !in language
    requires '&' !in fmt(fromLat) && '&' !in fmt(fromLon) && '&' !in fmt(toLat) && '&' !in fmt(toLon)
    ensures SplitFields(RouteUrl(fromLat, fromLon, toLat, toLon, language, fmt)) ==
      QueryFields(language, CoordinatePair(fmt, fromLat, fromLon), CoordinatePair(fmt, toLat, toLon))
  {
    var from, to := CoordinatePair(fmt, fromLat, fromLon), CoordinatePair(fmt, toLat, toLon);
    var fields := QueryFields(language, from, to);
    assert '&' !in from && '&' !in to;
    assert forall i :: 0 <= i < |fields| ==> '&' !in fields[i];
    UrlJoinsQueryFields(fromLat, fromLon, toLat, toLon, language, fmt);
    SplitJoinRoundTrip(fields);
  }
}
