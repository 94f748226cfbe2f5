/** The map helpers of the browser: coordinate validation, the Google Maps
    link builders, coordinate formatting, the degrees/minutes/seconds
    conversion, and the guard and unit choice of the distance computation. */
module Maps {
  import opened Text
  import opened Numbers
  import opened Js
  import opened Percent
  import opened Query
  import opened Wrappers

  // ---------------------------------------------------------------------------
  // Validation

  predicate Within(n: Number, lo: real, hi: real)
  {
    n.Finite? && lo <= n.value <= hi
  }

  /** `n < x` on a double: NaN compares false, the infinities as expected. */
  predicate Below(n: Number, x: real)
  {
    n.NegInf? || (n.Finite? && n.value < x)
  }

  /** `n > x` on a double. */
  predicate Above(n: Number, x: real)
  {
    n.PosInf? || (n.Finite? && n.value > x)
  }

  /** `isValidCoordinates(latitude, longitude)`: both values truthy, both
      parse, latitude within [-90, 90] and longitude within [-180, 180],
      bounds included. */
  function IsValidCoordinates(latitude: JsValue, longitude: JsValue): (r: bool)
    ensures r <==> Truthy(latitude) && Truthy(longitude)
                   && Within(ParseFloatValue(latitude), -90.0, 90.0)
                   && Within(ParseFloatValue(longitude), -180.0, 180.0)
  {
    if !Truthy(latitude) || !Truthy(longitude) then false
    else
      var lat, lng := ParseFloatValue(latitude), ParseFloatValue(longitude);
      if lat.NaN? || lng.NaN? then false
      else if Below(lat, -90.0) || Above(lat, 90.0) then false
      else if Below(lng, -180.0) || Above(lng, 180.0) then false
      else true
  }

  /** The number 0 is falsy and fails validation before it is parsed, while
      the string "0" is truthy and parses to an in-range 0. */
  lemma {:induction false} ZeroCoordinates()
    ensures !IsValidCoordinates(Num(Finite(0.0)), Num(Finite(0.0)))
    ensures IsValidCoordinates(Str("0"), Str("0"))
    ensures !IsValidCoordinates(Str(""), Str("0")) && !IsValidCoordinates(Null, Str("0"))
    ensures !IsValidCoordinates(Str("0"), Undefined)
  {
    ParseZero();
  }

  lemma {:induction false} ParseZero()
    ensures JsParseFloat("0") == Finite(0.0)
  {
    var l := Literal("0", "", false, "", 1);
    assert DigitsEnd("0", 0) == 1 by { DigitsEndAt("0", 0, 1); }
    assert "0"[..1] == "0";
    assert ScanUnsigned("0") == Some(l);
    assert "" + "0" == "0";
    ParseSignedDigits(false, "0", l);
    assert DigitsValue("0" + "") == 0 by { assert "0" + "" == "0"; }
  }

  // ---------------------------------------------------------------------------
  // Link builders

  /** A coordinate as the links print it: `parseFloat(v).toFixed(6)`. */
  function CoordinateText(v: JsValue): string
  {
    ToFixed(ParseFloatValue(v), 6)
  }

  function CoordinatePair(latitude: JsValue, longitude: JsValue): string
  {
    CoordinateText(latitude) + "," + CoordinateText(longitude)
  }

  /** The text `${v}` writes into a template literal. A string is itself;
      undefined, null, the booleans, NaN and the infinities are their
      names; a whole number below 10^21 in magnitude is its decimal digits.
      The text of any other number (a fraction, the exponent form) is the
      parameter `numberText`. */
  function TemplateText(v: JsValue, numberText: real -> string): string
  {
    match v
    case Undefined => "undefined"
    case Null => "null"
    case Bool(b) => if b then "true" else "false"
    case Str(s) => s
    case Num(n) =>
      match n
      case NaN => "NaN"
      case PosInf => "Infinity"
      case NegInf => "-Infinity"
      case Finite(x) => if IsSmallInteger(x) then IntToString(x.Floor) else numberText(x)
  }

  predicate IsSmallInteger(x: real)
  {
    x == x.Floor as real && -1000000000000000000000.0 < x < 1000000000000000000000.0
  }

  /** The zoom argument once its default applies: 15 when it is omitted
      (undefined), the value itself otherwise, `null` included. */
  function ZoomArgument(zoom: JsValue): JsValue
  {
    if zoom.Undefined? then Num(Finite(15.0)) else zoom
  }

  /** The `z` value of the Google Maps link: the text of the zoom argument
      when that argument is truthy, no `z` otherwise. */
  function ZoomText(zoom: JsValue, numberText: real -> string): Option<string>
  {
    var z := ZoomArgument(zoom);
    if Truthy(z) then Some(TemplateText(z, numberText)) else None
  }

  /** The zoom values the link builder meets: the default writes "15"; the
      attribute strings the page passes are written as they are, so "0"
      gives `z=0` and "12.5" gives `z=12.5`; the number 0, an explicit null
      and the empty string give no `z`; a non-zero whole number is written
      in its decimal digits. */
  lemma {:induction false} ZoomTexts(numberText: real -> string, s: string, n: int)
    ensures ZoomText(Undefined, numberText) == Some("15")
    ensures ZoomText(Str(s), numberText) == (if s != "" then Some(s) else None)
    ensures ZoomText(Num(Finite(0.0)), numberText) == None && ZoomText(Null, numberText) == None
    ensures n != 0 && -1000000000000000000000 < n < 1000000000000000000000
            ==> ZoomText(Num(Finite(n as real)), numberText) == Some(IntToString(n))
  {
    FifteenText();
    assert (15.0).Floor == 15;
    assert (n as real).Floor == n;
  }

  /** `address && address.trim()`: a string that is not all white space. */
  predicate AddressGiven(address: JsValue)
  {
    Truthy(address) && address.Str? && JsTrim(address.s) != ""
  }

  const MapsBase: string := "https://www.google.com/maps?"

  /** The query of `generateGoogleMapsLink`: the point, the zoom level when
      it is not 0, and a street-view layer at the same point when an address
      is given (the address text itself is not used). */
  function MapsLinkParams(pair: string, zoom: Option<string>, addressGiven: bool): seq<Param>
  {
    [Param("q", pair)]
    + (if zoom.Some? then [Param("z", zoom.value)] else [])
    + (if addressGiven then [Param("layer", "c"), Param("cbll", pair), Param("cbp", "")] else [])
  }

  /** `generateGoogleMapsLink(latitude, longitude, address, zoom)`, appending
      to the link piece by piece. A truthy address that is not a string has
      no `trim` method, and the call throws a TypeError. */
  method GenerateGoogleMapsLink(latitude: JsValue, longitude: JsValue, address: JsValue, zoom: JsValue,
                                numberText: real -> string)
    returns (r: Outcome<string>)
    ensures r.Throws? <==> Truthy(address) && !address.Str?
    ensures r.Returns? ==> r.value == MapsBase + QueryString(MapsLinkParams(CoordinatePair(latitude, longitude),
                                                                            ZoomText(zoom, numberText),
                                                                            AddressGiven(address)))
  {
    var point := ToFixed(ParseFloatValue(latitude), 6) + "," + ToFixed(ParseFloatValue(longitude), 6);
    var z := if zoom.Undefined? then Num(Finite(15.0)) else zoom;
    var zoomText := if Truthy(z) then Some(TemplateText(z, numberText)) else None;
    if Truthy(address) && !address.Str? {
      return Throws("TypeError");
    }
    var url := MapsLink(point, zoomText, Truthy(address) && JsTrim(address.s) != "");
    r := Returns(url);
  }

  /** The appending part of `generateGoogleMapsLink`, from the printed point,
      the zoom text and whether an address is given. */
  method MapsLink(point: string, zoom: Option<string>, addressGiven: bool) returns (url: string)
    ensures url == MapsBase + QueryString(MapsLinkParams(point, zoom, addressGiven))
  {
    url := MapsBase + "q=" + point;
    ghost var ps := [Param("q", point)];
    assert url == MapsBase + QueryString(ps) by {
      FirstParam(MapsBase, Param("q", point));
      assert MapsBase + "q=" + point == MapsBase + "q" + "=" + point;
    }
    if zoom.Some? {
      AppendParam(url, MapsBase, ps, "&z=", Param("z", zoom.value));
      url := url + "&z=" + zoom.value;
      ps := ps + [Param("z", zoom.value)];
    }
    if addressGiven {
      AppendLayer(url, MapsBase, ps, point);
      url := url + "&layer=c&cbll=" + point + "&cbp=";
      ps := ps + [Param("layer", "c"), Param("cbll", point), Param("cbp", "")];
    }
    assert ps == MapsLinkParams(point, zoom, addressGiven);
  }

  /** A link whose query is one pair. */
  lemma {:induction false} FirstParam(base: string, p: Param)
    ensures base + p.name + "=" + p.value == base + QueryString([p])
  {
  }

  /** Writing `&name=value` after a link adds that pair to its query. */
  lemma {:induction false} AppendParam(url: string, base: string, ps: seq<Param>, key: string, p: Param)
    requires ps != [] && url == base + QueryString(ps)
    requires key == "&" + p.name + "="
    ensures url + key + p.value == base + QueryString(ps + [p])
  {
    QueryStringSnoc(ps, p);
  }

  /** The street-view suffix of the Google Maps link adds three pairs. */
  lemma {:induction false} AppendLayer(url: string, base: string, ps: seq<Param>, pair: string)
    requires ps != [] && url == base + QueryString(ps)
    ensures url + "&layer=c&cbll=" + pair + "&cbp="
         == base + QueryString(ps + [Param("layer", "c"), Param("cbll", pair), Param("cbp", "")])
  {
    var u1 := url + "&layer=" + "c";
    var u2 := u1 + "&cbll=" + pair;
    var u3 := u2 + "&cbp=" + "";
    var p1 := ps + [Param("layer", "c")];
    var p2 := p1 + [Param("cbll", pair)];
    AppendParam(url, base, ps, "&layer=", Param("layer", "c"));
    AppendParam(u1, base, p1, "&cbll=", Param("cbll", pair));
    AppendParam(u2, base, p2, "&cbp=", Param("cbp", ""));
    assert p2 + [Param("cbp", "")] == ps + [Param("layer", "c"), Param("cbll", pair), Param("cbp", "")];
    assert url + "&layer=c&cbll=" == url + "&layer=" + "c" + "&cbll=";
    assert u3 == u2 + "&cbp=";
  }

  /** The value of a pair whose name no other pair has. */
  lemma {:induction false} GetUnique(ps: seq<Param>, i: nat)
    requires i < |ps|
    requires forall j :: 0 <= j < |ps| && j != i ==> ps[j].name != ps[i].name
    ensures Get(ps, ps[i].name) == Some(ps[i].value)
  {
  }

  /** What the Google Maps link says: read back, its query starts with the
      point, holds a `z` pair with the zoom text exactly when there is one,
      and the street-view pairs exactly when an address is given. The zoom
      text is written unencoded, so it reads back only when it holds no `&`
      or `=`. */
  lemma {:induction false} MapsLinkQuery(pair: string, zoom: Option<string>, addressGiven: bool)
    requires Plain(pair) && (zoom.Some? ==> Plain(zoom.value))
    ensures ParseQuery(QueryString(MapsLinkParams(pair, zoom, addressGiven))) == MapsLinkParams(pair, zoom, addressGiven)
    ensures MapsLinkParams(pair, zoom, addressGiven)[0] == Param("q", pair)
    ensures Get(MapsLinkParams(pair, zoom, addressGiven), "z") == zoom
    ensures Get(MapsLinkParams(pair, zoom, addressGiven), "cbll") == (if addressGiven then Some(pair) else None)
  {
    MapsLinkPlain(pair, zoom, addressGiven);
    ParseQueryString(MapsLinkParams(pair, zoom, addressGiven));
    MapsLinkLookups(pair, zoom, addressGiven);
  }

  lemma {:induction false} FifteenText()
    ensures IntToString(15) == "15"
  {
    assert NatToString(15) == NatToString(1) + [DigitChar(5)];
  }

  lemma {:induction false} MapsLinkPlain(pair: string, zoom: Option<string>, addressGiven: bool)
    requires Plain(pair) && (zoom.Some? ==> Plain(zoom.value))
    ensures PlainParams(MapsLinkParams(pair, zoom, addressGiven))
  {
    LiteralsPlain();
    var layer := [Param("layer", "c"), Param("cbll", pair), Param("cbp", "")];
    var zs := if zoom.Some? then [Param("z", zoom.value)] else [];
    PlainParamsAppend([Param("q", pair)], zs);
    PlainParamsAppend([Param("q", pair)] + zs, if addressGiven then layer else []);
  }

  lemma {:induction false} PlainParamsAppend(a: seq<Param>, b: seq<Param>)
    requires PlainParams(a) && PlainParams(b)
    ensures PlainParams(a + b)
  {
    forall i | 0 <= i < |a + b|
      ensures Plain((a + b)[i].name) && Plain((a + b)[i].value)
    {
      if i < |a| {
        assert (a + b)[i] == a[i];
      } else {
        assert (a + b)[i] == b[i - |a|];
      }
    }
  }

  lemma {:induction false} MapsLinkLookups(pair: string, zoom: Option<string>, addressGiven: bool)
    ensures Get(MapsLinkParams(pair, zoom, addressGiven), "z") == zoom
    ensures Get(MapsLinkParams(pair, zoom, addressGiven), "cbll") == (if addressGiven then Some(pair) else None)
  {
    var ps := MapsLinkParams(pair, zoom, addressGiven);
    var names := Names(ps);
    if zoom.Some? {
      assert ps[1] == Param("z", zoom.value);
      GetUnique(ps, 1);
    }
    if addressGiven {
      var k := if zoom.Some? then 3 else 2;
      assert ps[k] == Param("cbll", pair);
      GetUnique(ps, k);
    }
  }

  const DirectionsBase: string := "https://www.google.com/maps/dir/?"

  /** The origin `generateDirectionsLink` writes: the trimmed address,
      encoded, whenever `fromAddress` is truthy. */
  function Origin(fromAddress: JsValue): Option<string>
  {
    if Truthy(fromAddress) && fromAddress.Str? then Some(EncodeURIComponent(JsTrim(fromAddress.s))) else None
  }

  /** The query of `generateDirectionsLink`: `api=1`, the origin when there is
      one, then the destination and the travel mode. */
  function DirectionsParams(pair: string, origin: Option<string>): seq<Param>
  {
    [Param("api", "1")]
    + (if origin.Some? then [Param("origin", origin.value)] else [])
    + [Param("destination", pair), Param("travelmode", "driving")]
  }

  /** `generateDirectionsLink(latitude, longitude, fromAddress)`. A truthy
      `fromAddress` that is not a string has no `trim` method, and the call
      throws a TypeError. */
  method GenerateDirectionsLink(latitude: JsValue, longitude: JsValue, fromAddress: JsValue)
    returns (r: Outcome<string>)
    ensures r.Throws? <==> Truthy(fromAddress) && !fromAddress.Str?
    ensures r.Returns? ==> r.value == DirectionsBase + QueryString(DirectionsParams(CoordinatePair(latitude, longitude),
                                                                                   Origin(fromAddress)))
  {
    var point := ToFixed(ParseFloatValue(latitude), 6) + "," + ToFixed(ParseFloatValue(longitude), 6);
    if Truthy(fromAddress) && !fromAddress.Str? {
      return Throws("TypeError");
    }
    var origin := if Truthy(fromAddress) then Some(EncodeURIComponent(JsTrim(fromAddress.s))) else None;
    var url := DirectionsLink(point, origin);
    r := Returns(url);
  }

  /** The appending part of `generateDirectionsLink`, from the printed point
      and the encoded origin. */
  method DirectionsLink(point: string, origin: Option<string>) returns (url: string)
    ensures url == DirectionsBase + QueryString(DirectionsParams(point, origin))
  {
    url := DirectionsStart(origin);
    ghost var ps := [Param("api", "1")] + (if origin.Some? then [Param("origin", origin.value)] else []);
    AppendParam(url, DirectionsBase, ps, "&destination=", Param("destination", point));
    url := url + "&destination=" + point;
    ps := ps + [Param("destination", point)];
    AppendParam(url, DirectionsBase, ps, "&travelmode=", Param("travelmode", "driving"));
    url := url + "&travelmode=" + "driving";
    ps := ps + [Param("travelmode", "driving")];
    assert ps == DirectionsParams(point, origin);
  }

  /** The start of the directions link: `api=1` and the origin when there
      is one. */
  method DirectionsStart(origin: Option<string>) returns (url: string)
    ensures url == DirectionsBase + QueryString([Param("api", "1")]
                                                + (if origin.Some? then [Param("origin", origin.value)] else []))
  {
    url := DirectionsBase + "api=1";
    ghost var ps := [Param("api", "1")];
    assert url == DirectionsBase + QueryString(ps) by {
      FirstParam(DirectionsBase, Param("api", "1"));
    }
    if origin.Some? {
      AppendParam(url, DirectionsBase, ps, "&origin=", Param("origin", origin.value));
      url := url + "&origin=" + origin.value;
      ps := ps + [Param("origin", origin.value)];
    } else {
      assert ps + [] == ps;
    }
  }

  /** What the directions link says: read back, it starts with `api=1`,
      holds an origin exactly when there is one, and ends with the
      destination and the travel mode. */
  lemma {:induction false} DirectionsLinkQuery(pair: string, origin: Option<string>)
    requires Plain(pair) && (origin.Some? ==> Plain(origin.value))
    ensures ParseQuery(QueryString(DirectionsParams(pair, origin))) == DirectionsParams(pair, origin)
    ensures Get(DirectionsParams(pair, origin), "origin") == origin
    ensures var ps := DirectionsParams(pair, origin);
            ps[0] == Param("api", "1")
            && ps[|ps| - 2..] == [Param("destination", pair), Param("travelmode", "driving")]
  {
    DirectionsPlain(pair, origin);
    ParseQueryString(DirectionsParams(pair, origin));
  }

  lemma {:induction false} DirectionsPlain(pair: string, origin: Option<string>)
    requires Plain(pair) && (origin.Some? ==> Plain(origin.value))
    ensures PlainParams(DirectionsParams(pair, origin))
  {
    LiteralsPlain();
    var middle := if origin.Some? then [Param("origin", origin.value)] else [];
    var tail := [Param("destination", pair), Param("travelmode", "driving")];
    PlainParamsAppend([Param("api", "1")], middle);
    PlainParamsAppend([Param("api", "1")] + middle, tail);
  }

  /** The origin is there exactly when `fromAddress` is a non-empty string
      (the other truthy values throw), it is safe in a query, and decoding it
      gives the trimmed address back; a non-empty address of white space
      alone gives an empty origin. */
  lemma {:induction false} OriginDecodes(fromAddress: JsValue)
    ensures Origin(fromAddress).Some? <==> Truthy(fromAddress) && fromAddress.Str?
    ensures Origin(fromAddress).Some? ==> Plain(Origin(fromAddress).value)
    ensures Origin(fromAddress).Some? ==> PercentDecode(Origin(fromAddress).value, false) == Some(JsTrim(fromAddress.s))
    ensures Truthy(fromAddress) && fromAddress.Str? && Blank(fromAddress.s, IsJsSpace) ==> Origin(fromAddress) == Some("")
  {
    if Truthy(fromAddress) && fromAddress.Str? {
      var t := JsTrim(fromAddress.s);
      DecodeEncodeURIComponent(t);
      EncodedPlain(t);
      BlankOrigin(fromAddress.s);
    }
  }

  /** An encoded text holds no `&` or `=`. */
  lemma {:induction false} EncodedPlain(s: string)
    ensures Plain(EncodeURIComponent(s))
  {
    var r := EncodeURIComponent(s);
    forall k | 0 <= k < |r|
      ensures r[k] != '&' && r[k] != '='
    {
      assert UriUnreserved(r[k]) || r[k] == '%';
    }
  }

  lemma {:induction false} BlankOrigin(s: string)
    ensures Blank(s, IsJsSpace) ==> EncodeURIComponent(JsTrim(s)) == ""
  {
    TrimEmptyIffBlank(s, IsJsSpace);
    assert EncodeURIComponent("") == "";
  }

  const StreetViewBase: string := "https://www.google.com/maps/@?"

  function StreetViewParams(pair: string): seq<Param>
  {
    [Param("api", "1"), Param("map_action", "pano"), Param("viewpoint", pair)]
  }

  /** `generateStreetViewLink(latitude, longitude)`: the fixed template
      `api=1&map_action=pano&viewpoint=<lat6>,<lng6>`, whose query reads back
      as those three pairs. */
  function GenerateStreetViewLink(latitude: JsValue, longitude: JsValue): (url: string)
    ensures url == StreetViewBase + QueryString(StreetViewParams(CoordinatePair(latitude, longitude)))
    ensures ParseQuery(QueryString(StreetViewParams(CoordinatePair(latitude, longitude))))
         == StreetViewParams(CoordinatePair(latitude, longitude))
  {
    var point := ToFixed(ParseFloatValue(latitude), 6) + "," + ToFixed(ParseFloatValue(longitude), 6);
    NumberTextsPlain(ToFixed(ParseFloatValue(latitude), 6), ToFixed(ParseFloatValue(longitude), 6));
    StreetViewQuery(point);
    StreetViewBase + "api=1&map_action=pano&viewpoint=" + point
  }

  lemma {:induction false} StreetViewQuery(pair: string)
    requires Plain(pair)
    ensures StreetViewBase + "api=1&map_action=pano&viewpoint=" + pair
         == StreetViewBase + QueryString(StreetViewParams(pair))
    ensures ParseQuery(QueryString(StreetViewParams(pair))) == StreetViewParams(pair)
  {
    StreetViewPlain(pair);
    ParseQueryString(StreetViewParams(pair));
    StreetViewText(pair);
  }

  lemma {:induction false} StreetViewPlain(pair: string)
    requires Plain(pair)
    ensures PlainParams(StreetViewParams(pair))
  {
    LiteralsPlain();
  }

  lemma {:induction false} StreetViewText(pair: string)
    ensures StreetViewBase + "api=1&map_action=pano&viewpoint=" + pair
         == StreetViewBase + QueryString(StreetViewParams(pair))
  {
    var head := StreetViewHead();
    var u1 := StreetViewBase + "api=1&map_action=pano";
    var p2 := Param("viewpoint", pair);
    AppendParam(u1, StreetViewBase, head, "&viewpoint=", p2);
    assert head + [p2] == StreetViewParams(pair);
    assert StreetViewBase + "api=1&map_action=pano&viewpoint=" == u1 + "&viewpoint=";
  }

  /** The fixed first two pairs of the street-view link. */
  lemma {:induction false} StreetViewHead() returns (head: seq<Param>)
    ensures head == [Param("api", "1"), Param("map_action", "pano")]
    ensures StreetViewBase + "api=1&map_action=pano" == StreetViewBase + QueryString(head)
  {
    var p0, p1 := Param("api", "1"), Param("map_action", "pano");
    var u0 := StreetViewBase + "api=1";
    FirstParam(StreetViewBase, p0);
    assert u0 == StreetViewBase + "api" + "=" + "1";
    AppendParam(u0, StreetViewBase, [p0], "&map_action=", p1);
    assert [p0] + [p1] == [p0, p1];
    head := [p0, p1];
  }

  /** The names and fixed values the link builders write hold no `&` or `=`. */
  lemma {:induction false} LiteralsPlain()
    ensures Plain("q") && Plain("z") && Plain("layer") && Plain("c") && Plain("cbll") && Plain("cbp") && Plain("")
    ensures Plain("api") && Plain("1") && Plain("origin") && Plain("destination")
            && Plain("travelmode") && Plain("driving")
    ensures Plain("map_action") && Plain("pano") && Plain("viewpoint")
  {
  }

  // ---------------------------------------------------------------------------
  // Formatting

  /** Degrees, minutes and seconds of an angle, with its hemisphere letter. */
  datatype Dms = Dms(degrees: nat, minutes: nat, seconds: real, direction: char)

  /** The parts `decimalToDMS` computes, in exact arithmetic: whole degrees,
      whole minutes of the rest, and the seconds left over, which add back up
      to the magnitude; the hemisphere follows the sign, 0 counting as north
      or east. */
  function DecimalToDms(x: real, isLatitude: bool): (d: Dms)
    ensures d.minutes < 60 && 0.0 <= d.seconds < 60.0
    ensures d.degrees as real + d.minutes as real / 60.0 + d.seconds / 3600.0 == Abs(x)
    ensures d.degrees as real <= Abs(x) < d.degrees as real + 1.0
    ensures d.direction == if isLatitude then (if x >= 0.0 then 'N' else 'S')
                           else (if x >= 0.0 then 'E' else 'W')
  {
    var a := Abs(x);
    var degrees := a.Floor;
    var minutesDecimal := (a - degrees as real) * 60.0;
    var minutes := minutesDecimal.Floor;
    var seconds := (minutesDecimal - minutes as real) * 60.0;
    var direction := if isLatitude then (if x >= 0.0 then 'N' else 'S') else (if x >= 0.0 then 'E' else 'W');
    Dms(degrees, minutes, seconds, direction)
  }

  /** `${degrees}Â° ${minutes}' ${seconds}" ${direction}` with the seconds
      printed by `toFixed(2)`; the degree sign appears as the two characters
      U+00C2 U+00B0, as the source file spells it. */
  function DmsText(d: Dms): string
  {
    NatToString(d.degrees) + "\U{C2}\U{B0} " + NatToString(d.minutes) + "' "
    + ToFixed(Finite(d.seconds), 2) + "\" " + [d.direction]
  }

  /** `decimalToDMS(x, isLatitude)`. */
  function DecimalToDMS(x: real, isLatitude: bool): string
  {
    DmsText(DecimalToDms(x, isLatitude))
  }

  /** The shapes `formatCoordinates` returns. */
  datatype Formatted =
    | DmsPair(latDms: string, lngDms: string)
    | UrlText(text: string)
    | ArrayPair(first: real, second: real)
    | ObjectPair(latitude: real, longitude: real)
    | DecimalPair(latText: string, lngText: string)

  /** `formatCoordinates(latitude, longitude, format)`: null for invalid
      coordinates; otherwise the shape the format names, the decimal pair of
      6-digit strings for any other format or none. */
  function FormatCoordinates(latitude: JsValue, longitude: JsValue, format: JsValue): (r: Option<Formatted>)
    ensures r.None? <==> !IsValidCoordinates(latitude, longitude)
    ensures r.Some? && format !in {Str("dms"), Str("url"), Str("array"), Str("object")} ==> r.value.DecimalPair?
    ensures r.Some? && format in {Str("array"), Str("object")} ==>
              r.value == (if format == Str("array") then ArrayPair(ParseFloatValue(latitude).value, ParseFloatValue(longitude).value)
                          else ObjectPair(ParseFloatValue(latitude).value, ParseFloatValue(longitude).value))
    ensures r.Some? ==> -90.0 <= ParseFloatValue(latitude).value <= 90.0
                        && -180.0 <= ParseFloatValue(longitude).value <= 180.0
                        && r.value == FormatValid(ParseFloatValue(latitude).value, ParseFloatValue(longitude).value, format)
  {
    if !IsValidCoordinates(latitude, longitude) then None
    else Some(FormatValid(ParseFloatValue(latitude).value, ParseFloatValue(longitude).value, format))
  }

  /** The formatting of validated coordinates; an omitted format is
      "decimal". */
  function FormatValid(lat: real, lng: real, format: JsValue): (r: Formatted)
    ensures format !in {Str("dms"), Str("url"), Str("array"), Str("object")} ==>
              r == DecimalPair(ToFixed(Finite(lat), 6), ToFixed(Finite(lng), 6))
    ensures r.UrlText? <==> format == Str("url")
    ensures r.UrlText? ==> r.text == ToFixed(Finite(lat), 6) + "," + ToFixed(Finite(lng), 6)
    ensures r.DmsPair? <==> format == Str("dms")
    ensures r.DmsPair? ==> r.latDms == DecimalToDMS(lat, true) && r.lngDms == DecimalToDMS(lng, false)
    ensures r.ArrayPair? <==> format == Str("array")
    ensures r.ObjectPair? <==> format == Str("object")
    ensures r.ArrayPair? ==> r == ArrayPair(lat, lng)
    ensures r.ObjectPair? ==> r == ObjectPair(lat, lng)
  {
    var f := if format.Undefined? then Str("decimal") else format;
    if f == Str("dms") then DmsPair(DecimalToDMS(lat, true), DecimalToDMS(lng, false))
    else if f == Str("url") then UrlText(ToFixed(Finite(lat), 6) + "," + ToFixed(Finite(lng), 6))
    else if f == Str("array") then ArrayPair(lat, lng)
    else if f == Str("object") then ObjectPair(lat, lng)
    else DecimalPair(ToFixed(Finite(lat), 6), ToFixed(Finite(lng), 6))
  }

  /** What the formatted coordinates give back: the 6-digit texts parse to
      the coordinates rounded to 6 places, and the url text splits at its
      comma into those two texts; the numeric shapes keep the coordinates in
      range, yet pass validation again only when neither is 0. */
  lemma {:induction false} FormattedCoordinatesReadBack(lat: real, lng: real, format: JsValue)
    requires -90.0 <= lat <= 90.0 && -180.0 <= lng <= 180.0
    ensures var r := FormatValid(lat, lng, format);
            && (r.DecimalPair? ==> JsParseFloat(r.latText) == Finite(Rounded(lat, 6))
                                   && JsParseFloat(r.lngText) == Finite(Rounded(lng, 6)))
            && (r.UrlText? ==> Split(r.text, ",") == [ToFixed(Finite(lat), 6), ToFixed(Finite(lng), 6)])
            && ((r.ArrayPair? || r.ObjectPair?) ==>
                  (IsValidCoordinates(Num(Finite(lat)), Num(Finite(lng))) <==> lat != 0.0 && lng != 0.0))
  {
    var r := FormatValid(lat, lng, format);
    if r.DecimalPair? {
      assert format !in {Str("dms"), Str("url"), Str("array"), Str("object")};
      ToFixedRoundTrip(lat, 6);
      ToFixedRoundTrip(lng, 6);
    } else if r.UrlText? {
      FixedSplits(lat, lng);
    } else if r.ArrayPair? || r.ObjectPair? {
      Revalidate(lat, lng);
    }
  }

  /** The url text of two coordinates splits at its comma into the two. */
  lemma {:induction false} FixedSplits(lat: real, lng: real)
    ensures Split(ToFixed(Finite(lat), 6) + "," + ToFixed(Finite(lng), 6), ",")
         == [ToFixed(Finite(lat), 6), ToFixed(Finite(lng), 6)]
  {
    NumberTextsSplit(ToFixed(Finite(lat), 6), ToFixed(Finite(lng), 6));
  }

  /** Two number texts joined by a comma hold no `&` or `=`. */
  lemma {:induction false} NumberTextsPlain(a: string, b: string)
    requires forall k :: 0 <= k < |a| ==> NumberChar(a[k])
    requires forall k :: 0 <= k < |b| ==> NumberChar(b[k])
    ensures Plain(a + "," + b)
  {
    var s := a + "," + b;
    forall k | 0 <= k < |s|
      ensures s[k] != '&' && s[k] != '='
    {
      if k < |a| {
        assert s[k] == a[k];
      } else if k > |a| {
        assert s[k] == b[k - |a| - 1];
      }
    }
  }

  /** Two number texts joined by a comma split back into the two. */
  lemma {:induction false} NumberTextsSplit(a: string, b: string)
    requires forall k :: 0 <= k < |a| ==> NumberChar(a[k])
    requires forall k :: 0 <= k < |b| ==> NumberChar(b[k])
    ensures Split(a + "," + b, ",") == [a, b]
  {
    assert Free(a, ',') && Free(b, ',');
    assert Join([a, b], ",") == a + "," + b by {
      assert [a, b][1..] == [b];
    }
    assert FirstAt(",", 0, ',');
    SplitJoin([a, b], ",", 0, ',');
  }

  /** Numbers in range pass validation again unless one of them is 0,
      which is falsy. */
  lemma {:induction false} Revalidate(lat: real, lng: real)
    requires -90.0 <= lat <= 90.0 && -180.0 <= lng <= 180.0
    ensures IsValidCoordinates(Num(Finite(lat)), Num(Finite(lng))) <==> lat != 0.0 && lng != 0.0
  {
  }

  /** The parts of the DMS form add back up to the coordinate's magnitude. */
  lemma {:induction false} DmsAddsUp(x: real, isLatitude: bool)
    ensures var d := DecimalToDms(x, isLatitude);
            Signed(x < 0.0, d.degrees as real + d.minutes as real / 60.0 + d.seconds / 3600.0) == x
  {
  }

  // ---------------------------------------------------------------------------
  // Distance guard

  /** The earth radius `getDistance` multiplies by, or the inherited
      Object.prototype member a unit like "toString" finds instead. */
  datatype Radius = Radius(value: real) | InheritedMember(name: string)

  /** `{'K': 6371, 'M': 3958.8, 'N': 3440.1}[unit] || 6371`, `unit` defaulting to 'K'. */
  function EarthRadius(unit: JsValue): (r: Radius)
    ensures unit.Undefined? || unit == Str("K") ==> r == Radius(6371.0)
    ensures unit == Str("M") ==> r == Radius(3958.8)
    ensures unit == Str("N") ==> r == Radius(3440.1)
    ensures r.InheritedMember? <==> unit.Str? && IsPrototypeMember(unit.s)
    ensures r.Radius? && unit !in {Str("M"), Str("N")} ==> r == Radius(6371.0)
  {
    match unit
    case Undefined => Radius(6371.0)
    case Str(s) =>
      if s == "K" then Radius(6371.0)
      else if s == "M" then Radius(3958.8)
      else if s == "N" then Radius(3440.1)
      else if IsPrototypeMember(s) then InheritedMember(s)
      else Radius(6371.0)
    case _ => Radius(6371.0)
  }

  /** The part of `getDistance` before the trigonometry: null unless both
      points are valid, otherwise the radius it goes on to use. */
  function DistanceGuard(lat1: JsValue, lon1: JsValue, lat2: JsValue, lon2: JsValue, unit: JsValue): (r: Option<Radius>)
    ensures r.None? <==> !IsValidCoordinates(lat1, lon1) || !IsValidCoordinates(lat2, lon2)
    ensures r.Some? ==> r.value == EarthRadius(unit)
  {
    if !IsValidCoordinates(lat1, lon1) || !IsValidCoordinates(lat2, lon2) then None
    else Some(EarthRadius(unit))
  }
}
