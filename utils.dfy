/** The server-side helpers of `utils.py`: the combined location string,
    the server's map link, currency text and the badge tables. */
module Utils {
  import opened Text
  import opened Numbers
  import opened Py
  import opened Query
  import opened Wrappers
  import Maps
  import Js

  // ---------------------------------------------------------------------------
  // Location strings

  /** What `parse_location_data` returns. `fullString` is `None` when the
      dict has no `full_string` key. */
  datatype Location = Location(address: string, latitude: Option<Number>, longitude: Option<Number>,
                               mapLink: Option<string>, isAutoDetected: bool, fullString: Option<string>)

  const Separator: string := " | "

  /** `float(part) if part else None`: `Some(None)` for an empty part,
      `None` when `float` raises. */
  function CoordinatePart(part: string): (r: Option<Option<Number>>)
    ensures part == "" ==> r == Some(None)
    ensures part != "" ==> (r.Some? <==> PyParseFloat(part).Some?) && (r.Some? ==> r.value == PyParseFloat(part))
  {
    if part == "" then Some(None)
    else
      var n := PyParseFloat(part);
      if n.Some? then Some(Some(n.value)) else None
  }

  /** A location string written as `address | lat | lng | link`, with
      coordinate parts that are empty or convert with `float`. */
  predicate Combined(s: string)
  {
    Contains(s, Separator)
    && var parts := Split(s, Separator);
       |parts| >= 4 && CoordinatePart(parts[1]).Some? && CoordinatePart(parts[2]).Some?
  }

  /** A location typed in by hand: the whole text is the address. */
  function ManualEntry(s: string): Location
  {
    Location(s, None, None, None, false, Some(s))
  }

  /** `parse_location_data(location_string)`. */
  function ParseLocationData(location: Option<string>): (r: Location)
    ensures location.None? || location == Some("") ==> r == Location("", None, None, None, false, None)
    ensures r.isAutoDetected <==> location.Some? && Combined(location.value)
    ensures r.isAutoDetected ==>
              var parts := Split(location.value, Separator);
              r == Location(parts[0], CoordinatePart(parts[1]).value, CoordinatePart(parts[2]).value,
                            Some(parts[3]), true, location)
    ensures location.Some? && location.value != "" && !r.isAutoDetected ==> r == ManualEntry(location.value)
  {
    if location.None? || location.value == "" then Location("", None, None, None, false, None)
    else
      var s := location.value;
      if Combined(s) then
        var parts := Split(s, Separator);
        Location(parts[0], CoordinatePart(parts[1]).value, CoordinatePart(parts[2]).value, Some(parts[3]), true, Some(s))
      else ManualEntry(s)
  }

  /** The combined format the location parser reads. */
  function LocationString(address: string, lat: string, lng: string, link: string): string
  {
    Join([address, lat, lng, link], Separator)
  }

  predicate PipeFree(s: string) { Free(s, '|') }

  /** A combined string written from four pipe-free parts reads back as
      those parts, with the coordinates converted. */
  lemma {:induction false} LocationRoundTrip(address: string, lat: string, lng: string, link: string)
    requires PipeFree(address) && PipeFree(lat) && PipeFree(lng) && PipeFree(link)
    requires CoordinatePart(lat).Some? && CoordinatePart(lng).Some?
    ensures ParseLocationData(Some(LocationString(address, lat, lng, link)))
         == Location(address, CoordinatePart(lat).value, CoordinatePart(lng).value, Some(link), true,
                     Some(LocationString(address, lat, lng, link)))
  {
    var s := LocationString(address, lat, lng, link);
    LocationParts(address, lat, lng, link);
    assert Combined(s);
  }

  lemma {:induction false} LocationParts(address: string, lat: string, lng: string, link: string)
    requires PipeFree(address) && PipeFree(lat) && PipeFree(lng) && PipeFree(link)
    ensures var s := LocationString(address, lat, lng, link);
            Split(s, Separator) == [address, lat, lng, link] && Contains(s, Separator)
  {
    var s := LocationString(address, lat, lng, link);
    SplitLocation([address, lat, lng, link]);
    SplitManyContains(s, Separator);
  }

  lemma {:induction false} SplitLocation(parts: seq<string>)
    requires forall i :: 0 <= i < |parts| ==> PipeFree(parts[i])
    requires |parts| >= 1
    ensures Split(Join(parts, Separator), Separator) == parts
  {
    assert FirstAt(Separator, 1, '|');
    SplitJoin(parts, Separator, 1, '|');
  }

  /** Parts after the fourth are ignored: appending ` | ` and anything at
      all leaves the address, the coordinates and the link as they were. */
  lemma {:induction false} ExtraPartsIgnored(address: string, lat: string, lng: string, link: string, extra: string)
    requires PipeFree(address) && PipeFree(lat) && PipeFree(lng) && PipeFree(link)
    requires CoordinatePart(lat).Some? && CoordinatePart(lng).Some?
    ensures var s := LocationString(address, lat, lng, link) + Separator + extra;
            var r := ParseLocationData(Some(s));
            r.isAutoDetected && r.address == address && r.mapLink == Some(link)
            && r.latitude == CoordinatePart(lat).value && r.longitude == CoordinatePart(lng).value
  {
    var s := LocationString(address, lat, lng, link) + Separator + extra;
    ExtraPartsSplit(address, lat, lng, link, extra);
    assert Combined(s);
  }

  /** The first four parts of a combined string with a tail are the four
      parts it was written from. */
  lemma {:induction false} ExtraPartsSplit(address: string, lat: string, lng: string, link: string, extra: string)
    requires PipeFree(address) && PipeFree(lat) && PipeFree(lng) && PipeFree(link)
    ensures var s := LocationString(address, lat, lng, link) + Separator + extra;
            var parts := Split(s, Separator);
            |parts| >= 4 && parts[0] == address && parts[1] == lat && parts[2] == lng && parts[3] == link
            && Contains(s, Separator)
  {
    var parts := [address, lat, lng, link];
    var s := LocationString(address, lat, lng, link) + Separator + extra;
    assert FirstAt(Separator, 1, '|');
    SplitJoinRest(parts, Separator, 1, '|', extra);
    SplitManyContains(s, Separator);
  }

  /** Splitting a join followed by the separator and a tail cuts at every
      joint and then splits the tail. */
  lemma {:induction false} SplitJoinRest(parts: seq<string>, sep: string, k: nat, c: char, rest: string)
    requires |parts| >= 1 && FirstAt(sep, k, c)
    requires forall i :: 0 <= i < |parts| ==> Free(parts[i], c)
    ensures Split(Join(parts, sep) + sep + rest, sep) == parts + Split(rest, sep)
    decreases |parts|
  {
    if |parts| == 1 {
      SplitAfterFree(parts[0], sep, rest, k, c);
    } else {
      SplitJoinRest(parts[1..], sep, k, c, rest);
      SplitJoinStep(parts, sep, k, c, rest);
    }
  }

  /** One step of that induction: the first part splits off. */
  lemma {:induction false} SplitJoinStep(parts: seq<string>, sep: string, k: nat, c: char, rest: string)
    requires |parts| >= 2 && FirstAt(sep, k, c) && Free(parts[0], c)
    requires Split(Join(parts[1..], sep) + sep + rest, sep) == parts[1..] + Split(rest, sep)
    ensures Split(Join(parts, sep) + sep + rest, sep) == parts + Split(rest, sep)
  {
    assert Join(parts, sep) == parts[0] + sep + Join(parts[1..], sep);
    SplitConsStep(parts[0], Join(parts[1..], sep), sep, k, c, rest, parts[1..]);
    assert parts == [parts[0]] + parts[1..];
  }

  lemma {:induction false} SplitConsStep(first: string, joined: string, sep: string, k: nat, c: char, rest: string,
                                         others: seq<string>)
    requires FirstAt(sep, k, c) && Free(first, c)
    requires Split(joined + sep + rest, sep) == others + Split(rest, sep)
    ensures Split(first + sep + joined + sep + rest, sep) == [first] + others + Split(rest, sep)
  {
    assert first + sep + joined + sep + rest == first + sep + (joined + sep + rest);
    SplitAfterFree(first, sep, joined + sep + rest, k, c);
  }

  // ---------------------------------------------------------------------------
  // The server's map link

  /** The query of `generate_map_link`: the point and the zoom level, always. */
  function ServerLinkParams(pair: string, zoomText: string): seq<Param>
  {
    [Param("q", pair), Param("z", zoomText)]
  }

  /** `generate_map_link(latitude, longitude, zoom)`: `None` when either
      coordinate is None or does not convert with `float`; otherwise the
      link with the coordinates as Python prints floats. */
  function GenerateMapLink(latitude: PyValue, longitude: PyValue, zoom: PyValue, floatRepr: Number -> string)
    : (r: Option<string>)
    ensures r.Some? <==> Float(latitude).Some? && Float(longitude).Some?
    ensures r.Some? ==> r.value == Maps.MapsBase + QueryString(ServerLinkParams(
                          floatRepr(Float(latitude).value) + "," + floatRepr(Float(longitude).value),
                          Str(zoom, floatRepr)))
  {
    if latitude.PyNone? || longitude.PyNone? then None
    else
      var lat, lng := Float(latitude), Float(longitude);
      if lat.None? || lng.None? then None
      else
        var pair := floatRepr(lat.value) + "," + floatRepr(lng.value);
        ServerLinkText(pair, Str(zoom, floatRepr));
        Some(Maps.MapsBase + "q=" + pair + "&z=" + Str(zoom, floatRepr))
  }

  lemma {:induction false} ServerLinkText(pair: string, zoomText: string)
    ensures Maps.MapsBase + "q=" + pair + "&z=" + zoomText
         == Maps.MapsBase + QueryString(ServerLinkParams(pair, zoomText))
  {
    var first := [Param("q", pair)];
    var u := Maps.MapsBase + "q=" + pair;
    Maps.FirstParam(Maps.MapsBase, first[0]);
    assert u == Maps.MapsBase + "q" + "=" + pair;
    Maps.AppendParam(u, Maps.MapsBase, first, "&z=", Param("z", zoomText));
    assert first + [Param("z", zoomText)] == ServerLinkParams(pair, zoomText);
  }

  /** What the server's link says: read back, it holds the point and the
      zoom level; with the default zoom the level is "15". Unlike the
      browser's link it keeps `z=0`, and with any other integer zoom the two
      links have the same query. */
  lemma {:induction false} ServerLinkQuery(pair: string, zoomText: string)
    requires Plain(pair) && Plain(zoomText)
    ensures ParseQuery(QueryString(ServerLinkParams(pair, zoomText))) == ServerLinkParams(pair, zoomText)
    ensures Get(ServerLinkParams(pair, zoomText), "z") == Some(zoomText)
  {
    var ps := ServerLinkParams(pair, zoomText);
    assert PlainParams(ps) by {
      Maps.LiteralsPlain();
    }
    ParseQueryString(ps);
    Maps.GetUnique(ps, 1);
  }

  lemma {:induction false} ServerAndBrowserLinks(pair: string, zoom: int, zoomAttribute: string,
                                                 floatRepr: Number -> string, numberText: real -> string)
    requires -1000000000000000000000 < zoom < 1000000000000000000000
    ensures Str(PyInt(15), floatRepr) == "15"
    ensures ServerLinkParams(pair, Str(PyInt(15), floatRepr))
            == Maps.MapsLinkParams(pair, Maps.ZoomText(Js.Undefined, numberText), false)
    ensures zoom != 0 ==> ServerLinkParams(pair, Str(PyInt(zoom), floatRepr))
                          == Maps.MapsLinkParams(pair, Maps.ZoomText(Js.Num(Finite(zoom as real)), numberText), false)
    ensures zoomAttribute != "" ==> ServerLinkParams(pair, zoomAttribute)
                                    == Maps.MapsLinkParams(pair, Maps.ZoomText(Js.Str(zoomAttribute), numberText), false)
    ensures Get(Maps.MapsLinkParams(pair, Maps.ZoomText(Js.Num(Finite(0.0)), numberText), false), "z") == None
    ensures Get(ServerLinkParams(pair, Str(PyInt(0), floatRepr)), "z") == Some("0")
  {
    Maps.FifteenText();
    Maps.ZoomTexts(numberText, zoomAttribute, zoom);
    Maps.MapsLinkLookups(pair, None, false);
    assert IntToString(0) == "0" by {
      assert NatToString(0) == [DigitChar(0)];
    }
    Maps.GetUnique(ServerLinkParams(pair, "0"), 1);
  }

  // ---------------------------------------------------------------------------
  // Currency

  const Rupee: string := "\U{20B9}"

  /** Digits with a comma before every group of three, counted from the right. */
  function GroupThousands(d: string): (r: string)
    decreases |d|
  {
    if |d| <= 3 then d else GroupThousands(d[..|d| - 3]) + "," + d[|d| - 3..]
  }

  /** The text without its commas. */
  function RemoveCommas(s: string): (r: string)
  {
    if s == [] then [] else (if s[0] == ',' then [] else [s[0]]) + RemoveCommas(s[1..])
  }

  lemma {:induction false} RemoveCommasAppend(a: string, b: string)
    ensures RemoveCommas(a + b) == RemoveCommas(a) + RemoveCommas(b)
    decreases |a|
  {
    if a != [] {
      assert (a + b)[0] == a[0];
      assert (a + b)[1..] == a[1..] + b;
      RemoveCommasAppend(a[1..], b);
    } else {
      assert a + b == b;
    }
  }

  lemma {:induction false} RemoveCommasFree(s: string)
    requires Free(s, ',')
    ensures RemoveCommas(s) == s
    decreases |s|
  {
    if s != [] {
      RemoveCommasFree(s[1..]);
    }
  }

  /** Grouping only inserts commas: taking them out again gives the digits
      back. */
  lemma {:induction false} GroupThousandsDigits(d: string)
    requires Free(d, ',')
    ensures RemoveCommas(GroupThousands(d)) == d
    decreases |d|
  {
    if |d| <= 3 {
      RemoveCommasFree(d);
    } else {
      var head, tail := d[..|d| - 3], d[|d| - 3..];
      assert Free(head, ',') && Free(tail, ',');
      GroupThousandsDigits(head);
      GroupDigitsAppend(GroupThousands(head), head, tail);
      assert head + tail == d;
    }
  }

  /** Taking the commas out of a grouped text, a comma and a group leaves
      the digits of both. */
  lemma {:induction false} GroupDigitsAppend(g: string, head: string, tail: string)
    requires RemoveCommas(g) == head && Free(tail, ',')
    ensures RemoveCommas(g + "," + tail) == head + tail
  {
    var gc := g + ",";
    RemoveCommasAppend(g, ",");
    RemoveCommasComma();
    assert RemoveCommas(gc) == head;
    RemoveCommasAppend(gc, tail);
    RemoveCommasFree(tail);
  }

  lemma {:induction false} RemoveCommasComma()
    ensures RemoveCommas(",") == []
  {
    assert ","[1..] == [];
  }

  /** A comma stands at every fourth place from the right, and nowhere else. */
  predicate CommasEveryFourth(r: string)
  {
    forall i :: 0 <= i < |r| ==> (r[i] == ',' <==> (|r| - i - 1) % 4 == 3)
  }

  /** The commas of a grouped text stand exactly at every fourth place
      from the right. */
  lemma {:induction false} GroupThousandsCommas(d: string)
    requires Free(d, ',')
    ensures CommasEveryFourth(GroupThousands(d))
    decreases |d|
  {
    if |d| > 3 {
      var head, tail := d[..|d| - 3], d[|d| - 3..];
      assert Free(head, ',') && Free(tail, ',');
      GroupThousandsCommas(head);
      CommasGroupAppend(GroupThousands(head), tail);
    }
  }

  /** A group of three digits after a comma keeps the commas at every
      fourth place. */
  lemma {:induction false} CommasGroupAppend(g: string, tail: string)
    requires CommasEveryFourth(g) && |tail| == 3 && Free(tail, ',')
    ensures CommasEveryFourth(g + "," + tail)
  {
    var r := g + "," + tail;
    forall i | 0 <= i < |r|
      ensures r[i] == ',' <==> (|r| - i - 1) % 4 == 3
    {
      if i < |g| {
        assert r[i] == g[i];
        assert |r| - i - 1 == (|g| - i - 1) + 4;
        ModFourShift(|g| - i - 1);
      } else if i == |g| {
        assert r[i] == ',' && |r| - i - 1 == 3;
      } else {
        assert r[i] == tail[i - |g| - 1] && tail[i - |g| - 1] != ',';
        assert 0 <= |r| - i - 1 < 3;
      }
    }
  }

  /** The `f"{amount:,.2f}"` text of an amount given in paise: a sign, the
      rupees grouped by thousands, a point and two digits. */
  function FormatAmount(paise: int): (s: string)
  {
    var t := PaddedDigits(if paise < 0 then -paise else paise, 2);
    SignText(paise < 0) + GroupThousands(t[..|t| - 2]) + "." + t[|t| - 2..]
  }

  /** `format_currency(amount)`, with the amount in paise; None gives the
      zero amount. */
  function FormatCurrency(amount: Option<int>): (s: string)
    ensures amount.None? ==> s == Rupee + "0.00"
    ensures amount.Some? ==> s == Rupee + FormatAmount(amount.value)
  {
    if amount.None? then Rupee + "0.00" else Rupee + FormatAmount(amount.value)
  }

  /** A formatted amount is the rupee sign followed by a text that, with its
      thousands commas removed, reads back as the amount in rupees; a missing
      amount reads back as 0. */
  lemma {:induction false} FormatCurrencyReadsBack(amount: Option<int>)
    ensures var s := FormatCurrency(amount);
            |s| > 1 && s[..1] == Rupee
            && PyParseFloat(RemoveCommas(s[1..])) == Some(Finite(Rupees(if amount.Some? then amount.value else 0)))
  {
    var t := if amount.None? then "0.00" else FormatAmount(amount.value);
    assert FormatCurrency(amount) == Rupee + t;
    if amount.None? {
      ZeroAmountText();
      FormatAmountReadsBack(0);
    } else {
      FormatAmountReadsBack(amount.value);
      var d := PaddedDigits(if amount.value < 0 then -amount.value else amount.value, 2);
      assert |t| >= |d[|d| - 2..]|;
    }
    assert (Rupee + t)[1..] == t;
  }

  /** The amount 0 prints as "0.00", the text `format_currency` gives None. */
  lemma {:induction false} ZeroAmountText()
    ensures FormatAmount(0) == "0.00"
  {
    assert NatToString(0) == "0";
    assert PaddedDigits(0, 2) == "000";
    assert GroupThousands("0") == "0";
  }

  /** Without its commas the amount text converts back with `float` to the
      amount in rupees. */
  lemma {:induction false} FormatAmountReadsBack(paise: int)
    ensures PyParseFloat(RemoveCommas(FormatAmount(paise))) == Some(Finite(Rupees(paise)))
  {
    var m: nat := if paise < 0 then -paise else paise;
    AmountWithoutCommas(paise, m);
    Hundredths(paise, m);
    PyParseSignedFixed(RemoveCommas(FormatAmount(paise)), paise < 0, m, 2, Rupees(paise));
  }

  /** An amount given in paise, in rupees. */
  function Rupees(paise: int): real { paise as real / 100.0 }

  lemma {:induction false} Hundredths(paise: int, m: nat)
    requires m == if paise < 0 then -paise else paise
    ensures Rupees(paise) == Signed(paise < 0, m as real / Pow10(2) as real)
  {
    assert Pow10(2) == 100 by {
      assert Pow10(2) == 10 * Pow10(1);
    }
  }

  /** The amount text without its commas is the sign and the fixed-point
      digits of the amount. */
  lemma {:induction false} AmountWithoutCommas(paise: int, m: nat)
    requires m == if paise < 0 then -paise else paise
    ensures RemoveCommas(FormatAmount(paise)) == SignText(paise < 0) + FixedDigits(m, 2)
  {
    var t := PaddedDigits(m, 2);
    PaddedParts(t);
    RemoveCommasGrouped(SignText(paise < 0), t[..|t| - 2], t[|t| - 2..]);
  }

  lemma {:induction false} PaddedParts(t: string)
    requires |t| >= 2 && AllDigits(t)
    ensures Free(t[..|t| - 2], ',') && Free(t[|t| - 2..], ',')
  {
    var intDigits, frac := t[..|t| - 2], t[|t| - 2..];
    assert forall k :: 0 <= k < |intDigits| ==> intDigits[k] == t[k];
    assert forall k :: 0 <= k < |frac| ==> frac[k] == t[|t| - 2 + k];
  }

  /** Taking the commas out of a signed, grouped amount text leaves the
      sign, the digits, the point and the fraction. */
  lemma {:induction false} RemoveCommasGrouped(sign: string, digits: string, frac: string)
    requires Free(sign, ',') && Free(digits, ',') && Free(frac, ',')
    ensures RemoveCommas(sign + GroupThousands(digits) + "." + frac) == sign + (digits + "." + frac)
  {
    GroupThousandsDigits(digits);
    var g := GroupThousands(digits);
    RemoveCommasAppend(sign + g + ".", frac);
    RemoveCommasAppend(sign + g, ".");
    RemoveCommasAppend(sign, g);
    RemoveCommasFree(sign);
    RemoveCommasFree(frac);
    RemoveCommasFree(".");
    Reassociate(sign, digits, ".", frac);
  }

  lemma {:induction false} Reassociate(a: string, b: string, c: string, d: string)
    ensures a + b + c + d == a + (b + c + d)
  {
  }

  lemma {:induction false} ModFourShift(x: nat)
    ensures (x + 4) % 4 == x % 4
  {
  }

  // ---------------------------------------------------------------------------
  // Badge tables

  const StatusBadgeTable: map<string, string> :=
    map["pending" := "warning", "processing" := "info", "completed" := "success",
        "cancelled" := "danger", "delivered" := "success"]

  const PaymentBadgeTable: map<string, string> :=
    map["pending" := "warning", "completed" := "success", "failed" := "danger",
        "refunded" := "secondary", "cancelled" := "danger"]

  /** `get_status_badge_class(status)`: "secondary" exactly for a value that
      is not one of the five order statuses; completed and delivered orders
      share "success". */
  function StatusBadgeClass(status: PyValue): (r: string)
    ensures r == "secondary" <==> !(status.PyStr? && status.s in StatusBadgeTable)
    ensures status == PyStr("completed") || status == PyStr("delivered") ==> r == "success"
    ensures r in {"warning", "info", "success", "danger", "secondary"}
  {
    TableGet(StatusBadgeTable, status, "secondary")
  }

  /** `get_payment_status_badge_class(status)`: "secondary" for a refunded
      payment and for any value that is not a payment status. */
  function PaymentBadgeClass(status: PyValue): (r: string)
    ensures r == "secondary" <==> !(status.PyStr? && status.s in PaymentBadgeTable) || status == PyStr("refunded")
    ensures r == "danger" <==> status == PyStr("failed") || status == PyStr("cancelled")
    ensures r in {"warning", "success", "danger", "secondary"}
  {
    TableGet(PaymentBadgeTable, status, "secondary")
  }
}
