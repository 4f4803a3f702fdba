/**
 * The provider-side rules of travel_planner/tools/scraper.py: airport-code
 * resolution, the normalisation and ordering of Amadeus flight offers, the
 * star and price extractors, the Agoda hotel filter and ordering, and the
 * TripAdvisor link scan with its mock fallback.  The Amadeus client and the
 * fetched TripAdvisor page are inputs.
 */
module Scraper {
  import opened Wrappers
  import opened Sequences
  import opened PyText
  import opened Records

  // ---------------------------------------------------------------- IATA codes

  /** One reply of the Amadeus location lookup: the call raised, or the `iataCode` of each item ("" when falsy). */
  datatype LocationReply = LookupRaised | LookupData(codes: seq<string>)

  /** The location lookup of an Amadeus client, restricted to cities and unrestricted. */
  datatype Locations = Locations(byCity: string -> LocationReply, byKeyword: string -> LocationReply)

  /** The first truthy code of a lookup reply. */
  function FirstCode(codes: seq<string>): (r: Option<string>)
    ensures r.Some? ==> r.value != "" && r.value in codes
    ensures r.None? <==> forall i :: 0 <= i < |codes| ==> codes[i] == ""
  {
    if codes == [] then None else if codes[0] != "" then Some(codes[0]) else FirstCode(codes[1..])
  }

  predicate IsAirportCode(q: string) {
    |q| == 3 && forall i :: 0 <= i < 3 ==> IsAsciiLetter(q[i])
  }

  /** `_resolve_to_iata(client, query)`. */
  function ResolveToIata(client: Option<Locations>, query: string): Option<string> {
    if query == [] then None
    else
      var q := Strip(query);
      if IsAirportCode(q) then Some(Upper(q))
      else if client.None? then None
      else
        match client.value.byCity(q)
        case LookupRaised => None
        case LookupData(codes) =>
          if codes != [] then FirstCode(codes)
          else
            match client.value.byKeyword(q)
            case LookupRaised => None
            case LookupData(more) => FirstCode(more)
  }

  /**
   * An empty query resolves to nothing; a query that strips to three letters
   * resolves to those letters upper-cased whatever the client; any other query
   * resolves to nothing without a client.
   */
  lemma ResolveRules(client: Option<Locations>, query: string)
    ensures query == [] ==> ResolveToIata(client, query).None?
    ensures query != [] && IsAirportCode(Strip(query)) ==>
              ResolveToIata(client, query) == Some(Upper(Strip(query))) &&
              ResolveToIata(None, query) == ResolveToIata(client, query)
    ensures query != [] && !IsAirportCode(Strip(query)) && client.None? ==> ResolveToIata(client, query).None?
  {
  }

  /** A resolved code is never empty; a code taken from a three-letter query is upper case. */
  lemma ResolvedCodeShape(client: Option<Locations>, query: string)
    requires ResolveToIata(client, query).Some?
    ensures ResolveToIata(client, query).value != ""
    ensures IsAirportCode(Strip(query)) ==>
              var code := ResolveToIata(client, query).value;
              |code| == 3 && forall i :: 0 <= i < 3 ==> 'A' <= code[i] <= 'Z'
  {
    var q := Strip(query);
    if IsAirportCode(q) {
      var code := Upper(q);
      forall i | 0 <= i < 3 ensures 'A' <= code[i] <= 'Z' {
        assert code[i] == UpperChar(q[i]) && IsAsciiLetter(q[i]);
      }
    }
  }

  // ---------------------------------------------------------- Amadeus offers

  /** A time stamp object of a segment: its `at`, `date` and `time` entries ("" when absent). */
  datatype Endpoint = Endpoint(at: string, date: string, time: string)

  datatype Segment = Segment(departure: Endpoint, arrival: Endpoint, carrierCode: string)

  /**
   * One flight offer.  The price entries are the offer's strings ("" when
   * absent); `itineraries` lists each itinerary's segments.
   */
  datatype Offer = Offer(
    total: string, grandTotal: string, base: string, currency: string,
    itineraries: seq<seq<Segment>>,
    validatingAirlineCodes: seq<string>)

  /** Python's `a or b` on strings. */
  function OrStr(a: string, b: string): string {
    if a != "" then a else b
  }

  function EndpointTime(e: Endpoint): string {
    OrStr(OrStr(e.at, e.date), e.time)
  }

  /** The segments of the first itinerary, none without one. */
  function FirstSegments(o: Offer): seq<Segment> {
    if o.itineraries == [] then [] else o.itineraries[0]
  }

  /** `price.total or price.grandTotal or price.base`: the price text of an offer ("" when all are empty). */
  function TotalPriceText(o: Offer): string {
    OrStr(OrStr(o.total, o.grandTotal), o.base)
  }

  /** `float(total_price) if total_price else 0.0`, or None when `float` raises. */
  function OfferPrice(o: Offer): (price: Option<real>)
    ensures price.None? <==> TotalPriceText(o) != "" && ParseFloat(TotalPriceText(o)).None?
  {
    if TotalPriceText(o) != "" then ParseFloat(TotalPriceText(o)) else Some(0.0)
  }

  /** The dictionary the offer loop appends for `o` once its price has been read. */
  function OfferRecord(o: Offer, price: real, departDate: string, returnDate: string): (f: Candidate)
    ensures f.stops == Some(if |FirstSegments(o)| > 1 then |FirstSegments(o)| - 1 else 0)
    ensures f.price == Some(price) && f.link.None? && f.name != ""
  {
    var segments := FirstSegments(o);
    var depTime := if segments != [] then EndpointTime(segments[0].departure) else "";
    var arrTime := if segments != [] then EndpointTime(segments[|segments| - 1].arrival) else "";
    var stops := if segments != [] && |segments| - 1 > 0 then |segments| - 1 else 0;
    var carrier := if segments != [] then segments[0].carrierCode else "";
    var validating := if o.validatingAirlineCodes != [] then o.validatingAirlineCodes[0] else "";
    var airline := OrStr(OrStr(carrier, validating), "Unknown");
    var midnight := departDate + "T00:00";
    FlightRecord(airline, OrStr(depTime, midnight), OrStr(arrTime, OrStr(returnDate, midnight)), price, stops)
      .(currency := OrStr(o.currency, "USD"))
  }

  /**
   * The record the offer loop appends for `o`, or None when building it
   * raises (a price text `float` rejects), in which case the loop skips `o`.
   */
  function NormaliseOffer(o: Offer, departDate: string, returnDate: string): (r: Option<Candidate>)
    ensures r.Some? ==> r.value.stops == Some(if |FirstSegments(o)| > 1 then |FirstSegments(o)| - 1 else 0)
    ensures r.Some? ==> r.value.price.Some? && r.value.link.None? && r.value.name != ""
    ensures r.None? <==> TotalPriceText(o) != "" && ParseFloat(TotalPriceText(o)).None?
  {
    match OfferPrice(o)
    case None => None
    case Some(price) => Some(OfferRecord(o, price, departDate, returnDate))
  }

  /** The records the offer loop collects from `offers`, in order. */
  function NormalisedAll(offers: seq<Offer>, departDate: string, returnDate: string): (flights: seq<Candidate>)
    ensures |flights| <= |offers|
  {
    if offers == [] then []
    else
      var earlier := NormalisedAll(offers[..|offers| - 1], departDate, returnDate);
      match NormaliseOffer(offers[|offers| - 1], departDate, returnDate)
      case Some(f) => earlier + [f]
      case None => earlier
  }

  /** The offer loop of `amadeus_flights_search`. */
  method NormaliseOffers(offers: seq<Offer>, departDate: string, returnDate: string) returns (flights: seq<Candidate>)
    ensures flights == NormalisedAll(offers, departDate, returnDate)
  {
    flights := [];
    for i := 0 to |offers|
      invariant flights == NormalisedAll(offers[..i], departDate, returnDate)
    {
      assert offers[..i + 1][..i] == offers[..i];
      var f := NormaliseOffer(offers[i], departDate, returnDate);
      if f.Some? {
        flights := flights + [f.value];
      }
    }
    assert offers[..|offers|] == offers;
  }

  /** Every collected record comes from one offer, and offers with readable prices are never dropped. */
  lemma {:induction false} NormalisedAllContents(offers: seq<Offer>, departDate: string, returnDate: string)
    ensures var flights := NormalisedAll(offers, departDate, returnDate);
            forall f :: f in flights ==> exists o :: o in offers && NormaliseOffer(o, departDate, returnDate) == Some(f)
    ensures (forall o :: o in offers ==> NormaliseOffer(o, departDate, returnDate).Some?) ==>
              |NormalisedAll(offers, departDate, returnDate)| == |offers|
  {
    if offers != [] {
      var init := offers[..|offers| - 1];
      NormalisedAllContents(init, departDate, returnDate);
      forall o | o in init ensures o in offers {
      }
    }
  }

  /** What the flight-offers request produced. */
  datatype OffersReply = ResponseError | OtherError | OfferData(offers: seq<Offer>)

  /** The Amadeus setup a call finds. `offers` answers the request for an origin and destination code. */
  datatype Amadeus =
    | NotConfigured
    | InitFailed
    | Ready(locations: Locations, offers: (string, string) -> OffersReply)

  function MockFlight(airline: string, departDate: string, price: real): Candidate {
    FlightRecord(airline, departDate + "T09:00", departDate + "T11:00", price, 0)
  }

  /** The list `amadeus_flights_search` returns. */
  function FlightsSearchSpec(amadeus: Amadeus, origin: string, destination: string,
                             departDate: string, returnDate: string): seq<Candidate>
  {
    match amadeus
    case NotConfigured =>
      [MockFlight("MockAir", departDate, 280.0),
       FlightRecord("BudgetFly", departDate + "T22:00", departDate + "T23:59", 200.0, 1)]
    case InitFailed => [MockFlight("MockAir-Fallback", departDate, 300.0)]
    case Ready(locations, request) =>
      var codes := RequestCodes(locations, origin, destination);
      ReplyFlights(request(codes.0, codes.1), departDate, returnDate)
  }

  /** The list returned for the reply of the flight-offers request. */
  function ReplyFlights(reply: OffersReply, departDate: string, returnDate: string): seq<Candidate> {
    match reply
    case ResponseError => [MockFlight("MockAir-Error", departDate, 350.0)]
    case OtherError => [MockFlight("MockAir-Exception", departDate, 330.0)]
    case OfferData(offers) =>
      var flights := NormalisedAll(offers, departDate, returnDate);
      if flights == [] then [MockFlight("MockAir-EmptyParse", departDate, 320.0)]
      else SortBy(flights, CheaperOrSame)
  }

  /** `amadeus_flights_search`, with the offer loop run as the source runs it. */
  method FlightsSearch(amadeus: Amadeus, origin: string, destination: string,
                       departDate: string, returnDate: string) returns (flights: seq<Candidate>)
    ensures flights == FlightsSearchSpec(amadeus, origin, destination, departDate, returnDate)
  {
    match amadeus {
      case NotConfigured =>
        flights := [MockFlight("MockAir", departDate, 280.0),
                    FlightRecord("BudgetFly", departDate + "T22:00", departDate + "T23:59", 200.0, 1)];
      case InitFailed =>
        flights := [MockFlight("MockAir-Fallback", departDate, 300.0)];
      case Ready(locations, request) =>
        var codes := RequestCodes(locations, origin, destination);
        var reply := request(codes.0, codes.1);
        match reply {
          case ResponseError =>
            flights := [MockFlight("MockAir-Error", departDate, 350.0)];
          case OtherError =>
            flights := [MockFlight("MockAir-Exception", departDate, 330.0)];
          case OfferData(offers) =>
            flights := NormaliseOffers(offers, departDate, returnDate);
            if flights == [] {
              flights := [MockFlight("MockAir-EmptyParse", departDate, 320.0)];
            } else {
              flights := SortBy(flights, CheaperOrSame);
            }
        }
    }
  }

  /** The origin and destination codes of the request: the resolved code, or the query itself. */
  function RequestCodes(locations: Locations, origin: string, destination: string): (string, string) {
    (OrStr(ResolveToIata(Some(locations), origin).GetOr(""), origin),
     OrStr(ResolveToIata(Some(locations), destination).GetOr(""), destination))
  }

  /** Every normalised flight has a price. */
  lemma {:induction false} NormalisedPriced(offers: seq<Offer>, departDate: string, returnDate: string)
    ensures forall i :: 0 <= i < |NormalisedAll(offers, departDate, returnDate)| ==>
              NormalisedAll(offers, departDate, returnDate)[i].price.Some?
  {
    if offers != [] {
      NormalisedPriced(offers[..|offers| - 1], departDate, returnDate);
    }
  }

  /** Whatever the reply, at least one flight comes back, and every flight has a price. */
  lemma ReplyFlightsNonEmpty(reply: OffersReply, departDate: string, returnDate: string)
    ensures var r := ReplyFlights(reply, departDate, returnDate);
            r != [] && forall i :: 0 <= i < |r| ==> r[i].price.Some?
  {
    if reply.OfferData? {
      var flights := NormalisedAll(reply.offers, departDate, returnDate);
      NormalisedPriced(reply.offers, departDate, returnDate);
      if flights != [] {
        var r := SortBy(flights, CheaperOrSame);
        MultisetMembers(r, flights);
        forall i | 0 <= i < |r| ensures r[i].price.Some? {
          assert r[i] in r;
          assert r[i] in flights;
          var j :| 0 <= j < |flights| && flights[j] == r[i];
        }
      }
    }
  }

  /** When the offers parse, the result is exactly the parsed flights, in price order. */
  lemma ReplyFlightsSorted(offers: seq<Offer>, departDate: string, returnDate: string)
    requires NormalisedAll(offers, departDate, returnDate) != []
    ensures var r := ReplyFlights(OfferData(offers), departDate, returnDate);
            SortedBy(r, CheaperOrSame) && multiset(r) == multiset(NormalisedAll(offers, departDate, returnDate))
  {
    CheaperOrSameIsTotalPreorder();
    SortBySorted(NormalisedAll(offers, departDate, returnDate), CheaperOrSame);
  }

  /** The search always returns at least one flight, and every flight has a price. */
  lemma FlightsSearchNonEmpty(amadeus: Amadeus, origin: string, destination: string,
                              departDate: string, returnDate: string)
    ensures var r := FlightsSearchSpec(amadeus, origin, destination, departDate, returnDate);
            r != [] && forall i :: 0 <= i < |r| ==> r[i].price.Some?
  {
    if amadeus.Ready? {
      var codes := RequestCodes(amadeus.locations, origin, destination);
      ReplyFlightsNonEmpty(amadeus.offers(codes.0, codes.1), departDate, returnDate);
    }
  }

  /** Without credentials the mock list is not in price order (280 before 200): only the caller's sort fixes it. */
  lemma UnconfiguredMockUnsorted(origin: string, destination: string, departDate: string, returnDate: string)
    ensures !SortedBy(FlightsSearchSpec(NotConfigured, origin, destination, departDate, returnDate), CheaperOrSame)
  {
    var r := FlightsSearchSpec(NotConfigured, origin, destination, departDate, returnDate);
    assert !CheaperOrSame(r[0], r[1]);
  }

  // ---------------------------------------------------- star and price extraction

  /**
   * The Python values the extractors receive.  A float is represented by its
   * `str` text, which is all `extract_price` looks at.
   */
  datatype PyValue =
    | PyNone
    | PyBool(b: bool)
    | PyInt(i: int)
    | PyFloat(text: string)
    | PyStr(s: string)
    | PyList(items: seq<PyValue>)
    | PyDict(entries: seq<(string, PyValue)>)

  /** Python's truth value. */
  predicate Truthy(v: PyValue) {
    match v
    case PyNone => false
    case PyBool(b) => b
    case PyInt(i) => i != 0
    case PyFloat(text) => text != "0.0" && text != "-0.0"
    case PyStr(s) => s != ""
    case PyList(items) => items != []
    case PyDict(entries) => entries != []
  }

  /** `str(v)`: a string is itself; a list or dict is shown as `repr` shows it. */
  function Str(v: PyValue): string {
    match v
    case PyStr(s) => s
    case _ => Repr(v)
  }

  /**
   * `repr(v)`: scalars as `str` shows them, a string quoted and escaped, a
   * list as `[a, b]` and a dict as `{'k': v}`, their elements by `repr`.
   */
  function Repr(v: PyValue): string {
    match v
    case PyNone => "None"
    case PyBool(b) => if b then "True" else "False"
    case PyInt(i) => IntToString(i)
    case PyFloat(text) => text
    case PyStr(s) => StrRepr(s)
    case PyList(items) =>
      "[" + JoinComma(seq(|items|, i requires 0 <= i < |items| => Repr(items[i]))) + "]"
    case PyDict(entries) =>
      "{" + JoinComma(seq(|entries|, i requires 0 <= i < |entries| => StrRepr(entries[i].0) + ": " + Repr(entries[i].1))) + "}"
  }

  /** `", ".join(parts)`. */
  function JoinComma(parts: seq<string>): string {
    if parts == [] then ""
    else if |parts| == 1 then parts[0]
    else parts[0] + ", " + JoinComma(parts[1..])
  }

  /**
   * `repr(s)` of a string: in single quotes, or in double quotes when the text
   * holds a `'` and no `"`.
   */
  function StrRepr(s: string): string {
    var q := if '\'' in s && '"' !in s then '"' else '\'';
    [q] + EscapeAll(s, q) + [q]
  }

  function EscapeAll(s: string, q: char): string {
    if s == [] then "" else EscapeChar(s[0], q) + EscapeAll(s[1..], q)
  }

  /**
   * How `repr` writes one character inside quotes `q`: a backslash or the
   * quote escaped, `\n`, `\r` and `\t` by name, the other control characters
   * and the non-printable Latin-1 ones as `\xhh`.
   */
  function EscapeChar(c: char, q: char): string {
    var n := c as int;
    if c == '\\' then "\\\\"
    else if c == q then ['\\', q]
    else if c == '\n' then "\\n"
    else if c == '\r' then "\\r"
    else if c == '\t' then "\\t"
    else if n < 0x20 || (0x7F <= n <= 0xA0) || n == 0xAD then "\\x" + [HexDigit(n / 16), HexDigit(n % 16)]
    else [c]
  }

  function HexDigit(d: int): char
    requires 0 <= d < 16
  {
    "0123456789abcdef"[d]
  }

  /** `d.get(key, default)` on a dictionary's entries. */
  function Get(entries: seq<(string, PyValue)>, key: string, default: PyValue): PyValue {
    if entries == [] then default else if entries[0].0 == key then entries[0].1 else Get(entries[1..], key, default)
  }

  /** The start of the first run of digits in `s`, or `|s|`. */
  function FirstDigit(s: string): (i: nat)
    ensures i <= |s| && (i < |s| ==> IsDigit(s[i]))
    ensures forall k :: 0 <= k < i ==> !IsDigit(s[k])
  {
    if s == [] then 0 else if IsDigit(s[0]) then 0 else 1 + FirstDigit(s[1..])
  }

  /** The leading digits of `s`. */
  function DigitPrefix(s: string): (r: string)
    ensures AllDigits(r) && StartsWith(s, r)
    ensures |r| < |s| ==> !IsDigit(s[|r|])
  {
    if s != [] && IsDigit(s[0]) then [s[0]] + DigitPrefix(s[1..]) else []
  }

  /** `re.search(r"\d+", s)`: the first maximal run of digits, if any. */
  function FirstDigitRun(s: string): (r: Option<string>)
    ensures r.None? <==> forall k :: 0 <= k < |s| ==> !IsDigit(s[k])
    ensures r.Some? ==> r.value != [] && AllDigits(r.value)
  {
    var i := FirstDigit(s);
    if i == |s| then None else Some(DigitPrefix(s[i..]))
  }

  /** `extract_stars(value)`. A bool is an `int` in Python, so `True` gives 1. */
  function ExtractStars(v: PyValue): (stars: int)
    ensures !Truthy(v) ==> stars == 0
    ensures v.PyInt? ==> stars == v.i
    ensures v.PyStr? && Truthy(v) ==> stars >= 0
    ensures !(v.PyInt? || v.PyBool? || v.PyStr?) ==> stars == 0
  {
    if !Truthy(v) then 0
    else
      match v
      case PyInt(i) => i
      case PyBool(b) => 1
      case PyStr(s) =>
        (match FirstDigitRun(s)
         case Some(run) => DigitsValue(run)
         case None => 0)
      case _ => 0
  }

  /** A string's stars are its first number: "4-star" gives 4. */
  lemma StarsFromText()
    ensures ExtractStars(PyStr("4-star")) == 4
  {
    assert FirstDigit("4-star") == 0;
    assert DigitPrefix("4-star") == "4" by {
      assert "4-star"[1..] == "-star";
    }
  }

  /** A string without digits gives 0 stars. */
  lemma StarsFromNoDigits()
    ensures ExtractStars(PyStr("n/a")) == 0
  {
    assert FirstDigit("n/a") == 3 by {
      assert "n/a"[1..] == "/a";
      assert "/a"[1..] == "a";
      assert "a"[1..] == "";
    }
  }

  /** `True` is the int 1; a float class such as 4.5 is not an int or a string and gives 0. */
  lemma StarsFromOtherTypes()
    ensures ExtractStars(PyBool(true)) == 1
    ensures ExtractStars(PyFloat("4.5")) == 0
  {
  }

  /** The characters `extract_price` keeps: digits and `.`. */
  function PriceChars(s: string): (r: string)
    ensures forall i :: 0 <= i < |r| ==> IsDigit(r[i]) || r[i] == '.'
    ensures IsSubsequence(r, s)
  {
    if s == [] then [] else if IsDigit(s[0]) || s[0] == '.' then [s[0]] + PriceChars(s[1..]) else PriceChars(s[1..])
  }

  /**
   * `extract_price(rate_info)`: the price and the currency value, or Failure
   * when `float` raises on the kept characters (more than one `.`, or only dots).
   */
  function ExtractPrice(rateInfo: PyValue): (r: Result<(real, PyValue), string>)
    ensures !rateInfo.PyDict? ==> r == Success((0.0, PyStr("USD")))
    ensures r.Success? ==> r.value.0 >= 0.0
    ensures rateInfo.PyDict? ==> r.Success? ==> r.value.1 == Get(rateInfo.entries, "currency", PyStr("USD"))
  {
    if !rateInfo.PyDict? then Success((0.0, PyStr("USD")))
    else
      var lowest := Get(rateInfo.entries, "lowest", PyNone);
      var rawPrice := if Truthy(lowest) then lowest else Get(rateInfo.entries, "highest", PyNone);
      var currency := Get(rateInfo.entries, "currency", PyStr("USD"));
      if !Truthy(rawPrice) then Success((0.0, currency))
      else
        var cleaned := PriceChars(Str(rawPrice));
        if cleaned == [] then Success((0.0, currency))
        else
          match ParseDecimal(cleaned)
          case Some(price) => Success((price, currency))
          case None => Failure("could not convert string to float")
  }

  /** Text around the number is dropped: "$120" reads 120, in the default currency. */
  lemma PriceFromText()
    ensures ExtractPrice(PyDict([("lowest", PyStr("$120"))])) == Success((120.0, PyStr("USD")))
  {
    var entries := [("lowest", PyStr("$120"))];
    assert Get(entries, "lowest", PyNone) == PyStr("$120");
    assert "lowest" != "currency";
    assert Get(entries, "currency", PyStr("USD")) == PyStr("USD");
    DollarsDropped();
    HundredTwenty();
  }

  /** The cleaning step of PriceFromText. */
  lemma DollarsDropped()
    ensures PriceChars("$120") == "120"
  {
    assert "$120"[1..] == "120";
    assert "120"[1..] == "20";
    assert "20"[1..] == "0";
  }

  /** The `float` step of PriceFromText and PriceFromList. */
  lemma HundredTwenty()
    ensures ParseDecimal("120") == Some(120.0)
  {
    ParseDecimalOfNat(120);
    assert NatToString(120) == "120";
  }

  lemma {:induction false} PriceCharsAppend(a: string, b: string)
    ensures PriceChars(a + b) == PriceChars(a) + PriceChars(b)
  {
    if a != [] {
      PriceCharsAppend(a[1..], b);
      assert (a + b)[1..] == a[1..] + b;
    } else {
      assert a + b == b;
    }
  }

  /** The characters `extract_price` keeps from each of `parts`, one after the other. */
  function PriceCharsOfEach(parts: seq<string>): string {
    if parts == [] then "" else PriceChars(parts[0]) + PriceCharsOfEach(parts[1..])
  }

  /** The brackets, commas and spaces of a list's `str` are dropped: only its elements' characters are kept. */
  lemma ListPriceChars(items: seq<PyValue>)
    ensures PriceChars(Str(PyList(items)))
            == PriceCharsOfEach(seq(|items|, i requires 0 <= i < |items| => Repr(items[i])))
  {
    var parts := seq(|items|, i requires 0 <= i < |items| => Repr(items[i]));
    JoinCommaPriceChars(parts);
    PriceCharsAppend("[", JoinComma(parts) + "]");
    PriceCharsAppend(JoinComma(parts), "]");
    assert "[" + JoinComma(parts) + "]" == "[" + (JoinComma(parts) + "]");
  }

  lemma {:induction false} JoinCommaPriceChars(parts: seq<string>)
    ensures PriceChars(JoinComma(parts)) == PriceCharsOfEach(parts)
  {
    if |parts| == 1 {
      assert parts[1..] == [];
    } else if |parts| > 1 {
      var rest := JoinComma(parts[1..]);
      assert JoinComma(parts) == (parts[0] + ", ") + rest;
      JoinCommaPriceChars(parts[1..]);
      PriceCharsAppend(parts[0] + ", ", rest);
      PriceCharsAppend(parts[0], ", ");
      SeparatorDropped();
    }
  }

  /** The `", "` step of JoinCommaPriceChars. */
  lemma SeparatorDropped()
    ensures PriceChars(", ") == ""
  {
    assert ", "[1..] == " ";
  }

  /** A price given as a list is read from the digits `str` shows: `[120]` reads 120. */
  lemma PriceFromList()
    ensures ExtractPrice(PyDict([("lowest", PyList([PyInt(120)]))])) == Success((120.0, PyStr("USD")))
  {
    var entries := [("lowest", PyList([PyInt(120)]))];
    assert Get(entries, "lowest", PyNone) == PyList([PyInt(120)]);
    assert "lowest" != "currency";
    assert Get(entries, "currency", PyStr("USD")) == PyStr("USD");
    assert NatToString(120) == "120";
    var parts := seq(1, i requires 0 <= i < 1 => Repr([PyInt(120)][i]));
    assert parts == ["120"];
    assert Str(PyList([PyInt(120)])) == "[120]";
    assert PriceChars("[120]") == "120" by {
      assert "[120]"[1..] == "120]";
      assert "120]"[1..] == "20]";
      assert "20]"[1..] == "0]";
      assert "0]"[1..] == "]";
      assert "]"[1..] == "";
    }
    HundredTwenty();
  }

  /** A falsy `lowest` falls through to `highest`; an int price is read from its digits. */
  lemma PriceFromHighest()
    ensures ExtractPrice(PyDict([("lowest", PyStr("")), ("highest", PyInt(95)), ("currency", PyStr("SGD"))]))
            == Success((95.0, PyStr("SGD")))
  {
    ParseDecimalOfNat(95);
    assert NatToString(95) == "95";
    assert PriceChars("95") == "95" by {
      assert "95"[1..] == "5";
    }
  }

  /** With no price the result is 0 in USD, and a value that is not a dict gives the same. */
  lemma PriceMissing()
    ensures ExtractPrice(PyDict([])) == Success((0.0, PyStr("USD")))
    ensures ExtractPrice(PyStr("120")) == Success((0.0, PyStr("USD")))
  {
  }

  /** Kept characters with two dots make `float` raise. */
  lemma PriceWithTwoDots()
    ensures ExtractPrice(PyDict([("lowest", PyStr("1.2.3"))])).Failure?
  {
    var entries := [("lowest", PyStr("1.2.3"))];
    assert Get(entries, "lowest", PyNone) == PyStr("1.2.3");
    DotsKept();
    TwoDotsRejected();
  }

  /** The cleaning step of PriceWithTwoDots. */
  lemma DotsKept()
    ensures PriceChars("1.2.3") == "1.2.3"
  {
    assert "1.2.3"[1..] == ".2.3";
    assert ".2.3"[1..] == "2.3";
    assert "2.3"[1..] == ".3";
    assert ".3"[1..] == "3";
  }

  /** The `float` step of PriceWithTwoDots. */
  lemma TwoDotsRejected()
    ensures ParseDecimal("1.2.3").None?
  {
    assert IndexOf("1.2.3", '.') == 1 by {
      assert "1.2.3"[1..] == ".2.3";
    }
    assert "1.2.3"[2..] == "2.3";
    assert !AllDigits("2.3") by {
      assert "2.3"[1] == '.';
    }
  }

  // ------------------------------------------------------------- Agoda hotels

  /** A hotel record with the keys `agoda_search` indexes. */
  predicate HotelShaped(h: Candidate) {
    h.stars.Some? && h.pricePerNight.Some? && h.rating.Some?
  }

  const MockHotels: seq<Candidate> := [
    HotelRecord("Agoda Plaza", 4, 150.0, 8.9, "https://www.agoda.com/mock1"),
    HotelRecord("Budget Stay", 3, 90.0, 7.8, "https://www.agoda.com/mock2"),
    HotelRecord("Luxury Resort", 5, 300.0, 9.4, "https://www.agoda.com/mock3")
  ]

  /** The order of the key `(-rating, price_per_night)`: better rated first, then cheaper. */
  predicate BetterOrSame(a: Candidate, b: Candidate) {
    var ra, rb := a.rating.GetOr(0.0), b.rating.GetOr(0.0);
    ra > rb || (ra == rb && a.pricePerNight.GetOr(0.0) <= b.pricePerNight.GetOr(0.0))
  }

  lemma BetterOrSameIsTotalPreorder()
    ensures TotalPreorder(BetterOrSame)
  {
  }

  /** `[h for h in hotels if h["price_per_night"] <= cap]`. */
  function UnderCap(hotels: seq<Candidate>, cap: real): (r: seq<Candidate>)
    ensures multiset(r) <= multiset(hotels)
    ensures forall h :: h in r <==> h in hotels && h.pricePerNight.GetOr(0.0) <= cap
  {
    var p := (h: Candidate) => h.pricePerNight.GetOr(0.0) <= cap;
    FilterMultiset(hotels, p);
    Filter(hotels, p)
  }

  /** `[h for h in hotels if h["stars"] >= stars]`. */
  function AtLeastStars(hotels: seq<Candidate>, stars: int): (r: seq<Candidate>)
    ensures multiset(r) <= multiset(hotels)
    ensures forall h :: h in r <==> h in hotels && h.stars.GetOr(0) >= stars
  {
    var p := (h: Candidate) => h.stars.GetOr(0) >= stars;
    FilterMultiset(hotels, p);
    Filter(hotels, p)
  }

  /** The hotels left after the filters that are switched on (a None or zero argument is no filter). */
  function Filtered(hotels: seq<Candidate>, maxPricePerNight: Option<real>, starsPreference: Option<int>): seq<Candidate> {
    var capped := if maxPricePerNight.Some? && maxPricePerNight.value != 0.0 then UnderCap(hotels, maxPricePerNight.value) else hotels;
    if starsPreference.Some? && starsPreference.value != 0 then AtLeastStars(capped, starsPreference.value) else capped
  }

  /** The filters and the sort of `agoda_search` applied to `hotels`. */
  function ArrangeHotels(hotels: seq<Candidate>, maxPricePerNight: Option<real>, starsPreference: Option<int>): seq<Candidate>
    requires forall i :: 0 <= i < |hotels| ==> HotelShaped(hotels[i])
  {
    SortBy(Filtered(hotels, maxPricePerNight, starsPreference), BetterOrSame)
  }

  /** `agoda_search`, whose hotel list is its built-in mock list. */
  function AgodaSearch(maxPricePerNight: Option<real>, starsPreference: Option<int>): seq<Candidate> {
    ArrangeHotels(MockHotels, maxPricePerNight, starsPreference)
  }

  /** Whether hotel `h` passes the filters `agoda_search` applies. */
  predicate Wanted(h: Candidate, maxPricePerNight: Option<real>, starsPreference: Option<int>) {
    && (maxPricePerNight.Some? && maxPricePerNight.value != 0.0 ==> h.pricePerNight.GetOr(0.0) <= maxPricePerNight.value)
    && (starsPreference.Some? && starsPreference.value != 0 ==> h.stars.GetOr(0) >= starsPreference.value)
  }

  /** The result is ordered by rating, best first, ties by price. */
  lemma ArrangeHotelsSorted(hotels: seq<Candidate>, maxPricePerNight: Option<real>, starsPreference: Option<int>)
    requires forall i :: 0 <= i < |hotels| ==> HotelShaped(hotels[i])
    ensures SortedBy(ArrangeHotels(hotels, maxPricePerNight, starsPreference), BetterOrSame)
  {
    BetterOrSameIsTotalPreorder();
    SortBySorted(Filtered(hotels, maxPricePerNight, starsPreference), BetterOrSame);
  }

  /** The result holds exactly the given hotels that pass the filters, none more often than given. */
  lemma ArrangeHotelsContents(hotels: seq<Candidate>, maxPricePerNight: Option<real>, starsPreference: Option<int>)
    requires forall i :: 0 <= i < |hotels| ==> HotelShaped(hotels[i])
    ensures var r := ArrangeHotels(hotels, maxPricePerNight, starsPreference);
            multiset(r) <= multiset(hotels) &&
            (forall h :: h in r <==> h in hotels && Wanted(h, maxPricePerNight, starsPreference))
  {
    var filtered := Filtered(hotels, maxPricePerNight, starsPreference);
    var r := SortBy(filtered, BetterOrSame);
    MultisetMembers(r, filtered);
  }

  /** Unfiltered, the mock hotels come best rated first: the resort, the plaza, then the budget stay. */
  lemma AgodaUnfiltered()
    ensures AgodaSearch(None, None) == [MockHotels[2], MockHotels[0], MockHotels[1]]
  {
    var p, b, l := MockHotels[0], MockHotels[1], MockHotels[2];
    assert Filtered(MockHotels, None, None) == MockHotels;
    assert MockHotels[1..] == [b, l];
    assert SortBy(MockHotels, BetterOrSame) == Insert(p, SortBy([b, l], BetterOrSame), BetterOrSame);
    MockTailSorted();
    PlazaInserted();
  }

  lemma PlazaInserted()
    ensures Insert(MockHotels[0], [MockHotels[2], MockHotels[1]], BetterOrSame) == [MockHotels[2], MockHotels[0], MockHotels[1]]
  {
    var p, b, l := MockHotels[0], MockHotels[1], MockHotels[2];
    assert [l, b][1..] == [b];
    assert Insert(p, [b], BetterOrSame) == [p, b];
  }

  lemma MockTailSorted()
    ensures SortBy([MockHotels[1], MockHotels[2]], BetterOrSame) == [MockHotels[2], MockHotels[1]]
  {
    var b, l := MockHotels[1], MockHotels[2];
    assert [b, l][1..] == [l];
    assert SortBy([l], BetterOrSame) == [l];
    assert Insert(b, [l], BetterOrSame) == [l, b];
  }

  /** A cap of 200 a night drops the resort. */
  lemma AgodaCapped()
    ensures AgodaSearch(Some(200.0), None) == [MockHotels[0], MockHotels[1]]
  {
    var p, b := MockHotels[0], MockHotels[1];
    MockUnderTwoHundred();
    assert Filtered(MockHotels, Some(200.0), None) == [p, b];
    assert [p, b][1..] == [b];
    assert SortBy([b], BetterOrSame) == [b];
    assert Insert(p, [b], BetterOrSame) == [p, b];
  }

  lemma MockUnderTwoHundred()
    ensures UnderCap(MockHotels, 200.0) == [MockHotels[0], MockHotels[1]]
  {
    var under := (h: Candidate) => h.pricePerNight.GetOr(0.0) <= 200.0;
    var p, b, l := MockHotels[0], MockHotels[1], MockHotels[2];
    assert MockHotels[1..] == [b, l];
    assert [b, l][1..] == [l];
    assert [l][1..] == [];
    assert Filter([l], under) == [];
    assert Filter([b, l], under) == [b];
    assert Filter(MockHotels, under) == [p, b];
  }

  // --------------------------------------------------------- TripAdvisor links

  /** A link of the fetched search page: its `href` and its text, `title` and `aria-label` ("" when absent). */
  datatype Anchor = Anchor(href: string, text: string, title: string, ariaLabel: string)

  const TripAdvisorHost: string := "https://www.tripadvisor.com"

  predicate IsRestaurantLink(href: string) {
    Contains(href, "/Restaurant_Review-") || Contains(href, "/Restaurants-")
  }

  /** The absolute link of an anchor, without its `#` fragment. */
  function LinkOf(a: Anchor): string {
    TripAdvisorHost + BeforeFirst(a.href, '#')
  }

  function ScrapedRestaurant(a: Anchor, cuisine: string): Candidate {
    var name := OrStr(OrStr(OrStr(a.text, a.title), a.ariaLabel), "TripAdvisor Restaurant");
    RestaurantRecord(name, LinkOf(a), 15.0, OrStr(cuisine, "Various"))
  }

  function Links(rs: seq<Candidate>): set<string> {
    set i | 0 <= i < |rs| && rs[i].link.Some? :: rs[i].link.value
  }

  /**
   * What the anchor loop returns when it goes on from `anchors`, having
   * collected `results` so far (whose links are the `seen` set).
   */
  function Scan(anchors: seq<Anchor>, cuisine: string, limit: int, results: seq<Candidate>): seq<Candidate>
    decreases |anchors|
  {
    if anchors == [] then results
    else
      var a := anchors[0];
      if !IsRestaurantLink(a.href) || LinkOf(a) in Links(results) then Scan(anchors[1..], cuisine, limit, results)
      else
        var more := results + [ScrapedRestaurant(a, cuisine)];
        if |more| >= limit then more else Scan(anchors[1..], cuisine, limit, more)
  }

  /** The anchor loop of `tripadvisor_restaurants_search`, with its `seen` set and early `break`. */
  method ScanAnchors(anchors: seq<Anchor>, cuisine: string, limit: int) returns (results: seq<Candidate>)
    ensures results == Scan(anchors, cuisine, limit, [])
  {
    results := [];
    var seen: set<string> := {};
    var i := 0;
    while i < |anchors|
      invariant 0 <= i <= |anchors|
      invariant seen == Links(results)
      invariant Scan(anchors[i..], cuisine, limit, results) == Scan(anchors, cuisine, limit, [])
    {
      var a := anchors[i];
      assert anchors[i..][1..] == anchors[i + 1..];
      if IsRestaurantLink(a.href) {
        var link := LinkOf(a);
        if link !in seen {
          seen := seen + {link};
          var r := ScrapedRestaurant(a, cuisine);
          results := results + [r];
          LinksAppend(results[..|results| - 1], r);
          assert results[..|results| - 1] + [r] == results;
          if |results| >= limit {
            return;
          }
        }
      }
      i := i + 1;
    }
  }

  lemma LinksAppend(rs: seq<Candidate>, r: Candidate)
    requires r.link.Some?
    ensures Links(rs + [r]) == Links(rs) + {r.link.value}
  {
    var all := rs + [r];
    assert all[|rs|] == r;
    forall l | l in Links(all) ensures l in Links(rs) + {r.link.value} {
      var i :| 0 <= i < |all| && all[i].link.Some? && all[i].link.value == l;
      if i < |rs| {
        assert rs[i] == all[i];
      }
    }
    forall l | l in Links(rs) ensures l in Links(all) {
      var i :| 0 <= i < |rs| && rs[i].link.Some? && rs[i].link.value == l;
      assert all[i] == rs[i];
    }
  }

  /** The most results the scan collects: `limit`, and one when `limit` is not positive. */
  function MaxResults(limit: int): int {
    if limit > 0 then limit else 1
  }

  /** Links of scanned results are distinct. */
  predicate DistinctLinks(rs: seq<Candidate>) {
    forall i, j :: 0 <= i < j < |rs| ==> rs[i].link != rs[j].link
  }

  /**
   * The scan keeps the results it has, adds links that are distinct, carry
   * no fragment, come from restaurant anchors, and stops at `limit` results
   * (one result when `limit` is not positive: the length test follows the append).
   */
  lemma ScanSpec(anchors: seq<Anchor>, cuisine: string, limit: int, results: seq<Candidate>)
    requires DistinctLinks(results)
    requires forall i :: 0 <= i < |results| ==> results[i].link.Some?
    requires |results| < MaxResults(limit)
    ensures var r := Scan(anchors, cuisine, limit, results);
            && |results| <= |r| && r[..|results|] == results
            && DistinctLinks(r)
            && |r| <= MaxResults(limit)
            && forall i :: |results| <= i < |r| ==> FromAnchor(r[i], anchors, cuisine)
  {
    var r := Scan(anchors, cuisine, limit, results);
    ScanExtends(anchors, cuisine, limit, results);
    assert |results| <= |r| && r[..|results|] == results;
    ScanDistinct(anchors, cuisine, limit, results);
    assert DistinctLinks(r) && |r| <= MaxResults(limit);
    ScanFromAnchors(anchors, cuisine, limit, results);
  }

  /** The scan only appends to the results it has. */
  lemma {:induction false} ScanExtends(anchors: seq<Anchor>, cuisine: string, limit: int, results: seq<Candidate>)
    ensures var r := Scan(anchors, cuisine, limit, results);
            |results| <= |r| && r[..|results|] == results
    decreases |anchors|
  {
    if anchors == [] {
      assert results[..|results|] == results;
    } else {
      var a := anchors[0];
      if !IsRestaurantLink(a.href) || LinkOf(a) in Links(results) {
        ScanExtends(anchors[1..], cuisine, limit, results);
      } else {
        var more := results + [ScrapedRestaurant(a, cuisine)];
        if |more| < limit {
          ScanExtends(anchors[1..], cuisine, limit, more);
          var r := Scan(anchors[1..], cuisine, limit, more);
          assert r[..|results|] == r[..|more|][..|results|];
        }
        assert more[..|results|] == results;
      }
    }
  }

  /** Links stay distinct, and the scan stops at `limit` results (one when `limit` is not positive). */
  lemma {:induction false} ScanDistinct(anchors: seq<Anchor>, cuisine: string, limit: int, results: seq<Candidate>)
    requires DistinctLinks(results)
    requires forall i :: 0 <= i < |results| ==> results[i].link.Some?
    requires |results| < MaxResults(limit)
    ensures var r := Scan(anchors, cuisine, limit, results);
            DistinctLinks(r) && |r| <= MaxResults(limit)
    decreases |anchors|
  {
    if anchors != [] {
      var a := anchors[0];
      if !IsRestaurantLink(a.href) || LinkOf(a) in Links(results) {
        ScanDistinct(anchors[1..], cuisine, limit, results);
      } else {
        var s := ScrapedRestaurant(a, cuisine);
        var more := results + [s];
        assert DistinctLinks(more) by {
          forall i | 0 <= i < |results| ensures results[i].link != s.link {
            assert results[i].link.value in Links(results);
          }
        }
        if |more| < limit {
          ScanDistinct(anchors[1..], cuisine, limit, more);
        }
      }
    }
  }

  /** Whether `r` is the record scraped from one of the restaurant anchors. */
  predicate FromAnchor(r: Candidate, anchors: seq<Anchor>, cuisine: string) {
    exists a :: a in anchors && IsRestaurantLink(a.href) && r == ScrapedRestaurant(a, cuisine)
  }

  /** Every result the scan adds is the record of a restaurant anchor. */
  lemma {:induction false} ScanFromAnchors(anchors: seq<Anchor>, cuisine: string, limit: int, results: seq<Candidate>)
    ensures var r := Scan(anchors, cuisine, limit, results);
            forall i :: |results| <= i < |r| ==> FromAnchor(r[i], anchors, cuisine)
    decreases |anchors|
  {
    if anchors != [] {
      var a := anchors[0];
      var r := Scan(anchors, cuisine, limit, results);
      MembersOfTail(anchors);
      if !IsRestaurantLink(a.href) || LinkOf(a) in Links(results) {
        ScanFromAnchors(anchors[1..], cuisine, limit, results);
        assert r == Scan(anchors[1..], cuisine, limit, results);
        forall i | |results| <= i < |r| ensures FromAnchor(r[i], anchors, cuisine) {
          assert FromAnchor(r[i], anchors[1..], cuisine);
          var b :| b in anchors[1..] && IsRestaurantLink(b.href) && r[i] == ScrapedRestaurant(b, cuisine);
          assert b in anchors;
        }
      } else {
        var s := ScrapedRestaurant(a, cuisine);
        var more := results + [s];
        if |more| < limit {
          ScanFromAnchors(anchors[1..], cuisine, limit, more);
          ScanExtends(anchors[1..], cuisine, limit, more);
          assert r == Scan(anchors[1..], cuisine, limit, more);
          assert r[|results|] == r[..|more|][|results|] == s;
        }
        forall i | |results| <= i < |r| ensures FromAnchor(r[i], anchors, cuisine) {
          if i == |results| {
            assert anchors[0] in anchors && IsRestaurantLink(a.href) && r[i] == ScrapedRestaurant(a, cuisine);
          } else {
            assert FromAnchor(r[i], anchors[1..], cuisine);
            var b :| b in anchors[1..] && IsRestaurantLink(b.href) && r[i] == ScrapedRestaurant(b, cuisine);
            assert b in anchors;
          }
        }
      }
    }
  }

  /** Membership in the rest of the anchors, as ScanFromAnchors needs it. */
  lemma MembersOfTail<T>(s: seq<T>)
    requires s != []
    ensures forall x :: x in s[1..] ==> x in s
  {
  }

  /** No scanned link has a fragment, and each is a TripAdvisor link. */
  lemma ScrapedLinkShape(a: Anchor, cuisine: string)
    ensures var l := ScrapedRestaurant(a, cuisine).link;
            l.Some? && StartsWith(l.value, TripAdvisorHost) && '#' !in l.value[|TripAdvisorHost|..]
            && ScrapedRestaurant(a, cuisine).estimatedPrice == Some(15.0)
  {
    var l := LinkOf(a);
    assert l[|TripAdvisorHost|..] == BeforeFirst(a.href, '#');
    assert l[..|TripAdvisorHost|] == TripAdvisorHost;
  }

  /** The outcome of fetching the search page: it raised, or these anchors. */
  datatype PageReply = FetchFailed | Page(anchors: seq<Anchor>)

  const MockRestaurants: seq<Candidate> := [
    RestaurantRecord("Local Noodle House", "https://www.tripadvisor.com/mock1", 8.0, "local"),
    RestaurantRecord("Seafood Delight", "https://www.tripadvisor.com/mock2", 25.0, "seafood"),
    RestaurantRecord("Vegetarian Corner", "https://www.tripadvisor.com/mock3", 12.0, "vegetarian")
  ]

  /** The search text sent to TripAdvisor. */
  function SearchQuery(destination: string, cuisine: string): string {
    Strip(destination + " " + cuisine + " restaurants")
  }

  /** `tripadvisor_restaurants_search`; `fetch` answers the request for a query. */
  method TripAdvisorSearch(fetch: string -> PageReply, destination: string, cuisine: string, limit: int)
    returns (restaurants: seq<Candidate>)
    ensures var page := fetch(SearchQuery(destination, cuisine));
            var scanned := if page.Page? then Scan(page.anchors, cuisine, limit, []) else [];
            restaurants == if scanned != [] then scanned else SliceTo(MockRestaurants, limit)
  {
    var page := fetch(SearchQuery(destination, cuisine));
    if page.Page? {
      var results := ScanAnchors(page.anchors, cuisine, limit);
      if results != [] {
        return results;
      }
    }
    restaurants := SliceTo(MockRestaurants, limit);
  }

  /** The mock fallback is `mock[:limit]`: a negative limit counts from the end, as Python slices do. */
  lemma MockFallbackExamples()
    ensures SliceTo(MockRestaurants, 2) == MockRestaurants[..2]
    ensures SliceTo(MockRestaurants, 10) == MockRestaurants
    ensures SliceTo(MockRestaurants, -1) == MockRestaurants[..2]
    ensures SliceTo(MockRestaurants, 0) == []
  {
  }
}
