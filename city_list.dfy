/**
 * The world-cities screen: search scopes, the scope and text filters of the search use case, the
 * scope list built from the loaded cities, and the UTC-offset label of a city row.
 *
 * `localizedCaseInsensitiveContains` is a parameter `contains(text, term)`; the time zone lookup
 * (`TimeZone(identifier:)?.secondsFromGMT()`) is given as an optional offset in seconds.
 */
module CityList {
  import opened Wrappers
  import opened Seqs
  import opened Text
  import opened Decimal
  import opened CityCsv

  datatype SearchScope = All | Country(country: string) | Timezone(timezone: string)

  /** The test `filterByScope` applies to one city. */
  predicate InScope(city: WorldCity, scope: SearchScope, contains: (string, string) -> bool) {
    match scope
    case All => true
    case Country(c) => contains(city.country, c)
    case Timezone(tz) => contains(city.timezone, tz)
  }

  /** `filterByScope(_:scope:)`. */
  function FilterByScope(cities: seq<WorldCity>, scope: SearchScope, contains: (string, string) -> bool): (r: seq<WorldCity>)
    ensures forall c :: c in r <==> c in cities && InScope(c, scope, contains)
    ensures scope.All? ==> r == cities
    ensures IsSubsequence(r, cities)
  {
    if scope.All? then
      assert IsSubsequence(Filter(cities, c => true), cities) by { FilterIsSubsequence(cities, c => true); }
      FilterKeepsAll(cities, c => true);
      cities
    else
      FilterIsSubsequence(cities, c => InScope(c, scope, contains));
      Filter(cities, c => InScope(c, scope, contains))
  }

  /** The test `filterBySearchText` applies to one city. */
  predicate MatchesText(city: WorldCity, text: string, contains: (string, string) -> bool) {
    contains(city.name, text) || contains(city.country, text) || contains(city.subcountry, text)
  }

  /** `filterBySearchText(_:searchText:)`. */
  function FilterBySearchText(cities: seq<WorldCity>, text: string, contains: (string, string) -> bool): (r: seq<WorldCity>)
    ensures text == "" ==> r == cities
    ensures text != "" ==> forall c :: c in r <==> c in cities && MatchesText(c, text, contains)
    ensures IsSubsequence(r, cities)
  {
    if text == "" then
      assert IsSubsequence(Filter(cities, c => true), cities) by { FilterIsSubsequence(cities, c => true); }
      FilterKeepsAll(cities, c => true);
      cities
    else
      FilterIsSubsequence(cities, c => MatchesText(c, text, contains));
      Filter(cities, c => MatchesText(c, text, contains))
  }

  /** `execute(scope:searchText:)` of the search use case, given what the repository delivered. */
  function Execute(fetched: Result<seq<WorldCity>, DataError>, scope: SearchScope, text: string,
                   contains: (string, string) -> bool): (r: Result<seq<WorldCity>, DataError>)
    ensures r.Ok? <==> fetched.Ok?
    ensures r.Err? ==> r.error == fetched.error
    ensures r.Ok? ==> forall c :: c in r.value <==>
      c in fetched.value && InScope(c, scope, contains) && (text == "" || MatchesText(c, text, contains))
  {
    match fetched
    case Err(e) => Err(e)
    case Ok(cities) => Ok(FilterBySearchText(FilterByScope(cities, scope, contains), text, contains))
  }

  /** `cities.map { $0.country }`: each city's country, in order. */
  function CountriesOf(cities: seq<WorldCity>): (r: seq<string>)
    ensures forall name :: name in r <==> exists c :: c in cities && c.country == name
  {
    var r := seq(|cities|, i requires 0 <= i < |cities| => cities[i].country);
    forall name | name in r ensures exists c :: c in cities && c.country == name {
      var k :| 0 <= k < |r| && r[k] == name;
      assert cities[k] in cities;
    }
    forall name | (exists c :: c in cities && c.country == name) ensures name in r {
      var c :| c in cities && c.country == name;
      var k :| 0 <= k < |cities| && cities[k] == c;
      assert r[k] == name;
    }
    r
  }

  /** `uniqueCountries.map { SearchScope.country($0) }`. */
  function CountryScopes(names: seq<string>): (r: seq<SearchScope>)
    ensures |r| == |names| && forall i :: 0 <= i < |r| ==> r[i] == Country(names[i])
    ensures forall name :: Country(name) in r <==> name in names
    ensures All !in r
  {
    var r := seq(|names|, i requires 0 <= i < |names| => Country(names[i]));
    forall name | name in names ensures Country(name) in r {
      var k :| 0 <= k < |names| && names[k] == name;
      assert r[k] == Country(name);
    }
    r
  }

  /** `updateAvailableScopes(from:)`: "All", then one scope per country, ascending and without repeats. */
  function AvailableScopes(cities: seq<WorldCity>): (r: seq<SearchScope>)
    ensures |r| >= 1 && r[0] == All
    ensures forall i :: 1 <= i < |r| ==> r[i].Country?
    ensures forall i, j :: 1 <= i < j < |r| ==> Less(r[i].country, r[j].country)
    ensures forall name :: Country(name) in r <==> exists c :: c in cities && c.country == name
  {
    var sorted := SortDistinct(CountriesOf(cities));
    var scopes := CountryScopes(sorted);
    assert forall i :: 1 <= i < |[All] + scopes| ==> ([All] + scopes)[i] == scopes[i - 1];
    [All] + scopes
  }

  /** Euclidean division of a natural number, bounded as a product. */
  lemma DivBounds(n: nat, b: int)
    requires b > 0
    ensures 0 <= (n / b) * b <= n && n - (n / b) * b < b
  {
    var q, r := n / b, n % b;
    assert n == q * b + r && 0 <= r < b;
    assert q >= 0;
    MulNonnegative(q, b);
  }

  lemma MulNonnegative(x: int, y: int)
    requires x >= 0 && y >= 0
    ensures x * y >= 0
  {
  }

  lemma MulNegate(x: int, y: int)
    ensures (-x) * y == -(x * y)
  {
  }

  /** Swift's `/` on `Int`: the quotient rounded toward zero. */
  function TruncDiv(a: int, b: int): (q: int)
    requires b > 0
    ensures a >= 0 ==> 0 <= q * b <= a && a - q * b < b
    ensures a < 0 ==> a <= q * b <= 0 && q * b - a < b
  {
    if a >= 0 then
      DivBounds(a, b);
      a / b
    else
      DivBounds(-a, b);
      MulNegate((-a) / b, b);
      -((-a) / b)
  }

  /** Swift's `%` on `Int`: the remainder takes the sign of the dividend. */
  function TruncRem(a: int, b: int): (r: int)
    requires b > 0
    ensures TruncDiv(a, b) * b + r == a
    ensures a >= 0 ==> 0 <= r < b
    ensures a < 0 ==> -b < r <= 0
  {
    a - TruncDiv(a, b) * b
  }

  function Abs(a: int): nat {
    if a < 0 then -a else a
  }

  /**
   * The label of `formattedUTCOffset(for:)` as the source computes it: hours by truncating division,
   * minutes from the absolute remainder, the sign taken from the hours.
   */
  function UtcOffsetTextAsWritten(offset: int): (t: string)
    ensures |t| >= 5 && t[..3] == "UTC"
  {
    var hours := TruncDiv(offset, 3600);
    var minutes := Abs(TruncRem(offset, 3600)) / 60;
    if offset == 0 then "UTC+0"
    else if minutes == 0 then "UTC" + SignedText(hours)
    else "UTC" + SignedText(hours) + ":" + TwoDigitText(minutes)
  }

  /** The label with the sign taken from the offset itself. */
  function UtcOffsetText(offset: int): (t: string)
    ensures |t| >= 5 && t[..3] == "UTC" && t[3] == (if offset < 0 then '-' else '+')
  {
    var sign := if offset < 0 then "-" else "+";
    var hours := Abs(offset) / 3600;
    var minutes := (Abs(offset) % 3600) / 60;
    if offset == 0 then "UTC+0"
    else if minutes == 0 then "UTC" + sign + Digits(hours)
    else "UTC" + sign + Digits(hours) + ":" + TwoDigitText(minutes)
  }

  /** `formattedUTCOffset(for:)`: no label for an unknown time zone. */
  function FormattedUtcOffset(zoneOffset: Option<int>): (r: Option<string>)
    ensures r.Some? <==> zoneOffset.Some?
    ensures r.Some? ==> r.value == UtcOffsetText(zoneOffset.value)
  {
    match zoneOffset
    case None => None
    case Some(s) => Some(UtcOffsetText(s))
  }

  lemma SignedTextSplit(i: int)
    ensures SignedText(i) == (if i >= 0 then "+" else "-") + Digits(Abs(i))
  {
    var s := SignedText(i);
    assert s == [s[0]] + s[1..];
  }

  /** The two labels differ only for offsets strictly between minus one hour and zero. */
  lemma LabelsAgreeOutsideFirstNegativeHour(offset: int)
    requires offset <= -3600 || offset >= 0
    ensures UtcOffsetTextAsWritten(offset) == UtcOffsetText(offset)
  {
    var h := TruncDiv(offset, 3600);
    assert Abs(h) == Abs(offset) / 3600;
    assert Abs(TruncRem(offset, 3600)) == Abs(offset) % 3600;
    SignedTextSplit(h);
    assert (h >= 0) == (offset >= 0);
  }

  /** The position of the first `c` in `s`. */
  function IndexOf(s: string, c: char): (r: Option<nat>)
    ensures r.Some? ==> r.value < |s| && s[r.value] == c && c !in s[..r.value]
    ensures r.None? ==> c !in s
  {
    if s == [] then None
    else if s[0] == c then Some(0)
    else match IndexOf(s[1..], c)
      case None => None
      case Some(k) => assert s[..k + 1] == [s[0]] + s[1..][..k]; Some(k + 1)
  }

  predicate AllDigits(s: string) {
    forall i :: 0 <= i < |s| ==> IsDigit(s[i])
  }

  /** Reads a label "UTC±h" or "UTC±h:mm" back as an offset in seconds. */
  function ParseUtcOffset(t: string): (r: Option<int>) {
    if |t| < 5 || t[..3] != "UTC" || (t[3] != '+' && t[3] != '-') then None
    else ParseOffsetBody(if t[3] == '-' then -1 else 1, t[4..])
  }

  /** The part of a label after its sign: "h" or "h:mm". */
  function ParseOffsetBody(sign: int, body: string): (r: Option<int>) {
    match IndexOf(body, ':')
    case None =>
      if AllDigits(body) then Some(sign * ValueOf(body) * 3600) else None
    case Some(k) =>
      var hours := body[..k];
      var minutes := body[k + 1..];
      if hours != "" && AllDigits(hours) && |minutes| == 2 && AllDigits(minutes)
      then Some(sign * (ValueOf(hours) * 3600 + ValueOf(minutes) * 60))
      else None
  }

  /** A label is read by its sign and the part after it. */
  lemma ParseSigned(sign: char, body: string)
    requires sign == '+' || sign == '-'
    requires |body| >= 1
    ensures ParseUtcOffset("UTC" + [sign] + body) == ParseOffsetBody(if sign == '-' then -1 else 1, body)
  {
    var t := "UTC" + [sign] + body;
    assert t[..3] == "UTC" && t[3] == sign && t[4..] == body;
  }

  lemma DigitsHaveNoColon(n: nat)
    ensures ':' !in Digits(n)
  {
    var d := Digits(n);
    forall i | 0 <= i < |d| ensures d[i] != ':' {
      assert IsDigit(d[i]);
    }
  }

  lemma ParseWholeHours(sign: char, hours: nat)
    requires sign == '+' || sign == '-'
    ensures ParseUtcOffset("UTC" + [sign] + Digits(hours)) == Some((if sign == '-' then -1 else 1) * hours * 3600)
  {
    ParseSigned(sign, Digits(hours));
    DigitsHaveNoColon(hours);
    DigitsRoundTrip(hours);
  }

  /** The first colon of `h + ":" + m`, for `h` without colons, splits it back into `h` and `m`. */
  lemma ColonSplit(h: string, m: string)
    requires ':' !in h
    ensures IndexOf(h + ":" + m, ':') == Some(|h|)
    ensures (h + ":" + m)[..|h|] == h && (h + ":" + m)[|h| + 1..] == m
  {
    var body := h + ":" + m;
    assert body[|h|] == ':' && body[..|h|] == h;
  }

  /** Hours, a colon and two minute digits read as that many seconds, with the sign applied. */
  lemma ParseColonBody(sign: int, h: string, m: string)
    requires h != "" && AllDigits(h) && ':' !in h && |m| == 2 && AllDigits(m)
    ensures ParseOffsetBody(sign, h + ":" + m) == Some(sign * (ValueOf(h) * 3600 + ValueOf(m) * 60))
  {
    ColonSplit(h, m);
  }

  /** A label with hours, a colon and two minute digits reads back as that many seconds. */
  lemma ParseColonForm(sign: char, h: string, m: string)
    requires sign == '+' || sign == '-'
    requires h != "" && AllDigits(h) && ':' !in h && |m| == 2 && AllDigits(m)
    ensures ParseUtcOffset("UTC" + [sign] + h + ":" + m) == Some((if sign == '-' then -1 else 1) * (ValueOf(h) * 3600 + ValueOf(m) * 60))
  {
    assert "UTC" + [sign] + h + ":" + m == "UTC" + [sign] + (h + ":" + m);
    ParseSigned(sign, h + ":" + m);
    ParseColonBody(if sign == '-' then -1 else 1, h, m);
  }

  lemma ParseHoursMinutes(sign: char, hours: nat, minutes: nat)
    requires sign == '+' || sign == '-'
    requires minutes < 100
    ensures ParseUtcOffset("UTC" + [sign] + Digits(hours) + ":" + TwoDigitText(minutes))
      == Some((if sign == '-' then -1 else 1) * (hours * 3600 + minutes * 60))
  {
    DigitsHaveNoColon(hours);
    DigitsRoundTrip(hours);
    ParseColonForm(sign, Digits(hours), TwoDigitText(minutes));
  }

  lemma WholeMinutes(offset: int)
    requires offset % 60 == 0
    ensures Abs(offset) == (Abs(offset) / 3600) * 3600 + ((Abs(offset) % 3600) / 60) * 60
  {
    var a := Abs(offset);
    var k := offset / 60;
    assert offset == 60 * k;
    assert a == 60 * Abs(k);
    var r := a % 3600;
    assert a == (a / 3600) * 3600 + r;
    assert r == 60 * (Abs(k) - 60 * (a / 3600));
    assert r / 60 == Abs(k) - 60 * (a / 3600);
  }

  /** The sign of an offset times its hours and minutes gives the offset back. */
  lemma SignedSeconds(offset: int, hours: nat, minutes: nat)
    requires Abs(offset) == hours * 3600 + minutes * 60
    ensures (if offset < 0 then -1 else 1) * (hours * 3600 + minutes * 60) == offset
    ensures minutes == 0 ==> (if offset < 0 then -1 else 1) * hours * 3600 == offset
  {
  }

  /** Every whole-minute offset is read back from its label. */
  lemma UtcOffsetRoundTrip(offset: int)
    requires offset % 60 == 0
    ensures ParseUtcOffset(UtcOffsetText(offset)) == Some(offset)
  {
    var hours := Abs(offset) / 3600;
    var minutes := (Abs(offset) % 3600) / 60;
    var sign := if offset < 0 then '-' else '+';
    WholeMinutes(offset);
    SignedSeconds(offset, hours, minutes);
    if offset == 0 {
      ParseWholeHours('+', 0);
      assert UtcOffsetText(offset) == "UTC" + ['+'] + Digits(0);
    } else if minutes == 0 {
      ParseWholeHours(sign, hours);
      assert UtcOffsetText(offset) == "UTC" + [sign] + Digits(hours);
    } else {
      ParseHoursMinutes(sign, hours, minutes);
      assert UtcOffsetText(offset) == "UTC" + [sign] + Digits(hours) + ":" + TwoDigitText(minutes);
    }
  }

  /** Half an hour behind UTC is labelled as if it were half an hour ahead. */
  lemma AsWrittenLosesSign()
    ensures UtcOffsetTextAsWritten(-1800) == "UTC+0:30"
    ensures ParseUtcOffset(UtcOffsetTextAsWritten(-1800)) == Some(1800)
  {
    assert TruncDiv(-1800, 3600) == 0;
    assert TruncRem(-1800, 3600) == -1800;
    assert SignedText(0) == ['+'] + Digits(0) == "+0";
    assert TwoDigitText(30) == "30";
    assert UtcOffsetTextAsWritten(-1800) == "UTC" + ['+'] + Digits(0) + ":" + TwoDigitText(30);
    ParseHoursMinutes('+', 0, 30);
  }
}
