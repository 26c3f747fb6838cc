/**
 * The CSV reading of the world-cities list: the quote-aware line splitter, row validation and the
 * file-level pipeline (split into lines, trim, drop blank lines, skip a header, build cities).
 *
 * The splitter is a simplified form of the CSV format of RFC 4180: a double quote only toggles
 * quoting and is dropped, so a doubled quote inside a quoted field is not an escaped quote.
 * Trimming (`trimmingCharacters(in: .whitespacesAndNewlines)`) is a parameter `trim`.
 */
module CityCsv {
  import opened Wrappers
  import opened Seqs
  import opened Text

  /** `DataError`. */
  datatype DataError =
    | FileNotFound
    | InvalidEncoding
    | InvalidRowFormat
    | EmptyFile
    | CancellationError
    | NetworkError(message: string)

  /** `WorldCity`; its random `id` is not modelled. */
  datatype WorldCity = WorldCity(name: string, country: string, subcountry: string, geonameid: string, timezone: string)

  /** The fields of `rest`, when the field read so far is `current` and quoting is `inQuotes`. */
  function SplitFrom(rest: string, current: string, inQuotes: bool): (r: seq<string>)
    ensures |r| >= 1
    decreases |rest|
  {
    if rest == [] then [current]
    else if rest[0] == '"' then SplitFrom(rest[1..], current, !inQuotes)
    else if rest[0] == ',' && !inQuotes then [current] + SplitFrom(rest[1..], "", inQuotes)
    else SplitFrom(rest[1..], current + [rest[0]], inQuotes)
  }

  /** The fields of a whole line. */
  function Fields(line: string): (r: seq<string>)
    ensures |r| >= 1
  {
    SplitFrom(line, "", false)
  }

  /** `parseCSVLine(_:)`. */
  method ParseCsvLine(line: string) returns (result: seq<string>)
    ensures result == Fields(line)
  {
    result := [];
    var current := "";
    var inQuotes := false;
    var i := 0;
    while i < |line|
      invariant 0 <= i <= |line|
      invariant result + SplitFrom(line[i..], current, inQuotes) == Fields(line)
    {
      var c := line[i];
      assert line[i..][0] == c && line[i..][1..] == line[i + 1..];
      if c == '"' {
        inQuotes := !inQuotes;
      } else if c == ',' && !inQuotes {
        result := result + [current];
        current := "";
      } else {
        current := current + [c];
      }
      i := i + 1;
    }
    assert line[i..] == [];
    result := result + [current];
  }

  /** The commas of `rest` that lie outside quotes, when quoting starts as `inQuotes`. */
  function UnquotedCommas(rest: string, inQuotes: bool): nat
    decreases |rest|
  {
    if rest == [] then 0
    else if rest[0] == '"' then UnquotedCommas(rest[1..], !inQuotes)
    else (if rest[0] == ',' && !inQuotes then 1 else 0) + UnquotedCommas(rest[1..], inQuotes)
  }

  /** `rest` without its double quotes. */
  function WithoutQuotes(rest: string): (r: string)
    ensures '"' !in r
    ensures |r| <= |rest|
  {
    if rest == [] then ""
    else if rest[0] == '"' then WithoutQuotes(rest[1..])
    else [rest[0]] + WithoutQuotes(rest[1..])
  }

  lemma {:induction false} SplitFromCount(rest: string, current: string, inQuotes: bool)
    ensures |SplitFrom(rest, current, inQuotes)| == UnquotedCommas(rest, inQuotes) + 1
    decreases |rest|
  {
    if rest == [] {
    } else if rest[0] == '"' {
      SplitFromCount(rest[1..], current, !inQuotes);
    } else if rest[0] == ',' && !inQuotes {
      SplitFromCount(rest[1..], "", inQuotes);
    } else {
      SplitFromCount(rest[1..], current + [rest[0]], inQuotes);
    }
  }

  /** A line has one field more than it has commas outside quotes. */
  lemma FieldCount(line: string)
    ensures |Fields(line)| == UnquotedCommas(line, false) + 1
  {
    SplitFromCount(line, "", false);
  }

  lemma {:induction false} SplitFromText(rest: string, current: string, inQuotes: bool)
    ensures Join(SplitFrom(rest, current, inQuotes), ",") == current + WithoutQuotes(rest)
    decreases |rest|
  {
    if rest == [] {
    } else if rest[0] == '"' {
      SplitFromText(rest[1..], current, !inQuotes);
    } else if rest[0] == ',' && !inQuotes {
      SplitFromText(rest[1..], "", inQuotes);
      SplitFromTextAtComma(rest, current, inQuotes);
    } else {
      SplitFromText(rest[1..], current + [rest[0]], inQuotes);
      SplitFromTextAtOther(rest, current, inQuotes);
    }
  }

  /** The step of `SplitFromText` at a comma outside quotes, which starts a new field. */
  lemma SplitFromTextAtComma(rest: string, current: string, inQuotes: bool)
    requires rest != [] && rest[0] == ',' && !inQuotes
    requires Join(SplitFrom(rest[1..], "", inQuotes), ",") == "" + WithoutQuotes(rest[1..])
    ensures Join(SplitFrom(rest, current, inQuotes), ",") == current + WithoutQuotes(rest)
  {
    var tail := SplitFrom(rest[1..], "", inQuotes);
    var w := WithoutQuotes(rest[1..]);
    assert "" + w == w;
    JoinCons(current, tail, ",");
    calc {
      Join(SplitFrom(rest, current, inQuotes), ",");
      Join([current] + tail, ",");
      current + "," + Join(tail, ",");
      current + "," + w;
      { AppendAssoc(current, ",", w); }
      current + ("," + w);
      current + WithoutQuotes(rest);
    }
  }

  /** The step of `SplitFromText` at any other character, which joins the current field. */
  lemma SplitFromTextAtOther(rest: string, current: string, inQuotes: bool)
    requires rest != [] && rest[0] != '"' && !(rest[0] == ',' && !inQuotes)
    requires Join(SplitFrom(rest[1..], current + [rest[0]], inQuotes), ",") == current + [rest[0]] + WithoutQuotes(rest[1..])
    ensures Join(SplitFrom(rest, current, inQuotes), ",") == current + WithoutQuotes(rest)
  {
    assert WithoutQuotes(rest) == [rest[0]] + WithoutQuotes(rest[1..]);
  }

  lemma AppendAssoc(a: string, b: string, c: string)
    ensures a + b + c == a + (b + c)
  {
  }

  /** Joining a first part in front of at least one more. */
  lemma JoinCons(head: string, tail: seq<string>, sep: string)
    requires |tail| >= 1
    ensures Join([head] + tail, sep) == head + sep + Join(tail, sep)
  {
    assert ([head] + tail)[1..] == tail;
  }

  /** Splitting loses only the quote characters: the fields joined with commas give back the line without its quotes. */
  lemma FieldsKeepText(line: string)
    ensures Join(Fields(line), ",") == WithoutQuotes(line)
  {
    SplitFromText(line, "", false);
  }

  /** A line without quotes is split at every comma, and no field contains a comma. */
  lemma {:induction false} UnquotedFieldsHaveNoComma(rest: string, current: string)
    requires '"' !in rest && ',' !in current
    ensures forall f :: f in SplitFrom(rest, current, false) ==> ',' !in f
    decreases |rest|
  {
    if rest != [] {
      assert rest[0] in rest;
      assert '"' !in rest[1..] by {
        forall k | 0 <= k < |rest[1..]| ensures rest[1..][k] != '"' {
          assert rest[1..][k] == rest[k + 1];
        }
      }
      if rest[0] == ',' {
        UnquotedFieldsHaveNoComma(rest[1..], "");
      } else {
        UnquotedFieldsHaveNoComma(rest[1..], current + [rest[0]]);
      }
    }
  }

  /** `WorldCity.init(from:)`: at least five columns, each of the first five trimmed; later columns are ignored. */
  function CityFromRow(row: seq<string>, trim: string -> string): (r: Result<WorldCity, DataError>)
    ensures r.Err? <==> |row| < 5
    ensures r.Err? ==> r.error == InvalidRowFormat
    ensures r.Ok? ==>
      (r.value.name == trim(row[0]) && r.value.country == trim(row[1])
       && r.value.subcountry == trim(row[2]) && r.value.geonameid == trim(row[3]) && r.value.timezone == trim(row[4]))
  {
    if |row| < 5 then Err(InvalidRowFormat)
    else Ok(WorldCity(trim(row[0]), trim(row[1]), trim(row[2]), trim(row[3]), trim(row[4])))
  }

  lemma ExtraColumnsIgnored(row: seq<string>, trim: string -> string)
    requires |row| >= 5
    ensures CityFromRow(row, trim) == CityFromRow(row[..5], trim)
  {
  }

  /** The characters `CharacterSet.newlines` separates lines at. */
  predicate IsNewline(c: char) {
    c as int in {0x0A, 0x0B, 0x0C, 0x0D, 0x85, 0x2028, 0x2029}
  }

  function SplitLinesFrom(rest: string, current: string): (r: seq<string>)
    ensures |r| >= 1
    decreases |rest|
  {
    if rest == [] then [current]
    else if IsNewline(rest[0]) then [current] + SplitLinesFrom(rest[1..], "")
    else SplitLinesFrom(rest[1..], current + [rest[0]])
  }

  /** `components(separatedBy: .newlines)`: the pieces between newline characters, empty ones included. */
  function SplitLines(content: string): (r: seq<string>)
    ensures |r| >= 1
  {
    SplitLinesFrom(content, "")
  }

  lemma {:induction false} SplitLinesFromHasNoNewline(rest: string, current: string)
    requires forall k :: 0 <= k < |current| ==> !IsNewline(current[k])
    ensures forall l :: l in SplitLinesFrom(rest, current) ==> forall k :: 0 <= k < |l| ==> !IsNewline(l[k])
    decreases |rest|
  {
    if rest != [] {
      if IsNewline(rest[0]) {
        SplitLinesFromHasNoNewline(rest[1..], "");
      } else {
        SplitLinesFromHasNoNewline(rest[1..], current + [rest[0]]);
      }
    }
  }

  /** No line holds a newline character. */
  lemma LinesHaveNoNewline(content: string)
    ensures forall l :: l in SplitLines(content) ==> forall k :: 0 <= k < |l| ==> !IsNewline(l[k])
  {
    SplitLinesFromHasNoNewline(content, "");
  }

  /** The trimmed lines of the content that are not blank. */
  function CleanLines(content: string, trim: string -> string): (r: seq<string>)
    ensures forall l :: l in r ==> l != "" && exists k :: 0 <= k < |SplitLines(content)| && trim(SplitLines(content)[k]) == l
  {
    var lines := SplitLines(content);
    Filter(Trimmed(lines, trim), (l: string) => l != "")
  }

  function Trimmed(lines: seq<string>, trim: string -> string): (r: seq<string>)
    ensures |r| == |lines| && forall i :: 0 <= i < |lines| ==> r[i] == trim(lines[i])
  {
    seq(|lines|, i requires 0 <= i < |lines| => trim(lines[i]))
  }

  /** Every line that is not blank once trimmed is kept, trimmed, and in its place in the order. */
  lemma CleanLinesKeepsNonBlank(content: string, trim: string -> string)
    ensures forall l :: l in SplitLines(content) && trim(l) != "" ==> trim(l) in CleanLines(content, trim)
    ensures IsSubsequence(CleanLines(content, trim), Trimmed(SplitLines(content), trim))
  {
    var lines := SplitLines(content);
    forall l | l in lines && trim(l) != ""
      ensures trim(l) in CleanLines(content, trim)
    {
      var k :| 0 <= k < |lines| && lines[k] == l;
      assert Trimmed(lines, trim)[k] == trim(l);
    }
    FilterIsSubsequence(Trimmed(lines, trim), (l: string) => l != "");
  }

  /** The data lines: the first line is a header, and is dropped, exactly when it contains "name,country". */
  function DataLines(lines: seq<string>): (r: seq<string>)
    requires lines != []
    ensures Contains(lines[0], "name,country") ==> r == lines[1..]
    ensures !Contains(lines[0], "name,country") ==> r == lines
  {
    if Contains(lines[0], "name,country") then lines[1..] else lines
  }

  /** The `compactMap` of `parseCSV`: the first row that is too short fails the whole list. */
  function CitiesOf(lines: seq<string>, trim: string -> string): (r: Result<seq<WorldCity>, DataError>)
    ensures r.Ok? <==> forall i :: 0 <= i < |lines| ==> |Fields(lines[i])| >= 5
    ensures r.Err? ==> r.error == InvalidRowFormat
    ensures r.Ok? ==>
      (|r.value| == |lines| && forall i :: 0 <= i < |lines| ==> CityFromRow(Fields(lines[i]), trim) == Ok(r.value[i]))
  {
    if lines == [] then Ok([])
    else
      match CityFromRow(Fields(lines[0]), trim)
      case Err(e) => Err(e)
      case Ok(city) =>
        match CitiesOf(lines[1..], trim)
        case Err(e) => Err(e)
        case Ok(rest) =>
          assert forall i :: 1 <= i < |lines| ==> lines[i] == lines[1..][i - 1];
          Ok([city] + rest)
  }

  /** `parseCSV(content:)`. */
  function ParseCsv(content: string, trim: string -> string): (r: Result<seq<WorldCity>, DataError>)
    ensures r == Err(EmptyFile) <==> CleanLines(content, trim) == []
    ensures CleanLines(content, trim) != [] ==> r == CitiesOf(DataLines(CleanLines(content, trim)), trim)
  {
    var lines := CleanLines(content, trim);
    if lines == [] then Err(EmptyFile)
    else CitiesOf(DataLines(lines), trim)
  }
}
