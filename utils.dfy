/**
 * The string helpers of `Utils`: the Ethereum address check, the address shortener, and
 * the text `exportToCSV` builds before writing it to a file.
 */
module Utils {
  import opened Wrappers
  import Strings

  // ---- validateContractAddress: /^0x[a-fA-F0-9]{40}$/ ----

  predicate IsHexDigit(c: char) {
    '0' <= c <= '9' || 'a' <= c <= 'f' || 'A' <= c <= 'F'
  }

  /** `[a-fA-F0-9]{n}$`: exactly `n` hex digits and then the end of the text. */
  predicate HexRun(t: string, n: nat)
    decreases n
  {
    if n == 0 then t == [] else t != [] && IsHexDigit(t[0]) && HexRun(t[1..], n - 1)
  }

  /** The number of hex digits after the `0x` prefix. */
  const AddressDigits: nat := 40

  /** `/^0x[a-fA-F0-9]{40}$/.test(address)`: the prefix, then the counted hex run to the end. */
  predicate ValidateContractAddress(address: string) {
    |address| >= 2 && address[0] == '0' && address[1] == 'x' && HexRun(address[2..], AddressDigits)
  }

  // ---- formatAddress ----

  /** `formatAddress`: a missing, empty or shorter-than-10 address as it is, else `first6...last4`. */
  function FormatAddress(address: Option<string>): (r: Option<string>)
    ensures r.None? <==> address.None?
  {
    if address.None? || address.value == "" || |address.value| < 10 then address
    else
      var a := address.value;
      Some(a[..6] + "..." + a[|a| - 4..])
  }

  // ---- the content of exportToCSV ----

  /** A cell value as `Object.values` yields it. */
  datatype Value = Str(s: string) | Int(i: int) | Bool(b: bool) | Null | Undefined

  /** A data row: an object with its keys in order, or a primitive value (`null` included). */
  datatype Row = Record(fields: seq<(string, Value)>) | Scalar(v: Value)

  /** `typeof row === 'object'`, which also holds for `null`. */
  predicate IsObject(r: Row) {
    r.Record? || r.v.Null?
  }

  function BoolText(b: bool): string {
    if b then "true" else "false"
  }

  /** A value as `Array.prototype.join` writes it: `null` and `undefined` become empty. */
  function JoinText(v: Value): string {
    match v
    case Str(s) => s
    case Int(i) => Strings.IntToString(i)
    case Bool(b) => BoolText(b)
    case Null => ""
    case Undefined => ""
  }

  /** A value as `row + '\n'` writes it. */
  function ConcatText(v: Value): string {
    match v
    case Str(s) => s
    case Int(i) => Strings.IntToString(i)
    case Bool(b) => BoolText(b)
    case Null => "null"
    case Undefined => "undefined"
  }

  predicate NeedsQuoting(s: string) {
    ',' in s || '"' in s
  }

  /** `s.replace(/"/g, '""')`. */
  function DoubleQuotes(s: string): string {
    if s == [] then []
    else (if s[0] == '"' then "\"\"" else [s[0]]) + DoubleQuotes(s[1..])
  }

  /** A string value containing `,` or `"` is quoted with its quotes doubled; any other value is kept. */
  function Escape(v: Value): Value {
    if v.Str? && NeedsQuoting(v.s) then Str("\"" + DoubleQuotes(v.s) + "\"") else v
  }

  /** `parts.join(sep)`. */
  function Join(parts: seq<string>, sep: string): string {
    if parts == [] then ""
    else if |parts| == 1 then parts[0]
    else parts[0] + sep + Join(parts[1..], sep)
  }

  function Keys(fields: seq<(string, Value)>): seq<string> {
    seq(|fields|, i requires 0 <= i < |fields| => fields[i].0)
  }

  /** The mapped values of an object row, as `join` writes them. */
  function Cells(fields: seq<(string, Value)>): seq<string> {
    seq(|fields|, i requires 0 <= i < |fields| => JoinText(Escape(fields[i].1)))
  }

  /** The line a row adds; None when the row is `null`, whose `Object.values` throws. */
  function Line(r: Row): Option<string> {
    if r.Record? then Some(Join(Cells(r.fields), ",") + "\n")
    else if r.v.Null? then None
    else Some(ConcatText(r.v) + "\n")
  }

  /** The header line: the given headers, else the keys of a first object row, else none. */
  function HeaderLine(first: Row, headers: Option<seq<string>>): Option<string> {
    if headers.Some? then Some(Join(headers.value, ",") + "\n")
    else if first.Record? then Some(Join(Keys(first.fields), ",") + "\n")
    else if first.v.Null? then None
    else Some("")
  }

  /** The row lines in order; None as soon as one row is `null`. */
  function Body(rows: seq<Row>): Option<string> {
    if rows == [] then Some("")
    else
      var init, last := Body(rows[..|rows| - 1]), Line(rows[|rows| - 1]);
      if init.None? || last.None? then None else Some(init.value + last.value)
  }

  /** The text `exportToCSV` writes, or None where it returns null. */
  function CsvContent(data: Option<seq<Row>>, headers: Option<seq<string>>): Option<string> {
    if data.None? || data.value == [] then None
    else
      var header, body := HeaderLine(data.value[0], headers), Body(data.value);
      if header.None? || body.None? then None else Some(header.value + body.value)
  }

  /**
   * The content-building part of `exportToCSV`: nothing for missing or empty data;
   * otherwise the header line and one line per row, appended in order. The file write and
   * the returned path are not modelled; the content is returned instead.
   */
  method BuildCsvContent(data: Option<seq<Row>>, headers: Option<seq<string>>) returns (content: Option<string>)
    ensures content == CsvContent(data, headers)
  {
    if data.None? || |data.value| == 0 {
      return None;
    }
    var rows := data.value;
    var csvContent := "";
    if headers.Some? {
      csvContent := csvContent + (Join(headers.value, ",") + "\n");
      assert csvContent == Join(headers.value, ",") + "\n";
    } else if IsObject(rows[0]) {
      if rows[0].Scalar? {
        return None;
      }
      csvContent := csvContent + (Join(Keys(rows[0].fields), ",") + "\n");
      assert csvContent == Join(Keys(rows[0].fields), ",") + "\n";
    }
    ghost var header := csvContent;
    var i := 0;
    assert rows[..0] == [] && header + "" == header;
    while i < |rows|
      invariant 0 <= i <= |rows|
      invariant HeaderLine(rows[0], headers) == Some(header)
      invariant Body(rows[..i]).Some? && csvContent == header + Body(rows[..i]).value
    {
      var row := rows[i];
      if IsObject(row) {
        if row.Scalar? {
          NullRowStops(rows[..i + 1], i);
          PrefixBodyFails(rows, i + 1);
          return None;
        }
        var values := Cells(row.fields);
        BodyStep(rows, i, header, csvContent);
        csvContent := csvContent + (Join(values, ",") + "\n");
      } else {
        BodyStep(rows, i, header, csvContent);
        csvContent := csvContent + (ConcatText(row.v) + "\n");
      }
      i := i + 1;
    }
    assert rows[..i] == rows;
    return Some(csvContent);
  }

  /** A `null` row at `i` makes the body of every longer prefix fail. */
  lemma {:induction false} NullRowStops(rows: seq<Row>, i: nat)
    requires i < |rows| && rows[i] == Scalar(Null)
    ensures Body(rows).None?
    decreases |rows|
  {
    if i < |rows| - 1 {
      assert rows[..|rows| - 1][i] == rows[i];
      NullRowStops(rows[..|rows| - 1], i);
    }
  }

  /** Appending the line of row `i` to the text so far gives the text of one more row. */
  lemma BodyStep(rows: seq<Row>, i: nat, header: string, text: string)
    requires i < |rows| && Body(rows[..i]).Some? && text == header + Body(rows[..i]).value
    requires Line(rows[i]).Some?
    ensures Body(rows[..i + 1]).Some?
    ensures text + Line(rows[i]).value == header + Body(rows[..i + 1]).value
  {
    assert rows[..i + 1][..i] == rows[..i];
    assert (header + Body(rows[..i]).value) + Line(rows[i]).value
        == header + (Body(rows[..i]).value + Line(rows[i]).value);
  }

  /** Once a prefix has no body, neither has the whole sequence. */
  lemma {:induction false} PrefixBodyFails(rows: seq<Row>, k: nat)
    requires k <= |rows| && Body(rows[..k]).None?
    ensures Body(rows).None?
    decreases |rows| - k
  {
    if k < |rows| {
      assert rows[..k + 1][..k] == rows[..k];
      PrefixBodyFails(rows, k + 1);
    } else {
      assert rows[..k] == rows;
    }
  }
}

/** Properties of the address helpers and of the CSV text. */
module UtilsFacts {
  import opened Wrappers
  import opened Utils

  lemma {:induction false} HexRunIff(t: string, n: nat)
    ensures HexRun(t, n) <==> |t| == n && forall i | 0 <= i < |t| :: IsHexDigit(t[i])
    decreases n
  {
    if n > 0 && t != [] {
      HexRunIff(t[1..], n - 1);
      if IsHexDigit(t[0]) && |t[1..]| == n - 1 && forall i | 0 <= i < |t[1..]| :: IsHexDigit(t[1..][i]) {
        forall i | 0 <= i < |t| ensures IsHexDigit(t[i]) {
          if i > 0 { assert t[i] == t[1..][i - 1]; }
        }
      }
    }
  }

  /**
   * An address is accepted exactly when it is 42 characters long, starts with lower-case
   * `0x`, and every other character is a hex digit of either case (no checksum test).
   */
  lemma ValidateIff(address: string)
    ensures ValidateContractAddress(address) <==>
      && |address| == 42
      && address[..2] == "0x"
      && forall i | 2 <= i < 42 :: IsHexDigit(address[i])
  {
    if |address| >= 2 {
      HexRunIff(address[2..], AddressDigits);
      if |address| == 42 {
        assert forall i | 2 <= i < 42 :: address[i] == address[2..][i - 2];
      }
    }
  }

  /**
   * A missing, empty or short address is returned as it is; a longer one becomes its first
   * six characters, `...`, and its last four: always 13 characters. Shortening is idempotent.
   */
  lemma FormatAddressFacts(address: Option<string>)
    ensures var r := FormatAddress(address);
      && (address.None? || |address.value| < 10 ==> r == address)
      && (address.Some? && |address.value| >= 10 ==>
            var a, s := address.value, r.value;
            && |s| == 13
            && s[..6] == a[..6]
            && s[6..9] == "..."
            && s[9..] == a[|a| - 4..])
      && FormatAddress(r) == r
  {
    if address.Some? && |address.value| >= 10 {
      var a, s := address.value, FormatAddress(address).value;
      assert s == a[..6] + "..." + a[|a| - 4..];
      assert s[..6] == a[..6];
      assert s[|s| - 4..] == a[|a| - 4..];
      assert s[..6] + "..." + s[|s| - 4..] == s;
    }
  }

  // ---- quoting ----

  /** Reads a doubled quote as one quote. */
  function Undouble(t: string): string {
    if |t| >= 2 && t[0] == '"' && t[1] == '"' then "\"" + Undouble(t[2..])
    else if t == [] then []
    else [t[0]] + Undouble(t[1..])
  }

  /** Removes the surrounding quotes of a quoted field and undoubles its quotes; other fields are kept. */
  function Unquote(f: string): string {
    if |f| >= 2 && f[0] == '"' && f[|f| - 1] == '"' then Undouble(f[1..|f| - 1]) else f
  }

  /** Every quote is part of a doubled pair, as section 2 rule 7 of RFC 4180 requires inside a quoted field. */
  predicate PairedQuotes(t: string)
    decreases |t|
  {
    t == [] ||
    (t[0] == '"' && |t| >= 2 && t[1] == '"' && PairedQuotes(t[2..])) ||
    (t[0] != '"' && PairedQuotes(t[1..]))
  }

  lemma {:induction false} DoubleQuotesFacts(s: string)
    ensures Undouble(DoubleQuotes(s)) == s
    ensures PairedQuotes(DoubleQuotes(s))
    ensures ',' in DoubleQuotes(s) <==> ',' in s
    ensures '\n' in DoubleQuotes(s) <==> '\n' in s
  {
    if s != [] {
      DoubleQuotesFacts(s[1..]);
      var rest := DoubleQuotes(s[1..]);
      assert s == [s[0]] + s[1..];
      if s[0] == '"' {
        assert DoubleQuotes(s) == "\"\"" + rest;
        assert DoubleQuotes(s)[2..] == rest;
      } else {
        assert DoubleQuotes(s) == [s[0]] + rest;
        assert DoubleQuotes(s)[1..] == rest;
      }
    }
  }

  /**
   * A string cell is recovered from its CSV text by removing the quotes and undoubling;
   * a quoted cell has all its inner quotes doubled. Values that are not strings, and
   * strings without `,` or `"`, are written unchanged.
   */
  lemma EscapeRoundTrip(s: string)
    ensures Unquote(JoinText(Escape(Str(s)))) == s
    ensures NeedsQuoting(s) ==> var f := JoinText(Escape(Str(s)));
      f[0] == '"' && f[|f| - 1] == '"' && PairedQuotes(f[1..|f| - 1])
    ensures !NeedsQuoting(s) ==> Escape(Str(s)) == Str(s)
  {
    DoubleQuotesFacts(s);
    if NeedsQuoting(s) {
      var f := "\"" + DoubleQuotes(s) + "\"";
      assert f[1..|f| - 1] == DoubleQuotes(s);
    } else if |s| >= 2 {
      assert s[0] != '"' by { assert s[0] in s; }
    }
  }

  // ---- the whole text ----

  /** The body fails exactly when some row is `null`. */
  lemma {:induction false} BodyNoneIff(rows: seq<Row>)
    ensures Body(rows).None? <==> exists i :: 0 <= i < |rows| && rows[i] == Scalar(Null)
  {
    if rows != [] {
      var init := rows[..|rows| - 1];
      BodyNoneIff(init);
      if exists i :: 0 <= i < |init| && init[i] == Scalar(Null) {
        var i :| 0 <= i < |init| && init[i] == Scalar(Null);
        assert rows[i] == init[i];
      }
      if exists i :: 0 <= i < |rows| && rows[i] == Scalar(Null) {
        var i :| 0 <= i < |rows| && rows[i] == Scalar(Null);
        if i < |rows| - 1 {
          assert init[i] == rows[i];
        }
      }
    }
  }

  /**
   * `exportToCSV` produces nothing exactly when the data is missing or empty or holds a
   * `null` row; otherwise the text is the header line (from `headers`, else from the keys
   * of a first object row, else empty) followed by the row lines.
   */
  lemma CsvContentCases(data: Option<seq<Row>>, headers: Option<seq<string>>)
    ensures CsvContent(data, headers).None? <==>
      data.None? || data.value == [] || exists i :: 0 <= i < |data.value| && data.value[i] == Scalar(Null)
    ensures CsvContent(data, headers).Some? ==>
      var rows := data.value;
      var header :=
        if headers.Some? then Join(headers.value, ",") + "\n"
        else if rows[0].Record? then Join(Keys(rows[0].fields), ",") + "\n"
        else "";
      CsvContent(data, headers).value == header + Body(rows).value
  {
    if data.Some? && data.value != [] {
      BodyNoneIff(data.value);
    }
  }

  // ---- lines ----

  function Newlines(s: string): nat {
    multiset(s)['\n']
  }

  /** A value whose written text holds no line break. */
  predicate SingleLine(v: Value) {
    v.Str? ==> '\n' !in v.s
  }

  predicate SingleLineRow(r: Row) {
    if r.Record? then forall k | 0 <= k < |r.fields| :: SingleLine(r.fields[k].1) else SingleLine(r.v)
  }

  lemma CellSingleLine(v: Value)
    requires SingleLine(v)
    ensures '\n' !in JoinText(Escape(v)) && '\n' !in ConcatText(v)
  {
    match v
    case Str(s) =>
      DoubleQuotesFacts(s);
    case Int(i) =>
      var t := Strings.IntToString(i);
      assert forall k | 0 <= k < |t| :: t[k] != '\n';
    case _ =>
  }

  lemma {:induction false} JoinSingleLine(parts: seq<string>, sep: string)
    requires '\n' !in sep
    requires forall k | 0 <= k < |parts| :: '\n' !in parts[k]
    ensures '\n' !in Join(parts, sep)
    decreases |parts|
  {
    if |parts| > 1 {
      JoinSingleLine(parts[1..], sep);
      assert '\n' !in parts[0];
    }
  }

  lemma LineIsOneLine(r: Row)
    requires SingleLineRow(r) && Line(r).Some?
    ensures Newlines(Line(r).value) == 1
  {
    var text := if r.Record? then Join(Cells(r.fields), ",") else ConcatText(r.v);
    if r.Record? {
      var cells := Cells(r.fields);
      forall k | 0 <= k < |cells| ensures '\n' !in cells[k] {
        CellSingleLine(r.fields[k].1);
      }
      JoinSingleLine(cells, ",");
    } else {
      CellSingleLine(r.v);
    }
    assert Line(r).value == text + "\n";
    assert multiset(text)['\n'] == 0;
  }

  /**
   * When no string value holds a line break, the body has exactly one line per row.
   * Line breaks inside values are written as they are, unquoted.
   */
  lemma {:induction false} OneLinePerRow(rows: seq<Row>)
    requires Body(rows).Some?
    requires forall k | 0 <= k < |rows| :: SingleLineRow(rows[k])
    ensures Newlines(Body(rows).value) == |rows|
  {
    if rows != [] {
      var init := rows[..|rows| - 1];
      assert forall k | 0 <= k < |init| :: init[k] == rows[k];
      OneLinePerRow(init);
      LineIsOneLine(rows[|rows| - 1]);
    }
  }

  /** A value holding a line break is not quoted, so its row spans two lines of the text. */
  lemma LineBreakSplitsRow()
    ensures var rows := [Record([("name", Str("a\nb"))])];
      Body(rows) == Some("a\nb\n") && Newlines(Body(rows).value) == 2
  {
    var rows := [Record([("name", Str("a\nb"))])];
    var s := "a\nb";
    assert !NeedsQuoting(s) by {
      assert forall k | 0 <= k < |s| :: s[k] != ',' && s[k] != '"';
    }
    assert Cells(rows[0].fields) == [s];
    assert Join([s], ",") == s;
    assert s + "\n" == "a\nb\n";
    assert Line(rows[0]) == Some("a\nb\n");
    assert rows[..0] == [];
    assert Body(rows) == Some("" + "a\nb\n");
    assert "" + "a\nb\n" == "a\nb\n";
    calc {
      multiset("a\nb\n");
      multiset(['a']) + multiset(['\n']) + multiset(['b']) + multiset(['\n']);
    }
  }
}
