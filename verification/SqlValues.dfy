/** The `VALUES` lists that scripts/normalize_listening_mock.py and
    scripts/normalize_reading_mock.py print, and a parser of them with the string literals of
    section 5.3 of ISO/IEC 9075-2. A JSON value is the text that json.dumps gives. */
module SqlValues {
  import opened Wrappers
  import opened Text

  datatype Cell = Null | Text(text: string) | Json(json: string) | Number(number: int)

  /** Every quote doubled. */
  function Escape(s: string): string {
    if s == "" then "" else (if s[0] == '\'' then "''" else [s[0]]) + Escape(s[1..])
  }

  function SqlStr(value: Option<string>): string {
    if value.None? then "NULL" else "'" + Escape(value.value) + "'"
  }

  function SqlJson(value: Option<string>): string {
    if value.None? then "NULL" else "'" + Escape(value.value) + "'::jsonb"
  }

  /** A column that is printed between quotes as it stands. */
  function Quoted(s: string): string { "'" + s + "'" }

  function Digits(n: nat): string {
    if n < 10 then [(n + 48) as char] else Digits(n / 10) + [(n % 10 + 48) as char]
  }

  function Decimal(n: int): string {
    if n < 0 then "-" + Digits(-n) else Digits(n)
  }

  function Tuple(texts: seq<string>): string { "(" + Join(texts, ", ") + ")" }

  function Values(tuples: seq<string>): string { Join(tuples, ",\n") + ";" }

  // ---------------------------------------------------------------------------------------
  // The parser

  predicate IsDigit(c: char) { '0' <= c <= '9' }

  /** The rest of a string literal after its opening quote. */
  function Lex(s: string): (r: Option<(string, string)>)
    ensures r.Some? ==> |r.value.1| < |s|
  {
    if s == "" then None
    else if s[0] != '\'' then
      match Lex(s[1..]) case None => None case Some((value, rest)) => Some(([s[0]] + value, rest))
    else if |s| > 1 && s[1] == '\'' then
      match Lex(s[2..]) case None => None case Some((value, rest)) => Some((['\''] + value, rest))
    else Some(("", s[1..]))
  }

  function ReadDigits(s: string, n: nat): (r: (nat, string))
    ensures |r.1| <= |s|
  {
    if s != "" && IsDigit(s[0]) then ReadDigits(s[1..], n * 10 + (s[0] as int - 48)) else (n, s)
  }

  /** An integer in its shortest form. */
  function ParseNumber(s: string): (r: Option<(int, string)>)
    ensures r.Some? ==> s == Decimal(r.value.0) + r.value.1 && |r.value.1| < |s|
  {
    if s == "" then None else
    var (n, rest) := ReadDigits(if s[0] == '-' then s[1..] else s, 0);
    var value: int := if s[0] == '-' then -(n as int) else n as int;
    DecimalIsNotEmpty(value);
    if s == Decimal(value) + rest then Some((value, rest)) else None
  }

  lemma DecimalIsNotEmpty(n: int)
    ensures Decimal(n) != "" && (IsDigit(Decimal(n)[0]) || Decimal(n)[0] == '-')
  {
    DigitsAreDigits(if n < 0 then -n else n);
  }

  lemma {:induction false} DigitsAreDigits(n: nat)
    ensures Digits(n) != "" && IsDigit(Digits(n)[0])
  {
    if n >= 10 {
      DigitsAreDigits(n / 10);
    }
  }

  predicate StartsWith(s: string, prefix: string) { prefix <= s }

  function ParseCell(s: string): (r: Option<(Cell, string)>)
    ensures r.Some? ==> |r.value.1| < |s|
  {
    if StartsWith(s, "NULL") then Some((Null, s[4..]))
    else if StartsWith(s, "'") then
      match Lex(s[1..])
      case None => None
      case Some((value, rest)) =>
        if StartsWith(rest, "::jsonb") then Some((Json(value), rest[7..])) else Some((Text(value), rest))
    else
      match ParseNumber(s) case None => None case Some((n, rest)) => Some((Number(n), rest))
  }

  /** Cells up to and including the closing parenthesis. */
  function ParseCells(s: string): (r: Option<(seq<Cell>, string)>)
    ensures r.Some? ==> |r.value.1| < |s|
    decreases |s|
  {
    match ParseCell(s)
    case None => None
    case Some((cell, rest)) =>
      if StartsWith(rest, ")") then Some(([cell], rest[1..]))
      else if StartsWith(rest, ", ") then
        match ParseCells(rest[2..]) case None => None case Some((cells, end)) => Some(([cell] + cells, end))
      else None
  }

  /** Tuples up to and including the final semicolon, after which nothing may follow. */
  function ParseValues(s: string): Option<seq<seq<Cell>>>
    decreases |s|
  {
    if !StartsWith(s, "(") then None else
    match ParseCells(s[1..])
    case None => None
    case Some((cells, rest)) =>
      if rest == ";" then Some([cells])
      else if StartsWith(rest, ",\n") then
        match ParseValues(rest[2..]) case None => None case Some(rows) => Some([cells] + rows)
      else None
  }

  // ---------------------------------------------------------------------------------------
  // The parser inverts the printer

  function Print(cell: Cell): string {
    match cell
    case Null => "NULL"
    case Text(text) => "'" + Escape(text) + "'"
    case Json(json) => "'" + Escape(json) + "'::jsonb"
    case Number(n) => Decimal(n)
  }

  function PrintAll(cells: seq<Cell>): (r: seq<string>)
    ensures |r| == |cells| && forall i :: 0 <= i < |cells| ==> r[i] == Print(cells[i])
  {
    seq(|cells|, i requires 0 <= i < |cells| => Print(cells[i]))
  }

  function PrintRows(rows: seq<seq<Cell>>): (r: seq<string>)
    ensures |r| == |rows| && forall i :: 0 <= i < |rows| ==> r[i] == Tuple(PrintAll(rows[i]))
  {
    seq(|rows|, i requires 0 <= i < |rows| => Tuple(PrintAll(rows[i])))
  }

  lemma {:induction false} LexOfEscape(s: string, rest: string)
    requires rest == "" || rest[0] != '\''
    ensures Lex(Escape(s) + "'" + rest) == Some((s, rest))
  {
    var text := Escape(s) + "'" + rest;
    if s == "" {
      assert text == "'" + rest;
      assert text[1..] == rest;
    } else {
      LexOfEscape(s[1..], rest);
      var tail := Escape(s[1..]) + "'" + rest;
      if s[0] == '\'' {
        assert text == "''" + tail;
        assert text[2..] == tail;
      } else {
        assert text == [s[0]] + tail;
        assert text[1..] == tail;
      }
      assert s == [s[0]] + s[1..];
    }
  }

  lemma {:induction false} EscapeOfLex(s: string)
    ensures var r := Lex(s); r.Some? ==> s == Escape(r.value.0) + "'" + r.value.1
  {
    if s != "" && s[0] != '\'' {
      EscapeOfLex(s[1..]);
      if Lex(s).Some? {
        var (value, rest) := Lex(s[1..]).value;
        assert ([s[0]] + value)[1..] == value;
        assert s == [s[0]] + s[1..];
      }
    } else if |s| > 1 && s[1] == '\'' {
      EscapeOfLex(s[2..]);
      if Lex(s).Some? {
        var (value, rest) := Lex(s[2..]).value;
        assert (['\''] + value)[1..] == value;
        assert s == "''" + s[2..];
      }
    } else if s != "" {
      assert s == "" + "'" + s[1..];
    }
  }

  lemma {:induction false} ReadOfDigits(n: nat, rest: string)
    ensures ReadDigits(Digits(n) + rest, 0) == ReadDigits(rest, n)
  {
    if n < 10 {
      assert (Digits(n) + rest)[1..] == rest;
    } else {
      var last := [(n % 10 + 48) as char];
      ReadOfDigits(n / 10, last + rest);
      assert Digits(n) + rest == Digits(n / 10) + (last + rest);
      assert (last + rest)[1..] == rest;
    }
  }

  lemma NumberOfDecimal(n: int, rest: string)
    requires rest == "" || !IsDigit(rest[0])
    ensures ParseNumber(Decimal(n) + rest) == Some((n, rest))
  {
    DecimalIsNotEmpty(n);
    DigitsAreDigits(if n < 0 then -n else n);
    if n < 0 {
      ReadOfDigits(-n, rest);
      assert (Decimal(n) + rest)[1..] == Digits(-n) + rest;
    } else {
      ReadOfDigits(n, rest);
    }
  }

  /** What may follow a cell. */
  predicate IsEnd(rest: string) {
    rest != "" && (rest[0] == ',' || rest[0] == ')')
  }

  lemma TextOfPrint(text: string, rest: string)
    requires IsEnd(rest)
    ensures ParseCell("'" + Escape(text) + "'" + rest) == Some((Text(text), rest))
  {
    hide Escape, Lex, ParseNumber;
    var s := "'" + Escape(text) + "'" + rest;
    LexOfEscape(text, rest);
    assert s[1..] == Escape(text) + "'" + rest;
    assert StartsWith(s, "'") && s[0] != "NULL"[0];
  }

  lemma JsonOfPrint(json: string, rest: string)
    ensures ParseCell("'" + Escape(json) + "'::jsonb" + rest) == Some((Json(json), rest))
  {
    hide Escape, Lex, ParseNumber;
    var s := "'" + Escape(json) + "'::jsonb" + rest;
    var tail := "::jsonb" + rest;
    LexOfEscape(json, tail);
    assert s[1..] == Escape(json) + "'" + tail;
    assert tail[7..] == rest;
    assert StartsWith(s, "'") && s[0] != "NULL"[0];
  }

  lemma NumberOfPrint(n: int, rest: string)
    requires IsEnd(rest)
    ensures ParseCell(Decimal(n) + rest) == Some((Number(n), rest))
  {
    hide Decimal, Lex, ParseNumber;
    NumberOfDecimal(n, rest);
    DecimalIsNotEmpty(n);
    assert (Decimal(n) + rest)[0] == Decimal(n)[0];
  }

  lemma CellOfPrint(cell: Cell, rest: string)
    requires IsEnd(rest)
    ensures ParseCell(Print(cell) + rest) == Some((cell, rest))
  {
    hide Escape, Decimal, Lex, ParseNumber, ParseCell;
    match cell
    case Null => NullOfPrint(rest);
    case Text(text) => TextOfPrint(text, rest);
    case Json(json) =>
      JsonOfPrint(json, rest);
    case Number(n) => NumberOfPrint(n, rest);
  }

  lemma NullOfPrint(rest: string)
    ensures ParseCell("NULL" + rest) == Some((Null, rest))
  {
  }

  /** A literal printed as a JSON or text cell is what was read. */
  lemma PrintOfCell(s: string)
    ensures var r := ParseCell(s); r.Some? ==> s == Print(r.value.0) + r.value.1
  {
    hide Escape, Decimal, Lex, ParseNumber;
    if StartsWith(s, "NULL") {
      assert s == "NULL" + s[4..];
    } else if StartsWith(s, "'") {
      assert s == "'" + s[1..];
      if Lex(s[1..]).Some? {
        EscapeOfLex(s[1..]);
        var (value, rest) := Lex(s[1..]).value;
        if StartsWith(rest, "::jsonb") {
          assert rest == "::jsonb" + rest[7..];
          assert s == "'" + (Escape(value) + "'" + rest);
          assert s == Print(Json(value)) + rest[7..];
        } else {
          assert s == Print(Text(value)) + rest;
        }
      }
    }
  }

  lemma {:induction false} CellsOfPrint(cells: seq<Cell>, rest: string)
    requires cells != []
    ensures ParseCells(Join(PrintAll(cells), ", ") + ")" + rest) == Some((cells, rest))
  {
    hide ParseCell, Print;
    var s := Join(PrintAll(cells), ", ") + ")" + rest;
    if |cells| == 1 {
      CellOfPrint(cells[0], ")" + rest);
      assert s == Print(cells[0]) + (")" + rest);
      assert (")" + rest)[1..] == rest;
      assert cells == [cells[0]];
    } else {
      var tail := Join(PrintAll(cells[1..]), ", ") + ")" + rest;
      CellsOfPrint(cells[1..], rest);
      assert PrintAll(cells)[1..] == PrintAll(cells[1..]);
      CellOfPrint(cells[0], ", " + tail);
      assert s == Print(cells[0]) + (", " + tail);
      assert (", " + tail)[2..] == tail;
      assert cells == [cells[0]] + cells[1..];
    }
  }

  lemma {:induction false} PrintOfCells(s: string)
    ensures var r := ParseCells(s);
            r.Some? ==> r.value.0 != [] && s == Join(PrintAll(r.value.0), ", ") + ")" + r.value.1
    decreases |s|
  {
    hide ParseCell, Print;
    PrintOfCell(s);
    if ParseCells(s).Some? {
      var (cell, rest) := ParseCell(s).value;
      var (cells, end) := ParseCells(s).value;
      if StartsWith(rest, ")") {
        assert rest == ")" + rest[1..];
      } else {
        PrintOfCells(rest[2..]);
        assert rest == ", " + rest[2..];
        var tail := ParseCells(rest[2..]).value.0;
        assert cells[1..] == tail;
        assert PrintAll(cells)[1..] == PrintAll(tail);
        assert Join(PrintAll(cells), ", ") == Print(cell) + ", " + Join(PrintAll(tail), ", ");
      }
    }
  }

  /** Rows as a `VALUES` list can hold them: at least one, and none without cells. */
  predicate AreRows(rows: seq<seq<Cell>>) {
    rows != [] && forall i :: 0 <= i < |rows| ==> rows[i] != []
  }

  function Body(cells: seq<Cell>): string { Join(PrintAll(cells), ", ") }

  function PrintRow(cells: seq<Cell>): string { "(" + Body(cells) + ")" }

  lemma PrintedRows(rows: seq<seq<Cell>>)
    requires AreRows(rows)
    ensures Values(PrintRows(rows))
         == if |rows| == 1 then PrintRow(rows[0]) + ";" else PrintRow(rows[0]) + ",\n" + Values(PrintRows(rows[1..]))
  {
    hide PrintAll;
    if |rows| > 1 {
      assert PrintRows(rows)[1..] == PrintRows(rows[1..]);
    }
  }

  lemma ReadRow(cells: seq<Cell>, rest: string)
    requires cells != []
    ensures (PrintRow(cells) + rest)[0] == '('
    ensures ParseCells((PrintRow(cells) + rest)[1..]) == Some((cells, rest))
  {
    hide ParseCells, PrintAll, Join;
    CellsOfPrint(cells, rest);
    assert (PrintRow(cells) + rest)[1..] == Body(cells) + ")" + rest;
  }

  /** Parsing what was printed gives exactly the rows back. */
  lemma {:induction false} ParseOfPrint(rows: seq<seq<Cell>>)
    requires AreRows(rows)
    ensures ParseValues(Values(PrintRows(rows))) == Some(rows)
  {
    hide ParseCells, PrintRow, Values, PrintRows;
    var s := Values(PrintRows(rows));
    PrintedRows(rows);
    if |rows| == 1 {
      ReadRow(rows[0], ";");
      assert rows == [rows[0]];
    } else {
      var tail := ",\n" + Values(PrintRows(rows[1..]));
      ParseOfPrint(rows[1..]);
      ReadRow(rows[0], tail);
      assert s == PrintRow(rows[0]) + tail;
      assert tail[2..] == Values(PrintRows(rows[1..]));
      assert rows == [rows[0]] + rows[1..];
    }
  }

  /** And only what was printed parses. */
  lemma {:induction false} PrintOfParse(s: string)
    ensures var rows := ParseValues(s); rows.Some? ==> AreRows(rows.value) && s == Values(PrintRows(rows.value))
    decreases |s|
  {
    hide ParseCells, PrintAll, Values, PrintRows, Join;
    if ParseValues(s).Some? {
      PrintOfCells(s[1..]);
      var (cells, rest) := ParseCells(s[1..]).value;
      var rows := ParseValues(s).value;
      assert s == PrintRow(cells) + rest;
      if rest != ";" {
        PrintOfParse(rest[2..]);
        assert rest == ",\n" + rest[2..];
        assert rows[1..] == ParseValues(rest[2..]).value;
      }
      PrintedRows(rows);
    }
  }
}
