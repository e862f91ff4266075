/** The question rows that the two render_sql functions of scripts/normalize_listening_mock.py
    and scripts/normalize_reading_mock.py print, and what an SQL reader stores for them. */
module SqlRows {
  import opened Wrappers
  import opened Text
  import opened SqlValues

  // ---------------------------------------------------------------------------------------
  // Columns

  /** What a reader stores for one tuple: each cell under the column declared at its place. */
  function Named(columns: seq<string>, cells: seq<Cell>): (r: Option<map<string, Cell>>)
    ensures r.Some? <==> |columns| == |cells|
  {
    if |columns| != |cells| then None
    else if columns == [] then Some(map[])
    else Some(map[columns[0] := cells[0]] + Named(columns[1..], cells[1..]).value)
  }

  predicate AllNamed(columns: seq<string>, rows: seq<seq<Cell>>, records: seq<map<string, Cell>>) {
    |rows| == |records| && forall i :: 0 <= i < |rows| ==> Named(columns, rows[i]) == Some(records[i])
  }

  /** The text of a `VALUES` list stores these records, in this order. */
  predicate Stores(columns: seq<string>, text: string, records: seq<map<string, Cell>>) {
    var rows := ParseValues(text);
    rows.Some? && AllNamed(columns, rows.value, records)
  }

  predicate Distinct(columns: seq<string>) {
    forall i, j :: 0 <= i < j < |columns| ==> columns[i] != columns[j]
  }

  /** Under distinct names the record and the tuple determine each other. */
  lemma {:induction false} NamedIsByPlace(columns: seq<string>, cells: seq<Cell>, record: map<string, Cell>)
    requires Distinct(columns) && |columns| == |cells|
    ensures Named(columns, cells) == Some(record)
        <==> record.Keys == (set c | c in columns)
             && forall i :: 0 <= i < |columns| ==> columns[i] in record && record[columns[i]] == cells[i]
  {
    NamedHolds(columns, cells);
    var named := Named(columns, cells).value;
    if record.Keys == (set c | c in columns)
       && forall i :: 0 <= i < |columns| ==> columns[i] in record && record[columns[i]] == cells[i] {
      forall c | c in record ensures c in named && named[c] == record[c] {
        var i :| 0 <= i < |columns| && columns[i] == c;
      }
      assert record == named;
    }
  }

  lemma {:induction false} NamedHolds(columns: seq<string>, cells: seq<Cell>)
    requires Distinct(columns) && |columns| == |cells|
    ensures var r := Named(columns, cells).value;
            r.Keys == (set c | c in columns)
            && forall i :: 0 <= i < |columns| ==> columns[i] in r && r[columns[i]] == cells[i]
  {
    if columns != [] {
      NamedHolds(columns[1..], cells[1..]);
      HoldsOfOneMore(columns, cells, Named(columns[1..], cells[1..]).value);
    }
  }

  lemma HoldsOfOneMore(columns: seq<string>, cells: seq<Cell>, tail: map<string, Cell>)
    requires columns != [] && Distinct(columns) && |columns| == |cells|
    requires tail.Keys == (set c | c in columns[1..])
    requires forall i :: 0 <= i < |columns| - 1 ==> columns[1..][i] in tail && tail[columns[1..][i]] == cells[1..][i]
    ensures var r := map[columns[0] := cells[0]] + tail;
            r.Keys == (set c | c in columns)
            && forall i :: 0 <= i < |columns| ==> columns[i] in r && r[columns[i]] == cells[i]
  {
  }

  // ---------------------------------------------------------------------------------------
  // Cells printed between quotes as they stand

  /** Either the escaping printer's text, or the bare text between quotes. */
  predicate Renders(text: string, cell: Cell) {
    text == Print(cell) || (cell.Text? && text == Quoted(cell.text))
  }

  predicate RowRenders(texts: seq<string>, cells: seq<Cell>) {
    |texts| == |cells| && forall i :: 0 <= i < |texts| ==> Renders(texts[i], cells[i])
  }

  function Tuples(rows: seq<seq<string>>): (r: seq<string>)
    ensures |r| == |rows| && forall i :: 0 <= i < |rows| ==> r[i] == Tuple(rows[i])
  {
    seq(|rows|, i requires 0 <= i < |rows| => Tuple(rows[i]))
  }

  lemma {:induction false} EscapeGrows(s: string)
    ensures |Escape(s)| >= |s|
    ensures '\'' in s ==> |Escape(s)| > |s|
    ensures '\'' !in s ==> Escape(s) == s
  {
    if s != "" {
      EscapeGrows(s[1..]);
      assert s == [s[0]] + s[1..];
    }
  }

  lemma QuotedIsShort(s: string)
    ensures |Quoted(s)| <= |Print(Text(s))|
    ensures Quoted(s) == Print(Text(s)) <==> '\'' !in s
    ensures '\'' in s ==> |Quoted(s)| < |Print(Text(s))|
  {
    EscapeGrows(s);
  }

  /** Joining texts that are no longer gives no longer a text, and a shorter one if one is. */
  lemma {:induction false} JoinedGrows(a: seq<string>, b: seq<string>, sep: string)
    requires |a| == |b| && forall i :: 0 <= i < |a| ==> |a[i]| <= |b[i]|
    ensures |Join(a, sep)| <= |Join(b, sep)|
    ensures (exists i :: 0 <= i < |a| && |a[i]| < |b[i]|) ==> |Join(a, sep)| < |Join(b, sep)|
  {
    if |a| > 1 {
      JoinedGrows(a[1..], b[1..], sep);
      if i :| 0 < i < |a| && |a[i]| < |b[i]| {
        assert |a[1..][i - 1]| < |b[1..][i - 1]|;
      }
    }
  }

  lemma RowGrows(texts: seq<string>, cells: seq<Cell>)
    requires RowRenders(texts, cells)
    ensures |Tuple(texts)| <= |Tuple(PrintAll(cells))|
    ensures texts != PrintAll(cells) ==> |Tuple(texts)| < |Tuple(PrintAll(cells))|
  {
    hide Print, Join;
    forall i | 0 <= i < |texts|
      ensures |texts[i]| <= |PrintAll(cells)[i]|
      ensures texts[i] != PrintAll(cells)[i] ==> |texts[i]| < |PrintAll(cells)[i]|
    {
      if cells[i].Text? {
        QuotedIsShort(cells[i].text);
      }
    }
    JoinedGrows(texts, PrintAll(cells), ", ");
  }

  /** Whatever is printed bare, the list parses to the intended cells exactly when every bare
      text is the one the escaping printer gives. */
  lemma ParsesWhenEscaped(rows: seq<seq<string>>, cells: seq<seq<Cell>>)
    requires AreRows(cells) && |rows| == |cells|
    requires forall i :: 0 <= i < |rows| ==> RowRenders(rows[i], cells[i])
    ensures ParseValues(Values(Tuples(rows))) == Some(cells)
        <==> forall i :: 0 <= i < |rows| ==> rows[i] == PrintAll(cells[i])
  {
    hide ParseValues, Print, Join, PrintAll, Tuple, RowRenders;
    var printed := PrintRows(cells);
    forall i | 0 <= i < |rows|
      ensures |Tuples(rows)[i]| <= |printed[i]|
      ensures rows[i] != PrintAll(cells[i]) ==> |Tuples(rows)[i]| < |printed[i]|
    {
      RowGrows(rows[i], cells[i]);
    }
    if forall i :: 0 <= i < |rows| ==> rows[i] == PrintAll(cells[i]) {
      assert Tuples(rows) == printed;
      ParseOfPrint(cells);
    } else {
      JoinedGrows(Tuples(rows), printed, ",\n");
      PrintOfParse(Values(Tuples(rows)));
    }
  }

  // ---------------------------------------------------------------------------------------
  // Listening

  datatype ListeningRow = ListeningRow(mockId: string, part: int, kind: string, number: int, prompt: string,
                                       passage: Option<string>, audio: string, options: Option<string>,
                                       answer: string, skill: Option<string>)

  const LISTENING: seq<string> :=
    ["mock_test_id", "module", "part", "question_type", "question_number", "prompt",
     "passage_text", "audio_url", "options", "correct_answer", "skill_tag"]

  function TextOrNull(value: Option<string>): Cell { if value.None? then Null else Text(value.value) }
  function JsonOrNull(value: Option<string>): Cell { if value.None? then Null else Json(value.value) }

  function ListeningTexts(q: ListeningRow): seq<string> {
    [Quoted(q.mockId), "'listening'", Decimal(q.part), SqlStr(Some(q.kind)), Decimal(q.number),
     SqlStr(Some(q.prompt)), SqlStr(q.passage), SqlStr(Some(q.audio)), SqlJson(q.options),
     SqlStr(Some(q.answer)), SqlStr(q.skill)]
  }

  /** What the database should hold for a row, by column name. */
  function ListeningRecord(q: ListeningRow): map<string, Cell> {
    map["module" := Text("listening"),
        "mock_test_id" := Text(q.mockId),
        "part" := Number(q.part),
        "question_number" := Number(q.number),
        "question_type" := Text(q.kind),
        "prompt" := Text(q.prompt),
        "correct_answer" := Text(q.answer),
        "options" := JsonOrNull(q.options),
        "passage_text" := TextOrNull(q.passage),
        "skill_tag" := TextOrNull(q.skill),
        "audio_url" := Text(q.audio)]
  }

  function ListeningRecords(rows: seq<ListeningRow>): (r: seq<map<string, Cell>>)
    ensures |r| == |rows| && forall i :: 0 <= i < |rows| ==> r[i] == ListeningRecord(rows[i])
  {
    seq(|rows|, i requires 0 <= i < |rows| => ListeningRecord(rows[i]))
  }

  // ---------------------------------------------------------------------------------------
  // Reading

  datatype ReadingRow = ReadingRow(mockId: string, kind: string, number: int, part: int, prompt: string,
                                   passage: Option<string>, options: Option<string>, answer: string,
                                   skill: Option<string>)

  const READING: seq<string> :=
    ["mock_test_id", "module", "question_type", "question_number", "part", "prompt",
     "passage_text", "options", "correct_answer", "skill_tag"]

  function ReadingTexts(r: ReadingRow): seq<string> {
    [Quoted(r.mockId), "'reading'", Quoted(r.kind), Decimal(r.number), Decimal(r.part), SqlStr(Some(r.prompt)),
     SqlStr(r.passage), SqlJson(r.options), SqlStr(Some(r.answer)), SqlStr(r.skill)]
  }

  function ReadingRecord(r: ReadingRow): map<string, Cell> {
    map["module" := Text("reading"),
        "mock_test_id" := Text(r.mockId),
        "part" := Number(r.part),
        "question_number" := Number(r.number),
        "question_type" := Text(r.kind),
        "prompt" := Text(r.prompt),
        "correct_answer" := Text(r.answer),
        "options" := JsonOrNull(r.options),
        "passage_text" := TextOrNull(r.passage),
        "skill_tag" := TextOrNull(r.skill)]
  }

  function ReadingRecords(rows: seq<ReadingRow>): (r: seq<map<string, Cell>>)
    ensures |r| == |rows| && forall i :: 0 <= i < |rows| ==> r[i] == ReadingRecord(rows[i])
  {
    seq(|rows|, i requires 0 <= i < |rows| => ReadingRecord(rows[i]))
  }

  // ---------------------------------------------------------------------------------------
  // What is stored

  predicate Covers(columns: seq<string>, record: map<string, Cell>) {
    record.Keys == (set c | c in columns)
  }

  /** The cells of a record in the declared order. */
  function Ordered(columns: seq<string>, record: map<string, Cell>): (r: seq<Cell>)
    requires Covers(columns, record)
    ensures |r| == |columns| && forall i :: 0 <= i < |columns| ==> r[i] == record[columns[i]]
  {
    assert forall i :: 0 <= i < |columns| ==> columns[i] in record.Keys;
    seq(|columns|, i requires 0 <= i < |columns| => record[columns[i]])
  }

  lemma OrderedIsNamed(columns: seq<string>, cells: seq<Cell>, record: map<string, Cell>)
    requires Distinct(columns) && Covers(columns, record)
    ensures Named(columns, cells) == Some(record) <==> cells == Ordered(columns, record)
  {
    if |cells| == |columns| {
      NamedIsByPlace(columns, cells, record);
        if Named(columns, cells) == Some(record) {
        assert cells == Ordered(columns, record);
      }
    }
  }

  /** The records are stored exactly when there are some and every text is escaped. */
  lemma StoresWhenEscaped(columns: seq<string>, rows: seq<seq<string>>, records: seq<map<string, Cell>>)
    requires Distinct(columns) && columns != [] && |rows| == |records|
    requires forall i :: 0 <= i < |rows| ==>
      Covers(columns, records[i]) && RowRenders(rows[i], Ordered(columns, records[i]))
    ensures Stores(columns, Values(Tuples(rows)), records)
        <==> rows != [] && forall i :: 0 <= i < |rows| ==> rows[i] == PrintAll(Ordered(columns, records[i]))
  {
    hide ParseValues, PrintAll, RowRenders, Values, Named, Distinct;
    var text := Values(Tuples(rows));
    if rows == [] {
      NothingParses(text);
    } else {
      var cells := seq(|rows|, i requires 0 <= i < |rows| => Ordered(columns, records[i]));
      ParsesWhenEscaped(rows, cells);
      forall i, found: seq<Cell> | 0 <= i < |rows|
        ensures Named(columns, found) == Some(records[i]) <==> found == cells[i]
      {
        OrderedIsNamed(columns, found, records[i]);
      }
      if Stores(columns, text, records) {
        assert ParseValues(text).value == cells;
      }
    }
  }

  lemma NothingParses(text: string)
    requires text == Values([])
    ensures ParseValues(text) == None
  {
  }

  lemma LiteralIsEscaped()
    ensures Print(Text("listening")) == "'listening'" && Print(Text("reading")) == "'reading'"
  {
    hide Escape;
    var (a, b) := ("listening", "reading");
    EscapeGrows(a);
    EscapeGrows(b);
    assert forall i :: 0 <= i < |a| ==> a[i] != '\'';
    assert forall i :: 0 <= i < |b| ==> b[i] != '\'';
  }

  lemma ListeningIsCovered(q: ListeningRow)
    ensures Covers(LISTENING, ListeningRecord(q))
  {
  }

  lemma ListeningInOrder(q: ListeningRow)
    ensures Covers(LISTENING, ListeningRecord(q))
    ensures Ordered(LISTENING, ListeningRecord(q)) == ListeningCells(q)
  {
    hide Covers;
    ListeningIsCovered(q);
  }

  function ListeningCells(q: ListeningRow): seq<Cell> {
    [Text(q.mockId), Text("listening"), Number(q.part), Text(q.kind), Number(q.number), Text(q.prompt),
     TextOrNull(q.passage), Text(q.audio), JsonOrNull(q.options), Text(q.answer), TextOrNull(q.skill)]
  }

  lemma ListeningRendered(q: ListeningRow)
    ensures Covers(LISTENING, ListeningRecord(q))
    ensures RowRenders(ListeningTexts(q), Ordered(LISTENING, ListeningRecord(q)))
    ensures ListeningTexts(q) == PrintAll(Ordered(LISTENING, ListeningRecord(q))) <==> '\'' !in q.mockId
  {
    hide Escape, Decimal, Quoted, Covers, Ordered, ListeningRecord;
    ListeningInOrder(q);
    ListeningPrinted(q);
  }

  lemma ListeningPrinted(q: ListeningRow)
    ensures RowRenders(ListeningTexts(q), ListeningCells(q))
    ensures ListeningTexts(q) == PrintAll(ListeningCells(q)) <==> '\'' !in q.mockId
  {
    hide Escape, Decimal, Quoted;
    var (texts, printed) := (ListeningTexts(q), PrintAll(ListeningCells(q)));
    LiteralIsEscaped();
    QuotedIsShort(q.mockId);
    assert texts[0] == printed[0] <==> '\'' !in q.mockId;
    assert texts[1..] == printed[1..];
  }

  lemma ReadingInOrder(r: ReadingRow)
    ensures Covers(READING, ReadingRecord(r))
    ensures Ordered(READING, ReadingRecord(r)) == ReadingCells(r)
  {
  }

  function ReadingCells(r: ReadingRow): seq<Cell> {
    [Text(r.mockId), Text("reading"), Text(r.kind), Number(r.number), Number(r.part), Text(r.prompt),
     TextOrNull(r.passage), JsonOrNull(r.options), Text(r.answer), TextOrNull(r.skill)]
  }

  lemma ReadingRendered(r: ReadingRow)
    ensures Covers(READING, ReadingRecord(r))
    ensures RowRenders(ReadingTexts(r), Ordered(READING, ReadingRecord(r)))
    ensures ReadingTexts(r) == PrintAll(Ordered(READING, ReadingRecord(r))) <==> '\'' !in r.mockId && '\'' !in r.kind
  {
    hide Escape, Decimal, Quoted, Covers, Ordered, ReadingRecord;
    ReadingInOrder(r);
    ReadingPrinted(r);
  }

  lemma ReadingPrinted(r: ReadingRow)
    ensures RowRenders(ReadingTexts(r), ReadingCells(r))
    ensures ReadingTexts(r) == PrintAll(ReadingCells(r)) <==> '\'' !in r.mockId && '\'' !in r.kind
  {
    hide Escape, Decimal, Quoted;
    var (texts, printed) := (ReadingTexts(r), PrintAll(ReadingCells(r)));
    LiteralIsEscaped();
    QuotedIsShort(r.mockId);
    QuotedIsShort(r.kind);
    assert texts[0] == printed[0] <==> '\'' !in r.mockId;
    assert texts[1] == printed[1];
    assert texts[2] == printed[2] <==> '\'' !in r.kind;
    assert texts[3..] == printed[3..];
    assert texts == [texts[0], texts[1], texts[2]] + texts[3..];
    assert printed == [printed[0], printed[1], printed[2]] + printed[3..];
  }

  function ListeningValues(rows: seq<ListeningRow>): string {
    Values(Tuples(seq(|rows|, i requires 0 <= i < |rows| => ListeningTexts(rows[i]))))
  }

  function ReadingValues(rows: seq<ReadingRow>): string {
    Values(Tuples(seq(|rows|, i requires 0 <= i < |rows| => ReadingTexts(rows[i]))))
  }

  /** A rendered listening section stores exactly its rows, in order and column by column,
      whatever the prompts, passages, options and answers hold: exactly when it has a row and no
      mock id holds a quote. */
  lemma ListeningIsStored(rows: seq<ListeningRow>)
    ensures Stores(LISTENING, ListeningValues(rows), ListeningRecords(rows))
        <==> rows != [] && forall i :: 0 <= i < |rows| ==> '\'' !in rows[i].mockId
  {
    hide ParseValues, PrintAll, RowRenders, Values, Named, Stores, ListeningTexts, ListeningRecord, Covers;
    var texts := seq(|rows|, i requires 0 <= i < |rows| => ListeningTexts(rows[i]));
    forall i | 0 <= i < |rows|
      ensures Covers(LISTENING, ListeningRecords(rows)[i])
      ensures RowRenders(texts[i], Ordered(LISTENING, ListeningRecords(rows)[i]))
      ensures texts[i] == PrintAll(Ordered(LISTENING, ListeningRecords(rows)[i])) <==> '\'' !in rows[i].mockId
    {
      ListeningRendered(rows[i]);
    }
    StoresWhenEscaped(LISTENING, texts, ListeningRecords(rows));
  }

  /** The reading printer also leaves the question type as it stands. */
  lemma ReadingIsStored(rows: seq<ReadingRow>)
    ensures Stores(READING, ReadingValues(rows), ReadingRecords(rows))
        <==> rows != [] && forall i :: 0 <= i < |rows| ==> '\'' !in rows[i].mockId && '\'' !in rows[i].kind
  {
    hide ParseValues, PrintAll, RowRenders, Values, Named, Stores, ReadingTexts, ReadingRecord, Covers;
    var texts := seq(|rows|, i requires 0 <= i < |rows| => ReadingTexts(rows[i]));
    forall i | 0 <= i < |rows|
      ensures Covers(READING, ReadingRecords(rows)[i])
      ensures RowRenders(texts[i], Ordered(READING, ReadingRecords(rows)[i]))
      ensures texts[i] == PrintAll(Ordered(READING, ReadingRecords(rows)[i]))
          <==> '\'' !in rows[i].mockId && '\'' !in rows[i].kind
    {
      ReadingRendered(rows[i]);
    }
    StoresWhenEscaped(READING, texts, ReadingRecords(rows));
  }

  /** render_sql of the listening script: what it appends after `VALUES`. */
  method RenderListening(rows: seq<ListeningRow>) returns (text: string)
    ensures text == ListeningValues(rows)
    ensures rows != [] && (forall i :: 0 <= i < |rows| ==> '\'' !in rows[i].mockId)
        ==> Stores(LISTENING, text, ListeningRecords(rows))
  {
    hide Tuple, Values, ListeningTexts, Stores;
    var lines := [];
    for i := 0 to |rows|
      invariant |lines| == i && forall k :: 0 <= k < i ==> lines[k] == Tuple(ListeningTexts(rows[k]))
    {
      lines := lines + [Tuple(ListeningTexts(rows[i]))];
    }
    text := Values(lines);
    assert lines == Tuples(seq(|rows|, i requires 0 <= i < |rows| => ListeningTexts(rows[i])));
    ListeningIsStored(rows);
  }

  /** render_sql of the reading script, which raises without rows. */
  method RenderReading(rows: seq<ReadingRow>) returns (text: Option<string>)
    ensures text.None? <==> rows == []
    ensures text.Some? ==> text.value == ReadingValues(rows)
    ensures text.Some? && (forall i :: 0 <= i < |rows| ==> '\'' !in rows[i].mockId && '\'' !in rows[i].kind)
        ==> Stores(READING, text.value, ReadingRecords(rows))
  {
    hide Tuple, Values, ReadingTexts, Stores;
    if rows == [] {
      return None;
    }
    var lines := [];
    for i := 0 to |rows|
      invariant |lines| == i && forall k :: 0 <= k < i ==> lines[k] == Tuple(ReadingTexts(rows[k]))
    {
      lines := lines + [Tuple(ReadingTexts(rows[i]))];
    }
    text := Some(Values(lines));
    assert lines == Tuples(seq(|rows|, i requires 0 <= i < |rows| => ReadingTexts(rows[i])));
    ReadingIsStored(rows);
  }
}
