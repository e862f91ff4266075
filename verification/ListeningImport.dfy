/** The whole of scripts/normalize_listening_mock.py for one section: groups in, `INSERT` out. */
module ListeningImport {
  import opened Wrappers
  import opened ListeningFlatten
  import opened SqlRows
  import opened SqlColumns
  import opened SqlValues

  /** The columns that normalize adds to each row; `dump` is json.dumps. */
  function DbRows(rows: seq<Row>, mockId: string, part: int, audio: string, dump: seq<Choice> -> string)
    : (r: seq<ListeningRow>)
    ensures |r| == |rows|
    ensures forall i :: 0 <= i < |rows| ==> r[i] == DbRow(rows[i], mockId, part, audio, dump)
  {
    seq(|rows|, i requires 0 <= i < |rows| => DbRow(rows[i], mockId, part, audio, dump))
  }

  function DbRow(row: Row, mockId: string, part: int, audio: string, dump: seq<Choice> -> string): ListeningRow {
    ListeningRow(mockId, part, row.kind, row.number, row.prompt, row.passage, audio,
                 if row.options.None? then None else Some(dump(row.options.value)), row.answer, Some(row.skill))
  }

  /** Sound groups with the promised total end up in the table question by question, exactly when
      some group is not skipped and the mock id holds no quote. */
  method Import(groups: seq<Group>, total: int, allow: bool, perPart: bool, mockId: string, part: int, audio: string,
                dump: seq<Choice> -> string) returns (r: Result<string, Fault>)
    ensures r.Ok? <==> groups != [] && AllSound(groups, allow) && (total == 0 || total == Count(groups, allow))
    ensures r.Ok? ==>
      exists rows :: rows == (if perPart then Renumbered(Flattened(groups, allow)) else Flattened(groups, allow))
        && IsSorted(rows) && |rows| == Count(groups, allow)
        && (Stores(LISTENING, r.value, ListeningRecords(DbRows(rows, mockId, part, audio, dump)))
            <==> '\'' !in mockId && exists i :: 0 <= i < |groups| && !IsSkipped(groups[i], allow))
  {
    hide Renumbered, Flattened, Count, IsSkipped, AllSound, Stores, ListeningValues, DbRow, ListeningRecord, IsSorted;
    var flat := Normalize(groups, total, allow, perPart);
    if flat.Err? {
      return Err(flat.error);
    }
    var rows := DbRows(flat.value, mockId, part, audio, dump);
    var text := RenderListening(rows);
    SomethingCounts(groups, allow);
    ListeningIsStored(rows);
    OneMockId(flat.value, mockId, part, audio, dump);
    r := Ok(text);
  }

  /** What a reader finds for row i of the imported ones: its own number, kind, prompt, text, options,
      answer and skill, under the mock, the part and the audio that were asked for. */
  lemma {:induction false} ImportedRowIsRead(rows: seq<Row>, mockId: string, part: int, audio: string,
                                             dump: seq<Choice> -> string, i: nat)
    requires i < |rows| && '\'' !in mockId
    ensures var cells := ParseValues(ListeningValues(DbRows(rows, mockId, part, audio, dump)));
            && cells.Some? && |cells.value| == |rows|
            && var record := Named(LISTENING, cells.value[i]);
               && record.Some?
               && Holds(record.value, "mock_test_id", Text(mockId)) && Holds(record.value, "module", Text("listening"))
               && Holds(record.value, "part", Number(part)) && Holds(record.value, "audio_url", Text(audio))
               && Holds(record.value, "question_number", Number(rows[i].number))
               && Holds(record.value, "question_type", Text(rows[i].kind))
               && Holds(record.value, "prompt", Text(rows[i].prompt))
               && Holds(record.value, "passage_text", if rows[i].passage.Some? then Text(rows[i].passage.value) else Null)
               && Holds(record.value, "options", if rows[i].options.Some? then Json(dump(rows[i].options.value)) else Null)
               && Holds(record.value, "correct_answer", Text(rows[i].answer))
               && Holds(record.value, "skill_tag", Text(rows[i].skill))
  {
    hide ParseValues, ListeningValues, Named, Holds;
    ListeningIsRead(DbRows(rows, mockId, part, audio, dump), i);
  }

  lemma OneMockId(rows: seq<Row>, mockId: string, part: int, audio: string, dump: seq<Choice> -> string)
    ensures var all := DbRows(rows, mockId, part, audio, dump);
            all != [] && (forall i :: 0 <= i < |all| ==> '\'' !in all[i].mockId) <==> rows != [] && '\'' !in mockId
  {
    var all := DbRows(rows, mockId, part, audio, dump);
    assert all != [] ==> all[0].mockId == mockId;
  }

  lemma {:induction false} SomethingCounts(groups: seq<Group>, allow: bool)
    requires AllSound(groups, allow)
    ensures Count(groups, allow) > 0 <==> exists i :: 0 <= i < |groups| && !IsSkipped(groups[i], allow)
  {
    if groups != [] {
      SomethingCounts(groups[..|groups| - 1], allow);
      var last := groups[|groups| - 1];
      assert !IsSkipped(last, allow) ==> |GroupRows(last, allow)| > 0;
    }
  }
}
