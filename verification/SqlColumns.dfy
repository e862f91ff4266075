/** What a reader of the printed `VALUES` lists finds in each column of each row. */
module SqlColumns {
  import opened Wrappers
  import opened Text
  import opened SqlValues
  import opened SqlRows

  /** Quotes are doubled and everything else stays; `NULL` stands for what is missing, and a JSON
      text carries its type. */
  lemma {:induction false} QuotesAreDoubled(a: string, b: string)
    requires '\'' !in a
    ensures Escape(a) == a && Escape(a + "'" + b) == a + "''" + Escape(b)
    ensures SqlStr(None) == "NULL" && SqlStr(Some(a + "'" + b)) == "'" + a + "''" + Escape(b) + "'"
    ensures SqlStr(Some(a)) == "'" + a + "'"
    ensures SqlJson(None) == "NULL" && SqlJson(Some(a + "'" + b)) == "'" + a + "''" + Escape(b) + "'::jsonb"
    ensures SqlJson(Some(a)) == "'" + a + "'::jsonb"
  {
    EscapedParts(a, b);
    EscapeGrows(a);
    assert "'" + (a + "''" + Escape(b)) + "'" == "'" + a + "''" + Escape(b) + "'";
    assert "'" + (a + "''" + Escape(b)) + "'::jsonb" == "'" + a + "''" + Escape(b) + "'::jsonb";
  }

  lemma {:induction false} EscapedParts(a: string, b: string)
    requires '\'' !in a
    ensures Escape(a + "'" + b) == a + "''" + Escape(b)
  {
    var whole := a + "'" + b;
    if a == "" {
      assert whole == "'" + b && whole[1..] == b;
    } else {
      EscapedParts(a[1..], b);
      assert whole[1..] == a[1..] + "'" + b;
      assert [a[0]] + (a[1..] + "''" + Escape(b)) == a + "''" + Escape(b);
    }
  }

  /** Numbers are printed in decimal, without leading zeros and with a minus sign in front. */
  lemma {:induction false} NumbersAreDecimal(n: int, d: int)
    requires 0 <= n && 0 <= d < 10
    ensures Decimal(d) == ["0123456789"[d]]
    ensures n > 0 ==> Decimal(10 * n + d) == Decimal(n) + ["0123456789"[d]] && Decimal(-n) == "-" + Decimal(n)
  {
    if n > 0 {
      assert (10 * n + d) / 10 == n && (10 * n + d) % 10 == d;
    }
  }

  /** The text in column `name` of a record. */
  ghost predicate Holds(record: map<string, Cell>, name: string, value: Cell) { name in record && record[name] == value }

  /** A printed listening section is read back row by row: each column of the table holds its own
      field of the row. */
  lemma {:induction false} ListeningIsRead(rows: seq<ListeningRow>, i: nat)
    requires i < |rows| && forall k :: 0 <= k < |rows| ==> '\'' !in rows[k].mockId
    ensures var cells := ParseValues(ListeningValues(rows));
            && cells.Some? && |cells.value| == |rows|
            && var record := Named(["mock_test_id", "module", "part", "question_type", "question_number", "prompt",
                                    "passage_text", "audio_url", "options", "correct_answer", "skill_tag"], cells.value[i]);
               && record.Some?
               && Holds(record.value, "mock_test_id", Text(rows[i].mockId))
               && Holds(record.value, "module", Text("listening"))
               && Holds(record.value, "part", Number(rows[i].part))
               && Holds(record.value, "question_type", Text(rows[i].kind))
               && Holds(record.value, "question_number", Number(rows[i].number))
               && Holds(record.value, "prompt", Text(rows[i].prompt))
               && Holds(record.value, "passage_text", if rows[i].passage.Some? then Text(rows[i].passage.value) else Null)
               && Holds(record.value, "audio_url", Text(rows[i].audio))
               && Holds(record.value, "options", if rows[i].options.Some? then Json(rows[i].options.value) else Null)
               && Holds(record.value, "correct_answer", Text(rows[i].answer))
               && Holds(record.value, "skill_tag", if rows[i].skill.Some? then Text(rows[i].skill.value) else Null)
  {
    hide ParseValues, ListeningValues, Named;
    ListeningIsStored(rows);
  }

  lemma {:induction false} ReadingIsRead(rows: seq<ReadingRow>, i: nat)
    requires i < |rows| && forall k :: 0 <= k < |rows| ==> '\'' !in rows[k].mockId && '\'' !in rows[k].kind
    ensures var cells := ParseValues(ReadingValues(rows));
            && cells.Some? && |cells.value| == |rows|
            && var record := Named(["mock_test_id", "module", "question_type", "question_number", "part", "prompt",
                                    "passage_text", "options", "correct_answer", "skill_tag"], cells.value[i]);
               && record.Some?
               && Holds(record.value, "mock_test_id", Text(rows[i].mockId))
               && Holds(record.value, "module", Text("reading"))
               && Holds(record.value, "part", Number(rows[i].part))
               && Holds(record.value, "question_type", Text(rows[i].kind))
               && Holds(record.value, "question_number", Number(rows[i].number))
               && Holds(record.value, "prompt", Text(rows[i].prompt))
               && Holds(record.value, "passage_text", if rows[i].passage.Some? then Text(rows[i].passage.value) else Null)
               && Holds(record.value, "options", if rows[i].options.Some? then Json(rows[i].options.value) else Null)
               && Holds(record.value, "correct_answer", Text(rows[i].answer))
               && Holds(record.value, "skill_tag", if rows[i].skill.Some? then Text(rows[i].skill.value) else Null)
  {
    hide ParseValues, ReadingValues, Named;
    ReadingIsStored(rows);
  }
}
