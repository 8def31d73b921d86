/**
 * The results record (`writeResults`, `PrintVar` at TM/TM.hpp:56-69 and
 * 128-141): a brace-delimited list of seven `"key": value` lines.
 */
module Results {
  import opened Wrappers
  import opened Text

  /** The values the record reports. */
  datatype Summary = Summary(
    isWinner: bool,
    isCrashed: bool,
    timedOut: bool,
    buildingScore: int,
    killScore: int,
    razingScore: int,
    unitScore: int)

  /** One `PrintVar` line without its newline: tab, quoted name, colon, value, postfix. */
  function FieldLine(name: string, value: string, postfix: string): string {
    "\t\"" + name + "\": " + value + postfix
  }

  /**
   * What `PrintVar` writes for a value that is not a `std::string`: one field
   * line ended by a newline, from which the value can be read back.
   */
  function PrintVar(name: string, value: string, postfix: string := ""): (text: string)
    ensures |text| > 0 && text[|text| - 1] == '\n'
    ensures ParseField(text[..|text| - 1], name, postfix) == Some(value)
  {
    var line := FieldLine(name, value, postfix);
    ParseFieldOf(name, value, postfix);
    assert (line + "\n")[..|line|] == line;
    line + "\n"
  }

  /** The record's lines: an opening brace, seven fields with a comma after all but the last, a closing brace. */
  function ResultsLines(s: Summary): (ls: seq<string>)
    ensures |ls| == 9
  {
    [ "{",
      FieldLine("is_winner", BoolName(s.isWinner), ","),
      FieldLine("is_crashed", BoolName(s.isCrashed), ","),
      FieldLine("timed_out", BoolName(s.timedOut), ","),
      FieldLine("building_score", IntToString(s.buildingScore), ","),
      FieldLine("kill_score", IntToString(s.killScore), ","),
      FieldLine("razing_score", IntToString(s.razingScore), ","),
      FieldLine("unit_score", IntToString(s.unitScore), ""),
      "}" ]
  }

  /** The record's text: its lines joined by newlines, none after the closing brace. */
  function ResultsText(s: Summary): string {
    JoinLines(ResultsLines(s))
  }

  /** The value on a line written by `FieldLine(name, _, postfix)`. */
  function ParseField(line: string, name: string, postfix: string): Option<string> {
    var prefix := "\t\"" + name + "\": ";
    if |line| >= |prefix| + |postfix| && line[..|prefix|] == prefix && line[|line| - |postfix|..] == postfix then
      Some(line[|prefix|..|line| - |postfix|])
    else
      None
  }

  function ParseBoolField(line: string, name: string, postfix: string): Option<bool> {
    var v :- ParseField(line, name, postfix);
    ParseBool(v)
  }

  function ParseIntField(line: string, name: string, postfix: string): Option<int> {
    var v :- ParseField(line, name, postfix);
    ParseInt(v)
  }

  /** Reads the record's lines back. */
  function ParseResultsLines(ls: seq<string>): Option<Summary> {
    if |ls| != 9 || ls[0] != "{" || ls[8] != "}" then None
    else
      var w :- ParseBoolField(ls[1], "is_winner", ",");
      var c :- ParseBoolField(ls[2], "is_crashed", ",");
      var t :- ParseBoolField(ls[3], "timed_out", ",");
      var b :- ParseIntField(ls[4], "building_score", ",");
      var k :- ParseIntField(ls[5], "kill_score", ",");
      var r :- ParseIntField(ls[6], "razing_score", ",");
      var u :- ParseIntField(ls[7], "unit_score", "");
      Some(Summary(w, c, t, b, k, r, u))
  }

  /** Reads a results record back. */
  function ParseResults(text: string): Option<Summary> {
    ParseResultsLines(SplitLines(text))
  }

  lemma ParseFieldOf(name: string, value: string, postfix: string)
    ensures ParseField(FieldLine(name, value, postfix), name, postfix) == Some(value)
  {
    var prefix := "\t\"" + name + "\": ";
    var line := FieldLine(name, value, postfix);
    assert line == prefix + value + postfix;
    assert line[..|prefix|] == prefix;
    assert line[|line| - |postfix|..] == postfix;
    assert line[|prefix|..|line| - |postfix|] == value;
  }

  lemma FieldLineOneLine(name: string, value: string, postfix: string)
    requires '\n' !in name && '\n' !in value && '\n' !in postfix
    ensures '\n' !in FieldLine(name, value, postfix)
  {
  }

  lemma ResultsLinesSplit(s: Summary)
    ensures SplitLines(ResultsText(s)) == ResultsLines(s)
  {
    var ls := ResultsLines(s);
    FieldLineOneLine("is_winner", BoolName(s.isWinner), ",");
    FieldLineOneLine("is_crashed", BoolName(s.isCrashed), ",");
    FieldLineOneLine("timed_out", BoolName(s.timedOut), ",");
    FieldLineOneLine("building_score", IntToString(s.buildingScore), ",");
    FieldLineOneLine("kill_score", IntToString(s.killScore), ",");
    FieldLineOneLine("razing_score", IntToString(s.razingScore), ",");
    FieldLineOneLine("unit_score", IntToString(s.unitScore), "");
    SplitJoinLines(ls);
  }

  lemma BoolFieldRoundTrip(name: string, b: bool, postfix: string)
    ensures ParseBoolField(FieldLine(name, BoolName(b), postfix), name, postfix) == Some(b)
  {
    ParseFieldOf(name, BoolName(b), postfix);
    BoolRoundTrip(b);
  }

  lemma IntFieldRoundTrip(name: string, i: int, postfix: string)
    ensures ParseIntField(FieldLine(name, IntToString(i), postfix), name, postfix) == Some(i)
  {
    ParseFieldOf(name, IntToString(i), postfix);
    IntRoundTrip(i);
  }

  lemma ParseNineLines(ls: seq<string>, sum: Summary)
    requires |ls| == 9 && ls[0] == "{" && ls[8] == "}"
    requires ParseBoolField(ls[1], "is_winner", ",") == Some(sum.isWinner)
    requires ParseBoolField(ls[2], "is_crashed", ",") == Some(sum.isCrashed)
    requires ParseBoolField(ls[3], "timed_out", ",") == Some(sum.timedOut)
    requires ParseIntField(ls[4], "building_score", ",") == Some(sum.buildingScore)
    requires ParseIntField(ls[5], "kill_score", ",") == Some(sum.killScore)
    requires ParseIntField(ls[6], "razing_score", ",") == Some(sum.razingScore)
    requires ParseIntField(ls[7], "unit_score", "") == Some(sum.unitScore)
    ensures ParseResultsLines(ls) == Some(sum)
  {
  }

  lemma ResultsLinesRead(s: Summary)
    ensures ParseResultsLines(ResultsLines(s)) == Some(s)
  {
    var ls := ResultsLines(s);
    assert ls[0] == "{" && ls[8] == "}";
    assert ParseBoolField(ls[1], "is_winner", ",") == Some(s.isWinner) by {
      BoolFieldRoundTrip("is_winner", s.isWinner, ",");
    }
    assert ParseBoolField(ls[2], "is_crashed", ",") == Some(s.isCrashed) by {
      BoolFieldRoundTrip("is_crashed", s.isCrashed, ",");
    }
    assert ParseBoolField(ls[3], "timed_out", ",") == Some(s.timedOut) by {
      BoolFieldRoundTrip("timed_out", s.timedOut, ",");
    }
    assert ParseIntField(ls[4], "building_score", ",") == Some(s.buildingScore) by {
      IntFieldRoundTrip("building_score", s.buildingScore, ",");
    }
    assert ParseIntField(ls[5], "kill_score", ",") == Some(s.killScore) by {
      IntFieldRoundTrip("kill_score", s.killScore, ",");
    }
    assert ParseIntField(ls[6], "razing_score", ",") == Some(s.razingScore) by {
      IntFieldRoundTrip("razing_score", s.razingScore, ",");
    }
    assert ParseIntField(ls[7], "unit_score", "") == Some(s.unitScore) by {
      IntFieldRoundTrip("unit_score", s.unitScore, "");
    }
    ParseNineLines(ls, s);
  }

  /** The record reads back as the summary it was written from. */
  lemma ResultsRoundTrip(s: Summary)
    ensures ParseResults(ResultsText(s)) == Some(s)
  {
    ResultsLinesSplit(s);
    ResultsLinesRead(s);
  }

  /**
   * The text in the order `writeResults` writes it: the opening brace and a
   * newline, seven `PrintVar` lines, the closing brace.
   */
  lemma ResultsTextAsWritten(s: Summary)
    ensures ResultsText(s) ==
      "{\n"
      + PrintVar("is_winner", BoolName(s.isWinner), ",")
      + PrintVar("is_crashed", BoolName(s.isCrashed), ",")
      + PrintVar("timed_out", BoolName(s.timedOut), ",")
      + PrintVar("building_score", IntToString(s.buildingScore), ",")
      + PrintVar("kill_score", IntToString(s.killScore), ",")
      + PrintVar("razing_score", IntToString(s.razingScore), ",")
      + PrintVar("unit_score", IntToString(s.unitScore))
      + "}"
  {
    var ls := ResultsLines(s);
    assert PrintVar("is_winner", BoolName(s.isWinner), ",") == ls[1] + "\n";
    assert PrintVar("is_crashed", BoolName(s.isCrashed), ",") == ls[2] + "\n";
    assert PrintVar("timed_out", BoolName(s.timedOut), ",") == ls[3] + "\n";
    assert PrintVar("building_score", IntToString(s.buildingScore), ",") == ls[4] + "\n";
    assert PrintVar("kill_score", IntToString(s.killScore), ",") == ls[5] + "\n";
    assert PrintVar("razing_score", IntToString(s.razingScore), ",") == ls[6] + "\n";
    assert PrintVar("unit_score", IntToString(s.unitScore)) == ls[7] + "\n";
    WrittenLines(ls, PrintVar("is_winner", BoolName(s.isWinner), ","), PrintVar("is_crashed", BoolName(s.isCrashed), ","), PrintVar("timed_out", BoolName(s.timedOut), ","), PrintVar("building_score", IntToString(s.buildingScore), ","), PrintVar("kill_score", IntToString(s.killScore), ","), PrintVar("razing_score", IntToString(s.razingScore), ","), PrintVar("unit_score", IntToString(s.unitScore)));
  }

  /** Text written as a brace, seven newline-terminated lines and a brace is those nine lines joined. */
  lemma WrittenLines(ls: seq<string>, p1: string, p2: string, p3: string, p4: string, p5: string, p6: string, p7: string)
    requires |ls| == 9 && ls[0] == "{" && ls[8] == "}"
    requires p1 == ls[1] + "\n" && p2 == ls[2] + "\n" && p3 == ls[3] + "\n" && p4 == ls[4] + "\n"
    requires p5 == ls[5] + "\n" && p6 == ls[6] + "\n" && p7 == ls[7] + "\n"
    ensures JoinLines(ls) == "{\n" + p1 + p2 + p3 + p4 + p5 + p6 + p7 + "}"
  {
    var t0 := "{\n";
    assert t0 == JoinLines(ls[..1]) + "\n";
    var t1 := t0 + p1;
    AppendLine(ls, 1, t0, t1);
    var t2 := t1 + p2;
    AppendLine(ls, 2, t1, t2);
    var t3 := t2 + p3;
    AppendLine(ls, 3, t2, t3);
    var t4 := t3 + p4;
    AppendLine(ls, 4, t3, t4);
    var t5 := t4 + p5;
    AppendLine(ls, 5, t4, t5);
    var t6 := t5 + p6;
    AppendLine(ls, 6, t5, t6);
    var t7 := t6 + p7;
    AppendLine(ls, 7, t6, t7);
    JoinLinesPrefix(ls, 8);
    assert ls[..9] == ls;
  }

  lemma AppendLine(ls: seq<string>, k: nat, before: string, after: string)
    requires 0 < k < |ls|
    requires before == JoinLines(ls[..k]) + "\n"
    requires after == before + (ls[k] + "\n")
    ensures after == JoinLines(ls[..k + 1]) + "\n"
  {
    JoinLinesPrefix(ls, k);
  }
}
