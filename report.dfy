/**
  The Markdown impact report built from a stored conversation: a header,
  then one numbered section per transcript row with the query, the tools
  used and the response.
 */
module Report {
  import opened Wrappers
  import opened Text
  import opened Transcript

  function Header(conversationId: string, generatedOn: string): string {
    "# Impact Analysis Report\n\n"
      + "**Conversation ID:** `" + conversationId + "`\n"
      + "**Generated on:** " + generatedOn + "\n\n"
      + "---\n\n"
  }

  function ToolNames(calls: seq<ToolRecord>): (names: seq<string>)
    ensures |names| == |calls|
  {
    seq(|calls|, i requires 0 <= i < |calls| => "`" + RecordName(calls[i]) + "`")
  }

  /** The "Tools used" line of a row: present only when the stored JSON decodes
      to a non-empty list; `decode` is `json.loads`, `None` when it raises. */
  function ToolsLine(toolCalls: Option<string>, decode: string -> Option<seq<ToolRecord>>): string {
    if toolCalls.None? || toolCalls.value == "" then ""
    else match decode(toolCalls.value)
      case None => ""
      case Some(calls) => if calls == [] then "" else "**Tools used:** " + Join(ToolNames(calls), ", ") + "\n\n"
  }

  function Heading(i: nat): string {
    "### Interaction " + NatToString(i + 1) + "\n\n"
  }

  /** The section for row `i` (counting from 0). */
  function Section(i: nat, row: Row, decode: string -> Option<seq<ToolRecord>>): string {
    Heading(i)
      + "**User Query:**\n```\n" + row.query + "\n```\n\n"
      + ToolsLine(row.toolCalls, decode)
      + "**Aurora's Response:**\n" + row.response + "\n\n"
      + "---\n\n"
  }

  function Sections(rows: seq<Row>, decode: string -> Option<seq<ToolRecord>>): string
    decreases |rows|
  {
    if rows == [] then ""
    else Sections(rows[..|rows| - 1], decode) + Section(|rows| - 1, rows[|rows| - 1], decode)
  }

  /** `generate_report`: nothing without a conversation id or rows; otherwise
      the report text (the source writes it to a temporary file and returns
      that file's path). */
  function ReportText(conversationId: string, rows: seq<Row>, generatedOn: string,
                      decode: string -> Option<seq<ToolRecord>>): Option<string>
  {
    if conversationId == "" || rows == [] then None
    else Some(Header(conversationId, generatedOn) + Sections(rows, decode))
  }

  method GenerateReport(conversationId: string, rows: seq<Row>, generatedOn: string,
                        decode: string -> Option<seq<ToolRecord>>) returns (report: Option<string>)
    ensures report == ReportText(conversationId, rows, generatedOn, decode)
  {
    if conversationId == "" || rows == [] {
      return None;
    }
    var sections := WriteSections(rows, decode);
    return Some(Header(conversationId, generatedOn) + sections);
  }

  /** The loop over the rows that appends one section per interaction. */
  method WriteSections(rows: seq<Row>, decode: string -> Option<seq<ToolRecord>>) returns (content: string)
    ensures content == Sections(rows, decode)
  {
    content := "";
    for i := 0 to |rows|
      invariant content == Sections(rows[..i], decode)
    {
      assert rows[..i + 1][..i] == rows[..i];
      content := content + Section(i, rows[i], decode);
    }
    assert rows[..|rows|] == rows;
  }

  /** The sections of the first `n` rows are the start of the sections of all rows. */
  lemma {:induction false} SectionsPrefix(rows: seq<Row>, n: nat, decode: string -> Option<seq<ToolRecord>>)
    requires n <= |rows|
    ensures StartsWith(Sections(rows, decode), Sections(rows[..n], decode))
    decreases |rows|
  {
    if n < |rows| {
      var prefix := rows[..|rows| - 1];
      SectionsPrefix(prefix, n, decode);
      assert prefix[..n] == rows[..n];
      var s := Sections(rows, decode);
      var p := Sections(prefix, decode);
      var q := Sections(rows[..n], decode);
      assert s == p + Section(|rows| - 1, rows[|rows| - 1], decode);
      assert s[..|q|] == p[..|q|];
    } else {
      assert rows[..n] == rows;
    }
  }

  /** What follows a prefix `b` inside a prefix `b + x` of `s` occurs in `s` right after `b`. */
  lemma OccursAfter(s: string, b: string, x: string)
    requires StartsWith(s, b + x)
    ensures OccursAt(s, x, |b|)
  {
    assert s[|b|..|b| + |x|] == (b + x)[|b|..];
  }

  /** Row `i`'s section, headed "### Interaction i+1", follows the sections of
      the rows before it: one numbered section per row, in row order. */
  lemma SectionAt(rows: seq<Row>, i: nat, decode: string -> Option<seq<ToolRecord>>)
    requires i < |rows|
    ensures OccursAt(Sections(rows, decode), Section(i, rows[i], decode), |Sections(rows[..i], decode)|)
    ensures StartsWith(Section(i, rows[i], decode), "### Interaction " + NatToString(i + 1))
  {
    SectionsPrefix(rows, i + 1, decode);
    assert rows[..i + 1][..i] == rows[..i];
    OccursAfter(Sections(rows, decode), Sections(rows[..i], decode), Section(i, rows[i], decode));
    HeadingStartsSection(i, rows[i], decode);
  }

  lemma HeadingStartsSection(i: nat, row: Row, decode: string -> Option<seq<ToolRecord>>)
    ensures StartsWith(Section(i, row, decode), "### Interaction " + NatToString(i + 1))
  {
    var h := "### Interaction " + NatToString(i + 1);
    assert Heading(i) == h + "\n\n";
    assert Section(i, row, decode)[..|h|] == h;
  }

  /** A row lists its tools exactly when its stored JSON decodes to a non-empty
      list, naming each in order ("tool" when a record has no name); malformed
      JSON is ignored. */
  lemma ToolsLineListsTools(toolCalls: Option<string>, decode: string -> Option<seq<ToolRecord>>)
    ensures ToolsLine(toolCalls, decode) != "" <==>
      toolCalls.Some? && toolCalls.value != "" && decode(toolCalls.value).Some? && decode(toolCalls.value).value != []
    ensures ToolsLine(toolCalls, decode) != "" ==>
      var calls := decode(toolCalls.value).value;
      StartsWith(ToolsLine(toolCalls, decode), "**Tools used:** ")
      && forall i :: 0 <= i < |calls| ==> Contains(ToolsLine(toolCalls, decode), "`" + RecordName(calls[i]) + "`")
  {
    if ToolsLine(toolCalls, decode) != "" {
      var calls := decode(toolCalls.value).value;
      var names := ToolNames(calls);
      forall i | 0 <= i < |calls|
        ensures Contains(ToolsLine(toolCalls, decode), "`" + RecordName(calls[i]) + "`")
      {
        JoinContainsParts(names, ", ", i);
        ContainsWithin("**Tools used:** ", Join(names, ", "), "\n\n", names[i]);
      }
    }
  }

  /** No report without a conversation id or without rows; otherwise the
      report begins with its header. */
  lemma ReportGuards(conversationId: string, rows: seq<Row>, generatedOn: string, decode: string -> Option<seq<ToolRecord>>)
    ensures ReportText(conversationId, rows, generatedOn, decode).None? <==> conversationId == "" || rows == []
    ensures ReportText(conversationId, rows, generatedOn, decode).Some? ==>
      StartsWith(ReportText(conversationId, rows, generatedOn, decode).value, Header(conversationId, generatedOn))
  {
    if conversationId != "" && rows != [] {
      var h := Header(conversationId, generatedOn);
      assert (h + Sections(rows, decode))[..|h|] == h;
    }
  }
}
