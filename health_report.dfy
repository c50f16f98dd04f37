/** The report page of HealthReportPage.tsx: the text of the report, or a fixed
    error text, rendered line by line with a small markdown classifier. */
module HealthReport {
  import opened Types
  import opened Text

  const ErrorText := "Habaye ikibazo mu gukora raporo y'ubuzima. Mwongere mugerageze nyuma."

  /** What one line becomes. */
  datatype Block = Heading(text: string) | Bold(text: string) | Item(text: string) | Break | Paragraph(text: string)

  /** The classifier of `renderMarkdown`; the first rule that applies wins. */
  function Classify(line: string): (b: Block)
    ensures StartsWith(line, "### ") ==> b == Heading(line[4..])
    ensures !StartsWith(line, "### ") && StartsWith(line, "**") ==> b == Bold(RemoveAll(line, "**"))
    ensures !StartsWith(line, "### ") && !StartsWith(line, "**") && StartsWith(line, "- ") ==> b == Item(line[2..])
    ensures !StartsWith(line, "### ") && !StartsWith(line, "**") && !StartsWith(line, "- ") ==>
      b == if IsBlank(line) then Break else Paragraph(line)
  {
    if StartsWith(line, "### ") then
      ReplacePrefix(line, "### ");
      Heading(ReplaceFirst(line, "### ", ""))
    else if StartsWith(line, "**") then Bold(RemoveAll(line, "**"))
    else if StartsWith(line, "- ") then
      ReplacePrefix(line, "- ");
      Item(ReplaceFirst(line, "- ", ""))
    else if Trim(line) == "" then Break
    else Paragraph(line)
  }

  /** `renderMarkdown`: one block per line, in order. */
  function Render(text: string): (blocks: seq<Block>)
    ensures |blocks| == |Lines(text)| == CountChar(text, '\n') + 1
    ensures forall i :: 0 <= i < |blocks| ==> blocks[i] == Classify(Lines(text)[i])
  {
    MapLines(text, Classify)
  }

  /** A bold line shows no pair of stars. */
  lemma BoldHasNoStars(line: string)
    requires Classify(line).Bold?
    ensures var t := Classify(line).text;
      forall i :: 0 <= i < |t| - 1 ==> !(t[i] == '*' && t[i + 1] == '*')
  {
    assert !StartsWith(line, "### ") && StartsWith(line, "**");
    assert Classify(line).text == RemoveAll(line, "**");
    RemoveStarsLeavesNoPair(line);
  }

  /** The text shown: the report, or the error text when the request failed. */
  function ReportText(reply: Option<string>): (r: string)
    ensures reply.None? ==> r == ErrorText
    ensures reply.Some? ==> r == reply.value
  {
    if reply.Some? then reply.value else ErrorText
  }
}
