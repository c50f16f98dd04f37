/** The analysis page of PrescriptionAnalysisPage.tsx: only active prescriptions
    are analysed, and the analysis is rendered line by line. A level-3 title equal
    to the warning marker becomes a callout whose body is the text between the
    first occurrence of that line and the next one, or the end. */
module PrescriptionAnalysis {
  import opened Types
  import opened Text
  import opened Seqs

  /** "Important warning": the title of the callout. */
  const Marker := "ICYITONDERWA CY'INGENZI"
  const NoActiveText := "Nta miti ikoreshwa washyizemo kugirango isesengurwe."
  const ErrorText := "Habaye ikibazo mu gusesengura imiti yawe. Mwongere mugerageze nyuma."

  predicate IsActive(p: Prescription) {
    p.status == Active
  }

  /** The prescriptions handed to the analysis. */
  function ActivePrescriptions(ps: seq<Prescription>): (r: seq<Prescription>)
    ensures forall p :: p in r <==> p in ps && p.status == Active
    ensures IsSubsequence(r, ps)
  {
    FilterIsSubsequence(ps, IsActive);
    Filter(ps, IsActive)
  }

  /** The analysis text and whether the service was asked; `reply` is the
      service's answer, `None` when it failed. */
  function Analysis(ps: seq<Prescription>, reply: Option<string>): (r: (string, bool))
    ensures r.1 <==> exists p :: p in ps && p.status == Active
    ensures !r.1 ==> r.0 == NoActiveText
    ensures r.1 && reply.None? ==> r.0 == ErrorText
    ensures r.1 && reply.Some? ==> r.0 == reply.value
  {
    var active := ActivePrescriptions(ps);
    if active == [] then (NoActiveText, false)
    else
      assert active[0] in active;
      (if reply.Some? then reply.value else ErrorText, true)
  }

  /** The title of a `### ` line: the prefix dropped, every `**` removed, and every
      '_' turned into a space. */
  function Title(line: string): string
    requires StartsWith(line, "### ")
  {
    ReplaceChar(RemoveAll(ReplaceFirst(line, "### ", ""), "**"), '_', ' ')
  }

  /** A title without stars or underscores is shown as written. */
  lemma PlainTitle(t: string)
    requires '*' !in t && '_' !in t
    ensures StartsWith("### " + t, "### ") && Title("### " + t) == t
  {
    var line := "### " + t;
    assert line[..4] == "### ";
    ReplacePrefix(line, "### ");
    assert line[4..] == t;
    RemoveStarsAbsent(t);
  }

  /** So the plain marker line opens a callout. */
  lemma MarkerLineIsCallout()
    ensures StartsWith("### " + Marker, "### ") && Title("### " + Marker) == Marker
  {
    PlainTitle(Marker);
  }

  /** What one line becomes; `Dropped` renders nothing. A callout's body is
      `text.split(line)[1]`, which `CalloutHasBody` shows is always defined for a
      line of the text. */
  datatype Block =
    | Callout(title: string, body: Option<string>)
    | Heading(title: string)
    | SubHeading(text: string)
    | Bold(text: string)
    | Item(text: string)
    | Paragraph(text: string)
    | Dropped

  /** A `### ` line that is not the marker is dropped when it occurs in the text
      between the first two markers. */
  predicate InWarning(text: string, line: string) {
    Contains(text, Marker) && Contains(SplitPart(text, Marker, 1).value, line)
  }

  lemma MarkerHasSecondPart(text: string)
    requires Contains(text, Marker)
    ensures SplitPart(text, Marker, 1).Some?
  {
    SplitFirst(text, Marker);
  }

  /** The classifier of `renderMarkdown` for a line of `text`. */
  function Classify(text: string, line: string): (b: Block)
    ensures StartsWith(line, "### ") ==>
      b == if Title(line) == Marker then Callout(Marker, SplitPart(text, line, 1))
           else if InWarning(text, line) then Dropped
           else Heading(Title(line))
    ensures !StartsWith(line, "### ") && StartsWith(line, "#### ") ==> b == SubHeading(line[5..])
    ensures !StartsWith(line, "### ") && !StartsWith(line, "#### ") && StartsWith(line, "**") ==>
      b == Bold(RemoveAll(line, "**"))
    ensures !StartsWith(line, "### ") && !StartsWith(line, "#### ") && !StartsWith(line, "**") && StartsWith(line, "- ") ==>
      b == Item(line[2..])
    ensures !StartsWith(line, "### ") && !StartsWith(line, "#### ") && !StartsWith(line, "**") && !StartsWith(line, "- ") ==>
      b == if IsBlank(line) || Contains(line, Marker) then Dropped else Paragraph(line)
  {
    if StartsWith(line, "### ") then
      var title := Title(line);
      if title == Marker then Callout(title, SplitPart(text, line, 1))
      else if Contains(text, Marker) && (MarkerHasSecondPart(text); Contains(SplitPart(text, Marker, 1).value, line)) then Dropped
      else Heading(title)
    else if StartsWith(line, "#### ") then
      ReplacePrefix(line, "#### ");
      SubHeading(ReplaceFirst(line, "#### ", ""))
    else if StartsWith(line, "**") then Bold(RemoveAll(line, "**"))
    else if StartsWith(line, "- ") then
      ReplacePrefix(line, "- ");
      Item(ReplaceFirst(line, "- ", ""))
    else if Trim(line) == "" || Contains(line, Marker) then Dropped
    else Paragraph(line)
  }

  /** `renderMarkdown`: one block per line, in order. */
  function Render(text: string): (blocks: seq<Block>)
    ensures |blocks| == |Lines(text)| == CountChar(text, '\n') + 1
    ensures forall i :: 0 <= i < |blocks| ==> blocks[i] == Classify(text, Lines(text)[i])
  {
    MapLines(text, line => Classify(text, line))
  }

  /** A callout made from a line of the text always has a body: the line occurs
      in the text, so splitting at it gives a second piece. */
  lemma CalloutHasBody(text: string, i: int)
    requires 0 <= i < |Lines(text)|
    requires Render(text)[i].Callout?
    ensures Render(text)[i].body.Some?
  {
    var line := Lines(text)[i];
    assert StartsWith(line, "### ");
    SplitPieceOccurs(text, "\n", i);
    SplitFirst(text, line);
  }

  /** A paragraph is never blank and never shows the marker. */
  lemma ParagraphIsPlain(text: string, line: string)
    requires Classify(text, line).Paragraph?
    ensures !IsBlank(line) && !Contains(line, Marker)
    ensures Classify(text, line).text == line
  {
  }
}
