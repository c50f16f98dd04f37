/** The summary card of ConsultationSummary.tsx: nothing without a doctor, a
    spinner until the summary arrives, then the summary line by line, with
    `**…**` lines as titles and blank lines left out. */
module ConsultationSummary {
  import opened Types
  import opened Text

  /** The characters the regular-expression `.` does not match. */
  predicate IsLineTerminator(c: char) {
    c == '\n' || c == '\r' || c == '\U{2028}' || c == '\U{2029}'
  }

  /** `/^\*\*.*\*\*$/`: two stars, any characters but line terminators, two stars,
      and nothing else. */
  predicate IsTitleLine(line: string) {
    |line| >= 4 && line[..2] == "**" && line[|line| - 2..] == "**"
    && forall i :: 2 <= i < |line| - 2 ==> !IsLineTerminator(line[i])
  }

  /** What one line becomes: a title, nothing, or a paragraph. */
  datatype Block = Title(text: string) | Skipped | Paragraph(text: string)

  function Classify(line: string): (b: Block)
    ensures b.Title? <==> IsTitleLine(line)
    ensures b.Title? ==> b.text == RemoveAll(line, "**")
    ensures b.Skipped? <==> !IsTitleLine(line) && IsBlank(line)
    ensures b.Paragraph? ==> b.text == line
  {
    if IsTitleLine(line) then Title(RemoveAll(line, "**"))
    else if Trim(line) == "" then Skipped
    else Paragraph(line)
  }

  /** `**Title**` with a title without stars or line terminators is shown as the
      title alone. */
  lemma PlainTitle(t: string)
    requires '*' !in t && forall i :: 0 <= i < |t| ==> !IsLineTerminator(t[i])
    ensures Classify("**" + t + "**") == Title(t)
  {
    var line := "**" + t + "**";
    assert line[..2] == "**" && line[|line| - 2..] == "**";
    assert forall i :: 2 <= i < |line| - 2 ==> line[i] == t[i - 2];
    assert StartsWith(line, "**");
    assert line[2..] == t + "**";
    RemoveStarsAbsent(t);
    TitleStarsRemoved(t);
  }

  /** A title line shows no pair of stars, however many its text held. */
  lemma TitleHasNoStars(line: string)
    requires Classify(line).Title?
    ensures var t := Classify(line).text;
      forall i :: 0 <= i < |t| - 1 ==> !(t[i] == '*' && t[i + 1] == '*')
  {
    assert Classify(line).text == RemoveAll(line, "**");
    RemoveStarsLeavesNoPair(line);
  }

  lemma {:induction false} TitleStarsRemoved(t: string)
    requires '*' !in t
    ensures RemoveAll("**" + t + "**", "**") == t
  {
    var line := "**" + t + "**";
    assert StartsWith(line, "**");
    assert line[2..] == t + "**";
    StarsAfterPlain(t);
  }

  lemma {:induction false} StarsAfterPlain(t: string)
    requires '*' !in t
    ensures RemoveAll(t + "**", "**") == t
    decreases |t|
  {
    if t == [] {
      assert t + "**" == "**";
      assert "**"[2..] == [];
    } else {
      var s := t + "**";
      assert s[0] == t[0] && s[0] != '*';
      assert s[1..] == t[1..] + "**";
      StarsAfterPlain(t[1..]);
      assert t == [t[0]] + t[1..];
    }
  }

  /** The blocks of a summary, one per line, in order. */
  function Render(summary: string): (blocks: seq<Block>)
    ensures |blocks| == |Lines(summary)| == CountChar(summary, '\n') + 1
    ensures forall i :: 0 <= i < |blocks| ==> blocks[i] == Classify(Lines(summary)[i])
  {
    MapLines(summary, Classify)
  }

  /** What the card shows. The summary is requested only with a doctor, and the
      service always settles with a text (`settled`), so loading ends then. */
  datatype Card = Hidden | Loading | Shown(blocks: seq<Block>)

  function CardFor(doctor: Option<Doctor>, settled: Option<string>): (c: Card)
    ensures c.Hidden? <==> doctor.None?
    ensures doctor.Some? && settled.None? ==> c.Loading?
    ensures doctor.Some? && settled.Some? ==> c == Shown(Render(settled.value))
  {
    if doctor.None? then Hidden
    else if settled.None? then Loading
    else Shown(Render(settled.value))
  }
}
