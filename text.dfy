/** The JavaScript string operations the pages use, on strings as sequences of
    characters: `trim`, `toLowerCase`, `startsWith`, `includes`, `indexOf`,
    `split`, `join`, and `replace` with a string or a global pattern. */
module Text {
  import opened Types

  /** JavaScript's white space and line terminators: the set `trim` removes and
      the regular-expression class `\s` matches. */
  predicate IsSpace(c: char) {
    c == '\t' || c == '\n' || c == '\U{B}' || c == '\U{C}' || c == '\r' || c == ' '
    || c == '\U{A0}' || c == '\U{1680}' || ('\U{2000}' <= c <= '\U{200A}')
    || c == '\U{2028}' || c == '\U{2029}' || c == '\U{202F}' || c == '\U{205F}'
    || c == '\U{3000}' || c == '\U{FEFF}'
  }

  /** The regular-expression class `\d`: ASCII digits only. */
  predicate IsDigit(c: char) {
    '0' <= c <= '9'
  }

  predicate IsBlank(s: string) {
    forall i :: 0 <= i < |s| ==> IsSpace(s[i])
  }

  /** Number of white-space characters at the start of `s`. */
  function LeadingSpaces(s: string): (n: nat)
    ensures n <= |s|
    ensures forall i :: 0 <= i < n ==> IsSpace(s[i])
    ensures n < |s| ==> !IsSpace(s[n])
  {
    if s != [] && IsSpace(s[0]) then 1 + LeadingSpaces(s[1..]) else 0
  }

  /** Number of white-space characters at the end of `s`. */
  function TrailingSpaces(s: string): (n: nat)
    ensures n <= |s|
    ensures forall i :: |s| - n <= i < |s| ==> IsSpace(s[i])
    ensures n < |s| ==> !IsSpace(s[|s| - 1 - n])
  {
    if s != [] && IsSpace(s[|s| - 1]) then 1 + TrailingSpaces(s[..|s| - 1]) else 0
  }

  /** `s.trim()`: `s` without its leading and trailing white space. */
  function Trim(s: string): (r: string)
    ensures exists i, j :: 0 <= i <= j <= |s| && r == s[i..j]
    ensures r == [] <==> IsBlank(s)
    ensures r != [] ==> !IsSpace(r[0]) && !IsSpace(r[|r| - 1])
  {
    var a := LeadingSpaces(s);
    var t := s[a..];
    var b := TrailingSpaces(t);
    assert t[..|t| - b] == s[a..|s| - b];
    assert a == |s| ==> IsBlank(s);
    assert a < |s| ==> !IsSpace(t[0]) && b < |t|;
    t[..|t| - b]
  }

  /** Trimming ignores white space in front. */
  lemma TrimDropsLeadingSpace(c: char, s: string)
    requires IsSpace(c)
    ensures Trim([c] + s) == Trim(s)
  {
    var t := [c] + s;
    assert t[1..] == s;
    assert LeadingSpaces(t) == 1 + LeadingSpaces(s);
    assert t[LeadingSpaces(t)..] == s[LeadingSpaces(s)..];
  }

  /** `c.toLowerCase()` on ASCII letters. */
  function LowerChar(c: char): char {
    if 'A' <= c <= 'Z' then (c as int + 32) as char else c
  }

  /** `s.toLowerCase()`, ASCII letters only. */
  function ToLower(s: string): (r: string)
    ensures |r| == |s|
  {
    seq(|s|, i requires 0 <= i < |s| => LowerChar(s[i]))
  }

  /** `s.startsWith(p)`. */
  predicate StartsWith(s: string, p: string) {
    |p| <= |s| && s[..|p|] == p
  }

  /** `p` occurs in `s` starting at index `i`. */
  predicate OccursAt(s: string, p: string, i: int) {
    0 <= i && i + |p| <= |s| && s[i..i + |p|] == p
  }

  /** `s.indexOf(p)`: where `p` first occurs in `s`, if anywhere. */
  function IndexOf(s: string, p: string): (r: Option<nat>)
    ensures r.Some? ==> OccursAt(s, p, r.value)
    ensures r.Some? ==> forall i :: 0 <= i < r.value ==> !OccursAt(s, p, i)
    ensures r.None? ==> forall i :: !OccursAt(s, p, i)
  {
    if StartsWith(s, p) then Some(0)
    else if s == [] then None
    else
      match IndexOf(s[1..], p)
      case None =>
        assert forall i :: 1 <= i && OccursAt(s, p, i) ==> OccursAt(s[1..], p, i - 1);
        None
      case Some(k) =>
        assert s[1..][k..k + |p|] == s[k + 1..k + 1 + |p|];
        assert forall i :: 1 <= i < k + 1 && OccursAt(s, p, i) ==> OccursAt(s[1..], p, i - 1);
        Some(k + 1)
  }

  /** `s.includes(p)`. */
  predicate Contains(s: string, p: string) {
    IndexOf(s, p).Some?
  }

  lemma ContainsAt(s: string, p: string, i: int)
    requires OccursAt(s, p, i)
    ensures Contains(s, p)
  {
  }

  /** What a slice contains, the whole string contains. */
  lemma ContainsInSlice(s: string, p: string, i: int, j: int)
    requires 0 <= i <= j <= |s| && Contains(s[i..j], p)
    ensures Contains(s, p)
  {
    var t := s[i..j];
    var k := IndexOf(t, p).value;
    assert OccursAt(t, p, k);
    assert k + |p| <= j - i;
    forall m | 0 <= m < |p|
      ensures s[i + k + m] == p[m]
    {
      assert t[k..k + |p|][m] == t[k + m] == s[i + k + m];
    }
    assert s[i + k..i + k + |p|] == p;
    ContainsAt(s, p, i + k);
  }

  /** `s.split(p)` for a non-empty separator: the pieces between successive
      non-overlapping occurrences of `p`, scanning from the left. */
  function Split(s: string, p: string): (parts: seq<string>)
    requires p != []
    ensures |parts| >= 1
    ensures forall k :: 0 <= k < |parts| ==> !Contains(parts[k], p)
    decreases |s|
  {
    match IndexOf(s, p)
    case None => [s]
    case Some(i) =>
      assert forall j :: OccursAt(s[..i], p, j) ==> OccursAt(s, p, j);
      [s[..i]] + Split(s[i + |p|..], p)
  }

  /** `parts.join(sep)`. */
  function Join(parts: seq<string>, sep: string): string {
    if parts == [] then ""
    else if |parts| == 1 then parts[0]
    else parts[0] + sep + Join(parts[1..], sep)
  }

  /** A join begins with its first piece. */
  lemma JoinStartsWithFirst(parts: seq<string>, sep: string)
    requires parts != []
    ensures |Join(parts, sep)| >= |parts[0]|
    ensures Join(parts, sep)[..|parts[0]|] == parts[0]
  {
  }

  /** Joining one more piece adds the separator and the piece at the end, and
      nothing else. */
  lemma {:induction false} JoinAppend(parts: seq<string>, x: string, sep: string)
    ensures Join(parts + [x], sep) == if parts == [] then x else Join(parts, sep) + sep + x
    decreases |parts|
  {
    if |parts| == 1 {
      assert (parts + [x])[1..] == [x];
    } else if |parts| > 1 {
      assert (parts + [x])[1..] == parts[1..] + [x];
      JoinAppend(parts[1..], x, sep);
    }
  }

  /** Two or more pieces always join to a string holding the separator, so only no
      piece or a single empty piece joins to the empty string. */
  lemma JoinEmpty(parts: seq<string>, sep: string)
    requires sep != []
    ensures Join(parts, sep) == [] <==> parts == [] || parts == [""]
  {
    if |parts| >= 2 {
      assert |Join(parts, sep)| >= |sep|;
    }
  }

  /** Joining the pieces of a split with its separator gives back the string. */
  lemma {:induction false} JoinSplit(s: string, p: string)
    requires p != []
    ensures Join(Split(s, p), p) == s
    decreases |s|
  {
    match IndexOf(s, p)
    case None =>
    case Some(i) =>
      var rest := Split(s[i + |p|..], p);
      JoinSplit(s[i + |p|..], p);
      assert Split(s, p) == [s[..i]] + rest;
      assert ([s[..i]] + rest)[1..] == rest;
      assert s == s[..i] + p + s[i + |p|..];
  }

  /** The first piece of a split is the text before the first occurrence, and there
      are at least two pieces exactly when the separator occurs. */
  lemma SplitFirst(s: string, p: string)
    requires p != []
    ensures Split(s, p)[0] == (if Contains(s, p) then s[..IndexOf(s, p).value] else s)
    ensures |Split(s, p)| >= 2 <==> Contains(s, p)
  {
  }

  /** `s.split(p)[k]`, or `None` for `undefined`. */
  function SplitPart(s: string, p: string, k: nat): Option<string>
    requires p != []
  {
    var parts := Split(s, p);
    if k < |parts| then Some(parts[k]) else None
  }

  /** The first occurrence of a one-character pattern placed after text without it
      is that one. */
  lemma IndexOfAfter(a: string, c: char, b: string)
    requires !Contains(a, [c])
    ensures IndexOf(a + [c] + b, [c]) == Some(|a|)
  {
    var s := a + [c] + b;
    assert s[|a|..|a| + 1] == [c];
    forall i | 0 <= i < |a|
      ensures !OccursAt(s, [c], i)
    {
      assert s[i..i + 1] == a[i..i + 1];
      assert !OccursAt(a, [c], i);
    }
    assert OccursAt(s, [c], |a|);
    var r := IndexOf(s, [c]);
    assert r.Some?;
    assert !(r.value < |a|);
    assert !(r.value > |a|);
  }

  /** The second piece of a split runs from the end of the first occurrence to the
      start of the next one, or to the end of the string. */
  lemma SecondPart(s: string, p: string)
    requires p != [] && Contains(s, p)
    ensures var i := IndexOf(s, p).value; var t := s[i + |p|..];
      SplitPart(s, p, 1) == Some(if Contains(t, p) then t[..IndexOf(t, p).value] else t)
  {
    var i := IndexOf(s, p).value;
    SplitFirst(s[i + |p|..], p);
  }

  /** `s.replace(p, rep)` with a string pattern: only the first occurrence changes. */
  function ReplaceFirst(s: string, p: string, rep: string): string {
    match IndexOf(s, p)
    case None => s
    case Some(i) => s[..i] + rep + s[i + |p|..]
  }

  /** Replacing a prefix with nothing drops that prefix. */
  lemma ReplacePrefix(s: string, p: string)
    requires StartsWith(s, p)
    ensures ReplaceFirst(s, p, "") == s[|p|..]
  {
  }

  /** `s.replace(/p/g, '')`: every occurrence met scanning from the left is removed. */
  function RemoveAll(s: string, p: string): (r: string)
    requires p != []
    ensures |r| <= |s|
    decreases |s|
  {
    if s == [] then []
    else if StartsWith(s, p) then RemoveAll(s[|p|..], p)
    else [s[0]] + RemoveAll(s[1..], p)
  }

  lemma RemoveAllKeepsHead(s: string, p: string)
    requires p != [] && s != [] && s[0] != p[0]
    ensures RemoveAll(s, p) != [] && RemoveAll(s, p)[0] == s[0]
  {
  }

  /** After removing every double star (the global pattern for two stars) no two stars are left side by side. */
  lemma {:induction false} RemoveStarsLeavesNoPair(s: string)
    ensures var r := RemoveAll(s, "**");
      forall i :: 0 <= i < |r| - 1 ==> !(r[i] == '*' && r[i + 1] == '*')
    decreases |s|
  {
    if s != [] {
      if StartsWith(s, "**") {
        assert RemoveAll(s, "**") == RemoveAll(s[2..], "**");
        RemoveStarsLeavesNoPair(s[2..]);
      } else {
        var t := RemoveAll(s[1..], "**");
        RemoveStarsLeavesNoPair(s[1..]);
        assert RemoveAll(s, "**") == [s[0]] + t;
        if s[0] == '*' && |s| > 1 {
          RemoveAllKeepsHead(s[1..], "**");
        }
        if |s| == 1 {
          assert t == [];
        }
        forall i | 1 <= i < |t|
          ensures !(([s[0]] + t)[i] == '*' && ([s[0]] + t)[i + 1] == '*')
        {
          assert ([s[0]] + t)[i] == t[i - 1] && ([s[0]] + t)[i + 1] == t[i];
        }
      }
    }
  }

  /** Without a star there is nothing to remove. */
  lemma {:induction false} RemoveStarsAbsent(s: string)
    requires '*' !in s
    ensures RemoveAll(s, "**") == s
    decreases |s|
  {
    if s != [] {
      assert s[0] != '*';
      RemoveStarsAbsent(s[1..]);
      assert s == [s[0]] + s[1..];
    }
  }

  /** `s.replace(/a/g, b)` for single characters. */
  function ReplaceChar(s: string, a: char, b: char): (r: string)
    ensures |r| == |s|
    ensures forall i :: 0 <= i < |s| ==> r[i] == (if s[i] == a then b else s[i])
  {
    seq(|s|, i requires 0 <= i < |s| => if s[i] == a then b else s[i])
  }

  /** `s.replace(/\s/g, '')`. */
  function RemoveSpaces(s: string): (r: string)
    ensures forall i :: 0 <= i < |r| ==> !IsSpace(r[i])
    ensures forall c :: c in r <==> c in s && !IsSpace(c)
  {
    if s == [] then []
    else (if IsSpace(s[0]) then [] else [s[0]]) + RemoveSpaces(s[1..])
  }

  /** `text.split('\n')`. */
  function Lines(text: string): (lines: seq<string>)
    ensures |lines| == CountChar(text, '\n') + 1
  {
    SplitCharCount(text, '\n');
    Split(text, "\n")
  }

  /** `s.length`: the number of UTF-16 code units, two for each character outside
      the Basic Multilingual Plane. */
  function Utf16Length(s: string): (n: nat)
    ensures |s| <= n <= 2 * |s|
    ensures (forall i :: 0 <= i < |s| ==> s[i] < '\U{10000}') ==> n == |s|
  {
    if s == [] then 0 else (if s[0] < '\U{10000}' then 1 else 2) + Utf16Length(s[1..])
  }

  /** `text.split('\n').map(f)`: one value per line, in order. */
  function MapLines<B>(text: string, f: string -> B): (r: seq<B>)
    ensures |r| == |Lines(text)| == CountChar(text, '\n') + 1
    ensures forall i :: 0 <= i < |r| ==> r[i] == f(Lines(text)[i])
  {
    var lines := Lines(text);
    seq(|lines|, i requires 0 <= i < |lines| => f(lines[i]))
  }

  /** How many times `c` occurs in `s`. */
  function CountChar(s: string, c: char): nat {
    if s == [] then 0 else (if s[0] == c then 1 else 0) + CountChar(s[1..], c)
  }

  lemma {:induction false} CountCharAppend(a: string, b: string, c: char)
    ensures CountChar(a + b, c) == CountChar(a, c) + CountChar(b, c)
    decreases |a|
  {
    if a == [] {
      assert a + b == b;
    } else {
      assert (a + b)[1..] == a[1..] + b;
      CountCharAppend(a[1..], b, c);
    }
  }

  lemma {:induction false} CountCharAbsent(s: string, c: char)
    requires !Contains(s, [c])
    ensures CountChar(s, c) == 0
    decreases |s|
  {
    if s != [] {
      if s[0] == c {
        assert OccursAt(s, [c], 0);
        ContainsAt(s, [c], 0);
      }
      if Contains(s[1..], [c]) {
        ContainsInSlice(s, [c], 1, |s|);
      }
      CountCharAbsent(s[1..], c);
    }
  }

  /** Splitting at a single character gives one piece more than it has
      occurrences. */
  lemma {:induction false} SplitCharCount(s: string, c: char)
    ensures |Split(s, [c])| == CountChar(s, c) + 1
    decreases |s|
  {
    match IndexOf(s, [c])
    case None =>
      CountCharAbsent(s, c);
    case Some(i) =>
      var rest := s[i + 1..];
      SplitCharCount(rest, c);
      assert s[i..i + 1] == [c];
      assert s == s[..i] + [c] + rest;
      CountCharAppend(s[..i] + [c], rest, c);
      CountCharAppend(s[..i], [c], c);
      assert !Contains(s[..i], [c]) by {
        if Contains(s[..i], [c]) {
          var k := IndexOf(s[..i], [c]).value;
          assert OccursAt(s[..i], [c], k);
          assert s[..i][k..k + 1] == s[k..k + 1];
          assert OccursAt(s, [c], k);
        }
      }
      CountCharAbsent(s[..i], c);
      assert CountChar([c], c) == 1;
  }

  /** One step of `Split`: the piece before the first occurrence, then the split of
      the rest. */
  lemma SplitStep(s: string, p: string, i: nat)
    requires p != [] && IndexOf(s, p) == Some(i)
    ensures Split(s, p) == [s[..i]] + Split(s[i + |p|..], p)
  {
  }

  /** An occurrence in a suffix is an occurrence in the whole string. */
  lemma OccursInSuffix(s: string, n: nat, t: string, m: nat)
    requires n <= |s| && OccursAt(s[n..], t, m)
    ensures OccursAt(s, t, n + m)
  {
    forall x | 0 <= x < |t|
      ensures s[n + m + x] == t[x]
    {
      assert s[n..][m..m + |t|][x] == s[n + m + x];
    }
  }

  /** Where the `k`-th piece of a split sits in the string. */
  lemma {:induction false} SplitPieceAt(s: string, p: string, k: int) returns (j: nat)
    requires p != [] && 0 <= k < |Split(s, p)|
    ensures OccursAt(s, Split(s, p)[k], j)
    decreases |s|
  {
    match IndexOf(s, p)
    case None =>
      assert Split(s, p) == [s];
      assert s[0..|s|] == s;
      j := 0;
    case Some(i) =>
      SplitStep(s, p, i);
      if k == 0 {
        assert s[0..i] == s[..i];
        j := 0;
      } else {
        var n := i + |p|;
        var rest := s[n..];
        var piece := Split(rest, p)[k - 1];
        assert Split(s, p)[k] == piece;
        var m := SplitPieceAt(rest, p, k - 1);
        OccursInSuffix(s, n, piece, m);
        j := n + m;
      }
  }

  /** Every piece of a split occurs in the string. */
  lemma SplitPieceOccurs(s: string, p: string, k: int)
    requires p != [] && 0 <= k < |Split(s, p)|
    ensures Contains(s, Split(s, p)[k])
  {
    var j := SplitPieceAt(s, p, k);
    ContainsAt(s, Split(s, p)[k], j);
  }


}
