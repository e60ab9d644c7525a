/**
 * The label-file parser of the fruit classifier stand-in: the text of the
 * label resource is split on line feeds, every line is trimmed with the
 * ECMAScript notion of white space, and empty lines are dropped.
 */
module Labels {

  /** ECMAScript `WhiteSpace` and `LineTerminator` characters, the set `String.prototype.trim` removes. */
  predicate IsSpace(c: char) {
    c == '\t' || c == '\n' || c == '\U{B}' || c == '\U{C}' || c == '\r' || c == ' '
    || c == '\U{A0}' || c == '\U{1680}' || ('\U{2000}' <= c <= '\U{200A}')
    || c == '\U{2028}' || c == '\U{2029}' || c == '\U{202F}' || c == '\U{205F}'
    || c == '\U{3000}' || c == '\U{FEFF}'
  }

  /** A string with no white space at either end. */
  predicate IsTrimmed(s: string) {
    s == [] || (!IsSpace(s[0]) && !IsSpace(s[|s| - 1]))
  }

  /** A label as it may sit in the label store: non-empty, trimmed, on one line. */
  predicate WellFormedLabel(s: string) {
    s != [] && IsTrimmed(s) && '\n' !in s
  }

  /** Removes leading white space: the result is the suffix of `s` after its leading blanks. */
  function TrimStart(s: string): (r: string)
    ensures |r| <= |s| && r == s[|s| - |r|..]
    ensures r == [] || !IsSpace(r[0])
  {
    if |s| > 0 && IsSpace(s[0]) then TrimStart(s[1..]) else s
  }

  /** Removes trailing white space: the result is the prefix of `s` before its trailing blanks. */
  function TrimEnd(s: string): (r: string)
    ensures |r| <= |s| && r == s[..|r|]
    ensures r == [] || !IsSpace(r[|r| - 1])
  {
    if |s| > 0 && IsSpace(s[|s| - 1]) then TrimEnd(s[..|s| - 1]) else s
  }

  /** Everything `TrimStart` cuts off is white space. */
  lemma {:induction false} LeadingBlanks(s: string)
    ensures forall k :: 0 <= k < |s| - |TrimStart(s)| ==> IsSpace(s[k])
  {
    if |s| > 0 && IsSpace(s[0]) {
      LeadingBlanks(s[1..]);
      forall k | 1 <= k < |s| - |TrimStart(s)| ensures IsSpace(s[k]) {
        assert s[k] == s[1..][k - 1];
      }
    }
  }

  /** Everything `TrimEnd` cuts off is white space. */
  lemma {:induction false} TrailingBlanks(s: string)
    ensures forall k :: |TrimEnd(s)| <= k < |s| ==> IsSpace(s[k])
  {
    if |s| > 0 && IsSpace(s[|s| - 1]) {
      TrailingBlanks(s[..|s| - 1]);
      forall k | |TrimEnd(s)| <= k < |s| - 1 ensures IsSpace(s[k]) {
        assert s[k] == s[..|s| - 1][k];
      }
    }
  }

  /** How many leading white-space characters `Trim` cuts off. */
  function LeadingSpace(s: string): nat {
    |s| - |TrimStart(s)|
  }

  /** `String.prototype.trim`: no white space is left at either end. */
  function Trim(s: string): (r: string)
    ensures IsTrimmed(r)
  {
    var t := TrimStart(s);
    var r := TrimEnd(t);
    assert r != [] ==> r[0] == t[0];
    r
  }

  /** The result of `Trim` is the slice of its input between its leading and its trailing white space. */
  lemma TrimIsSlice(s: string)
    ensures LeadingSpace(s) + |Trim(s)| <= |s|
    ensures Trim(s) == s[LeadingSpace(s)..LeadingSpace(s) + |Trim(s)|]
    ensures forall k :: 0 <= k < LeadingSpace(s) ==> IsSpace(s[k])
    ensures forall k :: LeadingSpace(s) + |Trim(s)| <= k < |s| ==> IsSpace(s[k])
  {
    var t := TrimStart(s);
    var r := TrimEnd(t);
    var i := LeadingSpace(s);
    assert t == s[i..] && r == t[..|r|];
    assert s[i..i + |r|] == s[i..][..|r|];
    LeadingBlanks(s);
    TrailingSpace(s, t, i);
  }

  lemma TrailingSpace(s: string, t: string, i: nat)
    requires i <= |s| && t == s[i..]
    ensures forall k :: i + |TrimEnd(t)| <= k < |s| ==> IsSpace(s[k])
  {
    TrailingBlanks(t);
    forall k | i + |TrimEnd(t)| <= k < |s| ensures IsSpace(s[k]) {
      assert s[k] == t[k - i];
    }
  }

  /** Trimming introduces no character. */
  lemma TrimKeepsCharacters(s: string)
    ensures forall c :: c in Trim(s) ==> c in s
  {
    TrimIsSlice(s);
  }

  /** Trimming changes a string exactly when it has white space at one of its ends. */
  lemma TrimFixesTrimmed(s: string)
    ensures Trim(s) == s <==> IsTrimmed(s)
  {
    if IsTrimmed(s) && s != [] {
      assert TrimStart(s) == s;
      assert TrimEnd(s) == s;
    }
  }

  /** `text.split('\n')`: the pieces between line feeds, in order, at least one. */
  function Split(s: string): (lines: seq<string>)
    ensures |lines| >= 1
    ensures forall k :: 0 <= k < |lines| ==> '\n' !in lines[k]
  {
    if s == [] then [[]]
    else
      var rest := Split(s[1..]);
      if s[0] == '\n' then [[]] + rest else [[s[0]] + rest[0]] + rest[1..]
  }

  /** `lines.join('\n')`, the inverse of `Split`. */
  function Join(lines: seq<string>): string
    requires |lines| >= 1
  {
    if |lines| == 1 then lines[0] else lines[0] + "\n" + Join(lines[1..])
  }

  /** Splitting then joining gives back the text. */
  lemma {:induction false} JoinSplit(s: string)
    ensures Join(Split(s)) == s
  {
    if s != [] {
      JoinSplit(s[1..]);
      var rest := Split(s[1..]);
      if s[0] == '\n' {
        assert Split(s)[1..] == rest;
      } else {
        var lines := Split(s);
        assert lines[1..] == rest[1..];
        if |rest| > 1 {
          assert Join(rest) == rest[0] + "\n" + Join(rest[1..]);
        }
      }
    }
  }

  /** A line without a line feed, followed by a line feed, splits off as the first piece. */
  lemma {:induction false} SplitLine(a: string, b: string)
    requires '\n' !in a
    ensures Split(a + "\n" + b) == [a] + Split(b)
    ensures Split(a) == [a]
  {
    if a != [] {
      SplitLine(a[1..], b);
      assert (a + "\n" + b)[1..] == a[1..] + "\n" + b;
      assert [a[0]] + a[1..] == a;
    }
  }

  /** Joining pieces without line feeds then splitting gives back the pieces. */
  lemma {:induction false} SplitJoin(lines: seq<string>)
    requires |lines| >= 1
    requires forall k :: 0 <= k < |lines| ==> '\n' !in lines[k]
    ensures Split(Join(lines)) == lines
  {
    SplitLine(lines[0], []);
    if |lines| > 1 {
      SplitJoin(lines[1..]);
      SplitLine(lines[0], Join(lines[1..]));
      assert [lines[0]] + lines[1..] == lines;
    }
  }

  /** `.map(label => label.trim()).filter(label => label.length > 0)`. */
  function CleanLines(lines: seq<string>): (r: seq<string>)
    ensures |r| <= |lines|
    ensures forall k :: 0 <= k < |r| ==> r[k] != [] && IsTrimmed(r[k])
  {
    if lines == [] then []
    else
      var t := Trim(lines[0]);
      if t == [] then CleanLines(lines[1..]) else [t] + CleanLines(lines[1..])
  }

  /** The labels parsed from the text of the label resource: every one non-empty, trimmed and on one line. */
  function ParseLabels(text: string): (r: seq<string>)
    ensures |r| <= |Split(text)|
    ensures forall k :: 0 <= k < |r| ==> WellFormedLabel(r[k])
  {
    CleanLinesSingleLine(Split(text));
    CleanLines(Split(text))
  }

  lemma {:induction false} CleanLinesSingleLine(lines: seq<string>)
    requires forall k :: 0 <= k < |lines| ==> '\n' !in lines[k]
    ensures forall k :: 0 <= k < |CleanLines(lines)| ==> WellFormedLabel(CleanLines(lines)[k])
  {
    if lines != [] {
      CleanLinesSingleLine(lines[1..]);
      TrimKeepsCharacters(lines[0]);
    }
  }

  /** A line that is blank after trimming contributes nothing; any other contributes its trimmed text, first. */
  lemma ParseLabelsLine(line: string, rest: string)
    requires '\n' !in line
    ensures ParseLabels(line + "\n" + rest)
         == (if Trim(line) == [] then [] else [Trim(line)]) + ParseLabels(rest)
  {
    SplitLine(line, rest);
    var lines := Split(line + "\n" + rest);
    assert lines[0] == line && lines[1..] == Split(rest);
    assert ParseLabels(line + "\n" + rest) == CleanLines(lines);
  }

  /** Every line is empty once trimmed. */
  predicate AllBlank(lines: seq<string>) {
    forall k :: 0 <= k < |lines| ==> Trim(lines[k]) == []
  }

  lemma AllBlankUnfold(lines: seq<string>)
    requires lines != []
    ensures AllBlank(lines) <==> Trim(lines[0]) == [] && AllBlank(lines[1..])
  {
    if Trim(lines[0]) == [] && AllBlank(lines[1..]) {
      forall k | 0 < k < |lines| ensures Trim(lines[k]) == [] {
        assert lines[k] == lines[1..][k - 1];
      }
    }
  }

  /** No label comes out of a list of lines exactly when every one of them is blank. */
  lemma {:induction false} CleanLinesEmpty(lines: seq<string>)
    ensures CleanLines(lines) == [] <==> AllBlank(lines)
  {
    if lines != [] {
      CleanLinesEmpty(lines[1..]);
      AllBlankUnfold(lines);
    }
  }

  /** A label file written one well-formed label per line parses back to the same labels, in order. */
  lemma {:induction false} ParseJoin(labels: seq<string>)
    requires |labels| >= 1
    requires forall k :: 0 <= k < |labels| ==> WellFormedLabel(labels[k])
    ensures ParseLabels(Join(labels)) == labels
  {
    TrimFixesTrimmed(labels[0]);
    if |labels| == 1 {
      SplitLine(labels[0], []);
    } else {
      ParseJoin(labels[1..]);
      ParseLabelsLine(labels[0], Join(labels[1..]));
      assert [labels[0]] + labels[1..] == labels;
    }
  }
}
