/**
 * The one local algorithm of the pipeline: a "summary" is the first five key
 * phrases, each behind a bullet, joined by newlines (`summarize_text`).
 */
module Summary {

  /** The prefix of every summary line: a bullet and a space. */
  const Bullet: string := "\U{2022} "

  /** At most this many key phrases make it into a summary. */
  const MaxPhrases: nat := 5

  function Min(a: nat, b: nat): nat { if a <= b then a else b }

  /** `"\n".join(lines)`: separators between lines, none after the last. */
  function Join(lines: seq<string>): string
  {
    if |lines| == 0 then ""
    else if |lines| == 1 then lines[0]
    else lines[0] + "\n" + Join(lines[1..])
  }

  /** `s.split("\n")`: the pieces between newlines; "" splits into [""]. */
  function Split(s: string): (parts: seq<string>)
    ensures |parts| >= 1
  {
    if s == [] then [[]]
    else
      var rest := Split(s[1..]);
      if s[0] == '\n' then [[]] + rest
      else [[s[0]] + rest[0]] + rest[1..]
  }

  /** The bullet lines of a list of phrases, one per phrase, in order. */
  function Bulleted(phrases: seq<string>): seq<string>
  {
    seq(|phrases|, i requires 0 <= i < |phrases| => Bullet + phrases[i])
  }

  /** The summary of the key phrases a text analysis returned. */
  function Summarize(phrases: seq<string>): (summary: string)
    ensures summary == "" <==> |phrases| == 0
    ensures |phrases| > 0 ==> |summary| >= |Bullet| && summary[..|Bullet|] == Bullet
  {
    var top := phrases[..Min(|phrases|, MaxPhrases)];
    var lines := Bulleted(top);
    assert |lines| > 0 ==> lines[0] == Bullet + top[0];
    Join(lines)
  }

  predicate NoNewline(s: string) { '\n' !in s }

  lemma {:induction false} SplitSingle(a: string)
    requires NoNewline(a)
    ensures Split(a) == [a]
  {
    if a != [] {
      SplitSingle(a[1..]);
      assert [a[0]] + a[1..] == a;
    }
  }

  lemma {:induction false} SplitAfterLine(a: string, b: string)
    requires NoNewline(a)
    ensures Split(a + "\n" + b) == [a] + Split(b)
  {
    if a == [] {
      assert a + "\n" + b == "\n" + b;
      assert ("\n" + b)[1..] == b;
    } else {
      SplitAfterLine(a[1..], b);
      assert (a + "\n" + b)[1..] == a[1..] + "\n" + b;
      assert [a[0]] + a[1..] == a;
    }
  }

  /** Splitting a joined list of newline-free lines gives the lines back. */
  lemma {:induction false} SplitJoin(lines: seq<string>)
    requires |lines| > 0
    requires forall i :: 0 <= i < |lines| ==> NoNewline(lines[i])
    ensures Split(Join(lines)) == lines
  {
    if |lines| == 1 {
      SplitSingle(lines[0]);
    } else {
      SplitJoin(lines[1..]);
      SplitAfterLine(lines[0], Join(lines[1..]));
      assert [lines[0]] + lines[1..] == lines;
    }
  }

  /**
   * For m newline-free phrases (m > 0) the summary consists of exactly
   * min(m, 5) lines, the i-th being the bullet followed by the i-th phrase:
   * no phrase is dropped before the fifth, none is reordered, and no newline
   * trails the last line.
   */
  lemma SummaryLines(phrases: seq<string>)
    requires |phrases| > 0
    requires forall i :: 0 <= i < |phrases| ==> NoNewline(phrases[i])
    ensures |Split(Summarize(phrases))| == Min(|phrases|, MaxPhrases)
    ensures forall i :: 0 <= i < Min(|phrases|, MaxPhrases) ==>
              Split(Summarize(phrases))[i] == Bullet + phrases[i]
  {
    var lines := Bulleted(phrases[..Min(|phrases|, MaxPhrases)]);
    forall i | 0 <= i < |lines| ensures NoNewline(lines[i]) {
      assert lines[i] == Bullet + phrases[i];
      assert forall j :: 0 <= j < |Bullet| ==> Bullet[j] != '\n';
      assert forall j :: |Bullet| <= j < |lines[i]| ==> lines[i][j] == phrases[i][j - |Bullet|];
    }
    SplitJoin(lines);
  }

  /** No key phrases: the summary is the empty string. */
  lemma EmptySummary()
    ensures Summarize([]) == ""
  {
  }
}
