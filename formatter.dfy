/** How the viewer displays the analysis text: the text is split into lines
    and each line becomes at most one heading, bullet or paragraph block. */
module Formatter {
  import opened Optional
  import opened Text

  datatype BlockKind = Heading | Bullet | Paragraph

  datatype Block = Block(kind: BlockKind, text: string)

  /** The heading test, made on the raw line before any trimming, and only
      for the four ordinals `1.` to `4.`. */
  predicate IsHeadingLine(line: string) {
    StartsWith(line, "1.") || StartsWith(line, "2.")
    || StartsWith(line, "3.") || StartsWith(line, "4.")
  }

  /** The block a line renders as, or `None` for a line the viewer skips. */
  function ClassifyLine(line: string): Option<Block> {
    if IsHeadingLine(line) then Some(Block(Heading, Trim(line)))
    else if StartsWith(Trim(line), "-") then Some(Block(Bullet, Trim(line)))
    else if Trim(line) != "" then Some(Block(Paragraph, Trim(line)))
    else None
  }

  /** The blocks of a list of lines, in line order. */
  function FormatLines(lines: seq<string>): (blocks: seq<Block>)
    ensures |blocks| <= |lines|
  {
    if |lines| == 0 then []
    else
      match ClassifyLine(lines[0])
      case Some(b) => [b] + FormatLines(lines[1..])
      case None => FormatLines(lines[1..])
  }

  /** What the viewer renders for `analysis`: one entry per line of
      `analysis.split("\n")`, with the skipped lines left out. */
  function FormatAnalysis(analysis: string): seq<Block> {
    FormatLines(Split(analysis, '\n'))
  }

  /** The classification of one line: no block exactly when the line is
      blank; otherwise the text is the trimmed line, the block is a heading
      exactly when the raw line starts with `1.`-`4.`, a bullet exactly when
      it is not a heading and the trimmed line starts with `-`, and a
      paragraph in every other case. */
  lemma ClassifyLineSpec(line: string)
    ensures ClassifyLine(line).None? <==> Trim(line) == ""
    ensures ClassifyLine(line).Some? ==>
      var b := ClassifyLine(line).value;
      && b.text == Trim(line)
      && (b.kind == Heading <==> IsHeadingLine(line))
      && (b.kind == Bullet <==> !IsHeadingLine(line) && StartsWith(Trim(line), "-"))
      && (b.kind == Paragraph <==> !IsHeadingLine(line) && !StartsWith(Trim(line), "-"))
  {
    ClassifyNoneIff(line);
  }

  /** A line yields no block exactly when it is blank. */
  lemma ClassifyNoneIff(line: string)
    ensures ClassifyLine(line).None? <==> Trim(line) == ""
  {
    if IsHeadingLine(line) {
      var p :| p in ["1.", "2.", "3.", "4."] && StartsWith(line, p);
      NotBlankWhenStartsWith(line, p);
    }
  }

  /** Every block's text is non-empty and has no leading or trailing whitespace. */
  lemma {:induction false} BlocksAreTrimmed(lines: seq<string>)
    ensures forall k :: 0 <= k < |FormatLines(lines)| ==>
      var t := FormatLines(lines)[k].text;
      t != [] && Trim(t) == t && !IsJsWhitespace(t[0]) && !IsJsWhitespace(t[|t| - 1])
  {
    if |lines| > 0 {
      BlocksAreTrimmed(lines[1..]);
      ClassifyLineSpec(lines[0]);
      if ClassifyLine(lines[0]).Some? {
        TrimIdempotent(lines[0]);
      }
    }
  }

  /** Every position in `xs`, one further on. */
  function Shifted(xs: seq<nat>): (r: seq<nat>)
    ensures |r| == |xs| && forall k :: 0 <= k < |xs| ==> r[k] == xs[k] + 1
  {
    seq(|xs|, k requires 0 <= k < |xs| => xs[k] + 1)
  }

  /** The positions of the lines that yield a block. */
  function BlockLines(lines: seq<string>): seq<nat> {
    if |lines| == 0 then []
    else if Trim(lines[0]) != "" then [0] + Shifted(BlockLines(lines[1..]))
    else Shifted(BlockLines(lines[1..]))
  }

  /** `xs` is strictly increasing and every element lies in `[lo, n)`. */
  predicate IncreasingWithin(xs: seq<nat>, lo: nat, n: nat) {
    && (forall k :: 0 <= k < |xs| ==> lo <= xs[k] < n)
    && (forall k, m :: 0 <= k < m < |xs| ==> xs[k] < xs[m])
  }

  /** Shifting keeps the order and moves the bounds by one. */
  lemma ShiftedIncreasing(xs: seq<nat>, n: nat)
    requires IncreasingWithin(xs, 0, n)
    ensures IncreasingWithin(Shifted(xs), 1, n + 1)
  {
  }

  /** Position 0 can go in front of positions that are all at least 1. */
  lemma PrependZero(xs: seq<nat>, n: nat)
    requires 0 < n && IncreasingWithin(xs, 1, n)
    ensures IncreasingWithin([0] + xs, 0, n)
  {
    forall k | 0 < k < |xs| + 1
      ensures ([0] + xs)[k] == xs[k - 1]
    {
    }
  }

  /** A shifted position comes from the position before it. */
  lemma ShiftedMember(xs: seq<nat>, i: nat)
    ensures i in Shifted(xs) <==> i >= 1 && (i - 1) in xs
  {
    if i in Shifted(xs) {
      var k :| 0 <= k < |xs| && Shifted(xs)[k] == i;
      assert xs[k] == i - 1;
    }
    if i >= 1 && (i - 1) in xs {
      var k :| 0 <= k < |xs| && xs[k] == i - 1;
      assert Shifted(xs)[k] == i;
    }
  }

  /** The positions in `BlockLines` are strictly increasing and lie within
      the lines. */
  lemma {:induction false} BlockLinesIncreasing(lines: seq<string>)
    ensures IncreasingWithin(BlockLines(lines), 0, |lines|)
  {
    if |lines| > 0 {
      var rest := BlockLines(lines[1..]);
      BlockLinesIncreasing(lines[1..]);
      ShiftedIncreasing(rest, |lines| - 1);
      if Trim(lines[0]) != "" {
        PrependZero(Shifted(rest), |lines|);
      }
    }
  }

  /** The positions in `BlockLines` are exactly those of the non-blank lines. */
  lemma {:induction false} BlockLinesMembers(lines: seq<string>)
    ensures forall i :: 0 <= i < |lines| ==> (i in BlockLines(lines) <==> Trim(lines[i]) != "")
  {
    if |lines| > 0 {
      var tail := lines[1..];
      BlockLinesMembers(tail);
      var rest := BlockLines(tail);
      forall i | 0 <= i < |lines|
        ensures i in BlockLines(lines) <==> Trim(lines[i]) != ""
      {
        ShiftedMember(rest, i);
        if i > 0 {
          assert lines[i] == tail[i - 1];
        }
      }
    }
  }

  /** The positions in `BlockLines` are strictly increasing and are exactly
      the positions of the non-blank lines. */
  lemma BlockLinesSpec(lines: seq<string>)
    ensures forall k :: 0 <= k < |BlockLines(lines)| ==> BlockLines(lines)[k] < |lines|
    ensures forall k, m :: 0 <= k < m < |BlockLines(lines)| ==>
      BlockLines(lines)[k] < BlockLines(lines)[m]
    ensures forall i :: 0 <= i < |lines| ==> (i in BlockLines(lines) <==> Trim(lines[i]) != "")
  {
    BlockLinesIncreasing(lines);
    BlockLinesMembers(lines);
  }

  /** `blocks` are the classifications of the lines at `positions`, in order. */
  predicate Follows(lines: seq<string>, positions: seq<nat>, blocks: seq<Block>) {
    |blocks| == |positions|
    && forall k :: 0 <= k < |positions| ==>
         positions[k] < |lines| && ClassifyLine(lines[positions[k]]) == Some(blocks[k])
  }

  /** Positions in the tail, shifted by one, are positions in the whole list. */
  lemma FollowsShifted(lines: seq<string>, positions: seq<nat>, blocks: seq<Block>)
    requires |lines| > 0 && Follows(lines[1..], positions, blocks)
    ensures Follows(lines, Shifted(positions), blocks)
  {
    forall k | 0 <= k < |positions|
      ensures Shifted(positions)[k] < |lines|
      ensures ClassifyLine(lines[Shifted(positions)[k]]) == Some(blocks[k])
    {
      assert lines[Shifted(positions)[k]] == lines[1..][positions[k]];
    }
  }

  /** The first line's block goes in front of the blocks that follow. */
  lemma FollowsCons(lines: seq<string>, positions: seq<nat>, blocks: seq<Block>, b: Block)
    requires |lines| > 0 && ClassifyLine(lines[0]) == Some(b) && Follows(lines, positions, blocks)
    ensures Follows(lines, [0] + positions, [b] + blocks)
  {
    forall k | 0 < k < |positions| + 1
      ensures ([0] + positions)[k] == positions[k - 1] && ([b] + blocks)[k] == blocks[k - 1]
    {
    }
  }

  /** Order preservation: block k is the classification of line
      `BlockLines(lines)[k]`. With `BlockLinesSpec`, each line yields at most
      one block, a line yields one exactly when it is not blank, and blocks
      appear in the order of their lines. */
  lemma {:induction false} FormatLinesOrder(lines: seq<string>)
    ensures |FormatLines(lines)| == |BlockLines(lines)|
    ensures forall k :: 0 <= k < |BlockLines(lines)| ==>
      BlockLines(lines)[k] < |lines|
      && ClassifyLine(lines[BlockLines(lines)[k]]) == Some(FormatLines(lines)[k])
  {
    FollowsBlockLines(lines);
  }

  lemma {:induction false} FollowsBlockLines(lines: seq<string>)
    ensures Follows(lines, BlockLines(lines), FormatLines(lines))
  {
    if |lines| > 0 {
      var tail := lines[1..];
      FollowsBlockLines(tail);
      FollowsShifted(lines, BlockLines(tail), FormatLines(tail));
      ClassifyNoneIff(lines[0]);
      if Trim(lines[0]) != "" {
        FollowsCons(lines, Shifted(BlockLines(tail)), FormatLines(tail), ClassifyLine(lines[0]).value);
      }
    }
  }

  /** The number of non-blank lines. */
  function NonBlankCount(lines: seq<string>): nat {
    if |lines| == 0 then 0
    else (if Trim(lines[0]) != "" then 1 else 0) + NonBlankCount(lines[1..])
  }

  /** Formatting yields exactly one block per non-blank line. */
  lemma {:induction false} FormatLinesCount(lines: seq<string>)
    ensures |FormatLines(lines)| == NonBlankCount(lines)
  {
    if |lines| > 0 {
      ClassifyLineSpec(lines[0]);
      FormatLinesCount(lines[1..]);
    }
  }

  /** Formatting never fails: every text, including the empty one, yields a
      block list whose blocks map in order onto its non-blank lines. */
  lemma FormatAnalysisTotal(analysis: string)
    ensures |FormatAnalysis(analysis)| == NonBlankCount(Split(analysis, '\n'))
    ensures |FormatAnalysis(analysis)| <= |Split(analysis, '\n')|
  {
    FormatLinesCount(Split(analysis, '\n'));
  }

  /** A numbered section line is a heading. */
  lemma HeadingExample()
    ensures ClassifyLine("1. Strengths") == Some(Block(Heading, "1. Strengths"))
  {
    TrimUntouched("1. Strengths");
    assert "1. Strengths"[..2] == "1.";
  }

  /** A dash line is a bullet. */
  lemma BulletExample()
    ensures ClassifyLine("- Driver A brakes later") == Some(Block(Bullet, "- Driver A brakes later"))
  {
    var line := "- Driver A brakes later";
    TrimUntouched(line);
    assert line[..1] == "-";
    assert !IsHeadingLine(line) by { assert line[0] == '-'; }
  }

  /** Any other text line is a paragraph. */
  lemma ParagraphExample()
    ensures ClassifyLine("Overall, Driver A is faster.") == Some(Block(Paragraph, "Overall, Driver A is faster."))
  {
    var line := "Overall, Driver A is faster.";
    TrimUntouched(line);
    assert !StartsWith(line, "-") by { assert line[0] == 'O'; }
    assert !IsHeadingLine(line) by { assert line[0] == 'O'; }
  }

  /** The heading test is narrow: a space in front of the ordinal, or a fifth
      ordinal, makes a paragraph. */
  lemma NarrowHeadingExamples()
    ensures ClassifyLine(" 1. x") == Some(Block(Paragraph, "1. x"))
    ensures ClassifyLine("5. x") == Some(Block(Paragraph, "5. x"))
  {
    TrimUntouched("5. x");
    assert LeadingStop(" 1. x", 0) == 1;
    assert TrailingStop(" 1. x", 1, 5) == 5;
    assert " 1. x"[1..5] == "1. x";
    assert "5. x"[..2] != "1.";
  }

  /** Blank input yields nothing. */
  lemma BlankExamples()
    ensures ClassifyLine("   ") == None
    ensures FormatAnalysis("") == []
  {
    assert LeadingStop("   ", 0) == 3;
  }

}
