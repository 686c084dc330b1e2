/** The CSV text handling both upload screens share: split into lines on
    /\r?\n/, drop the lines that trim to "", split a line on commas. */
module Csv {
  import opened Strings
  import opened Seqs

  function NotBlankLine(): string -> bool {
    l => Trim(l) != ""
  }

  /** `text.split(/\r?\n/).filter(l => l.trim() !== "")` */
  function NonBlankLines(text: string): (lines: seq<string>)
    ensures forall l :: l in lines ==> !IsBlank(l) && '\n' !in l
  {
    var lines := Filter(SplitLines(text), NotBlankLine());
    assert forall l :: l in lines ==> !IsBlank(l) by {
      forall l | l in lines ensures !IsBlank(l) {
        TrimEmptyIffBlank(l);
      }
    }
    lines
  }

  predicate NotBlank(l: string) {
    !IsBlank(l)
  }

  /** The kept lines are exactly the text's non-blank lines, in order and
      with their repetitions. */
  lemma NonBlankLinesInOrder(text: string)
    ensures NonBlankLines(text) == Filter(SplitLines(text), NotBlank)
    ensures IsSubsequence(NonBlankLines(text), SplitLines(text))
    ensures forall l :: l in SplitLines(text) && !IsBlank(l) ==> l in NonBlankLines(text)
  {
    forall l | l in SplitLines(text) ensures NotBlankLine()(l) == NotBlank(l) {
      TrimEmptyIffBlank(l);
    }
    FilterAgree(SplitLines(text), NotBlankLine(), NotBlank);
    FilterIsSubsequence(SplitLines(text), NotBlankLine());
    forall l | l in SplitLines(text) && !IsBlank(l) ensures l in NonBlankLines(text) {
      TrimEmptyIffBlank(l);
    }
  }

  /** `line.split(",").map(c => c.trim())` */
  function Cells(line: string): (cells: seq<string>)
    ensures |cells| == |Split(line, ',')| >= 1
    ensures forall k :: 0 <= k < |cells| ==> cells[k] == Trim(Split(line, ',')[k])
  {
    var parts := Split(line, ',');
    seq(|parts|, k requires 0 <= k < |parts| => Trim(parts[k]))
  }

  /** `lines.map(line => line.split(",").map(c => c.trim()))` */
  function ParseRows(lines: seq<string>): (rows: seq<seq<string>>)
    ensures |rows| == |lines|
    ensures forall i :: 0 <= i < |lines| ==> rows[i] == Cells(lines[i])
  {
    seq(|lines|, i requires 0 <= i < |lines| => Cells(lines[i]))
  }

  /** `s.slice(from, to)` for `0 <= from`. */
  function Slice<T>(s: seq<T>, from: nat, to: nat): (r: seq<T>)
    ensures |r| == (if to <= |s| then (if from <= to then to - from else 0)
                    else (if from <= |s| then |s| - from else 0))
    ensures forall i :: 0 <= i < |r| ==> r[i] == s[from + i]
  {
    var end := if to <= |s| then to else |s|;
    if from <= end then s[from..end] else []
  }
}
