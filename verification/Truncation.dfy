/** `truncateToBudget` (mergeready/context/pack.ts): a text that is too long is cut at a line end. */
module Truncation {
  import opened Text

  /** The first `k` lines of a text. */
  function Head(text: string, k: nat): string
    requires k <= |SplitOn(text, '\n')|
  {
    Join(SplitOn(text, '\n')[..k], "\n")
  }

  /** `k` lines fit, as does every shorter head, and one line more does not. */
  ghost predicate LongestRun(count: string -> real, text: string, budget: real, k: nat) {
    && k < |SplitOn(text, '\n')|
    && (forall j :: 0 < j <= k ==> count(Head(text, j)) <= budget)
    && count(Head(text, k + 1)) > budget
  }

  lemma HeadGrows(text: string, k: nat)
    requires k < |SplitOn(text, '\n')|
    ensures Head(text, k + 1) ==
            if k == 0 then SplitOn(text, '\n')[0] else Head(text, k) + "\n" + SplitOn(text, '\n')[k]
  {
    var lines := SplitOn(text, '\n');
    hide SplitOn;
    assert lines[..k + 1] == lines[..k] + [lines[k]];
    if k > 0 {
      JoinSnoc(lines[..k], lines[k], "\n");
    }
  }

  lemma WholeText(text: string)
    ensures Head(text, |SplitOn(text, '\n')|) == text
  {
    SplitPieces(text, '\n');
    assert SplitOn(text, '\n')[..|SplitOn(text, '\n')|] == SplitOn(text, '\n');
    hide SplitOn;
  }

  /** A head of the text is a prefix of it. */
  lemma {:induction false} HeadIsPrefix(text: string, k: nat)
    requires k <= |SplitOn(text, '\n')|
    ensures Head(text, k) <= text
    decreases |SplitOn(text, '\n')| - k
  {
    WholeText(text);
    if k < |SplitOn(text, '\n')| {
      HeadIsPrefix(text, k + 1);
      HeadGrows(text, k);
      assert k == 0 ==> Head(text, 0) == "";
      hide Head;
      hide SplitOn;
    }
  }

  /** A text that fits is returned as it is. Otherwise the result is its longest run of leading
      lines of which every head fits; it is a prefix of the text, and it fits unless it is empty. */
  method TruncateToBudget(count: string -> real, text: string, budget: real) returns (kept: string)
    ensures kept <= text
    ensures count(text) <= budget ==> kept == text
    ensures count(text) > budget ==> exists k :: LongestRun(count, text, budget, k) && kept == Head(text, k)
    ensures kept != "" ==> count(kept) <= budget
  {
    if count(text) <= budget {
      return text;
    }
    var lines := SplitOn(text, '\n');
    kept := "";
    WholeText(text);
    assert Head(text, 0) == "";
    hide SplitOn;
    hide Head;
    for i := 0 to |lines|
      invariant kept == Head(text, i)
      invariant forall j :: 0 < j <= i ==> count(Head(text, j)) <= budget
      invariant i == |lines| ==> count(text) <= budget
    {
      HeadGrows(text, i);
      HeadIsPrefix(text, i);
      var candidate := if i == 0 then lines[i] else kept + "\n" + lines[i];
      if count(candidate) <= budget {
        kept := candidate;
      } else {
        assert LongestRun(count, text, budget, i);
        return;
      }
    }
  }
}
