/** How much of each message trimming keeps, and that trimming is a `Blocks.Trims` step. */
module ContextContents {
  import opened Wrappers
  import opened Blocks
  import opened Tokens
  import opened Utf8
  import opened ContextSpec
  import opened ContextFacts
  import opened ContextPairs
  import opened ContextMandatory

  /** Cut to a number of tokens: the longest prefix of whole characters that fits, beside the mark, in four bytes a
      token; the long mark needs nine tokens. */
  ghost predicate CutToTokens(original: string, text: string, tokens: int) {
    var mark := if tokens >= 9 then TRUNCATED else ELLIPSIS;
    exists n: nat {:trigger Longest(original, mark, Max(4, 4 * tokens), n)} ::
      Longest(original, mark, Max(4, 4 * tokens), n) && text == original[..n] + mark
  }

  /** What selection leaves of a message: a result within the limit as it is, an oversized one cut to the limit, the
      first summary in full or shortened, and everything else as it is. */
  ghost predicate Kept(original: Block, b: Block, limit: int, summary: bool) {
    if original.ToolResult? then
      if CountText(original.content) <= limit then b == original
      else b.ToolResult? && b.callId == original.callId && CutToTokens(original.content, b.content, limit)
    else if summary then Shortened(original, b)
    else b == original
  }

  /** What the last resort leaves of a selected message: one token of a result, nothing of the arguments of a call, of a
      user message at least its beginning, and everything else as it is. */
  ghost predicate Reduced(original: Block, b: Block) {
    match original
    case ToolResult(id, content) => b.ToolResult? && b.callId == id && CutToTokens(content, b.content, 1)
    case ToolUse(call) => b == ToolUse(call.(input := TRUNCATED_INPUT))
    case Dict(role, _, _) => if role == "user" then Shortened(original, b) else b == original
    case _ => b == original
  }

  lemma TruncationCuts(value: string, tokens: int)
    ensures CutToTokens(value, TruncateText(value, tokens), tokens)
  {
    SuffixFits(tokens);
    TruncationIsLongest(value, tokens);
  }

  lemma NormalizedKeeps(messages: seq<Block>, limit: int, k: nat)
    requires k < |messages|
    ensures Kept(messages[k], Normalized(messages, limit)[k], limit, false)
  {
    if messages[k].ToolResult? {
      TruncationCuts(messages[k].content, limit);
    }
  }

  /** Selection changes the first summary only. */
  lemma OpeningChangesTheSummary(req: Request, items: seq<Block>, k: nat)
    requires k < |items|
    ensures var shrunk := Opening(req, items).0;
            && |shrunk| == |items| && Shortened(items[k], shrunk[k])
            && (FirstWhere(items, 0, IsSummary) != Some(k) ==> shrunk[k] == items[k])
  {
    var summary := FirstWhere(items, 0, IsSummary);
    if summary.Some? {
      ShrinkShortensOnly(req, items, Mandatory(items) + {summary.value}, summary.value);
    }
  }

  lemma SelectedIsKept(req: Request, messages: seq<Block>, k: nat)
    requires k < |messages|
    ensures var items := Selection(req, Normalized(messages, req.resultLimit)).0;
            && |items| == |messages|
            && Kept(messages[k], items[k], req.resultLimit, FirstWhere(messages, 0, IsSummary) == Some(k))
  {
    var normalized := Normalized(messages, req.resultLimit);
    NormalizedKeepsShapes(messages, req.resultLimit);
    SameShapesSameMandatory(messages, normalized);
    NormalizedKeeps(messages, req.resultLimit, k);
    OpeningChangesTheSummary(req, normalized, k);
  }

  lemma CutReduces(b: Block)
    ensures Reduced(b, Cut(b, 1))
  {
    if b.ToolResult? {
      TruncationCuts(b.content, 1);
    }
  }

  /** Besides being cut, only the last user message is shortened. */
  lemma LastResortCuts(req: Request, items: seq<Block>, k: nat)
    requires k < |items|
    ensures var r := ShrinkMandatory(req, items);
            && |r| == |items|
            && (r[k] == Cut(items[k], 1) || (IsUser(Cut(items[k], 1)) && Shortened(Cut(items[k], 1), r[k])))
  {
    var cut := CutAll(items, 1);
    var user := LastWhere(cut, IsUser);
    if !Affords(req, cut) && user.Some? {
      ShrinkShortensOnly(req, cut, Below(|cut|), user.value);
    }
  }

  lemma LastResortReduces(req: Request, items: seq<Block>, k: nat)
    requires k < |items|
    ensures |ShrinkMandatory(req, items)| == |items| && Reduced(items[k], ShrinkMandatory(req, items)[k])
  {
    LastResortCuts(req, items, k);
    CutReduces(items[k]);
  }

  /** What is returned are messages of the list in their order, each with what selection leaves of it; and if that is
      still too much for the budget, with what the last resort leaves of that. */
  lemma FitKeepsContents(req: Request, messages: seq<Block>) returns (index: seq<nat>, selected: seq<Block>)
    requires Fit(req, messages).Ok?
    ensures |index| == |selected| == |Fit(req, messages).value|
    ensures forall i, j :: 0 <= i < j < |index| ==> index[i] < index[j] < |messages|
    ensures forall k :: 0 <= k < |index| ==>
              index[k] < |messages|
              && Kept(messages[index[k]], selected[k], req.resultLimit, FirstWhere(messages, 0, IsSummary) == Some(index[k]))
    ensures if CountRequest(req.system, req.tools, selected) <= req.budget then Fit(req, messages).value == selected
            else forall k :: 0 <= k < |index| ==> Reduced(selected[k], Fit(req, messages).value[k])
  {
    var (items, chosen) := Selection(req, Normalized(messages, req.resultLimit));
    selected := Select(items, chosen);
    index := SelectKeepsOrder(items, chosen);
    forall k | 0 <= k < |messages|
      ensures |items| == |messages|
      ensures Kept(messages[k], items[k], req.resultLimit, FirstWhere(messages, 0, IsSummary) == Some(k))
    {
      SelectedIsKept(req, messages, k);
    }
    OpeningKeepsShapes(req, Normalized(messages, req.resultLimit));
    if !Affords(req, selected) {
      forall k | 0 <= k < |selected|
        ensures |ShrinkMandatory(req, selected)| == |selected|
        ensures Reduced(selected[k], ShrinkMandatory(req, selected)[k])
      {
        LastResortReduces(req, selected, k);
      }
      LastResortLength(req, selected);
    }
  }

  lemma LastResortLength(req: Request, items: seq<Block>)
    ensures |ShrinkMandatory(req, items)| == |items|
  {
    ShrinkMandatoryKeepsShapes(req, items);
  }

  /******* Trimming as the run protocol sees it *******/

  lemma CutToTokensIsCut(original: string, text: string, tokens: int)
    requires CutToTokens(original, text, tokens)
    ensures IsCut(original, text)
  {
    var mark := if tokens >= 9 then TRUNCATED else ELLIPSIS;
    var n: nat :| Longest(original, mark, Max(4, 4 * tokens), n) && text == original[..n] + mark;
    PrefixOf(original, mark, Max(4, 4 * tokens), n);
    MarkedPrefix(original, mark, n);
  }

  lemma PrefixOf(original: string, mark: string, bytes: nat, n: nat)
    requires Longest(original, mark, bytes, n)
    ensures n <= |original|
  {
  }

  lemma MarkedPrefix(original: string, mark: string, n: nat)
    requires n <= |original| && (mark == TRUNCATED || mark == ELLIPSIS)
    ensures IsCut(original, original[..n] + mark)
  {
    assert IsCutAt(original, original[..n] + mark, n);
  }

  lemma TwoCuts(original: string, middle: string, text: string)
    requires (middle == original || IsCut(original, middle)) && (text == middle || IsCut(middle, text))
    ensures Shortens(original, text)
  {
    if middle != original && text != middle {
      var n: nat :| n <= |original| && IsCutAt(original, middle, n);
      assert IsCut(original[..n] + TRUNCATED, text) || IsCut(original[..n] + ELLIPSIS, text);
    }
  }

  lemma KeptResembles(original: Block, selected: Block, b: Block, limit: int, summary: bool)
    requires Kept(original, selected, limit, summary) && (b == selected || Reduced(selected, b)) && b.ToolResult?
    ensures Resembles(original, b)
  {
    if original.ToolResult? {
      if CountText(original.content) > limit {
        CutToTokensIsCut(original.content, selected.content, limit);
      }
      if b != selected {
        CutToTokensIsCut(selected.content, b.content, 1);
      }
      TwoCuts(original.content, selected.content, b.content);
    }
  }

  lemma FitKeepsResults(req: Request, messages: seq<Block>)
    requires Fit(req, messages).Ok?
    ensures KeepsResults(messages, Fit(req, messages).value)
  {
    var kept := Fit(req, messages).value;
    var index, selected := FitKeepsContents(req, messages);
    forall b | b in kept && b.ToolResult? ensures exists m :: m in messages && Resembles(m, b) {
      var k :| 0 <= k < |kept| && kept[k] == b;
      KeptResembles(messages[index[k]], selected[k], b, req.resultLimit,
                    FirstWhere(messages, 0, IsSummary) == Some(index[k]));
      assert messages[index[k]] in messages;
    }
  }

  /** Trimming a paired list without pending calls is a trim in the sense of the run protocol. */
  lemma FitTrims(req: Request, messages: seq<Block>)
    requires Paired(messages) && Unresolved(messages) == []
    ensures var r := Fit(req, messages); r.Ok? ==> Trims(messages, r.value)
  {
    FitKeepsPairs(req, messages);
    if Fit(req, messages).Ok? {
      FitKeepsResults(req, messages);
    }
  }
}
