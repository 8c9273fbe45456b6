/** The context window as its source computes it, proved against the specification. */
module ContextWindow {
  import opened Wrappers
  import opened Blocks
  import opened Tokens
  import opened ContextSpec

  method FindLast(items: seq<Block>, p: Block -> bool) returns (found: Option<nat>)
    ensures found == LastWhere(items, p)
  {
    var i := |items|;
    while i > 0
      invariant 0 <= i <= |items|
      invariant LastWhere(items, p) == LastWhere(items[..i], p)
    {
      i := i - 1;
      assert items[..i + 1][..i] == items[..i];
      if p(items[i]) {
        return Some(i);
      }
    }
    return None;
  }

  method FindFirst(items: seq<Block>, start: nat, p: Block -> bool) returns (found: Option<nat>)
    requires start <= |items|
    ensures found == FirstWhere(items, start, p)
  {
    var i := start;
    while i < |items|
      invariant start <= i <= |items|
      invariant FirstWhere(items, start, p) == FirstWhere(items, i, p)
    {
      if p(items[i]) {
        return Some(i);
      }
      i := i + 1;
    }
    return None;
  }

  method MandatoryIndexes(items: seq<Block>) returns (mandatory: set<nat>)
    ensures mandatory == Mandatory(items)
  {
    mandatory := {};
    var user := FindLast(items, IsUser);
    if user.Some? {
      mandatory := mandatory + {user.value};
    }
    var result := FindLast(items, IsResult);
    if result.Some? {
      mandatory := mandatory + {result.value};
      var call := FindLast(items[..result.value], CallTo(items[result.value].callId));
      if call.Some? {
        mandatory := mandatory + {call.value};
      }
    }
  }

  method RelatedIndexes(items: seq<Block>, i: nat) returns (related: set<nat>)
    requires i < |items|
    ensures related == Related(items, i)
  {
    related := {i};
    if items[i].ToolResult? {
      var call := FindLast(items[..i], CallTo(items[i].callId));
      if call.Some? {
        related := related + {call.value};
      }
    } else if items[i].ToolUse? {
      var result := FindFirst(items, i + 1, ResultOf(items[i].call.id));
      if result.Some? {
        related := related + {result.value};
      }
    }
  }

  /** The halving loop of both shrinking steps. */
  method HalveContent(req: Request, items: seq<Block>, chosen: set<nat>, i: nat) returns (r: seq<Block>)
    requires i < |items| && items[i].Dict?
    ensures r == ShrinkContent(req, items, chosen, i, items[i].content)
  {
    r := items;
    var content := items[i].content;
    while content != "" && !Fits(req, r, chosen)
      invariant |r| == |items| && r[i].Dict?
      invariant ShrinkContent(req, items, chosen, i, items[i].content) == ShrinkContent(req, r, chosen, i, content)
      decreases |content|
    {
      content := content[..|content| / 2];
      r := r[i := Dict(r[i].role, content + TRUNCATED, r[i].summaryVersion)];
    }
  }

  method ShrinkMandatoryItems(req: Request, items: seq<Block>) returns (r: seq<Block>)
    ensures r == ShrinkMandatory(req, items)
  {
    r := items;
    var i := 0;
    while i < |items|
      invariant 0 <= i <= |items| && |r| == |items|
      invariant forall k :: 0 <= k < |items| ==> r[k] == if k < i then Cut(items[k], 1) else items[k]
    {
      r := r[i := Cut(r[i], 1)];
      i := i + 1;
    }
    assert r == CutAll(items, 1);
    if !Affords(req, r) {
      var user := FindLast(r, IsUser);
      if user.Some? {
        r := HalveContent(req, r, Below(|r|), user.value);
      }
    }
  }

  method OpenSelection(req: Request, normalized: seq<Block>) returns (items: seq<Block>, selected: set<nat>)
    ensures (items, selected) == Opening(req, normalized)
  {
    items := normalized;
    selected := MandatoryIndexes(items);
    var summary := FindFirst(items, 0, IsSummary);
    if summary.Some? {
      selected := selected + {summary.value};
      if !Fits(req, items, selected) {
        items := HalveContent(req, items, selected, summary.value);
        if !Fits(req, items, selected) {
          selected := selected - {summary.value};
        }
      }
    }
  }

  method GreedySelection(req: Request, items: seq<Block>, start: set<nat>) returns (selected: set<nat>)
    ensures selected == Greedy(items, FitsIn(req, items), start, |items|)
  {
    selected := start;
    var i := |items|;
    while i > 0
      invariant 0 <= i <= |items|
      invariant Greedy(items, FitsIn(req, items), start, |items|) == Greedy(items, FitsIn(req, items), selected, i)
    {
      i := i - 1;
      if i !in selected {
        var related := RelatedIndexes(items, i);
        if Fits(req, items, selected + related) {
          selected := selected + related;
        }
      }
    }
  }

  method FitMessages(req: Request, messages: seq<Block>) returns (r: Result<seq<Block>, Overflow>)
    ensures r == Fit(req, messages)
  {
    if CountText(req.system) + CountText(req.tools) >= req.budget {
      return Err(FixedPart);
    }
    var items, start := OpenSelection(req, Normalized(messages, req.resultLimit));
    var selected := GreedySelection(req, items, start);
    var fitted := Select(items, selected);
    if !Affords(req, fitted) {
      fitted := ShrinkMandatoryItems(req, fitted);
    }
    if !Affords(req, fitted) {
      return Err(Interaction);
    }
    return Ok(fitted);
  }
}
