/** What trimming never gives up, and the one input for which it does. */
module ContextMandatory {
  import opened Wrappers
  import opened Blocks
  import opened Tokens
  import opened Utf8
  import opened ContextSpec
  import opened ContextFacts
  import opened ContextPairs

  /** The first summary of the list is also its last user message or part of the latest tool interaction, and even
      shrunk to nothing it does not fit beside the rest of what is mandatory. */
  predicate SummaryPushedOut(req: Request, messages: seq<Block>) {
    var summary := FirstWhere(messages, 0, IsSummary);
    && summary.Some? && summary.value in Mandatory(messages)
    && !Fits(req, Opening(req, messages).0, Mandatory(messages))
  }

  /** Everything mandatory is selected, except for a summary that is itself mandatory and was pushed out. */
  lemma MandatoryKeptExactlyWhen(req: Request, messages: seq<Block>)
    ensures Mandatory(messages) <= Selection(req, messages).1 <==> !SummaryPushedOut(req, messages)
  {
    var (items, start) := Opening(req, messages);
    var chosen := Selection(req, messages).1;
    GreedyGrows(items, FitsIn(req, items), start, |items|);
    if SummaryPushedOut(req, messages) {
      var i := FirstWhere(messages, 0, IsSummary).value;
      assert Mandatory(messages) + {i} == Mandatory(messages);
      if Mandatory(messages) <= chosen {
        FitsIsMonotone(req, items, Mandatory(messages), chosen);
      }
    } else {
      var summary := FirstWhere(messages, 0, IsSummary);
      if summary.Some? && summary.value in Mandatory(messages) {
        assert Mandatory(messages) + {summary.value} == Mandatory(messages);
      }
    }
  }

  /** With no summary among the user messages nothing mandatory is ever given up. */
  lemma SummariesOfTheAssistantPushNothingOut(req: Request, messages: seq<Block>)
    requires forall b :: b in messages && IsSummary(b) ==> !IsUser(b)
    ensures !SummaryPushedOut(req, messages)
  {
    var summary := FirstWhere(messages, 0, IsSummary);
    if summary.Some? {
      assert messages[summary.value] in messages;
    }
  }

  /** The last resort is taken only when nothing but the mandatory items was selected. */
  lemma OverflowingSelectionIsMandatory(req: Request, messages: seq<Block>)
    requires var (items, chosen) := Selection(req, messages); !Fits(req, items, chosen)
    ensures Selection(req, messages).1 == Mandatory(messages) - At(FirstWhere(messages, 0, IsSummary))
    ensures !SummaryPushedOut(req, messages) ==> Selection(req, messages).1 == Mandatory(messages)
  {
    var (items, start) := Opening(req, messages);
    GreedyGrows(items, FitsIn(req, items), start, |items|);
    MandatoryKeptExactlyWhen(req, messages);
  }

  /** `b` is `a`, or `a` with its content cut to a prefix and marked. */
  predicate Shortened(a: Block, b: Block) {
    a == b
    || (a.Dict? && b.Dict? && b.role == a.role && b.summaryVersion == a.summaryVersion
        && exists n: nat :: n <= |a.content| && b.content == a.content[..n] + TRUNCATED)
  }

  lemma {:induction false} ShrinkShortens(
    req: Request, items: seq<Block>, chosen: set<nat>, i: nat, original: Block, n: nat)
    requires i < |items| && original.Dict? && n <= |original.content|
    requires (items[i] == original && n == |original.content|)
             || items[i] == Dict(original.role, original.content[..n] + TRUNCATED, original.summaryVersion)
    ensures Shortened(original, ShrinkContent(req, items, chosen, i, original.content[..n])[i])
    decreases n
  {
    var content := original.content[..n];
    if content != "" && !Fits(req, items, chosen) {
      var half := n / 2;
      assert content[..|content| / 2] == original.content[..half];
      var next := items[i := Dict(original.role, original.content[..half] + TRUNCATED, original.summaryVersion)];
      ShrinkShortens(req, next, chosen, i, original, half);
    }
  }

  lemma ShrinkShortensOnly(req: Request, items: seq<Block>, chosen: set<nat>, i: nat)
    requires i < |items| && items[i].Dict?
    ensures var r := ShrinkContent(req, items, chosen, i, items[i].content);
            forall k :: 0 <= k < |items| ==> Shortened(items[k], r[k])
  {
    assert items[i].content[..|items[i].content|] == items[i].content;
    ShrinkShortens(req, items, chosen, i, items[i], |items[i].content|);
  }

  /** Halving stops as soon as the list fits; if it never does, nothing is left of the content. */
  lemma {:induction false} ShrinkGivesUpLast(req: Request, items: seq<Block>, chosen: set<nat>, i: nat, content: string)
    requires i < |items| && items[i].Dict? && (items[i].content == content || items[i].content == content + TRUNCATED)
    ensures var r := ShrinkContent(req, items, chosen, i, content);
            Fits(req, r, chosen) || (r[i].Dict? && (r[i].content == "" || r[i].content == TRUNCATED))
    decreases |content|
  {
    if content != "" && !Fits(req, items, chosen) {
      var half := content[..|content| / 2];
      ShrinkGivesUpLast(req, items[i := Dict(items[i].role, half + TRUNCATED, items[i].summaryVersion)], chosen, i, half);
    } else if content == "" {
      assert "" + TRUNCATED == TRUNCATED;
    }
  }

  /******* The result *******/

  /** The last user message is still there, in full or as a marked prefix. */
  predicate KeepsLastUser(messages: seq<Block>, kept: seq<Block>) {
    var user := LastWhere(messages, IsUser);
    user.Some? ==> exists b :: b in kept && Shortened(messages[user.value], b)
  }

  /** The latest tool result and its call are still there, possibly shortened. */
  predicate KeepsLatestResult(messages: seq<Block>, kept: seq<Block>) {
    var result := LastWhere(messages, IsResult);
    result.Some? ==>
      && messages[result.value].callId in ResultIds(kept)
      && (LastWhere(messages[..result.value], CallTo(messages[result.value].callId)).Some? ==>
            messages[result.value].callId in CallIds(kept))
  }

  /** What the last resort does to each item. */
  lemma LastResortShortens(req: Request, items: seq<Block>, k: nat)
    requires k < |items|
    ensures var r := ShrinkMandatory(req, items);
            |r| == |items| && SameShape(items[k], r[k]) && (items[k].Dict? ==> Shortened(items[k], r[k]))
  {
    ShrinkMandatoryKeepsShapes(req, items);
    var cut := CutAll(items, 1);
    var user := LastWhere(cut, IsUser);
    if !Affords(req, cut) && user.Some? {
      ShrinkShortensOnly(req, cut, Below(|cut|), user.value);
    }
  }

  /** Every selected item survives the last resort. */
  lemma SelectedSurvives(req: Request, items: seq<Block>, chosen: set<nat>, k: nat) returns (b: Block)
    requires k < |items| && k in chosen
    ensures b in ShrinkMandatory(req, Select(items, chosen)) && SameShape(items[k], b)
    ensures items[k].Dict? ==> Shortened(items[k], b)
  {
    var fitted := Select(items, chosen);
    SelectMembers(items, chosen);
    var j :| 0 <= j < |fitted| && fitted[j] == items[k];
    LastResortShortens(req, fitted, j);
    b := ShrinkMandatory(req, fitted)[j];
  }

  /** The summary is the only item that selection itself may shorten, and then the selection fits. */
  lemma OpeningShortens(req: Request, items: seq<Block>, k: nat)
    requires k < |items| && k in Selection(req, items).1
    ensures Shortened(items[k], Selection(req, items).0[k])
    ensures Selection(req, items).0[k] != items[k] ==> Fits(req, Selection(req, items).0, Selection(req, items).1)
  {
    var (shrunk, start) := Opening(req, items);
    var summary := FirstWhere(items, 0, IsSummary);
    if summary.Some? {
      var i := summary.value;
      ShrinkShortensOnly(req, items, Mandatory(items) + {i}, i);
      if k == i && !Fits(req, shrunk, Selection(req, items).1) {
        GreedyGrows(shrunk, FitsIn(req, shrunk), start, |shrunk|);
      }
    }
  }

  /** A kept item of the last list, shortened at most once. */
  lemma FinalItem(req: Request, items: seq<Block>, k: nat) returns (b: Block)
    requires k < |items| && k in Selection(req, items).1
    ensures var (shrunk, chosen) := Selection(req, items);
            var fitted := Select(shrunk, chosen);
            b in (if Affords(req, fitted) then fitted else ShrinkMandatory(req, fitted))
    ensures SameShape(items[k], b) && (items[k].Dict? ==> Shortened(items[k], b))
  {
    var (shrunk, chosen) := Selection(req, items);
    OpeningKeepsShapes(req, items);
    OpeningShortens(req, items, k);
    if Fits(req, shrunk, chosen) {
      SelectMembers(shrunk, chosen);
      b := shrunk[k];
    } else {
      b := SelectedSurvives(req, shrunk, chosen, k);
    }
  }

  /** Every selected message is still there, possibly shortened. */
  lemma SelectedStays(req: Request, messages: seq<Block>, kept: seq<Block>, k: nat) returns (b: Block)
    requires Fit(req, messages) == Ok(kept) && k < |messages|
    requires k in Selection(req, Normalized(messages, req.resultLimit)).1
    ensures b in kept && SameShape(messages[k], b) && (messages[k].Dict? ==> Shortened(messages[k], b))
  {
    var items := Normalized(messages, req.resultLimit);
    TruncateKeepsShape(messages[k], req.resultLimit);
    b := FinalItem(req, items, k);
  }

  lemma IdStays(message: Block, b: Block, kept: seq<Block>)
    requires b in kept && SameShape(message, b)
    ensures message.ToolResult? ==> message.callId in ResultIds(kept)
    ensures message.ToolUse? ==> message.call.id in CallIds(kept)
  {
  }

  lemma LatestResultStays(req: Request, messages: seq<Block>, kept: seq<Block>)
    requires Fit(req, messages) == Ok(kept)
    requires Mandatory(messages) <= Selection(req, Normalized(messages, req.resultLimit)).1
    ensures KeepsLatestResult(messages, kept)
  {
    var result := LastWhere(messages, IsResult);
    if result.Some? {
      assert result.value in Mandatory(messages);
      var b := SelectedStays(req, messages, kept, result.value);
      IdStays(messages[result.value], b, kept);
      var call := LastWhere(messages[..result.value], CallTo(messages[result.value].callId));
      if call.Some? {
        assert call.value in Mandatory(messages);
        var c := SelectedStays(req, messages, kept, call.value);
        IdStays(messages[call.value], c, kept);
      }
    }
  }

  lemma LastUserStays(req: Request, messages: seq<Block>, kept: seq<Block>)
    requires Fit(req, messages) == Ok(kept)
    requires Mandatory(messages) <= Selection(req, Normalized(messages, req.resultLimit)).1
    ensures KeepsLastUser(messages, kept)
  {
    var user := LastWhere(messages, IsUser);
    if user.Some? {
      assert user.value in Mandatory(messages);
      var b := SelectedStays(req, messages, kept, user.value);
    }
  }

  /** Whatever is returned stays within the budget, and unless a summary was pushed out it still holds the last user
      message and the latest tool interaction. */
  lemma FitKeepsWhatMatters(req: Request, messages: seq<Block>)
    ensures Fit(req, messages).Ok? ==> CountRequest(req.system, req.tools, Fit(req, messages).value) <= req.budget
    ensures Fit(req, messages).Ok? && !SummaryPushedOut(req, Normalized(messages, req.resultLimit)) ==>
              KeepsLastUser(messages, Fit(req, messages).value) && KeepsLatestResult(messages, Fit(req, messages).value)
  {
    var items := Normalized(messages, req.resultLimit);
    if Fit(req, messages).Ok? && !SummaryPushedOut(req, items) {
      var kept := Fit(req, messages).value;
      MandatoryKeptExactlyWhen(req, items);
      NormalizedKeepsShapes(messages, req.resultLimit);
      SameShapesSameMandatory(messages, items);
      LastUserStays(req, messages, kept);
      LatestResultStays(req, messages, kept);
    }
  }

  /** A result of at most one token, a call without arguments. */
  predicate CutDown(item: Block) {
    (item.ToolResult? ==> CountText(item.content) <= 1) && (item.ToolUse? ==> item.call.input == TRUNCATED_INPUT)
  }

  predicate NothingLeft(items: seq<Block>) {
    var user := LastWhere(items, IsUser);
    && (forall k :: 0 <= k < |items| ==> CutDown(items[k]))
    && (user.Some? ==> items[user.value].content == "" || items[user.value].content == TRUNCATED)
  }

  /** Giving up on the interaction means that nothing was left to shorten: every result is down to one token, every
      input is gone, and nothing is left of the last user message. */
  lemma OverflowLeavesNothingToShorten(req: Request, messages: seq<Block>)
    requires Fit(req, messages) == Err(Interaction)
    ensures var (items, chosen) := Selection(req, Normalized(messages, req.resultLimit));
            var r := ShrinkMandatory(req, Select(items, chosen));
            !Affords(req, r) && NothingLeft(r)
  {
    var (items, chosen) := Selection(req, Normalized(messages, req.resultLimit));
    LastResortLeavesNothing(req, Select(items, chosen));
  }

  lemma TruncatedCount(value: string, tokens: int, r: string)
    requires r == TruncateText(value, tokens)
    ensures CountText(r) <= Max(1, tokens)
  {
    TruncationIsLongest(value, tokens);
  }

  lemma CutIsCutDown(item: Block, r: Block)
    requires r == Cut(item, 1)
    ensures CutDown(r)
  {
    if r.ToolResult? {
      TruncatedCount(item.content, 1, r.content);
    }
  }

  lemma LastResortLeavesNothing(req: Request, items: seq<Block>)
    requires !Affords(req, ShrinkMandatory(req, items))
    ensures NothingLeft(ShrinkMandatory(req, items))
  {
    var r, cut := ShrinkMandatory(req, items), CutAll(items, 1);
    var user := LastWhere(cut, IsUser);
    forall k | 0 <= k < |cut| ensures CutDown(cut[k]) {
      CutIsCutDown(items[k], cut[k]);
    }
    if user.Some? {
      ShrinkKeepsShapes(req, cut, Below(|cut|), user.value, cut[user.value].content);
      ShrinkGivesUpLast(req, cut, Below(|cut|), user.value, cut[user.value].content);
      SelectBelow(r, |cut|);
      SameShapesFindTheSame(cut, r, IsUser);
    } else {
      assert r == cut;
    }
  }

  /******* The exception is real *******/

  const VERSIONED_USER_MESSAGE := Dict("user", "", Some(1))
  const TINY_REQUEST := Request("", "[]", 5, 1)

  lemma VersionedUserMessageIsLong()
    ensures Size(RenderItem(VERSIONED_USER_MESSAGE)) >= 18
  {
    var tail := ",\"summary_version\":" + Decimal(1) + "}";
    SizeBounds(RenderItem(VERSIONED_USER_MESSAGE));
  }

  lemma OversizedSummaryVanishes(req: Request, item: Block)
    requires IsSummary(item) && IsUser(item) && item.content == ""
    requires !Fits(req, [item], {0})
    ensures Mandatory([item]) == {0} && FirstWhere([item], 0, IsSummary) == Some(0)
    ensures Opening(req, [item]) == ([item], {}) && Selection(req, [item]) == ([item], {})
    ensures SummaryPushedOut(req, [item])
  {
    var items, none: set<nat> := [item], {};
    assert Mandatory(items) == {0};
    assert Mandatory(items) + {0} == {0} && {0} - {0} == none;
    assert Opening(req, items) == (items, none);
    assert none + Related(items, 0) == {0};
    assert Consider(items, FitsIn(req, items), none, 0) == none;
  }

  /** A user message that carries a summary version is dropped without a word when it does not fit. */
  lemma LastUserMessageCanVanish()
    ensures SummaryPushedOut(TINY_REQUEST, [VERSIONED_USER_MESSAGE])
    ensures Fit(TINY_REQUEST, [VERSIONED_USER_MESSAGE]) == Ok([])
  {
    var req, items := TINY_REQUEST, [VERSIONED_USER_MESSAGE];
    VersionedUserMessageIsLong();
    CountByWeight(items);
    CountByWeight([]);
    SizeBounds("[]");
    assert Weight(items) >= 19 by { assert items[1..] == []; }
    assert !Fits(req, items, {0}) by { assert Select(items, {0}) == items; }
    OversizedSummaryVanishes(req, VERSIONED_USER_MESSAGE);
    assert Normalized(items, 1) == items;
    assert Select(items, {}) == [];
  }
}
