/** Trimming keeps calls and results together, and what it keeps in order. */
module ContextPairs {
  import opened Wrappers
  import opened Blocks
  import opened Tokens
  import opened ContextSpec
  import opened ContextFacts

  /** Shortening an item changes contents and arguments only. */
  predicate SameShape(a: Block, b: Block) {
    match a
    case ToolUse(call) => b.ToolUse? && b.call.id == call.id && b.call.name == call.name
    case ToolResult(id, _) => b.ToolResult? && b.callId == id
    case Dict(role, _, version) => b.Dict? && b.role == role && b.summaryVersion == version
    case _ => b == a
  }

  predicate SameShapes(a: seq<Block>, b: seq<Block>) {
    |a| == |b| && forall k :: 0 <= k < |a| ==> SameShape(a[k], b[k])
  }

  /** A chosen call has its result chosen, and the other way round. */
  predicate PairClosed(items: seq<Block>, chosen: set<nat>) {
    forall c: nat, r: nat :: c < |items| && r < |items| && IsPair(items[c], items[r]) ==> (c in chosen <==> r in chosen)
  }

  /******* Shapes *******/

  lemma SameShapesFindTheSame(a: seq<Block>, b: seq<Block>, p: Block -> bool)
    requires SameShapes(a, b) && forall x, y :: SameShape(x, y) ==> p(x) == p(y)
    ensures LastWhere(a, p) == LastWhere(b, p)
    ensures FirstWhere(a, 0, p) == FirstWhere(b, 0, p)
  {
  }

  lemma SameShapesSameMandatory(a: seq<Block>, b: seq<Block>)
    requires SameShapes(a, b)
    ensures Mandatory(a) == Mandatory(b) && FirstWhere(a, 0, IsSummary) == FirstWhere(b, 0, IsSummary)
    ensures LastWhere(a, IsUser) == LastWhere(b, IsUser) && LastWhere(a, IsResult) == LastWhere(b, IsResult)
  {
    SameShapesFindTheSame(a, b, IsUser);
    SameShapesFindTheSame(a, b, IsResult);
    SameShapesFindTheSame(a, b, IsSummary);
    var result := LastWhere(a, IsResult);
    if result.Some? {
      SameShapesFindTheSame(a[..result.value], b[..result.value], CallTo(a[result.value].callId));
    }
  }

  lemma SameShapesStayPaired(a: seq<Block>, b: seq<Block>)
    requires SameShapes(a, b) && Paired(a)
    ensures Paired(b)
  {
    forall i, j | 0 <= i < j < |b| ensures !SameKey(b[i], b[j]) {
      assert !SameKey(a[i], a[j]);
    }
    forall j | 0 <= j < |b| && b[j].ToolResult? ensures exists i :: 0 <= i < j && IsPair(b[i], b[j]) {
      var i :| 0 <= i < j && IsPair(a[i], a[j]);
      assert IsPair(b[i], b[j]);
    }
  }

  lemma SameShapesSameIds(a: seq<Block>, b: seq<Block>)
    requires SameShapes(a, b)
    ensures CallIds(a) == CallIds(b) && ResultIds(a) == ResultIds(b)
  {
    forall k | 0 <= k < |a| ensures SameShape(a[k], b[k]) && a[k] in a && b[k] in b {}
    assert CallIds(a) <= CallIds(b) && CallIds(b) <= CallIds(a);
    assert ResultIds(a) <= ResultIds(b) && ResultIds(b) <= ResultIds(a);
  }

  lemma {:induction false} ShrinkKeepsShapes(req: Request, items: seq<Block>, chosen: set<nat>, i: nat, content: string)
    requires i < |items| && items[i].Dict?
    ensures SameShapes(items, ShrinkContent(req, items, chosen, i, content))
    decreases |content|
  {
    if content != "" && !Fits(req, items, chosen) {
      var half := content[..|content| / 2];
      ShrinkKeepsShapes(req, items[i := Dict(items[i].role, half + TRUNCATED, items[i].summaryVersion)], chosen, i, half);
    }
  }

  lemma NormalizedKeepsShapes(messages: seq<Block>, limit: int)
    ensures SameShapes(messages, Normalized(messages, limit))
  {
    var items := Normalized(messages, limit);
    forall k | 0 <= k < |items| ensures SameShape(messages[k], items[k]) {
      TruncateKeepsShape(messages[k], limit);
    }
  }

  lemma TruncateKeepsShape(item: Block, limit: int)
    ensures SameShape(item, TruncateResult(item, limit))
  {
  }

  lemma ShapeChain(a: Block, b: Block, c: Block)
    requires SameShape(a, b) && SameShape(b, c)
    ensures SameShape(a, c)
  {
  }

  lemma ShapesChain(a: seq<Block>, b: seq<Block>, c: seq<Block>)
    requires SameShapes(a, b) && SameShapes(b, c)
    ensures SameShapes(a, c)
  {
    forall k | 0 <= k < |a| ensures SameShape(a[k], c[k]) {
      ShapeChain(a[k], b[k], c[k]);
    }
  }

  lemma CutKeepsShapes(items: seq<Block>)
    ensures SameShapes(items, CutAll(items, 1))
  {
    var cut := CutAll(items, 1);
    forall k | 0 <= k < |items| ensures SameShape(items[k], cut[k]) {
      assert cut[k] == Cut(items[k], 1);
    }
  }

  lemma ShrinkMandatoryKeepsShapes(req: Request, items: seq<Block>)
    ensures SameShapes(items, ShrinkMandatory(req, items))
  {
    var cut := CutAll(items, 1);
    var user := LastWhere(cut, IsUser);
    CutKeepsShapes(items);
    if !Affords(req, cut) && user.Some? {
      ShrinkKeepsShapes(req, cut, Below(|cut|), user.value, cut[user.value].content);
      ShapesChain(items, cut, ShrinkMandatory(req, items));
    }
  }

  lemma OpeningKeepsShapes(req: Request, items: seq<Block>)
    ensures SameShapes(items, Opening(req, items).0)
  {
    var summary := FirstWhere(items, 0, IsSummary);
    if summary.Some? {
      var i := summary.value;
      ShrinkKeepsShapes(req, items, Mandatory(items) + {i}, i, items[i].content);
    }
  }

  /******* Pairs *******/

  lemma RelatedIsClosed(items: seq<Block>, i: nat)
    requires Paired(items) && i < |items|
    ensures PairClosed(items, Related(items, i))
  {
    forall c: nat, r: nat | c < |items| && r < |items| && IsPair(items[c], items[r])
      ensures c in Related(items, i) <==> r in Related(items, i)
    {
      OnePartner(items, c, r);
    }
  }

  /** In a paired list the searches for a partner find each other. */
  lemma OnePartner(items: seq<Block>, c: nat, r: nat)
    requires Paired(items) && c < |items| && r < |items| && IsPair(items[c], items[r])
    ensures c < r && Related(items, c) == {c, r} == Related(items, r)
    ensures forall k: nat :: k < |items| && k != c && k != r ==> c !in Related(items, k) && r !in Related(items, k)
  {
    var i :| 0 <= i < r && IsPair(items[i], items[r]);
    assert i == c by {
      if i < c {
        assert SameKey(items[i], items[c]);
      } else if c < i {
        assert SameKey(items[c], items[i]);
      }
    }
    assert forall k :: 0 <= k < |items| && k != c ==> !SameKey(items[k], items[c]) && !SameKey(items[c], items[k]);
    assert forall k :: 0 <= k < |items| && k != r ==> !SameKey(items[k], items[r]) && !SameKey(items[r], items[k]);
  }

  lemma MandatoryIsClosed(items: seq<Block>)
    requires Paired(items)
    ensures PairClosed(items, Mandatory(items))
  {
    var result := LastWhere(items, IsResult);
    if result.Some? {
      RelatedIsClosed(items, result.value);
      assert Mandatory(items) == At(LastWhere(items, IsUser)) + Related(items, result.value);
    }
  }

  lemma {:induction false} GreedyIsClosed(items: seq<Block>, fits: set<nat> -> bool, chosen: set<nat>, n: nat)
    requires n <= |items| && Paired(items) && PairClosed(items, chosen)
    ensures PairClosed(items, Greedy(items, fits, chosen, n))
    decreases n
  {
    if n != 0 {
      RelatedIsClosed(items, n - 1);
      GreedyIsClosed(items, fits, Consider(items, fits, chosen, n - 1), n - 1);
    }
  }

  lemma DictsHaveNoPartner(items: seq<Block>, chosen: set<nat>, i: nat)
    requires i < |items| && items[i].Dict? && PairClosed(items, chosen)
    ensures PairClosed(items, chosen + {i}) && PairClosed(items, chosen + {i} - {i})
  {
  }

  lemma OpeningIsClosed(req: Request, messages: seq<Block>)
    requires Paired(messages)
    ensures var (items, start) := Opening(req, messages);
            Paired(items) && PairClosed(items, start) && SameShapes(messages, items)
  {
    var (items, start) := Opening(req, messages);
    OpeningKeepsShapes(req, messages);
    SameShapesStayPaired(messages, items);
    SameShapesSameMandatory(messages, items);
    MandatoryIsClosed(items);
    var summary := FirstWhere(messages, 0, IsSummary);
    if summary.Some? {
      assert SameShape(messages[summary.value], items[summary.value]);
      DictsHaveNoPartner(items, Mandatory(items), summary.value);
    }
  }

  /** A call is kept if and only if its result is. */
  lemma SelectionIsPairClosed(req: Request, messages: seq<Block>)
    requires Paired(messages)
    ensures var (items, chosen) := Selection(req, messages);
            && Paired(items) && SameShapes(messages, items) && PairClosed(items, chosen)
  {
    var (items, start) := Opening(req, messages);
    OpeningIsClosed(req, messages);
    GreedyIsClosed(items, FitsIn(req, items), start, |items|);
  }

  /******* The selected list *******/

  lemma {:induction false} SelectMembers(items: seq<Block>, chosen: set<nat>)
    ensures forall k: nat :: k < |items| && k in chosen ==> items[k] in Select(items, chosen)
    ensures forall b :: b in Select(items, chosen) ==> exists k: nat :: k < |items| && k in chosen && items[k] == b
  {
    if items != [] {
      var last := |items| - 1;
      SelectMembers(items[..last], chosen);
      forall b | b in Select(items, chosen) ensures exists k: nat :: k < |items| && k in chosen && items[k] == b {
        if b in Select(items[..last], chosen) {
          var k: nat :| k < last && k in chosen && items[..last][k] == b;
          assert items[k] == b;
        } else {
          assert last in chosen && items[last] == b;
        }
      }
    }
  }

  lemma {:induction false} SelectStaysPaired(items: seq<Block>, chosen: set<nat>)
    requires Paired(items) && PairClosed(items, chosen)
    ensures Paired(Select(items, chosen))
  {
    if items != [] {
      var last := |items| - 1;
      var front, kept := items[..last], Select(items[..last], chosen);
      assert Paired(front) by {
        PrefixStaysPaired(items, last);
      }
      SelectStaysPaired(front, chosen);
      SelectMembers(front, chosen);
      if last in chosen {
        forall b | b in kept ensures !SameKey(b, items[last]) {
          var k: nat :| k < last && k in chosen && front[k] == b;
          assert !SameKey(items[k], items[last]);
        }
        if items[last].ToolResult? {
          var c :| 0 <= c < last && IsPair(items[c], items[last]);
          assert front[c] in kept;
        }
        AppendStaysPaired(kept, items[last]);
      } else {
        assert Select(items, chosen) == kept;
      }
    }
  }

  lemma PrefixStaysPaired(items: seq<Block>, n: nat)
    requires n <= |items| && Paired(items)
    ensures Paired(items[..n])
  {
    var front := items[..n];
    forall i, j | 0 <= i < j < |front| ensures !SameKey(front[i], front[j]) {
      assert !SameKey(items[i], items[j]);
    }
    forall j | 0 <= j < |front| && front[j].ToolResult? ensures exists i :: 0 <= i < j && IsPair(front[i], front[j]) {
      var i :| 0 <= i < j && IsPair(items[i], items[j]);
      assert IsPair(front[i], front[j]);
    }
  }

  lemma AnswersStayInside(items: seq<Block>, chosen: set<nat>)
    requires PairClosed(items, chosen) && CallIds(items) <= ResultIds(items)
    ensures CallIds(Select(items, chosen)) <= ResultIds(Select(items, chosen))
    ensures CallIds(Select(items, chosen)) <= CallIds(items) && ResultIds(Select(items, chosen)) <= ResultIds(items)
  {
    var kept := Select(items, chosen);
    SelectMembers(items, chosen);
    forall id | id in CallIds(kept) ensures id in ResultIds(kept) && id in CallIds(items) {
      var b :| b in kept && b.ToolUse? && b.call.id == id;
      var c: nat :| c < |items| && c in chosen && items[c] == b;
      assert id in CallIds(items);
      var result :| result in items && result.ToolResult? && result.callId == id;
      var r: nat :| r < |items| && items[r] == result;
      assert IsPair(items[c], items[r]);
      assert items[r] in kept;
    }
    forall id | id in ResultIds(kept) ensures id in ResultIds(items) {
      var b :| b in kept && b.ToolResult? && b.callId == id;
      var k: nat :| k < |items| && k in chosen && items[k] == b;
    }
  }

  /** No call is left unanswered, none is invented, and the list stays paired. */
  predicate KeepsPairs(messages: seq<Block>, kept: seq<Block>) {
    Unresolved(kept) == [] && ResultIds(kept) <= ResultIds(messages) && CallIds(kept) <= CallIds(messages) && Paired(kept)
  }

  lemma SelectionTrims(req: Request, messages: seq<Block>)
    requires Paired(messages) && Unresolved(messages) == []
    ensures var (items, chosen) := Selection(req, Normalized(messages, req.resultLimit));
            KeepsPairs(messages, Select(items, chosen))
  {
    var normalized := Normalized(messages, req.resultLimit);
    var (items, chosen) := Selection(req, normalized);
    NormalizedKeepsShapes(messages, req.resultLimit);
    SameShapesStayPaired(messages, normalized);
    SelectionIsPairClosed(req, normalized);
    SameShapesSameIds(messages, normalized);
    SameShapesSameIds(normalized, items);
    ResolvedMeansAnswered(messages);
    AnswersStayInside(items, chosen);
    SelectStaysPaired(items, chosen);
    ResolvedMeansAnswered(Select(items, chosen));
  }

  lemma ShorteningKeepsPairs(messages: seq<Block>, kept: seq<Block>, shortened: seq<Block>)
    requires KeepsPairs(messages, kept) && SameShapes(kept, shortened)
    ensures KeepsPairs(messages, shortened)
  {
    SameShapesSameIds(kept, shortened);
    SameShapesStayPaired(kept, shortened);
    ResolvedMeansAnswered(kept);
    ResolvedMeansAnswered(shortened);
  }

  lemma FitKeepsPairs(req: Request, messages: seq<Block>)
    requires Paired(messages) && Unresolved(messages) == []
    ensures var r := Fit(req, messages); r.Ok? ==> KeepsPairs(messages, r.value)
  {
    var (items, chosen) := Selection(req, Normalized(messages, req.resultLimit));
    var fitted := Select(items, chosen);
    SelectionTrims(req, messages);
    ShrinkMandatoryKeepsShapes(req, fitted);
    ShorteningKeepsPairs(messages, fitted, ShrinkMandatory(req, fitted));
  }

  /** Indices in ascending order, all of them chosen, and no chosen one left out. */
  predicate Lists(index: seq<nat>, chosen: set<nat>, n: nat) {
    && (forall i, j :: 0 <= i < j < |index| ==> index[i] < index[j])
    && (forall k :: 0 <= k < |index| ==> index[k] < n && index[k] in chosen)
    && (forall c :: c in chosen && c < n ==> c in index)
  }

  /** A selection holds exactly the chosen items, in their order. */
  lemma {:induction false} SelectKeepsOrder(items: seq<Block>, chosen: set<nat>) returns (index: seq<nat>)
    ensures Lists(index, chosen, |items|) && |index| == |Select(items, chosen)|
    ensures forall k :: 0 <= k < |index| ==> Select(items, chosen)[k] == items[index[k]]
  {
    index := [];
    if items != [] {
      var last := |items| - 1;
      index := SelectKeepsOrder(items[..last], chosen);
      if last in chosen {
        index := index + [last];
      }
    }
  }

  /** What is returned are the selected messages in their order, each with its kind and ids. */
  lemma KeptInOrder(req: Request, messages: seq<Block>) returns (index: seq<nat>)
    requires Fit(req, messages).Ok?
    ensures var kept := Fit(req, messages).value;
            && Lists(index, Selection(req, Normalized(messages, req.resultLimit)).1, |messages|)
            && |index| == |kept|
            && forall k :: 0 <= k < |kept| ==> SameShape(messages[index[k]], kept[k])
  {
    var normalized := Normalized(messages, req.resultLimit);
    var (items, chosen) := Selection(req, normalized);
    NormalizedKeepsShapes(messages, req.resultLimit);
    OpeningKeepsShapes(req, normalized);
    ShapesChain(messages, normalized, items);
    index := SelectKeepsOrder(items, chosen);
    var fitted, kept := Select(items, chosen), Fit(req, messages).value;
    ShrinkMandatoryKeepsShapes(req, fitted);
    assert SameShapes(fitted, kept);
    forall k | 0 <= k < |index| ensures SameShape(messages[index[k]], kept[k]) {
      ShapeChain(messages[index[k]], items[index[k]], kept[k]);
    }
  }
}
