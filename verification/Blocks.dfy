/** Message blocks, and the tool calls of a message list that still wait for a result. */
module Blocks {
  import opened Wrappers

  type CallId = string

  /** A tool call; `input` is the canonical JSON text of the arguments. */
  datatype Call = Call(id: CallId, name: string, input: string)

  datatype Block =
    | Text(text: string)
    | Thinking(thinking: string, signature: string)
    | ToolUse(call: Call)
    | ToolResult(callId: CallId, content: string)
    | Dict(role: string, content: string, summaryVersion: Option<nat>)

  /** The tool calls of a message list, in order. */
  function CallsIn(blocks: seq<Block>): seq<Call> {
    if blocks == [] then []
    else (if blocks[0].ToolUse? then [blocks[0].call] else []) + CallsIn(blocks[1..])
  }

  function ResultIds(blocks: seq<Block>): set<CallId> {
    set b | b in blocks && b.ToolResult? :: b.callId
  }

  function Pending(calls: seq<Call>, answered: set<CallId>): seq<Call> {
    if calls == [] then []
    else (if calls[0].id in answered then [] else [calls[0]]) + Pending(calls[1..], answered)
  }

  /** The calls without a result: the cursor of a partly executed batch. */
  function Unresolved(messages: seq<Block>): seq<Call> {
    Pending(CallsIn(messages), ResultIds(messages))
  }

  predicate DistinctIds(calls: seq<Call>) {
    forall i, j :: 0 <= i < j < |calls| ==> calls[i].id != calls[j].id
  }

  /** What a model response may contain. */
  predicate IsResponse(blocks: seq<Block>) {
    forall b :: b in blocks ==> b.Text? || b.Thinking? || b.ToolUse?
  }

  predicate OnlyDicts(blocks: seq<Block>) {
    forall b :: b in blocks ==> b.Dict?
  }

  function CallIds(blocks: seq<Block>): set<CallId> {
    set b | b in blocks && b.ToolUse? :: b.call.id
  }

  predicate IsPair(call: Block, result: Block) {
    call.ToolUse? && result.ToolResult? && call.call.id == result.callId
  }

  predicate SameKey(a: Block, b: Block) {
    (a.ToolUse? && b.ToolUse? && a.call.id == b.call.id)
    || (a.ToolResult? && b.ToolResult? && a.callId == b.callId)
  }

  /** No call and no result appears twice, and every result follows its call. */
  predicate Paired(blocks: seq<Block>) {
    && (forall i, j :: 0 <= i < j < |blocks| ==> !SameKey(blocks[i], blocks[j]))
    && (forall j :: 0 <= j < |blocks| && blocks[j].ToolResult? ==>
          exists i :: 0 <= i < j && IsPair(blocks[i], blocks[j]))
  }

  const TRUNCATED := "\n...[truncated by context budget]"
  const ELLIPSIS := "\U{2026}"

  /** A prefix with one of the two marks of a cut behind it. */
  predicate IsCutAt(original: string, cut: string, n: nat) {
    n <= |original| && (cut == original[..n] + TRUNCATED || cut == original[..n] + ELLIPSIS)
  }

  predicate IsCut(original: string, cut: string) {
    exists n: nat :: n <= |original| && IsCutAt(original, cut, n)
  }

  /** Trimming cuts a text at most twice. */
  predicate Shortens(original: string, text: string) {
    || text == original || IsCut(original, text)
    || exists n: nat :: n <= |original| && (IsCut(original[..n] + TRUNCATED, text) || IsCut(original[..n] + ELLIPSIS, text))
  }

  /** The result of the same call, in full or shortened. */
  predicate Resembles(original: Block, result: Block) {
    original.ToolResult? && result.ToolResult? && original.callId == result.callId
    && Shortens(original.content, result.content)
  }

  predicate KeepsResults(messages: seq<Block>, kept: seq<Block>) {
    forall b :: b in kept && b.ToolResult? ==> exists m :: m in messages && Resembles(m, b)
  }

  /** What trimming a paired list without pending calls may do: drop and shorten blocks, but leave no call unanswered,
      invent no call or result, and keep the list paired. */
  predicate Trims(messages: seq<Block>, kept: seq<Block>) {
    && Unresolved(kept) == [] && ResultIds(kept) <= ResultIds(messages) && CallIds(kept) <= CallIds(messages)
    && Paired(kept) && KeepsResults(messages, kept)
  }

  lemma {:induction false} CallsInAppend(a: seq<Block>, b: seq<Block>)
    ensures CallsIn(a + b) == CallsIn(a) + CallsIn(b)
  {
    if a == [] {
      assert a + b == b;
    } else {
      assert (a + b)[1..] == a[1..] + b;
      CallsInAppend(a[1..], b);
    }
  }

  lemma {:induction false} PendingAppend(a: seq<Call>, b: seq<Call>, answered: set<CallId>)
    ensures Pending(a + b, answered) == Pending(a, answered) + Pending(b, answered)
  {
    if a == [] {
      assert a + b == b;
    } else {
      assert (a + b)[1..] == a[1..] + b;
      PendingAppend(a[1..], b, answered);
    }
  }

  /** Answering more calls filters the pending list further. */
  lemma {:induction false} PendingTwice(calls: seq<Call>, answered: set<CallId>, more: set<CallId>)
    ensures Pending(calls, answered + more) == Pending(Pending(calls, answered), more)
  {
    if calls != [] {
      PendingTwice(calls[1..], answered, more);
      var head := if calls[0].id in answered then [] else [calls[0]];
      PendingAppend(head, Pending(calls[1..], answered), more);
    }
  }

  lemma {:induction false} PendingNothingAnswered(calls: seq<Call>, answered: set<CallId>)
    requires forall c :: c in calls ==> c.id !in answered
    ensures Pending(calls, answered) == calls
  {
    if calls != [] {
      PendingNothingAnswered(calls[1..], answered);
    }
  }

  lemma {:induction false} OnlyDictsHaveNoCalls(blocks: seq<Block>)
    requires OnlyDicts(blocks)
    ensures CallsIn(blocks) == [] && ResultIds(blocks) == {} && Unresolved(blocks) == []
    ensures CallIds(blocks) == {} && Paired(blocks)
  {
    if blocks != [] {
      assert blocks[0] in blocks;
      OnlyDictsHaveNoCalls(blocks[1..]);
    }
    assert ResultIds(blocks) == {} && CallIds(blocks) == {};
    assert forall k :: 0 <= k < |blocks| ==> blocks[k] in blocks;
  }

  lemma OnlyDictsTrimThemselves(blocks: seq<Block>)
    requires OnlyDicts(blocks)
    ensures Trims(blocks, blocks)
  {
    OnlyDictsHaveNoCalls(blocks);
  }

  lemma CallIdsAppend(a: seq<Block>, b: seq<Block>)
    ensures CallIds(a + b) == CallIds(a) + CallIds(b)
  {
  }

  lemma ResultIdsAppend(a: seq<Block>, b: seq<Block>)
    ensures ResultIds(a + b) == ResultIds(a) + ResultIds(b)
  {
  }

  /** A result for the first pending call moves the cursor by exactly one. */
  lemma AnswerHead(messages: seq<Block>, todo: seq<Call>, content: string)
    requires Unresolved(messages) == todo && todo != [] && DistinctIds(todo)
    ensures Unresolved(messages + [ToolResult(todo[0].id, content)]) == todo[1..]
  {
    var result := [ToolResult(todo[0].id, content)];
    CallsInAppend(messages, result);
    assert CallsIn(result) == [] by { assert result[1..] == []; }
    ResultIdsAppend(messages, result);
    assert ResultIds(result) == {todo[0].id};
    PendingTwice(CallsIn(messages), ResultIds(messages), {todo[0].id});
    PendingNothingAnswered(todo[1..], {todo[0].id});
    assert CallsIn(messages) + [] == CallsIn(messages);
  }

  /** A response whose call ids were never answered makes exactly its own calls pending. */
  lemma ExtendWithResponse(messages: seq<Block>, response: seq<Block>)
    requires Unresolved(messages) == [] && IsResponse(response)
    requires forall c :: c in CallsIn(response) ==> c.id !in ResultIds(messages)
    ensures Unresolved(messages + response) == CallsIn(response)
    ensures ResultIds(messages + response) == ResultIds(messages)
  {
    CallsInAppend(messages, response);
    ResultIdsAppend(messages, response);
    assert ResultIds(response) == {};
    assert ResultIds(messages) + {} == ResultIds(messages);
    PendingAppend(CallsIn(messages), CallsIn(response), ResultIds(messages));
    PendingNothingAnswered(CallsIn(response), ResultIds(messages));
  }

  lemma {:induction false} CallsInMembers(blocks: seq<Block>)
    ensures forall b :: b in blocks && b.ToolUse? ==> b.call in CallsIn(blocks)
    ensures forall c :: c in CallsIn(blocks) ==> ToolUse(c) in blocks
  {
    if blocks != [] {
      CallsInMembers(blocks[1..]);
    }
  }

  lemma {:induction false} PendingMembers(calls: seq<Call>, answered: set<CallId>)
    ensures forall c :: c in Pending(calls, answered) <==> c in calls && c.id !in answered
  {
    if calls != [] {
      PendingMembers(calls[1..], answered);
    }
  }

  lemma ResolvedMeansAnswered(blocks: seq<Block>)
    ensures Unresolved(blocks) == [] <==> CallIds(blocks) <= ResultIds(blocks)
  {
    CallsInMembers(blocks);
    PendingMembers(CallsIn(blocks), ResultIds(blocks));
    if Unresolved(blocks) != [] {
      var c := Unresolved(blocks)[0];
      assert c in Unresolved(blocks) && ToolUse(c) in blocks;
      assert c.id in CallIds(blocks);
    }
  }

  lemma AppendStaysPaired(blocks: seq<Block>, last: Block)
    requires Paired(blocks) && forall b :: b in blocks ==> !SameKey(b, last)
    requires last.ToolResult? ==> exists b :: b in blocks && IsPair(b, last)
    ensures Paired(blocks + [last])
  {
    var all := blocks + [last];
    forall i, j | 0 <= i < j < |all| ensures !SameKey(all[i], all[j]) {
      assert all[i] == blocks[i];
      if j < |blocks| {
        assert !SameKey(blocks[i], blocks[j]);
      }
    }
    forall j | 0 <= j < |all| && all[j].ToolResult? ensures exists i :: 0 <= i < j && IsPair(all[i], all[j]) {
      if j < |blocks| {
        var i :| 0 <= i < j && IsPair(blocks[i], blocks[j]);
        assert IsPair(all[i], all[j]);
      } else {
        var b :| b in blocks && IsPair(b, last);
        var i :| 0 <= i < |blocks| && blocks[i] == b;
        assert IsPair(all[i], all[j]);
      }
    }
  }

  /** Calls with ids never used before keep a list paired. */
  lemma {:induction false} ResponseStaysPaired(messages: seq<Block>, response: seq<Block>)
    requires Paired(messages) && IsResponse(response) && DistinctIds(CallsIn(response))
    requires forall c :: c in CallsIn(response) ==> c.id !in CallIds(messages)
    ensures Paired(messages + response)
  {
    if response == [] {
      assert messages + response == messages;
    } else {
      var front, last := response[..|response| - 1], response[|response| - 1];
      assert response == front + [last];
      CallsInAppend(front, [last]);
      assert forall c :: c in CallsIn(front) ==> c in CallsIn(response);
      assert DistinctIds(CallsIn(front)) by {
        assert forall k :: 0 <= k < |CallsIn(front)| ==> CallsIn(response)[k] == CallsIn(front)[k];
      }
      ResponseStaysPaired(messages, front);
      NewCallIsNew(messages, front, last);
      AppendStaysPaired(messages + front, last);
      assert messages + front + [last] == messages + response;
    }
  }

  lemma NewCallIsNew(messages: seq<Block>, front: seq<Block>, last: Block)
    requires last.Text? || last.Thinking? || last.ToolUse?
    requires DistinctIds(CallsIn(front + [last]))
    requires forall c :: c in CallsIn(front + [last]) ==> c.id !in CallIds(messages)
    ensures forall b :: b in messages + front ==> !SameKey(b, last)
  {
    CallsInMembers(front + [last]);
    CallsInMembers(front);
    CallsInAppend(front, [last]);
    if last.ToolUse? {
      var calls := CallsIn(front);
      assert CallsIn([last]) == [last.call] by { assert [last][1..] == []; }
      forall b | b in messages + front ensures !SameKey(b, last) {
        if b in front && b.ToolUse? {
          var k :| 0 <= k < |calls| && calls[k] == b.call;
          assert CallsIn(front + [last])[k] == b.call && CallsIn(front + [last])[|calls|] == last.call;
        } else if b.ToolUse? {
          assert last.call in CallsIn(front + [last]) && b.call.id in CallIds(messages);
        }
      }
    }
  }

  /** So does a result for a call that waits for one. */
  lemma AnswerStaysPaired(messages: seq<Block>, call: Call, content: string)
    requires Paired(messages) && call in Unresolved(messages)
    ensures Paired(messages + [ToolResult(call.id, content)])
  {
    CallsInMembers(messages);
    PendingMembers(CallsIn(messages), ResultIds(messages));
    var result := ToolResult(call.id, content);
    assert IsPair(ToolUse(call), result);
    forall b | b in messages ensures !SameKey(b, result) {
      if b.ToolResult? {
        assert b.callId in ResultIds(messages);
      }
    }
    AppendStaysPaired(messages, result);
  }
}
