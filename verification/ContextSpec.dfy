/**
 Trimming a message list to the input budget of a model. `Fit` is the specification, a composition of small
 functions; `ContextWindow.Fit` computes it with the loops of the source. What trimming promises is proved about the
 specification.
 */
module ContextSpec {
  import opened Wrappers
  import opened Blocks
  import opened Utf8
  import opened Tokens

  /** What is fixed during one call: the system prompt, the JSON text of the tool schemas, the two limits. */
  datatype Request = Request(system: string, tools: string, budget: int, resultLimit: int)

  datatype Overflow = FixedPart | Interaction

  const TRUNCATED_INPUT := "{\"_context_truncated\":true}"

  /******* Byte-exact truncation *******/

  function MaxBytes(tokens: int): nat {
    Max(4, 4 * tokens)
  }

  function Suffix(tokens: int): string {
    if Size(TRUNCATED) > MaxBytes(tokens) then ELLIPSIS else TRUNCATED
  }

  function TruncateText(value: string, tokens: int): string {
    CutTo(value, Suffix(tokens), MaxBytes(tokens))
  }

  /** As many bytes of `value` as fit beside the suffix, decoded again. */
  function CutTo(value: string, suffix: string, bytes: nat): string {
    var room := Max(0, bytes - Size(suffix));
    DecodeIgnoring(if room < Size(value) then Encode(value)[..room] else Encode(value)) + suffix
  }

  /******* Finding items *******/

  /** The index of the last item with property `p`. */
  function LastWhere(items: seq<Block>, p: Block -> bool): (found: Option<nat>)
    ensures found.None? ==> forall k :: 0 <= k < |items| ==> !p(items[k])
    ensures found.Some? ==> found.value < |items| && p(items[found.value])
    ensures found.Some? ==> forall k :: found.value < k < |items| ==> !p(items[k])
  {
    if items == [] then None
    else if p(items[|items| - 1]) then Some(|items| - 1)
    else LastWhere(items[..|items| - 1], p)
  }

  /** The index of the first item with property `p` at or after `start`. */
  function FirstWhere(items: seq<Block>, start: nat, p: Block -> bool): (found: Option<nat>)
    requires start <= |items|
    ensures found.None? ==> forall k :: start <= k < |items| ==> !p(items[k])
    ensures found.Some? ==> start <= found.value < |items| && p(items[found.value])
    ensures found.Some? ==> forall k :: start <= k < found.value ==> !p(items[k])
    decreases |items| - start
  {
    if start == |items| then None
    else if p(items[start]) then Some(start)
    else FirstWhere(items, start + 1, p)
  }

  predicate IsUser(item: Block) {
    item.Dict? && item.role == "user"
  }

  predicate IsResult(item: Block) {
    item.ToolResult?
  }

  /** A summary has a version, and version 0 does not count as one. */
  predicate IsSummary(item: Block) {
    item.Dict? && item.summaryVersion.Some? && item.summaryVersion.value > 0
  }

  function CallTo(id: CallId): Block -> bool {
    (item: Block) => item.ToolUse? && item.call.id == id
  }

  function ResultOf(id: CallId): Block -> bool {
    (item: Block) => item.ToolResult? && item.callId == id
  }

  function At(found: Option<nat>): set<nat> {
    if found.Some? then {found.value} else {}
  }

  /** The last user message, and the last tool result with its call. */
  function Mandatory(items: seq<Block>): set<nat> {
    var result := LastWhere(items, IsResult);
    At(LastWhere(items, IsUser)) + At(result)
    + (if result.None? then {} else At(LastWhere(items[..result.value], CallTo(items[result.value].callId))))
  }

  /** An item with its partner: a result with its call, a call with its result. */
  function Related(items: seq<Block>, i: nat): set<nat>
    requires i < |items|
  {
    {i} + match items[i]
          case ToolResult(id, _) => At(LastWhere(items[..i], CallTo(id)))
          case ToolUse(call) => At(FirstWhere(items, i + 1, ResultOf(call.id)))
          case _ => {}
  }

  /******* Selection *******/

  /** The items with chosen indices, in order. */
  function Select(items: seq<Block>, chosen: set<nat>): seq<Block> {
    if items == [] then []
    else
      var last := |items| - 1;
      Select(items[..last], chosen) + if last in chosen then [items[last]] else []
  }

  predicate Affords(req: Request, items: seq<Block>) {
    CountRequest(req.system, req.tools, items) <= req.budget
  }

  predicate Fits(req: Request, items: seq<Block>, chosen: set<nat>) {
    Affords(req, Select(items, chosen))
  }

  function TruncateResult(item: Block, limit: int): Block {
    if item.ToolResult? && CountText(item.content) > limit
    then ToolResult(item.callId, TruncateText(item.content, limit)) else item
  }

  function Normalized(messages: seq<Block>, limit: int): (items: seq<Block>)
    ensures |items| == |messages|
    ensures forall k :: 0 <= k < |items| ==> items[k] == TruncateResult(messages[k], limit)
  {
    if messages == [] then [] else [TruncateResult(messages[0], limit)] + Normalized(messages[1..], limit)
  }

  /** Halves the content of item `i` until the selection fits or nothing is left of it. */
  function ShrinkContent(req: Request, items: seq<Block>, chosen: set<nat>, i: nat, content: string): (r: seq<Block>)
    requires i < |items| && items[i].Dict?
    ensures |r| == |items| && forall k :: 0 <= k < |r| && k != i ==> r[k] == items[k]
    decreases |content|
  {
    if content == "" || Fits(req, items, chosen) then items
    else
      var half := content[..|content| / 2];
      ShrinkContent(req, items[i := Dict(items[i].role, half + TRUNCATED, items[i].summaryVersion)], chosen, i, half)
  }

  /** The mandatory items, with the summary if it fits in full or shrunk. */
  function Opening(req: Request, items: seq<Block>): (seq<Block>, set<nat>) {
    var summary := FirstWhere(items, 0, IsSummary);
    if summary.None? then (items, Mandatory(items))
    else
      var i := summary.value;
      var start := Mandatory(items) + {i};
      var shrunk := ShrinkContent(req, items, start, i, items[i].content);
      (shrunk, if Fits(req, shrunk, start) then start else start - {i})
  }

  function FitsIn(req: Request, items: seq<Block>): set<nat> -> bool {
    (chosen: set<nat>) => Fits(req, items, chosen)
  }

  /** From the last of the first `n` items to the first: each is added, with its partner, if that fits. */
  function Greedy(items: seq<Block>, fits: set<nat> -> bool, chosen: set<nat>, n: nat): set<nat>
    requires n <= |items|
    decreases n
  {
    if n == 0 then chosen else Greedy(items, fits, Consider(items, fits, chosen, n - 1), n - 1)
  }

  function Consider(items: seq<Block>, fits: set<nat> -> bool, chosen: set<nat>, i: nat): set<nat>
    requires i < |items|
  {
    if i !in chosen && fits(chosen + Related(items, i)) then chosen + Related(items, i) else chosen
  }

  /** The items after summary shrinking, and the indices that are kept. */
  function Selection(req: Request, items: seq<Block>): (seq<Block>, set<nat>) {
    var (shrunk, start) := Opening(req, items);
    (shrunk, Greedy(shrunk, FitsIn(req, shrunk), start, |shrunk|))
  }

  /******* Last resort *******/

  function Cut(item: Block, tokens: int): Block {
    match item
    case ToolResult(id, content) => ToolResult(id, TruncateText(content, tokens))
    case ToolUse(call) => ToolUse(call.(input := TRUNCATED_INPUT))
    case _ => item
  }

  function CutAll(items: seq<Block>, tokens: int): (r: seq<Block>)
    ensures |r| == |items| && forall k :: 0 <= k < |r| ==> r[k] == Cut(items[k], tokens)
  {
    if items == [] then [] else [Cut(items[0], tokens)] + CutAll(items[1..], tokens)
  }

  function Below(n: nat): (r: set<nat>)
    ensures forall k: int :: k in r <==> 0 <= k < n
  {
    if n == 0 then {} else Below(n - 1) + {n - 1}
  }

  lemma {:induction false} SelectBelow(items: seq<Block>, n: nat)
    requires |items| <= n
    ensures Select(items, Below(n)) == items
  {
    if items != [] {
      SelectBelow(items[..|items| - 1], n);
    }
  }

  function ShrinkMandatory(req: Request, items: seq<Block>): seq<Block> {
    var cut := CutAll(items, 1);
    var user := LastWhere(cut, IsUser);
    if Affords(req, cut) || user.None? then cut
    else ShrinkContent(req, cut, Below(|cut|), user.value, cut[user.value].content)
  }

  function Fit(req: Request, messages: seq<Block>): Result<seq<Block>, Overflow> {
    if CountText(req.system) + CountText(req.tools) >= req.budget then Err(FixedPart)
    else
      var (items, chosen) := Selection(req, Normalized(messages, req.resultLimit));
      var fitted := Select(items, chosen);
      var kept := if Affords(req, fitted) then fitted else ShrinkMandatory(req, fitted);
      if Affords(req, kept) then Ok(kept) else Err(Interaction)
  }
}
