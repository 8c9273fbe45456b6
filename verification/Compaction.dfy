/**
 Incremental compaction: the summary of a session grows by the text of older messages. A compaction reads the
 session and saves the summary in two transactions, and any number of them may interleave.
 */
module Compaction {
  import opened Wrappers
  import opened Blocks
  import opened Tokens
  import opened StoreSpec
  import opened StoreHistory
  import opened StoreInvariants

  /******* Text *******/

  function Line(m: Message): string {
    m.role + ": " + m.content
  }

  function Lines(messages: seq<Message>): seq<string> {
    if messages == [] then [] else Lines(messages[..|messages| - 1]) + [Line(messages[|messages| - 1])]
  }

  function Join(lines: seq<string>): string {
    if lines == [] then ""
    else if |lines| == 1 then lines[0]
    else Join(lines[..|lines| - 1]) + "\n" + lines[|lines| - 1]
  }

  function NonEmpty(lines: seq<string>): seq<string> {
    if lines == [] then []
    else NonEmpty(lines[..|lines| - 1]) + if lines[|lines| - 1] == "" then [] else [lines[|lines| - 1]]
  }

  function ExtractiveSummary(previous: Option<string>, messages: seq<Message>): string {
    var head := if previous.Some? && previous.value != "" then [previous.value] else [];
    Join(NonEmpty(head + Lines(messages)))
  }

  /******* Messages of a session by id *******/

  function Outside(session: SessionKey, low: nat, high: nat): Message -> bool {
    (m: Message) => m.session != session || m.id <= low || m.id > high
  }

  /** The messages of a session with ids above `low` and up to `high`. */
  function Between(messages: seq<Message>, session: SessionKey, low: nat, high: nat): seq<Message> {
    Keep(messages, Outside(session, low, high))
  }

  function NotAfter(session: SessionKey, low: nat): Message -> bool {
    (m: Message) => m.session != session || m.id <= low
  }

  function MessagesAfter(messages: seq<Message>, session: SessionKey, low: nat): seq<Message> {
    Keep(messages, NotAfter(session, low))
  }

  function OfRun(run: RunId): Message -> bool {
    (m: Message) => m.run == run
  }

  /******* Compaction *******/

  datatype Plan = Plan(session: SessionKey, content: string, through: nat)

  function Through(summary: Option<Summary>): nat {
    if summary.Some? then summary.value.through else 0
  }

  /** Messages without those of the current run. */
  function WithoutRun(messages: seq<Message>, current: Option<RunId>): seq<Message> {
    if current.Some? then Keep(messages, OfRun(current.value)) else messages
  }

  /** The messages a compaction folds into the summary it found: those of other runs, except the most recent ones. */
  function OldMessages(
    previous: Option<Summary>, messages: seq<Message>, session: SessionKey, current: Option<RunId>, recentLimit: int)
    : seq<Message>
  {
    var others := WithoutRun(MessagesAfter(messages, session, Through(previous)), current);
    others[..Max(0, |others| - Max(0, recentLimit))]
  }

  /** What a compaction decides from the summary and the messages it read. */
  function PlanFrom(
    previous: Option<Summary>, messages: seq<Message>, session: SessionKey, current: Option<RunId>, recentLimit: int)
    : Option<Plan>
  {
    var folded := OldMessages(previous, messages, session, current, recentLimit);
    if folded == [] then None
    else
      var text := ExtractiveSummary(if previous.Some? then Some(previous.value.content) else None, folded);
      Some(Plan(session, text, folded[|folded| - 1].id))
  }

  /** The plan of a compaction whose two reads are not disturbed. */
  function PlanSummary(db: Db, session: SessionKey, current: Option<RunId>, recentLimit: int): Option<Plan> {
    PlanFrom(LatestSummary(db.summaries, session), db.messages, session, current, recentLimit)
  }

  function SavePlan(db: Db, plan: Plan): (Db, bool) {
    SaveSummary(db, plan.session, plan.content, plan.through)
  }

  /******* Joining lines *******/

  lemma {:induction false} JoinOfAppend(a: seq<string>, b: seq<string>)
    requires a != [] && b != []
    ensures Join(a + b) == Join(a) + "\n" + Join(b)
  {
    var front := b[..|b| - 1];
    assert (a + b)[..|a + b| - 1] == a + front;
    if front == [] {
      assert a + front == a;
    } else {
      JoinOfAppend(a, front);
    }
  }

  lemma {:induction false} LinesOfAppend(a: seq<Message>, b: seq<Message>)
    ensures Lines(a + b) == Lines(a) + Lines(b)
  {
    if b == [] {
      assert a + b == a;
    } else {
      assert (a + b)[..|a + b| - 1] == a + b[..|b| - 1];
      LinesOfAppend(a, b[..|b| - 1]);
    }
  }

  lemma {:induction false} LinesAreLong(messages: seq<Message>)
    ensures |Lines(messages)| == |messages|
    ensures forall k :: 0 <= k < |messages| ==> Lines(messages)[k] == messages[k].role + ": " + messages[k].content
    ensures forall k :: 0 <= k < |messages| ==> |Lines(messages)[k]| >= 2
  {
    if messages != [] {
      LinesAreLong(messages[..|messages| - 1]);
    }
  }

  lemma {:induction false} NothingEmpty(lines: seq<string>)
    requires forall k :: 0 <= k < |lines| ==> |lines[k]| > 0
    ensures NonEmpty(lines) == lines
  {
    if lines != [] {
      NothingEmpty(lines[..|lines| - 1]);
    }
  }

  lemma JoinIsLong(lines: seq<string>)
    requires lines != [] && |lines[0]| > 0
    ensures Join(lines) != ""
  {
    if |lines| > 1 {
      assert Join(lines) == Join(lines[..|lines| - 1]) + "\n" + lines[|lines| - 1];
    }
  }

  lemma FirstSummary(more: seq<Message>)
    ensures ExtractiveSummary(None, more) == Join(Lines(more))
  {
    LinesAreLong(more);
    assert [] + Lines(more) == Lines(more);
    NothingEmpty(Lines(more));
  }

  lemma NextSummary(covered: seq<Message>, more: seq<Message>)
    requires covered != [] && more != []
    ensures ExtractiveSummary(Some(Join(Lines(covered))), more) == Join(Lines(covered) + Lines(more))
  {
    var old', new' := Lines(covered), Lines(more);
    LinesAreLong(covered);
    LinesAreLong(more);
    JoinIsLong(old');
    NothingEmpty([Join(old')] + new');
    JoinOfAppend([Join(old')], new');
    JoinOfAppend(old', new');
  }

  /** Folding more messages into the text of some gives the text of all. */
  lemma SummaryOfSummary(covered: seq<Message>, more: seq<Message>)
    requires more != []
    ensures ExtractiveSummary(if covered == [] then None else Some(Join(Lines(covered))), more)
              == Join(Lines(covered + more))
  {
    LinesOfAppend(covered, more);
    if covered == [] {
      FirstSummary(more);
      assert covered + more == more;
    } else {
      NextSummary(covered, more);
    }
  }

  /******* Message lists in id order *******/

  ghost predicate Ascending(messages: seq<Message>) {
    forall i, j :: 0 <= i < j < |messages| ==> messages[i].id < messages[j].id
  }

  lemma KeepAscends(messages: seq<Message>, drop: Message -> bool)
    requires Ascending(messages)
    ensures Ascending(Keep(messages, drop))
  {
    assert forall i, j :: 0 <= i < j < |messages| ==> IdBelow(messages[i], messages[j]);
    KeepIsOrdered(messages, drop, IdBelow);
    var kept := Keep(messages, drop);
    forall i, j | 0 <= i < j < |kept| ensures kept[i].id < kept[j].id {
      assert IdBelow(kept[i], kept[j]);
    }
  }

  /** Two lists in id order with the same messages are the same list. */
  lemma {:induction false} SameMessagesSameList(a: seq<Message>, b: seq<Message>)
    requires Ascending(a) && Ascending(b) && forall m :: m in a <==> m in b
    ensures a == b
  {
    assert |a| > 0 ==> a[0] in a;
    assert |b| > 0 ==> b[0] in b;
    if a != [] && b != [] {
      var lastA, lastB := a[|a| - 1], b[|b| - 1];
      assert lastA in a && lastB in b;
      Highest(a, lastB);
      Highest(b, lastA);
      var frontA, frontB := a[..|a| - 1], b[..|b| - 1];
      forall m ensures m in frontA <==> m in frontB {
        FrontMembers(a, m);
        FrontMembers(b, m);
      }
      SameMessagesSameList(frontA, frontB);
    }
  }

  lemma Highest(a: seq<Message>, m: Message)
    requires Ascending(a) && m in a
    ensures m.id < a[|a| - 1].id || m == a[|a| - 1]
  {
  }

  lemma FrontMembers(a: seq<Message>, m: Message)
    requires Ascending(a) && a != []
    ensures m in a[..|a| - 1] <==> m in a && m != a[|a| - 1]
  {
    if m in a[..|a| - 1] {
      var k :| 0 <= k < |a| - 1 && a[k] == m;
    }
  }

  lemma BetweenSplits(messages: seq<Message>, session: SessionKey, low: nat, mid: nat, high: nat)
    requires Ascending(messages) && low <= mid <= high
    ensures Between(messages, session, low, high)
              == Between(messages, session, low, mid) + Between(messages, session, mid, high)
  {
    var a, b := Between(messages, session, low, mid), Between(messages, session, mid, high);
    KeepAscends(messages, Outside(session, low, mid));
    KeepAscends(messages, Outside(session, mid, high));
    KeepAscends(messages, Outside(session, low, high));
    var both := a + b;
    forall i, j | 0 <= i < j < |both| ensures both[i].id < both[j].id {
      assert i < |a| ==> both[i] in a;
      assert j >= |a| ==> both[j] in b;
    }
    SameMessagesSameList(Between(messages, session, low, high), both);
  }

  /******* One compaction *******/

  /** A summary holds every message of its session up to the one it points at. */
  predicate Exact(messages: seq<Message>, session: SessionKey, content: string, through: nat) {
    content == Join(Lines(Between(messages, session, 0, through)))
  }

  /** Ids are positive, and the summary, if any, is exact and points at a message. */
  ghost predicate ReadableFrom(previous: Option<Summary>, messages: seq<Message>, session: SessionKey) {
    && Ascending(messages) && (forall m :: m in messages ==> m.id > 0)
    && (previous.Some? ==>
          && Exact(messages, session, previous.value.content, previous.value.through)
          && HasMessage(messages, session, previous.value.through))
  }

  ghost predicate Readable(db: Db, session: SessionKey) {
    ReadableFrom(LatestSummary(db.summaries, session), db.messages, session)
  }

  /** The messages of other runs above an id. */
  function OthersAfter(messages: seq<Message>, session: SessionKey, current: Option<RunId>, id: nat): seq<Message> {
    WithoutRun(MessagesAfter(messages, session, id), current)
  }

  /** Whether a compaction will skip nothing can be told before it: no message of the current run above the old mark has
      more messages of other runs above it than a compaction leaves alone. */
  ghost predicate NothingToSkip(
    previous: Option<Summary>, messages: seq<Message>, session: SessionKey, current: Option<RunId>, recentLimit: int)
  {
    forall m :: m in messages && m.session == session && current == Some(m.run) && m.id > Through(previous) ==>
      |OthersAfter(messages, session, current, m.id)| <= Max(0, recentLimit)
  }

  /** The messages of the current run have the highest ids of the session. */
  ghost predicate HighestIds(messages: seq<Message>, session: SessionKey, current: Option<RunId>) {
    forall m, other ::
      (m in messages && other in messages && m.session == session && other.session == session
       && current == Some(m.run) && current != Some(other.run)) ==> other.id < m.id
  }

  /** No message of the current run lies in the range that a compaction folds. */
  ghost predicate CurrentRunIsLater(
    previous: Option<Summary>, messages: seq<Message>, session: SessionKey, current: Option<RunId>, through: nat)
  {
    forall m :: m in messages && m.session == session && current == Some(m.run) ==>
      !(Through(previous) < m.id <= through)
  }

  lemma WithoutRunAscends(messages: seq<Message>, current: Option<RunId>)
    requires Ascending(messages)
    ensures Ascending(WithoutRun(messages, current))
  {
    if current.Some? {
      KeepAscends(messages, OfRun(current.value));
    }
  }

  lemma PrefixAscends(messages: seq<Message>, n: nat)
    requires Ascending(messages) && n <= |messages|
    ensures Ascending(messages[..n])
  {
  }

  /** A prefix of the later messages of other runs is the part of them up to its last id. */
  lemma PrefixIsRange(messages: seq<Message>, session: SessionKey, low: nat, current: Option<RunId>, n: nat)
    requires Ascending(messages)
    requires 0 < n <= |WithoutRun(MessagesAfter(messages, session, low), current)|
    ensures var others := WithoutRun(MessagesAfter(messages, session, low), current);
            others[..n] == WithoutRun(Between(messages, session, low, others[n - 1].id), current)
  {
    var others := WithoutRun(MessagesAfter(messages, session, low), current);
    var high := others[n - 1].id;
    var range := WithoutRun(Between(messages, session, low, high), current);
    KeepAscends(messages, NotAfter(session, low));
    KeepAscends(messages, Outside(session, low, high));
    WithoutRunAscends(MessagesAfter(messages, session, low), current);
    WithoutRunAscends(Between(messages, session, low, high), current);
    PrefixAscends(others, n);
    forall m ensures m in others[..n] <==> m in range {
      PrefixById(others, n, m);
    }
    SameMessagesSameList(others[..n], range);
  }

  /** What is folded: the messages of other runs between the old summary and the new one. */
  lemma FoldedMessages(
    previous: Option<Summary>, messages: seq<Message>, session: SessionKey, current: Option<RunId>, recentLimit: int)
    requires Ascending(messages) && OldMessages(previous, messages, session, current, recentLimit) != []
    ensures var folded := OldMessages(previous, messages, session, current, recentLimit);
            var range := Between(messages, session, Through(previous), folded[|folded| - 1].id);
            && folded[|folded| - 1] in range && folded == WithoutRun(range, current)
  {
    var folded := OldMessages(previous, messages, session, current, recentLimit);
    var low := Through(previous);
    PrefixIsRange(messages, session, low, current, |folded|);
    assert folded[|folded| - 1] in folded;
  }

  lemma PrefixById(messages: seq<Message>, n: nat, m: Message)
    requires Ascending(messages) && 0 < n <= |messages|
    ensures m in messages[..n] <==> m in messages && m.id <= messages[n - 1].id
  {
    if m in messages {
      var k :| 0 <= k < |messages| && messages[k] == m;
      assert k < n ==> messages[..n][k] == m;
    }
  }

  /** The length of the joined lines, each with its separator. */
  function TextSize(messages: seq<Message>): nat {
    if messages == [] then 0 else TextSize(messages[..|messages| - 1]) + |Line(messages[|messages| - 1])| + 1
  }

  lemma JoinedLength(lines: seq<string>, last: string)
    ensures |Join(lines + [last])| == |last| + if lines == [] then 0 else |Join(lines)| + 1
  {
    var all := lines + [last];
    assert all[..|all| - 1] == lines && all[|all| - 1] == last;
  }

  lemma {:induction false} JoinedSize(messages: seq<Message>)
    requires messages != []
    ensures |Join(Lines(messages))| + 1 == TextSize(messages)
  {
    var front, last := messages[..|messages| - 1], messages[|messages| - 1];
    LinesAreLong(front);
    JoinedLength(Lines(front), Line(last));
    if front != [] {
      JoinedSize(front);
    } else {
      assert TextSize(front) == 0;
    }
  }

  lemma {:induction false} SizeOfAppend(a: seq<Message>, b: seq<Message>)
    ensures TextSize(a + b) == TextSize(a) + TextSize(b)
  {
    if b == [] {
      assert a + b == a;
    } else {
      assert (a + b)[..|a + b| - 1] == a + b[..|b| - 1];
      SizeOfAppend(a, b[..|b| - 1]);
    }
  }

  lemma {:induction false} KeepingNone(messages: seq<Message>, drop: Message -> bool)
    requires forall m :: m in messages ==> drop(m)
    ensures Keep(messages, drop) == []
  {
    if messages != [] {
      KeepingNone(messages[..|messages| - 1], drop);
    }
  }

  lemma {:induction false} KeepingAll(messages: seq<Message>, drop: Message -> bool)
    requires forall m :: m in messages ==> !drop(m)
    ensures Keep(messages, drop) == messages
  {
    if messages != [] {
      var front, last := messages[..|messages| - 1], messages[|messages| - 1];
      assert last in messages;
      KeepingAll(front, drop);
      assert front + [last] == messages;
    }
  }

  lemma {:induction false} DroppingNeverGrows(messages: seq<Message>, drop: Message -> bool)
    ensures TextSize(Keep(messages, drop)) <= TextSize(messages)
  {
    if messages != [] {
      var front, last := messages[..|messages| - 1], messages[|messages| - 1];
      DroppingNeverGrows(front, drop);
      SizeOfAppend(Keep(front, drop), if drop(last) then [] else [last]);
    }
  }

  lemma {:induction false} DroppingShortens(messages: seq<Message>, drop: Message -> bool, m: Message)
    requires m in messages && drop(m)
    ensures TextSize(Keep(messages, drop)) < TextSize(messages)
  {
    var front, last := messages[..|messages| - 1], messages[|messages| - 1];
    DroppingNeverGrows(front, drop);
    SizeOfAppend(Keep(front, drop), if drop(last) then [] else [last]);
    if m in front {
      DroppingShortens(front, drop, m);
    }
  }

  /** The new text holds what the old summary covered and what was folded. */
  lemma PlanText(
    previous: Option<Summary>, messages: seq<Message>, session: SessionKey, current: Option<RunId>, recentLimit: int)
    requires ReadableFrom(previous, messages, session)
    requires PlanFrom(previous, messages, session, current, recentLimit).Some?
    ensures var low := Through(previous);
            var folded := OldMessages(previous, messages, session, current, recentLimit);
            PlanFrom(previous, messages, session, current, recentLimit).value.content
              == Join(Lines(Between(messages, session, 0, low) + folded))
  {
    CoveredWhenSummarised(previous, messages, session);
    SummaryOfSummary(Between(messages, session, 0, Through(previous)),
                     OldMessages(previous, messages, session, current, recentLimit));
  }

  /** A text without some of the lines is another text. */
  lemma FewerLinesDiffer(covered: seq<Message>, range: seq<Message>, drop: Message -> bool, m: Message)
    requires m in range && drop(m) && Keep(range, drop) != []
    ensures Join(Lines(covered + Keep(range, drop))) != Join(Lines(covered + range))
  {
    DroppingShortens(range, drop, m);
    SizeOfAppend(covered, Keep(range, drop));
    SizeOfAppend(covered, range);
    JoinedSize(covered + Keep(range, drop));
    JoinedSize(covered + range);
  }

  /** Seen from the plan: it is exact if and only if it skips no message of the current run. */
  lemma ExactWhenLater(
    previous: Option<Summary>, messages: seq<Message>, session: SessionKey, current: Option<RunId>, recentLimit: int)
    requires ReadableFrom(previous, messages, session)
    requires PlanFrom(previous, messages, session, current, recentLimit).Some?
    ensures var plan := PlanFrom(previous, messages, session, current, recentLimit).value;
            Exact(messages, session, plan.content, plan.through)
            <==> CurrentRunIsLater(previous, messages, session, current, plan.through)
  {
    var plan := PlanFrom(previous, messages, session, current, recentLimit).value;
    if CurrentRunIsLater(previous, messages, session, current, plan.through) {
      NothingSkipped(previous, messages, session, current, recentLimit);
    } else {
      var low := Through(previous);
      var m :| m in messages && m.session == session && current == Some(m.run) && low < m.id <= plan.through;
      SomethingSkipped(previous, messages, session, current, recentLimit, m);
    }
  }

  lemma WholeRangeFolded(
    previous: Option<Summary>, messages: seq<Message>, session: SessionKey, current: Option<RunId>, recentLimit: int,
    high: nat)
    requires Ascending(messages) && CurrentRunIsLater(previous, messages, session, current, high)
    requires var folded := OldMessages(previous, messages, session, current, recentLimit);
             folded != [] && folded[|folded| - 1].id == high
    ensures var low := Through(previous);
            && low <= high
            && OldMessages(previous, messages, session, current, recentLimit) == Between(messages, session, low, high)
  {
    FoldedMessages(previous, messages, session, current, recentLimit);
    if current.Some? {
      KeepingAll(Between(messages, session, Through(previous), high), OfRun(current.value));
    }
  }

  lemma NothingSkipped(
    previous: Option<Summary>, messages: seq<Message>, session: SessionKey, current: Option<RunId>, recentLimit: int)
    requires ReadableFrom(previous, messages, session)
    requires PlanFrom(previous, messages, session, current, recentLimit).Some?
    requires CurrentRunIsLater(previous, messages, session, current,
                               PlanFrom(previous, messages, session, current, recentLimit).value.through)
    ensures var plan := PlanFrom(previous, messages, session, current, recentLimit).value;
            Exact(messages, session, plan.content, plan.through)
  {
    var plan := PlanFrom(previous, messages, session, current, recentLimit).value;
    PlanText(previous, messages, session, current, recentLimit);
    WholeRangeFolded(previous, messages, session, current, recentLimit, plan.through);
    JoinedRanges(messages, session, Through(previous), plan.through, plan.content);
  }

  lemma JoinedRanges(messages: seq<Message>, session: SessionKey, low: nat, high: nat, content: string)
    requires Ascending(messages) && low <= high
    requires content == Join(Lines(Between(messages, session, 0, low) + Between(messages, session, low, high)))
    ensures Exact(messages, session, content, high)
  {
    BetweenSplits(messages, session, 0, low, high);
  }

  lemma SomethingSkipped(
    previous: Option<Summary>, messages: seq<Message>, session: SessionKey, current: Option<RunId>, recentLimit: int,
    m: Message)
    requires ReadableFrom(previous, messages, session)
    requires PlanFrom(previous, messages, session, current, recentLimit).Some?
    requires m in messages && m.session == session && current == Some(m.run)
    requires Through(previous) < m.id
    requires m.id <= PlanFrom(previous, messages, session, current, recentLimit).value.through
    ensures var plan := PlanFrom(previous, messages, session, current, recentLimit).value;
            !Exact(messages, session, plan.content, plan.through)
  {
    var low, folded := Through(previous), OldMessages(previous, messages, session, current, recentLimit);
    var plan := PlanFrom(previous, messages, session, current, recentLimit).value;
    var range := Between(messages, session, low, plan.through);
    PlanText(previous, messages, session, current, recentLimit);
    assert folded == Keep(range, OfRun(m.run)) && m in range by {
      FoldedMessages(previous, messages, session, current, recentLimit);
    }
    FewerLinesDiffer(Between(messages, session, 0, low), range, OfRun(m.run), m);
    BetweenSplits(messages, session, 0, low, plan.through);
  }

  lemma CoveredWhenSummarised(previous: Option<Summary>, messages: seq<Message>, session: SessionKey)
    requires ReadableFrom(previous, messages, session)
    ensures var covered := Between(messages, session, 0, Through(previous));
            covered == [] <==> previous.None?
  {
    var covered := Between(messages, session, 0, Through(previous));
    if previous.Some? {
      var m :| m in messages && m.session == session && m.id == previous.value.through;
      assert m in covered;
    } else {
      KeepingNone(messages, Outside(session, 0, 0));
    }
  }

  /** A plan that is saved at once is accepted. */
  lemma PlanIsAccepted(db: Db, session: SessionKey, current: Option<RunId>, recentLimit: int)
    requires Readable(db, session) && PlanSummary(db, session, current, recentLimit).Some?
    ensures SavePlan(db, PlanSummary(db, session, current, recentLimit).value).1
  {
    PlanPointsAtAMessage(LatestSummary(db.summaries, session), db.messages, session, current, recentLimit);
  }

  lemma PlanPointsAtAMessage(
    previous: Option<Summary>, messages: seq<Message>, session: SessionKey, current: Option<RunId>, recentLimit: int)
    requires Ascending(messages) && PlanFrom(previous, messages, session, current, recentLimit).Some?
    ensures var plan := PlanFrom(previous, messages, session, current, recentLimit).value;
            HasMessage(messages, session, plan.through) && plan.through > Through(previous)
  {
    var folded := OldMessages(previous, messages, session, current, recentLimit);
    var last := folded[|folded| - 1];
    assert last in messages && last.session == session && last.id > Through(previous) by {
      FoldedMessages(previous, messages, session, current, recentLimit);
    }
  }

  /******* Telling beforehand *******/

  /** In a list in id order, the messages above an id are a suffix. */
  lemma SuffixAbove(messages: seq<Message>, id: nat) returns (j: nat)
    requires Ascending(messages)
    ensures j <= |messages|
    ensures forall k :: 0 <= k < |messages| ==> (messages[k].id > id <==> j <= k)
  {
    j := |messages|;
    while j > 0 && messages[j - 1].id > id
      invariant 0 <= j <= |messages|
      invariant forall k :: j <= k < |messages| ==> messages[k].id > id
    {
      j := j - 1;
    }
  }

  lemma TailMembers(messages: seq<Message>, j: nat, id: nat, m: Message)
    requires j <= |messages| && forall k :: 0 <= k < |messages| ==> (messages[k].id > id <==> j <= k)
    ensures m in messages[j..] <==> m in messages && m.id > id
  {
    if m in messages {
      var k :| 0 <= k < |messages| && messages[k] == m;
      assert k >= j ==> messages[j..][k - j] == m;
    }
    if m in messages[j..] {
      var k :| 0 <= k < |messages[j..]| && messages[j..][k] == m;
      assert messages[j + k] == m;
    }
  }

  lemma OthersAreNotOurs(messages: seq<Message>, session: SessionKey, current: Option<RunId>, low: nat, m: Message)
    ensures m in OthersAfter(messages, session, current, low) <==>
              m in messages && m.session == session && m.id > low && current != Some(m.run)
  {
  }

  lemma OthersAscend(messages: seq<Message>, session: SessionKey, current: Option<RunId>, low: nat)
    requires Ascending(messages)
    ensures Ascending(OthersAfter(messages, session, current, low))
  {
    KeepAscends(messages, NotAfter(session, low));
    WithoutRunAscends(MessagesAfter(messages, session, low), current);
  }

  /** The messages of other runs above an id of the range are a suffix of those above its start. */
  lemma OthersAreSuffix(messages: seq<Message>, session: SessionKey, current: Option<RunId>, low: nat, id: nat, j: nat)
    requires Ascending(messages) && low <= id
    requires var others := OthersAfter(messages, session, current, low);
             j <= |others| && forall k :: 0 <= k < |others| ==> (others[k].id > id <==> j <= k)
    ensures OthersAfter(messages, session, current, id) == OthersAfter(messages, session, current, low)[j..]
  {
    var others, above := OthersAfter(messages, session, current, low), OthersAfter(messages, session, current, id);
    OthersAscend(messages, session, current, low);
    OthersAscend(messages, session, current, id);
    forall m ensures m in above <==> m in others[j..] {
      OthersAreNotOurs(messages, session, current, low, m);
      OthersAreNotOurs(messages, session, current, id, m);
      TailMembers(others, j, id, m);
    }
    SuffixAscends(others, j);
    SameMessagesSameList(above, others[j..]);
  }

  lemma SuffixAscends(messages: seq<Message>, j: nat)
    requires Ascending(messages) && j <= |messages|
    ensures Ascending(messages[j..])
  {
  }

  /** A message of the current run is skipped exactly when too many messages of other runs lie above it. */
  lemma SkippedExactlyWhen(
    previous: Option<Summary>, messages: seq<Message>, session: SessionKey, current: Option<RunId>, recentLimit: int,
    m: Message)
    requires Ascending(messages) && PlanFrom(previous, messages, session, current, recentLimit).Some?
    requires m in messages && m.session == session && current == Some(m.run) && m.id > Through(previous)
    ensures (m.id <= PlanFrom(previous, messages, session, current, recentLimit).value.through)
         == (|OthersAfter(messages, session, current, m.id)| > Max(0, recentLimit))
  {
    var low := Through(previous);
    var others := OthersAfter(messages, session, current, low);
    var last := LastFolded(previous, messages, session, current, recentLimit);
    OthersAscend(messages, session, current, low);
    var j := SuffixAbove(others, m.id);
    OthersAreSuffix(messages, session, current, low, m.id, j);
    OthersHaveOtherIds(messages, session, current, low, m, others[last]);
    assert others[last].id > m.id <==> j <= last;
  }

  /** The mark of a plan is the id of the last message that more than the kept number of messages follow. */
  lemma LastFolded(
    previous: Option<Summary>, messages: seq<Message>, session: SessionKey, current: Option<RunId>, recentLimit: int)
    returns (last: nat)
    requires PlanFrom(previous, messages, session, current, recentLimit).Some?
    ensures var others := OthersAfter(messages, session, current, Through(previous));
            && last + Max(0, recentLimit) + 1 == |others|
            && PlanFrom(previous, messages, session, current, recentLimit).value.through == others[last].id
  {
    last := |OldMessages(previous, messages, session, current, recentLimit)| - 1;
  }

  lemma OthersHaveOtherIds(
    messages: seq<Message>, session: SessionKey, current: Option<RunId>, low: nat, ours: Message, other: Message)
    requires Ascending(messages) && ours in messages && current == Some(ours.run)
    requires other in OthersAfter(messages, session, current, low)
    ensures other.id != ours.id
  {
    OthersAreNotOurs(messages, session, current, low, other);
    OneMessagePerId(messages, other, ours);
  }

  lemma OneMessagePerId(messages: seq<Message>, a: Message, b: Message)
    requires Ascending(messages) && a in messages && b in messages && a != b
    ensures a.id != b.id
  {
  }

  /** Folding more into an exact summary is exact if and only if, before the compaction, no message of the current run
      above the old mark had more messages of other runs above it than the compaction leaves alone. */
  lemma PlanIsExactExactlyWhen(
    previous: Option<Summary>, messages: seq<Message>, session: SessionKey, current: Option<RunId>, recentLimit: int)
    requires ReadableFrom(previous, messages, session)
    requires PlanFrom(previous, messages, session, current, recentLimit).Some?
    ensures var plan := PlanFrom(previous, messages, session, current, recentLimit).value;
            Exact(messages, session, plan.content, plan.through)
            <==> NothingToSkip(previous, messages, session, current, recentLimit)
  {
    var plan := PlanFrom(previous, messages, session, current, recentLimit).value;
    ExactWhenLater(previous, messages, session, current, recentLimit);
    forall m | m in messages && m.session == session && current == Some(m.run) && m.id > Through(previous)
      ensures m.id <= plan.through <==> |OthersAfter(messages, session, current, m.id)| > Max(0, recentLimit)
    {
      SkippedExactlyWhen(previous, messages, session, current, recentLimit, m);
    }
  }

  /** While the current run has the highest ids of its session, a compaction skips nothing and covers nothing of it. */
  lemma HighestIdsAreSpared(
    previous: Option<Summary>, messages: seq<Message>, session: SessionKey, current: Option<RunId>, recentLimit: int)
    requires Ascending(messages) && HighestIds(messages, session, current)
    ensures NothingToSkip(previous, messages, session, current, recentLimit)
    ensures var plan := PlanFrom(previous, messages, session, current, recentLimit);
            plan.Some? ==>
              forall m :: m in messages && m.session == session && current == Some(m.run) ==> plan.value.through < m.id
  {
    forall m | m in messages && m.session == session && current == Some(m.run)
      ensures OthersAfter(messages, session, current, m.id) == []
    {
      var above := OthersAfter(messages, session, current, m.id);
      if above != [] {
        OthersAreNotOurs(messages, session, current, m.id, above[0]);
      }
    }
    var plan := PlanFrom(previous, messages, session, current, recentLimit);
    if plan.Some? {
      var folded := OldMessages(previous, messages, session, current, recentLimit);
      OthersAreNotOurs(messages, session, current, Through(previous), folded[|folded| - 1]);
    }
  }
}
