/** Every history of remembering, correcting, forgetting and expiring keeps the correction chains in order. */
module MemoryChains {
  import opened Wrappers
  import opened MemorySpec

  /** How an earlier row relates to a later one. */
  predicate Before(a: Memory, b: Memory) {
    && a.id != b.id
    && (a.root == b.root ==> a.subject == b.subject && a.scope == b.scope && (a.deleted.Some? || b.deleted.Some?))
    && b.superseded != Some(a.id)
    && (a.superseded.Some? ==> a.superseded != b.superseded)
  }

  predicate IsTarget(m: Memory, t: Memory) {
    m.superseded == Some(t.id) && m.root == t.root
  }

  /** A superseded record is deleted and points at another record of its root. */
  predicate Linked(rows: seq<Memory>, m: Memory) {
    m.superseded.Some? ==>
      m.deleted.Some? && m.superseded != Some(m.id) && exists t :: t in rows && IsTarget(m, t)
  }

  predicate InOrder(rows: seq<Memory>) {
    forall i, j {:trigger Before(rows[i], rows[j])} :: 0 <= i < j < |rows| ==> Before(rows[i], rows[j])
  }

  predicate Chains(rows: seq<Memory>) {
    && InOrder(rows)
    && (forall m {:trigger Linked(rows, m)} :: m in rows ==> Linked(rows, m))
  }

  /******* Histories *******/

  /** `used` holds every id ever given out; `seen` what each correction read before it writes. */
  datatype State = State(rows: seq<Memory>, used: set<MemoryId>, seen: map<nat, Memory>)

  datatype Step =
    | Remember(id: MemoryId, subject: string, content: string, scope: Scope, expires: Option<Time>)
    | Look(worker: nat, id: MemoryId, subject: string)
    | Correct(worker: nat, id: MemoryId, content: string, expires: Option<Time>, now: Time)
    | Forget(id: MemoryId, subject: string)
    | Expire(now: Time)

  function Draft(id: MemoryId, subject: string, content: string, scope: Scope, expires: Option<Time>): Memory {
    Memory(id, id, subject, content, scope, expires, None, None)
  }

  /** Ids are fresh uuids; a correction writes for the subject and scope of the record it read. */
  function Next(s: State, step: Step): State {
    match step
    case Remember(id, subject, content, scope, expires) =>
      if id in s.used then s
      else s.(rows := Create(s.rows, Draft(id, subject, content, scope, expires)).0, used := s.used + {id})
    case Look(worker, id, subject) =>
      var m := Find(s.rows, id);
      if m.Some? && m.value.subject == subject then s.(seen := s.seen[worker := m.value]) else s
    case Correct(worker, id, content, expires, now) =>
      if worker !in s.seen || id in s.used then s
      else
        var read := s.seen[worker];
        var draft := Draft(id, read.subject, content, read.scope, expires);
        s.(rows := Replace(s.rows, read.id, draft, read.subject, now).0, used := s.used + {id})
    case Forget(id, subject) => s.(rows := HardDelete(s.rows, id, subject).0)
    case Expire(now) => s.(rows := PurgeExpired(s.rows, now))
  }

  function Run(steps: seq<Step>): State {
    if steps == [] then State([], {}, map[]) else Next(Run(steps[..|steps| - 1]), steps[|steps| - 1])
  }

  /** A row that is still there is what was read, up to its fate. */
  predicate StillTheSame(read: Memory, m: Memory) {
    m.id == read.id ==> m.root == read.root && m.subject == read.subject && m.scope == read.scope
  }

  predicate Sound(s: State) {
    && Chains(s.rows)
    && (forall m :: m in s.rows ==> m.id in s.used && m.root in s.used)
    && (forall w :: w in s.seen ==> s.seen[w].id in s.used)
    && (forall w, m :: w in s.seen && m in s.rows ==> StillTheSame(s.seen[w], m))
  }

  /******* Filters and updates *******/

  lemma {:induction false} DeleteKeepsOrder(rows: seq<Memory>, p: Memory -> bool)
    requires InOrder(rows)
    ensures InOrder(Delete(rows, p))
  {
    if rows != [] {
      var rest := rows[1..];
      forall i, j | 0 <= i < j < |rest| ensures Before(rest[i], rest[j]) {
        assert Before(rows[i + 1], rows[j + 1]);
      }
      DeleteKeepsOrder(rest, p);
      var kept := Delete(rest, p);
      forall m | m in kept ensures Before(rows[0], m) {
        var k :| 0 <= k < |rest| && rest[k] == m;
        assert Before(rows[0], rows[k + 1]);
      }
      if !p(rows[0]) {
        forall i, j | 0 <= i < j < |[rows[0]] + kept| ensures Before(([rows[0]] + kept)[i], ([rows[0]] + kept)[j]) {
          if i == 0 {
            assert kept[j - 1] in kept;
          } else {
            assert Before(kept[i - 1], kept[j - 1]);
          }
        }
      }
    }
  }

  /** Rows that only lose links stay in order. */
  lemma UnlinkKeepsOrder(rows: seq<Memory>, p: Memory -> bool)
    requires InOrder(rows)
    ensures InOrder(Update(rows, p, Unlink()))
  {
    var next := Update(rows, p, Unlink());
    forall i, j | 0 <= i < j < |next| ensures Before(next[i], next[j]) {
      assert Before(rows[i], rows[j]);
    }
  }

  /** Where a row of an update comes from. */
  lemma UpdatedRow(rows: seq<Memory>, p: Memory -> bool, f: Memory -> Memory, m: Memory) returns (was: Memory)
    requires m in Update(rows, p, f)
    ensures was in rows && m == if p(was) then f(was) else was
  {
    var k :| 0 <= k < |rows| && Update(rows, p, f)[k] == m;
    was := rows[k];
  }

  lemma RowAfterUpdate(rows: seq<Memory>, p: Memory -> bool, f: Memory -> Memory, was: Memory)
    requires was in rows
    ensures (if p(was) then f(was) else was) in Update(rows, p, f)
  {
    var k :| 0 <= k < |rows| && rows[k] == was;
    assert Update(rows, p, f)[k] == if p(was) then f(was) else was;
  }

  /******* Steps *******/

  /** Removing the records that satisfy `gone`, and every link to them, keeps the chains. */
  lemma RemovalKeepsChains(rows: seq<Memory>, unlinked: Memory -> bool, gone: Memory -> bool)
    requires Chains(rows)
    requires forall m :: gone(Unlink()(m)) == gone(m)
    requires forall m, t :: m in rows && t in rows && IsTarget(m, t) && gone(t) && !gone(m) ==> unlinked(m)
    ensures Chains(Delete(Update(rows, unlinked, Unlink()), gone))
  {
    var updated := Update(rows, unlinked, Unlink());
    var next := Delete(updated, gone);
    UnlinkKeepsOrder(rows, unlinked);
    DeleteKeepsOrder(updated, gone);
    forall m | m in next ensures Linked(next, m) {
      var was := UpdatedRow(rows, unlinked, Unlink(), m);
      assert Linked(rows, was);
      if m.superseded.Some? {
        var t :| t in rows && IsTarget(was, t);
        RowAfterUpdate(rows, unlinked, Unlink(), t);
        var t' := if unlinked(t) then Unlink()(t) else t;
        assert t' in next && IsTarget(m, t');
      }
    }
  }

  lemma ForgetKeepsChains(rows: seq<Memory>, id: MemoryId, subject: string)
    requires Chains(rows)
    ensures Chains(HardDelete(rows, id, subject).0)
  {
    var current := Find(rows, id);
    if current.Some? && current.value.subject == subject {
      RemovalKeepsChains(rows, InRoot(current.value.root), InRootOf(current.value.root, subject));
    }
  }

  lemma ExpireKeepsChains(rows: seq<Memory>, now: Time)
    requires Chains(rows)
    ensures Chains(PurgeExpired(rows, now))
  {
    RemovalKeepsChains(rows, PointsInto(Ids(rows, ExpiredAt(now))), ExpiredAt(now));
  }

  lemma RememberKeepsChains(rows: seq<Memory>, m: Memory)
    requires Chains(rows) && m.superseded.None?
    requires forall x :: x in rows ==> x.id != m.id && x.root != m.root && x.superseded != Some(m.id)
    ensures Chains(rows + [m])
  {
    var next := rows + [m];
    forall i, j | 0 <= i < j < |next| ensures Before(next[i], next[j]) {
      if j < |rows| {
        assert Before(rows[i], rows[j]);
      } else {
        assert next[i] in rows;
      }
    }
    forall x | x in next ensures Linked(next, x) {
      if x in rows {
        assert Linked(rows, x);
      }
    }
  }

  /** In a table with chains, an id names one row. */
  lemma OneRow(rows: seq<Memory>, a: Memory, b: Memory)
    requires Chains(rows) && a in rows && b in rows && a.id == b.id
    ensures a == b
  {
    var i :| 0 <= i < |rows| && rows[i] == a;
    var j :| 0 <= j < |rows| && rows[j] == b;
    assert i < j ==> Before(rows[i], rows[j]);
    assert j < i ==> Before(rows[j], rows[i]);
  }

  /** Two rows of one root agree, and are not both active. */
  lemma SameRoot(rows: seq<Memory>, a: Memory, b: Memory)
    requires Chains(rows) && a in rows && b in rows && a.root == b.root
    ensures a.subject == b.subject && a.scope == b.scope
    ensures a.deleted.None? && b.deleted.None? ==> a == b
  {
    var i :| 0 <= i < |rows| && rows[i] == a;
    var j :| 0 <= j < |rows| && rows[j] == b;
    assert i < j ==> Before(rows[i], rows[j]);
    assert j < i ==> Before(rows[j], rows[i]);
  }

  /** A correction for the subject and scope of the corrected record extends its chain. */
  lemma CorrectionKeepsChains(rows: seq<Memory>, current: Memory, m: Memory, now: Time)
    requires Chains(rows) && current in rows && current.deleted.None?
    requires m.root == current.root && m.subject == current.subject && m.scope == current.scope
    requires m.superseded.None? && m.deleted.None? && !Has(rows, m.id)
    requires forall x :: x in rows ==> x.superseded != Some(m.id)
    ensures Chains(Update(rows + [m], IsActiveRow(current.id), Supersede(now, m.id)))
  {
    var p, f := IsActiveRow(current.id), Supersede(now, m.id);
    var all := rows + [m];
    var next := Update(all, p, f);
    assert Linked(rows, current);
    forall x | x in rows ensures (p(x) <==> x == current) && x.id != m.id {
      if p(x) {
        OneRow(rows, x, current);
      }
    }
    forall i, j | 0 <= i < j < |next| ensures Before(next[i], next[j]) {
      assert all[i] in rows;
      if j < |rows| {
        assert Before(rows[i], rows[j]) && rows[j] in rows;
      } else if all[i].root == m.root {
        SameRoot(rows, all[i], current);
      }
    }
    forall x | x in next ensures Linked(next, x) {
      var was := UpdatedRow(all, p, f, x);
      RowAfterUpdate(all, p, f, m);
      assert m in next;
      if was == current {
        assert IsTarget(x, m);
      } else if was in rows && x.superseded.Some? {
        assert Linked(rows, was);
        var t :| t in rows && IsTarget(was, t);
        RowAfterUpdate(all, p, f, t);
        assert IsTarget(x, if p(t) then f(t) else t);
      }
    }
  }

  lemma CorrectKeepsChains(s: State, step: Step)
    requires Sound(s) && step.Correct?
    ensures Chains(Next(s, step).rows)
  {
    if step.worker in s.seen && step.id !in s.used {
      var read := s.seen[step.worker];
      var current := Find(s.rows, read.id);
      if current.Some? && current.value.subject == read.subject && current.value.deleted.None? {
        assert StillTheSame(read, current.value);
        var m := Draft(step.id, read.subject, step.content, read.scope, step.expires).(root := current.value.root);
        LinksStayUsed(s, step.id);
        if Insertable(s.rows, m) {
          CorrectionKeepsChains(s.rows, current.value, m, step.now);
        }
      }
    }
  }

  lemma LinksStayUsed(s: State, id: MemoryId)
    requires Sound(s) && id !in s.used
    ensures forall x :: x in s.rows ==> x.superseded != Some(id)
  {
    forall x | x in s.rows ensures x.superseded != Some(id) {
      assert Linked(s.rows, x);
    }
  }

  lemma ChainsStep(s: State, step: Step)
    requires Sound(s)
    ensures Chains(Next(s, step).rows)
  {
    match step
    case Remember(id, subject, content, scope, expires) =>
      if id !in s.used {
        LinksStayUsed(s, id);
        RememberKeepsChains(s.rows, Draft(id, subject, content, scope, expires));
      }
    case Look(_, _, _) =>
    case Correct(_, _, _, _, _) => CorrectKeepsChains(s, step);
    case Forget(id, subject) => ForgetKeepsChains(s.rows, id, subject);
    case Expire(now) => ExpireKeepsChains(s.rows, now);
  }

  /** Every row of the next state is an old one, up to its fate, or the new one. */
  lemma WhereRowsComeFrom(s: State, step: Step, m: Memory)
    requires m in Next(s, step).rows
    ensures (exists was :: was in s.rows && was.id == m.id && StillTheSame(was, m))
            || (m.id in Next(s, step).used - s.used && (m.root == m.id || exists was :: was in s.rows && was.root == m.root))
  {
    if m !in s.rows {
      match step
      case Remember(id, subject, content, scope, expires) =>
      case Look(_, _, _) =>
      case Correct(worker, id, content, expires, now) =>
        var read := s.seen[worker];
        var current := Find(s.rows, read.id).value;
        var draft := Draft(id, read.subject, content, read.scope, expires).(root := current.root);
        var was := UpdatedRow(s.rows + [draft], IsActiveRow(read.id), Supersede(now, id), m);
      case Forget(id, subject) =>
        var root := Find(s.rows, id).value.root;
        var was := UpdatedRow(s.rows, InRoot(root), Unlink(), m);
      case Expire(now) =>
        var was := UpdatedRow(s.rows, PointsInto(Ids(s.rows, ExpiredAt(now))), Unlink(), m);
    }
  }

  lemma OkStep(s: State, step: Step)
    requires Sound(s)
    ensures Sound(Next(s, step))
  {
    var next := Next(s, step);
    ChainsStep(s, step);
    forall m | m in next.rows ensures m.id in next.used && m.root in next.used {
      WhereRowsComeFrom(s, step, m);
    }
    forall w, m | w in next.seen && m in next.rows ensures StillTheSame(next.seen[w], m) {
      WhereRowsComeFrom(s, step, m);
      if w in s.seen && next.seen[w] == s.seen[w] {
        forall was | was in s.rows ensures StillTheSame(s.seen[w], was) {}
      } else if m.id == next.seen[w].id {
        OneRow(s.rows, m, next.seen[w]);
      }
    }
  }

  lemma {:induction false} ChainsHold(steps: seq<Step>)
    ensures Sound(Run(steps))
  {
    if steps != [] {
      ChainsHold(steps[..|steps| - 1]);
      OkStep(Run(steps[..|steps| - 1]), steps[|steps| - 1]);
    }
  }

  /******* What the chains give *******/

  /** In every reachable state, the records of one root share subject and scope, at most one of them is active, and a
      link leads to a remaining record of the same root. */
  lemma OneActiveRecordPerRoot(steps: seq<Step>, a: Memory, b: Memory)
    requires a in Run(steps).rows && b in Run(steps).rows && a.root == b.root
    ensures a.subject == b.subject && a.scope == b.scope
    ensures a.deleted.None? && b.deleted.None? ==> a == b
    ensures a.superseded.Some? ==>
              a.deleted.Some? && exists t :: t in Run(steps).rows && t.id == a.superseded.value && t.root == a.root
  {
    ChainsHold(steps);
    SameRoot(Run(steps).rows, a, b);
    assert Linked(Run(steps).rows, a);
  }

  /** Following links. */
  predicate IsPath(rows: seq<Memory>, path: seq<Memory>) {
    && (forall m :: m in path ==> m in rows)
    && forall k :: 0 <= k < |path| - 1 ==> path[k].superseded == Some(path[k + 1].id)
  }

  /** Links lead to rows inserted later. */
  lemma {:induction false} LinksLeadForward(rows: seq<Memory>, path: seq<Memory>, i: nat)
    requires Chains(rows) && IsPath(rows, path) && path != [] && i < |rows| && rows[i] == path[0]
    ensures path[|path| - 1].root == path[0].root
    ensures exists j :: i + |path| - 1 <= j < |rows| && rows[j] == path[|path| - 1]
  {
    if |path| > 1 {
      assert path[0] in path && path[1] in path && Linked(rows, path[0]);
      var j :| 0 <= j < |rows| && rows[j] == path[1];
      assert j < i ==> Before(rows[j], rows[i]);
      var t :| t in rows && IsTarget(path[0], t);
      OneRow(rows, t, path[1]);
      LinksLeadForward(rows, path[1..], j);
    }
  }

  /** Links never leave their root and never lead back to a record already passed. */
  lemma LinksNeverCycle(steps: seq<Step>, path: seq<Memory>)
    requires IsPath(Run(steps).rows, path) && |path| > 1
    ensures path[0].root == path[|path| - 1].root && path[0].id != path[|path| - 1].id
  {
    var rows := Run(steps).rows;
    ChainsHold(steps);
    assert path[0] in path;
    var i :| 0 <= i < |rows| && rows[i] == path[0];
    LinksLeadForward(rows, path, i);
    var j :| i + |path| - 1 <= j < |rows| && rows[j] == path[|path| - 1];
    assert Before(rows[i], rows[j]);
  }

  lemma {:induction false} SameDelete(rows: seq<Memory>, updated: seq<Memory>, p: Memory -> bool, q: Memory -> bool)
    requires |rows| == |updated|
    requires forall k :: 0 <= k < |rows| ==> p(updated[k]) == q(rows[k]) && (!q(rows[k]) ==> updated[k] == rows[k])
    ensures Delete(updated, p) == Delete(rows, q)
  {
    if rows != [] {
      forall k | 0 <= k < |rows[1..]|
        ensures p(updated[1..][k]) == q(rows[1..][k]) && (!q(rows[1..][k]) ==> updated[1..][k] == rows[1..][k])
      {
        assert rows[k + 1] == rows[1..][k];
      }
      SameDelete(rows[1..], updated[1..], p, q);
    }
  }

  /** Forgetting any record of a chain, old or current, removes the whole chain and nothing else. */
  lemma ForgettingRemovesTheWholeChain(steps: seq<Step>, id: MemoryId, subject: string)
    ensures var rows := Run(steps).rows;
            var current := Find(rows, id);
            HardDelete(rows, id, subject)
              == if current.Some? && current.value.subject == subject
                 then (Delete(rows, InRoot(current.value.root)), true) else (rows, false)
  {
    var rows := Run(steps).rows;
    var current := Find(rows, id);
    ChainsHold(steps);
    if current.Some? && current.value.subject == subject {
      var root := current.value.root;
      forall k | 0 <= k < |rows| ensures rows[k].root == root ==> rows[k].subject == subject {
        if rows[k].root == root {
          SameRoot(rows, rows[k], current.value);
        }
      }
      SameDelete(rows, Update(rows, InRoot(root), Unlink()), InRootOf(root, subject), InRoot(root));
    }
  }

  /** The store itself accepts any replacement: the chain keeps one subject exactly when the replacement
      is for the subject that asked, which the service ensures. */
  lemma ReplacementKeepsOneSubjectExactlyWhen(
    rows: seq<Memory>, id: MemoryId, replacement: Memory, subject: string, now: Time)
    requires Chains(rows) && Replace(rows, id, replacement, subject, now).1.Ok?
    ensures var next := Replace(rows, id, replacement, subject, now).0;
            (forall a, b :: a in next && b in next && a.root == b.root ==> a.subject == b.subject)
            <==> replacement.subject == subject
  {
    var current := Find(rows, id).value;
    var m := replacement.(root := current.root);
    var p, f := IsActiveRow(id), Supersede(now, m.id);
    var next := Replace(rows, id, replacement, subject, now).0;
    RowAfterUpdate(rows + [m], p, f, m);
    RowAfterUpdate(rows + [m], p, f, current);
    if replacement.subject == subject {
      forall a, b | a in next && b in next && a.root == b.root ensures a.subject == b.subject {
        SubjectsAgree(rows, current, m, p, f, a, b);
      }
    }
  }

  /** Rows of an update that keeps subjects and roots, over a table with one more row of a root it has. */
  lemma SubjectsAgree(
    rows: seq<Memory>, current: Memory, m: Memory, p: Memory -> bool, f: Memory -> Memory, a: Memory, b: Memory)
    requires Chains(rows) && current in rows && m.root == current.root && m.subject == current.subject
    requires forall x :: f(x).root == x.root && f(x).subject == x.subject
    requires a in Update(rows + [m], p, f) && b in Update(rows + [m], p, f) && a.root == b.root
    ensures a.subject == b.subject
  {
    var wasA := UpdatedRow(rows + [m], p, f, a);
    var wasB := UpdatedRow(rows + [m], p, f, b);
    var x, y := if wasA == m then current else wasA, if wasB == m then current else wasB;
    SameRoot(rows, x, y);
  }

  const OWN_FACT := Memory(1, 1, "ann", "old", Private, None, None, None)
  const OTHERS_FACT := Memory(2, 2, "bob", "new", Private, None, None, None)

  /** A replacement for another subject, after which forgetting the corrected record leaves one of its root behind. */
  lemma ForeignReplacementSurvivesForgetting()
    ensures var rows := Create([], OWN_FACT).0;
            var (replaced, r) := Replace(rows, 1, OTHERS_FACT, "ann", 5);
            var (left, deleted) := HardDelete(replaced, 1, "ann");
            && r.Ok? && deleted && left == [OTHERS_FACT.(root := OWN_FACT.root)]
  {
    var rows := Create([], OWN_FACT).0;
    var m := OTHERS_FACT.(root := 1);
    assert rows == [OWN_FACT];
    var replaced := Replace(rows, 1, OTHERS_FACT, "ann", 5).0;
    var superseded := OWN_FACT.(deleted := Some(5), superseded := Some(2));
    assert replaced == [superseded, m];
    var unlinked := Update(replaced, InRoot(1), Unlink());
    assert unlinked == [superseded.(superseded := None), m];
    assert unlinked[1..] == [m] && [m][1..] == [];
    assert Delete([m], InRootOf(1, "ann")) == [m];
  }
}
