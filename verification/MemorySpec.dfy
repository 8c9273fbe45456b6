/** The table of long-term memories, and its transactions as functions.
    A correction inserts a new record and points the old one at it. */
module MemorySpec {
  import opened Wrappers

  type MemoryId = nat
  type Time = nat

  /** Who may see a memory: its subject, a conversation, or a tenant. */
  datatype Scope = Private | Conversation(id: string) | Tenant(id: string)

  datatype Memory = Memory(
    id: MemoryId, root: MemoryId, subject: string, content: string, scope: Scope,
    expires: Option<Time>, deleted: Option<Time>, superseded: Option<MemoryId>)

  datatype MemoryError = NotFound | Conflict

  /******* Rows in insertion order *******/

  predicate Has(rows: seq<Memory>, id: MemoryId) {
    exists m :: m in rows && m.id == id
  }

  function Find(rows: seq<Memory>, id: MemoryId): (m: Option<Memory>)
    ensures m.None? ==> !Has(rows, id)
    ensures m.Some? ==> m.value in rows && m.value.id == id
  {
    if rows == [] then None else if rows[0].id == id then Some(rows[0]) else Find(rows[1..], id)
  }

  /** UPDATE of the rows that satisfy `p`. */
  function Update(rows: seq<Memory>, p: Memory -> bool, f: Memory -> Memory): (r: seq<Memory>)
    ensures |r| == |rows|
    ensures forall k :: 0 <= k < |rows| ==> r[k] == if p(rows[k]) then f(rows[k]) else rows[k]
  {
    if rows == [] then []
    else [if p(rows[0]) then f(rows[0]) else rows[0]] + Update(rows[1..], p, f)
  }

  /** DELETE of the rows that satisfy `p`. */
  function Delete(rows: seq<Memory>, p: Memory -> bool): (r: seq<Memory>)
    ensures forall m :: m in r <==> m in rows && !p(m)
  {
    if rows == [] then [] else (if p(rows[0]) then [] else [rows[0]]) + Delete(rows[1..], p)
  }

  function IsActiveRow(id: MemoryId): Memory -> bool {
    (m: Memory) => m.id == id && m.deleted.None?
  }

  function Supersede(now: Time, target: MemoryId): Memory -> Memory {
    (m: Memory) => m.(deleted := Some(now), superseded := Some(target))
  }

  function InRoot(root: MemoryId): Memory -> bool {
    (m: Memory) => m.root == root
  }

  function InRootOf(root: MemoryId, subject: string): Memory -> bool {
    (m: Memory) => m.root == root && m.subject == subject
  }

  function Unlink(): Memory -> Memory {
    (m: Memory) => m.(superseded := None)
  }

  function ExpiredAt(now: Time): Memory -> bool {
    (m: Memory) => m.expires.Some? && m.expires.value <= now
  }

  function PointsInto(ids: set<MemoryId>): Memory -> bool {
    (m: Memory) => m.superseded.Some? && m.superseded.value in ids
  }

  function Ids(rows: seq<Memory>, p: Memory -> bool): set<MemoryId> {
    set m | m in rows && p(m) :: m.id
  }

  /******* Transactions *******/

  /** The primary key and the foreign key of an insert. */
  predicate Insertable(rows: seq<Memory>, m: Memory) {
    !Has(rows, m.id) && (m.superseded.Some? ==> m.superseded.value == m.id || Has(rows, m.superseded.value))
  }

  function Create(rows: seq<Memory>, m: Memory): (seq<Memory>, Result<Memory, MemoryError>) {
    if Insertable(rows, m) then (rows + [m], Ok(m)) else (rows, Err(Conflict))
  }

  function Replace(rows: seq<Memory>, id: MemoryId, replacement: Memory, subject: string, now: Time)
    : (seq<Memory>, Result<Memory, MemoryError>)
  {
    var current := Find(rows, id);
    if current.None? || current.value.subject != subject || current.value.deleted.Some? then (rows, Err(NotFound))
    else
      var m := replacement.(root := current.value.root);
      if !Insertable(rows, m) then (rows, Err(Conflict))
      else (Update(rows + [m], IsActiveRow(id), Supersede(now, m.id)), Ok(m))
  }

  function HardDelete(rows: seq<Memory>, id: MemoryId, subject: string): (seq<Memory>, bool) {
    var current := Find(rows, id);
    if current.None? || current.value.subject != subject then (rows, false)
    else
      var root := current.value.root;
      (Delete(Update(rows, InRoot(root), Unlink()), InRootOf(root, subject)), true)
  }

  function PurgeExpired(rows: seq<Memory>, now: Time): seq<Memory> {
    Delete(Update(rows, PointsInto(Ids(rows, ExpiredAt(now))), Unlink()), ExpiredAt(now))
  }

  lemma DeleteShrinks(rows: seq<Memory>, p: Memory -> bool)
    ensures |Delete(rows, p)| <= |rows|
  {
  }

  predicate IsOver(m: Memory, now: Time) {
    m.expires.Some? && m.expires.value <= now
  }

  predicate LinksToOver(rows: seq<Memory>, m: Memory, now: Time) {
    m.superseded.Some? && exists e :: e in rows && IsOver(e, now) && e.id == m.superseded.value
  }

  /** After a purge, what is left are exactly the rows whose time is not over, as they were, except that none links to a
      row that went. */
  lemma PurgeRemovesWhatIsOver(rows: seq<Memory>, now: Time)
    ensures var kept := PurgeExpired(rows, now);
            && (forall r :: r in kept ==>
                  exists m :: m in rows && !IsOver(m, now)
                              && r == if LinksToOver(rows, m, now) then m.(superseded := None) else m)
            && (forall m {:trigger IsOver(m, now)} :: m in rows && !IsOver(m, now) ==>
                  (if LinksToOver(rows, m, now) then m.(superseded := None) else m) in kept)
  {
    var ids := Ids(rows, ExpiredAt(now));
    var unlinked := Update(rows, PointsInto(ids), Unlink());
    forall m | m in rows ensures PointsInto(ids)(m) <==> LinksToOver(rows, m, now) {
      if LinksToOver(rows, m, now) {
        var e :| e in rows && IsOver(e, now) && e.id == m.superseded.value;
        assert ExpiredAt(now)(e);
      }
    }
    forall k | 0 <= k < |rows|
      ensures unlinked[k] == if LinksToOver(rows, rows[k], now) then rows[k].(superseded := None) else rows[k]
    {
      assert rows[k] in rows;
    }
    forall r | r in PurgeExpired(rows, now)
      ensures exists m :: m in rows && !IsOver(m, now)
                          && r == if LinksToOver(rows, m, now) then m.(superseded := None) else m
    {
      var k :| 0 <= k < |unlinked| && unlinked[k] == r;
      assert rows[k] in rows && !IsOver(rows[k], now);
    }
    forall m | m in rows && !IsOver(m, now)
      ensures (if LinksToOver(rows, m, now) then m.(superseded := None) else m) in PurgeExpired(rows, now)
    {
      var k :| 0 <= k < |rows| && rows[k] == m;
      assert unlinked[k] in unlinked;
    }
  }

  /** The primary key and the foreign key of the table. */
  predicate Integrity(rows: seq<Memory>) {
    && (forall i, j :: 0 <= i < j < |rows| ==> rows[i].id != rows[j].id)
    && (forall m :: m in rows && m.superseded.Some? ==> exists t :: t in rows && t.id == m.superseded.value)
  }

  /** An insert is refused exactly when it would break the table. */
  lemma InsertedExactlyWhen(rows: seq<Memory>, m: Memory)
    requires Integrity(rows)
    ensures Insertable(rows, m) <==> Integrity(rows + [m])
    ensures var (next, result) := Create(rows, m); Integrity(next) && (result.Ok? <==> next != rows)
  {
    var all := rows + [m];
    if Insertable(rows, m) {
      forall x | x in all && x.superseded.Some? ensures exists t :: t in all && t.id == x.superseded.value {
        if x in rows {
          var t :| t in rows && t.id == x.superseded.value;
          assert t in all;
        } else {
          assert m in all;
        }
      }
    } else if Has(rows, m.id) {
      var k :| 0 <= k < |rows| && rows[k].id == m.id;
      assert all[k].id == all[|rows|].id;
    } else {
      assert m in all && forall t :: t in all ==> t in rows || t == m;
    }
    assert |all| == |rows| + 1;
  }
}
