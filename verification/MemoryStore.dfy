/** The memory store: its methods change the table in place and are proved to perform the transactions of MemorySpec. */
module MemoryStore {
  import opened Wrappers
  import Spec = MemorySpec
  import opened MemorySpec

  class Store {
    var rows: seq<Memory>

    constructor ()
      ensures rows == []
    {
      rows := [];
    }

    method Insert(m: Memory) returns (ok: bool)
      modifies this
      ensures ok == Insertable(old(rows), m)
      ensures rows == if ok then old(rows) + [m] else old(rows)
    {
      ok := !Has(rows, m.id) && (m.superseded.None? || m.superseded.value == m.id || Has(rows, m.superseded.value));
      if ok {
        rows := rows + [m];
      }
    }

    /** Updates matching rows one by one and counts them. */
    method UpdateWhere(p: Memory -> bool, f: Memory -> Memory) returns (changed: nat)
      modifies this
      ensures rows == Update(old(rows), p, f)
      ensures changed > 0 <==> exists m :: m in old(rows) && p(m)
    {
      changed := 0;
      var i := 0;
      while i < |rows|
        invariant 0 <= i <= |rows| == |old(rows)|
        invariant forall k :: 0 <= k < |rows| ==>
                    rows[k] == if k < i && p(old(rows)[k]) then f(old(rows)[k]) else old(rows)[k]
        invariant changed > 0 <==> exists k :: 0 <= k < i && p(old(rows)[k])
      {
        if p(rows[i]) {
          rows := rows[i := f(rows[i])];
          changed := changed + 1;
        }
        i := i + 1;
      }
      assert rows == Update(old(rows), p, f);
    }

    method Create(m: Memory) returns (r: Result<Memory, MemoryError>)
      modifies this
      ensures (rows, r) == Spec.Create(old(rows), m)
    {
      var ok := Insert(m);
      r := if ok then Ok(m) else Err(Conflict);
    }

    method Replace(id: MemoryId, replacement: Memory, subject: string, now: Time) returns (r: Result<Memory, MemoryError>)
      modifies this
      ensures (rows, r) == Spec.Replace(old(rows), id, replacement, subject, now)
    {
      var current := Find(rows, id);
      if current.None? || current.value.subject != subject || current.value.deleted.Some? {
        return Err(NotFound);
      }
      var m := replacement.(root := current.value.root);
      var ok := Insert(m);
      if !ok {
        return Err(Conflict);
      }
      var changed := UpdateWhere(IsActiveRow(id), Supersede(now, m.id));
      return Ok(m);
    }

    method HardDelete(id: MemoryId, subject: string) returns (deleted: bool)
      modifies this
      ensures (rows, deleted) == Spec.HardDelete(old(rows), id, subject)
    {
      var current := Find(rows, id);
      if current.None? || current.value.subject != subject {
        return false;
      }
      var changed := UpdateWhere(InRoot(current.value.root), Unlink());
      rows := Delete(rows, InRootOf(current.value.root, subject));
      deleted := true;
    }

    method PurgeExpired(now: Time) returns (purged: nat)
      modifies this
      ensures rows == Spec.PurgeExpired(old(rows), now)
      ensures purged + |rows| == |old(rows)|
    {
      var expired := Ids(rows, ExpiredAt(now));
      var changed := UpdateWhere(PointsInto(expired), Unlink());
      var kept := Delete(rows, ExpiredAt(now));
      DeleteShrinks(rows, ExpiredAt(now));
      purged, rows := |rows| - |kept|, kept;
    }
  }
}
