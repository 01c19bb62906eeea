/** The generations table, abstracted to a map from id to record. */
module Repository {
  import opened Wrappers
  import opened Domain

  type Table = map<string, Generation>

  /** `UpsertGeneration`: overwrites every column except created_at. */
  function Upsert(rows: Table, g: Generation): Table {
    if g.id in rows then rows[g.id := g.(createdAt := rows[g.id].createdAt)] else rows[g.id := g]
  }

  function UpsertAll(rows: Table, gs: seq<Generation>): Table {
    if gs == [] then rows else Upsert(UpsertAll(rows, gs[..|gs| - 1]), gs[|gs| - 1])
  }

  /** The first write to `id` among `gs`. */
  predicate FirstWrite(gs: seq<Generation>, k: nat, id: string) {
    && k < |gs| && gs[k].id == id
    && forall i :: 0 <= i < k ==> gs[i].id != id
  }

  predicate LastWrite(gs: seq<Generation>, k: nat, id: string) {
    && k < |gs| && gs[k].id == id
    && forall i :: k < i < |gs| ==> gs[i].id != id
  }

  lemma {:induction false} UnwrittenIsUntouched(rows: Table, gs: seq<Generation>, id: string)
    requires forall i :: 0 <= i < |gs| ==> gs[i].id != id
    ensures id in UpsertAll(rows, gs) <==> id in rows
    ensures id in rows ==> UpsertAll(rows, gs)[id] == rows[id]
  {
    if gs == [] {
    } else {
      UnwrittenIsUntouched(rows, gs[..|gs| - 1], id);
    }
  }

  /** After any sequence of saves, by any number of generations, a row new to the table
      holds its last write, except that created_at is the one of its first write. */
  lemma {:induction false} RowAfterSaves(rows: Table, gs: seq<Generation>, id: string, first: nat, last: nat)
    requires id !in rows
    requires FirstWrite(gs, first, id) && LastWrite(gs, last, id)
    ensures id in UpsertAll(rows, gs)
    ensures UpsertAll(rows, gs)[id] == gs[last].(createdAt := gs[first].createdAt)
  {
    var n := |gs| - 1;
    var before := gs[..n];
    if gs[n].id != id {
      RowAfterSaves(rows, before, id, first, last);
    } else if first == n {
      UnwrittenIsUntouched(rows, before, id);
    } else {
      var prev := LastBefore(before, first, id);
      RowAfterSaves(rows, before, id, first, prev);
    }
  }

  lemma {:induction false} LastBefore(gs: seq<Generation>, k: nat, id: string) returns (last: nat)
    requires k < |gs| && gs[k].id == id
    ensures LastWrite(gs, last, id)
  {
    var n := |gs| - 1;
    if gs[n].id == id {
      last := n;
    } else {
      last := LastBefore(gs[..n], k, id);
    }
  }

  datatype ReadError = GenerationNotFound | ReadFailed

  class GenerationRepo {
    var rows: Table

    constructor ()
      ensures rows == map[]
    {
      rows := map[];
    }

    /** `Save`; a call that fails may have reached the table all the same. */
    method Save(g: Generation, ok: bool, applied: bool) returns (r: bool)
      requires ok ==> applied
      modifies this
      ensures r == ok
      ensures rows == if applied then Upsert(old(rows), g) else old(rows)
      ensures forall id :: id != g.id ==>
                (id in rows <==> id in old(rows)) && (id in rows ==> rows[id] == old(rows)[id])
    {
      if applied {
        var created := if g.id in rows then rows[g.id].createdAt else g.createdAt;
        rows := rows[g.id := Generation(g.id, g.sourceUrl, g.profile, g.status, g.variations, created)];
      }
      return ok;
    }

    /** `Get`: a read may also fail for a reason of its own. */
    method Get(id: string, ok: bool) returns (r: Result<Generation, ReadError>)
      ensures r == if !ok then Err(ReadFailed) else if id in rows then Ok(rows[id]) else Err(GenerationNotFound)
    {
      if !ok {
        return Err(ReadFailed);
      }
      if id in rows {
        return Ok(rows[id]);
      }
      return Err(GenerationNotFound);
    }
  }
}
