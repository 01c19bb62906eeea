/** The Redis side of idempotency: what one key holds, and `RedisIdempotencyStore`. */
module IdempotencyStore {
  import opened Wrappers

  /** The sentinel `Reserve` writes. Generation ids are UUIDs and never equal it. */
  const PENDING := "pending"

  datatype LookupError = NotFound | StillPending | Unavailable

  /** SETNX: the new value of the key, and whether the caller created it. */
  function SetNX(cell: Option<string>): (r: (Option<string>, bool))
    ensures r.0.Some?
    ensures r.1 <==> cell.None?
    ensures !r.1 ==> r.0 == cell
  {
    if cell.None? then (Some(PENDING), true) else (cell, false)
  }

  /** How `Get` reads a value. */
  function Interpret(cell: Option<string>): (r: Result<string, LookupError>)
    ensures r.Ok? <==> cell.Some? && cell.value != PENDING
    ensures r.Ok? ==> cell == Some(r.value)
  {
    match cell
    case None => Err(NotFound)
    case Some(v) => if v == PENDING then Err(StillPending) else Ok(v)
  }

  datatype Entry = Entry(value: string, deadline: int)

  class RedisIdempotencyStore {
    const ttl: int
    var entries: map<string, Entry>

    constructor (ttl: int)
      requires ttl > 0
      ensures this.ttl == ttl && entries == map[]
    {
      this.ttl := ttl;
      entries := map[];
    }

    /** What `key` holds at time `now`; an entry is dead once its deadline is reached. */
    ghost function Cell(key: string, now: int): Option<string>
      reads this
    {
      if key in entries && now < entries[key].deadline then Some(entries[key].value) else None
    }

    /** The calls below change no other key. */
    twostate predicate OnlyTouches(key: string)
      reads this
    {
      forall k :: k != key ==> (k in entries <==> k in old(entries)) &&
                               (k in entries && k in old(entries) ==> entries[k] == old(entries)[k])
    }

    method Reserve(key: string, now: int, fault: Fault) returns (r: Result<bool, LookupError>)
      requires ttl > 0
      modifies this
      ensures OnlyTouches(key)
      ensures fault == NoFault ==> r == Ok(SetNX(old(Cell(key, now))).1)
      ensures fault != NoFault ==> r == Err(Unavailable)
      ensures Cell(key, now) == if fault == Lost then old(Cell(key, now)) else SetNX(old(Cell(key, now))).0
      ensures if fault != Lost && old(Cell(key, now)) == None
              then key in entries && entries[key] == Entry(PENDING, now + ttl)
              else entries == old(entries)
    {
      if fault == Lost {
        return Err(Unavailable);
      }
      var created := !(key in entries && now < entries[key].deadline);
      if created {
        entries := entries[key := Entry(PENDING, now + ttl)];
      }
      if fault == LostReply {
        return Err(Unavailable);
      }
      return Ok(created);
    }

    /** A plain DEL: whoever wrote the value. */
    method Release(key: string, now: int, fault: Fault) returns (ok: bool)
      modifies this
      ensures OnlyTouches(key)
      ensures ok <==> fault == NoFault
      ensures Cell(key, now) == if fault == Lost then old(Cell(key, now)) else None
    {
      if fault == Lost {
        return false;
      }
      entries := entries - {key};
      return fault == NoFault;
    }

    /** SET with the full TTL. */
    method Save(key: string, generationId: string, now: int, fault: Fault) returns (ok: bool)
      requires ttl > 0
      modifies this
      ensures OnlyTouches(key)
      ensures ok <==> fault == NoFault
      ensures Cell(key, now) == if fault == Lost then old(Cell(key, now)) else Some(generationId)
      ensures fault != Lost ==> key in entries && entries[key] == Entry(generationId, now + ttl)
    {
      if fault == Lost {
        return false;
      }
      entries := entries[key := Entry(generationId, now + ttl)];
      return fault == NoFault;
    }

    method Get(key: string, now: int, fault: Fault) returns (r: Result<string, LookupError>)
      ensures r == if fault == NoFault then Interpret(Cell(key, now)) else Err(Unavailable)
    {
      if fault != NoFault {
        return Err(Unavailable);
      }
      if !(key in entries && now < entries[key].deadline) {
        return Err(NotFound);
      }
      if entries[key].value == PENDING {
        return Err(StillPending);
      }
      return Ok(entries[key].value);
    }
  }
}
