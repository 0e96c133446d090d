/**
 * The in-memory room registry `window.roomRegistry`: room code to the
 * record the host stored when it created the room.
 */
module Rooms {
  import opened Basics
  import RoomCode

  /** The `roomData` object a host stores: its code, its PeerJS id and when it was stored. */
  datatype RoomData = RoomData(code: string, peerId: PeerId, timestamp: Timestamp)

  type Registry = map<string, RoomData>

  /** The registry starts as an empty object. */
  const EmptyRegistry: Registry := map[]

  /** `window.roomRegistry[data.code] = data`: insert, or overwrite an entry with the same code. */
  function Register(reg: Registry, data: RoomData): (r: Registry)
    ensures r.Keys == reg.Keys + {data.code}
    ensures r[data.code] == data
    ensures forall k :: k in reg && k != data.code ==> r[k] == reg[k]
  {
    reg[data.code := data]
  }

  /** `window.roomRegistry[code]`, with a missing key read as `null`. */
  function Lookup(reg: Registry, code: string): (r: Option<RoomData>)
    ensures r.Some? <==> code in reg
    ensures r.Some? ==> r.value == reg[code]
  {
    if code in reg then Some(reg[code]) else None
  }

  /** `delete window.roomRegistry[code]`: a no-op when the key is absent. */
  function Unregister(reg: Registry, code: string): (r: Registry)
    ensures r.Keys == reg.Keys - {code}
    ensures forall k :: k in r ==> r[k] == reg[k]
  {
    reg - {code}
  }

  /** Every entry is filed under its own code, and that code is a valid room code. */
  predicate WellFormed(reg: Registry)
  {
    forall k :: k in reg ==> reg[k].code == k && RoomCode.ValidRoomCode(k)
  }

  /** A lookup right after registering finds the record just stored, whatever was there before. */
  lemma LookupAfterRegister(reg: Registry, data: RoomData, code: string)
    ensures Lookup(Register(reg, data), code) == if code == data.code then Some(data) else Lookup(reg, code)
  {
  }

  /** A lookup after unregistering a code misses; other codes are found as before. */
  lemma LookupAfterUnregister(reg: Registry, gone: string, code: string)
    ensures Lookup(Unregister(reg, gone), code) == if code == gone then None else Lookup(reg, code)
  {
  }

  /** Removing a code twice is removing it once. */
  lemma UnregisterIdempotent(reg: Registry, code: string)
    ensures Unregister(Unregister(reg, code), code) == Unregister(reg, code)
  {
  }

  /** Registering a record filed under a valid code keeps the registry well formed; so does removal. */
  lemma RegistryOpsPreserveWellFormed(reg: Registry, data: RoomData, code: string)
    requires WellFormed(reg)
    ensures RoomCode.ValidRoomCode(data.code) ==> WellFormed(Register(reg, data))
    ensures WellFormed(Unregister(reg, code))
  {
  }
}
