/** The handle under which a group callback passes a group's id and type to later
    callbacks (src/callbacks.c). */
module Groups {
  const OFPGT_ALL: bv8 := 0
  const OFPGT_INDIRECT: bv8 := 2

  /** The calls on the plugin. */
  datatype GroupCall =
    | AllocGroup(id: bv32, ty: bv64)
    | CreateGroup(id: bv32, ty: bv64)
    | DeleteGroup(id: bv32, ty: bv64, ok: bool)

  datatype GroupError = NoError | NotSupported | Unknown

  /** The handle of a group, given its type shifted left by 31. */
  function PackHandle(shifted: bv64, id: bv32): bv64 {
    shifted + (id as bv64)
  }

  function HandleId(handle: bv64): bv32 {
    (handle & 0xffff_ffff) as bv32
  }

  function HandleType(handle: bv64): bv64 {
    handle >> 31
  }

  class GroupAgent {
    ghost var log: seq<GroupCall>

    constructor ()
      ensures log == []
    {
      log := [];
    }

    /** `shifted` is what the C shift of the type gives: 0 for OFPGT_ALL, and a value C leaves open
        for OFPGT_INDIRECT, whose shift overflows an int. */
    method GroupCreate(groupId: bv32, groupType: bv8, shifted: bv64) returns (error: GroupError, entryPriv: bv64)
      requires groupType == OFPGT_ALL ==> shifted == 0
      modifies this
      ensures error == CreateError(groupType) && log == old(log) + CreateCalls(groupId, groupType)
      ensures error.NoError? ==>
                entryPriv == PackHandle(shifted, groupId) && (groupType == 0 ==> entryPriv == groupId as bv64)
    {
      entryPriv := 0;
      HandleOfAll(groupId);
      if groupType == OFPGT_ALL || groupType == OFPGT_INDIRECT {
        log := log + [AllocGroup(groupId, groupType as bv64), CreateGroup(groupId, groupType as bv64)];
      } else {
        return NotSupported, entryPriv;
      }
      entryPriv := PackHandle(shifted, groupId);
      error := NoError;
    }

    method GroupModify(entryPriv: bv64, deleteOk: bool) returns (error: GroupError)
      modifies this
      ensures log == old(log) + ModifyCalls(entryPriv, deleteOk)
      ensures error == if deleteOk then NoError else Unknown
    {
      var groupId, groupType := HandleId(entryPriv), HandleType(entryPriv);
      if !deleteOk {
        log := log + [DeleteGroup(groupId, groupType, false)];
        return Unknown;
      }
      log := log + [DeleteGroup(groupId, groupType, true)];
      log := log + [AllocGroup(groupId, groupType), CreateGroup(groupId, groupType)];
      error := NoError;
    }

    /** Here the type is truncated to 8 bits. */
    method GroupDelete(entryPriv: bv64, deleteOk: bool) returns (error: GroupError)
      modifies this
      ensures log == old(log) + DeleteCalls(entryPriv, deleteOk)
      ensures error == if deleteOk then NoError else Unknown
    {
      log := log + [DeleteGroup(HandleId(entryPriv), HandleType(entryPriv) & 0xff, deleteOk)];
      error := if deleteOk then NoError else Unknown;
    }

    /** The life of a group of type all: created, modified and deleted under the handle it was given. */
    method Live(groupId: bv32, modifyOk: bool, deleteOk: bool)
      requires groupId < 0x8000_0000
      modifies this
      ensures log == old(log)
                     + [AllocGroup(groupId, 0), CreateGroup(groupId, 0)]
                     + (if modifyOk
                        then [DeleteGroup(groupId, 0, true), AllocGroup(groupId, 0), CreateGroup(groupId, 0)]
                        else [DeleteGroup(groupId, 0, false)])
                     + [DeleteGroup(groupId, 0, deleteOk)]
    {
      var _, entryPriv := GroupCreate(groupId, OFPGT_ALL, 0);
      LaterCallsExactly(groupId, modifyOk);
      var _ := GroupModify(entryPriv, modifyOk);
      LaterCallsExactly(groupId, deleteOk);
      var _ := GroupDelete(entryPriv, deleteOk);
    }
  }

  function CreateError(groupType: bv8): GroupError {
    if groupType == OFPGT_ALL || groupType == OFPGT_INDIRECT then NoError else NotSupported
  }

  function CreateCalls(id: bv32, groupType: bv8): seq<GroupCall> {
    if CreateError(groupType).NoError? then [AllocGroup(id, groupType as bv64), CreateGroup(id, groupType as bv64)]
    else []
  }

  function ModifyCalls(handle: bv64, deleteOk: bool): seq<GroupCall> {
    var id, ty := HandleId(handle), HandleType(handle);
    [DeleteGroup(id, ty, deleteOk)] + if deleteOk then [AllocGroup(id, ty), CreateGroup(id, ty)] else []
  }

  function DeleteCalls(handle: bv64, deleteOk: bool): seq<GroupCall> {
    [DeleteGroup(HandleId(handle), HandleType(handle) & 0xff, deleteOk)]
  }

  /** The handle of an OFPGT_ALL group always gives back its id, and gives back its type exactly when
      the id is below 2^31; from there on the id's top bit reads as type 1. */
  lemma HandleRoundTrip(id: bv32)
    ensures HandleId(PackHandle(0, id)) == id
    ensures HandleType(PackHandle(0, id)) == 0 <==> id < 0x8000_0000
    ensures id >= 0x8000_0000 ==> HandleType(PackHandle(0, id)) == 1
  {
  }

  /** Groups of type all (0) and indirect (2) are allocated and created; of the others, select (1) and fast failover
      (3) among them, nothing is called. */
  lemma CreateCallsExactly(id: bv32, ty: bv8)
    ensures CreateCalls(id, 0) == [AllocGroup(id, 0), CreateGroup(id, 0)]
    ensures CreateCalls(id, 2) == [AllocGroup(id, 2), CreateGroup(id, 2)]
    ensures ty != 0 && ty != 2 ==> CreateCalls(id, ty) == []
    ensures CreateError(ty) == if ty == 0 || ty == 2 then NoError else NotSupported
  {
  }

  /** The handle is a sum, and the id survives whatever a shift leaves above the low 32 bits. */
  lemma HandleKeepsId(shifted: bv64, high: bv32, id: bv32)
    ensures PackHandle(shifted, id) == (id as bv64) + shifted
    ensures HandleId(PackHandle((high as bv64) << 32, id)) == id
  {
  }

  lemma HandleOfAll(id: bv32)
    ensures PackHandle(0, id) == id as bv64
  {
  }

  /** Whatever is later done with the handle of an OFPGT_ALL group, every call names that very group
      exactly when its id is below 2^31. */
  lemma LaterCallsNameTheGroup(id: bv32, deleteOk: bool, c: GroupCall)
    requires c in ModifyCalls(PackHandle(0, id), deleteOk) || c in DeleteCalls(PackHandle(0, id), deleteOk)
    ensures c.id == id
    ensures c.ty == OFPGT_ALL as bv64 <==> id < 0x8000_0000
  {
    HandleRoundTrip(id);
  }

  /** Under the handle of an OFPGT_ALL group with an id below 2^31, exactly these calls are made: a modify deletes
      the group and, if it could, allocates and creates it anew; a delete deletes it. */
  lemma LaterCallsExactly(id: bv32, ok: bool)
    requires id < 0x8000_0000
    ensures ModifyCalls(id as bv64, true) == [DeleteGroup(id, 0, true), AllocGroup(id, 0), CreateGroup(id, 0)]
    ensures ModifyCalls(id as bv64, false) == [DeleteGroup(id, 0, false)]
    ensures DeleteCalls(id as bv64, ok) == [DeleteGroup(id, 0, ok)]
  {
    HandleRoundTrip(id);
    HandleOfAll(id);
  }

  /** From 2^31 on, the same calls are made for a group of another type: 1, which is OFPGT_SELECT. */
  lemma LaterCallsMistaken(id: bv32, ok: bool)
    requires id >= 0x8000_0000
    ensures ModifyCalls(id as bv64, true) == [DeleteGroup(id, 1, true), AllocGroup(id, 1), CreateGroup(id, 1)]
    ensures ModifyCalls(id as bv64, false) == [DeleteGroup(id, 1, false)]
    ensures DeleteCalls(id as bv64, ok) == [DeleteGroup(id, 1, ok)]
  {
    HandleRoundTrip(id);
    HandleOfAll(id);
  }

  /** Whatever the handle, a modify takes its type from bit 31 up, and a delete the low byte of that alone. */
  lemma TypeOfAnyHandle(handle: bv64, upper: bv64, ty: bv8, ok: bool)
    requires upper < 0x100_0000 && handle >> 31 == (upper << 8) | (ty as bv64)
    ensures forall c :: c in ModifyCalls(handle, ok) ==> c.ty == (upper << 8) | (ty as bv64)
    ensures DeleteCalls(handle, ok) == [DeleteGroup((handle & 0xffff_ffff) as bv32, ty as bv64, ok)]
  {
    LowByte(upper, ty);
  }

  lemma LowByte(upper: bv64, ty: bv8)
    requires upper < 0x100_0000
    ensures ((upper << 8) | (ty as bv64)) & 0xff == ty as bv64
  {
  }
}
