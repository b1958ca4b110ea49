/**
 * ExportOperationsRaw (apps/meteor/server/models/raw/ExportOperations.ts): the user-data export
 * queue. The finders are filters and an ordering over the collection in natural order;
 * create and updateOperation change it.
 */
module ExportOperations {
  import opened Wrappers
  import opened Collections
  import Js

  /** An export operation; `createdAt` is epoch milliseconds, the export payload fields are opaque values. */
  datatype ExportOperation = ExportOperation(
    id: string,
    userId: string,
    fullExport: Option<bool>,
    createdAt: int,
    status: string,
    roomList: Js.Value,
    fileList: Js.Value,
    generatedFile: Js.Value,
    fileId: Js.Value,
    userNameTable: Js.Value,
    userData: Js.Value,
    generatedUserFile: Js.Value,
    generatedAvatar: Js.Value,
    exportPath: Js.Value,
    assetsPath: Js.Value)

  /** `status: { $nin: ['completed', 'skipped'] }`. */
  predicate Pending(op: ExportOperation) {
    op.status != "completed" && op.status != "skipped"
  }

  /** findOnePending: the first pending operation in natural order. */
  function FindOnePending(ops: seq<ExportOperation>): (r: Option<ExportOperation>)
    ensures r.Some? ==> r.value in ops && Pending(r.value)
    ensures r.None? <==> forall i :: 0 <= i < |ops| ==> !Pending(ops[i])
    ensures r.Some? ==> exists i :: 0 <= i < |ops| && ops[i] == r.value && forall k :: 0 <= k < i ==> !Pending(ops[k])
  {
    match FirstIndex(ops, Pending)
    case None => None
    case Some(i) => Some(ops[i])
  }

  /** `{ userId, fullExport }`: an operation without the `fullExport` field matches neither value. */
  predicate ByUser(op: ExportOperation, userId: string, fullExport: bool) {
    op.userId == userId && op.fullExport == Some(fullExport)
  }

  /**
   * findLastOperationByUser (`fullExport` defaults to false at the call site): the matching
   * operation with the greatest `createdAt`; among equal ones the earliest in natural order.
   */
  function FindLastOperationByUser(ops: seq<ExportOperation>, userId: string, fullExport: bool): (r: Option<ExportOperation>)
    ensures r.None? <==> forall i :: 0 <= i < |ops| ==> !ByUser(ops[i], userId, fullExport)
    ensures r.Some? ==> r.value in ops && ByUser(r.value, userId, fullExport)
    ensures r.Some? ==> forall i :: 0 <= i < |ops| && ByUser(ops[i], userId, fullExport) ==> ops[i].createdAt <= r.value.createdAt
  {
    if |ops| == 0 then None
    else
      var rest := FindLastOperationByUser(ops[1..], userId, fullExport);
      assert forall i :: 1 <= i < |ops| ==> ops[i] == ops[1..][i - 1];
      if !ByUser(ops[0], userId, fullExport) then rest
      else if rest.Some? && rest.value.createdAt > ops[0].createdAt then rest
      else Some(ops[0])
  }

  /** findAllPendingBeforeMyRequest: the pending operations created strictly before `requestDay`, each as often as stored. */
  function FindAllPendingBeforeMyRequest(ops: seq<ExportOperation>, requestDay: int): (r: seq<ExportOperation>)
    ensures forall op :: op in r <==> op in ops && Pending(op) && op.createdAt < requestDay
    ensures forall op :: multiset(r)[op] == if Pending(op) && op.createdAt < requestDay then multiset(ops)[op] else 0
    ensures |r| <= |ops|
  {
    Filter(ops, (op: ExportOperation) => Pending(op) && op.createdAt < requestDay)
  }

  /** The error insertOne throws for an `_id` already present. */
  datatype ExportError = DuplicateKey

  /** Whether an operation with this id is stored. */
  predicate HasId(ops: seq<ExportOperation>, id: string) {
    exists i :: 0 <= i < |ops| && ops[i].id == id
  }

  /** The `_id` index: no two stored operations share an id. */
  predicate UniqueIds(ops: seq<ExportOperation>) {
    forall a, b :: 0 <= a < b < |ops| ==> ops[a].id != ops[b].id
  }

  /** create: `{ ...data, createdAt: now }` appended, keeping the given `_id`. */
  function CreateEffect(ops: seq<ExportOperation>, data: ExportOperation, now: int): (r: Result<seq<ExportOperation>, ExportError>)
    ensures HasId(ops, data.id) <==> r.Err?
    ensures r.Ok? ==> r.value == ops + [data.(createdAt := now)]
  {
    if HasId(ops, data.id) then Err(DuplicateKey) else Ok(ops + [data.(createdAt := now)])
  }

  /** The record after updateOperation: the eleven listed fields from `data`, all others kept. */
  function Updated(op: ExportOperation, data: ExportOperation): (r: ExportOperation)
    ensures r.id == op.id && r.userId == op.userId && r.fullExport == op.fullExport && r.createdAt == op.createdAt
    ensures r.status == data.status && r.roomList == data.roomList && r.fileList == data.fileList
    ensures r.generatedFile == data.generatedFile && r.fileId == data.fileId && r.userNameTable == data.userNameTable
    ensures r.userData == data.userData && r.generatedUserFile == data.generatedUserFile
    ensures r.generatedAvatar == data.generatedAvatar && r.exportPath == data.exportPath && r.assetsPath == data.assetsPath
  {
    op.(
      roomList := data.roomList,
      status := data.status,
      fileList := data.fileList,
      generatedFile := data.generatedFile,
      fileId := data.fileId,
      userNameTable := data.userNameTable,
      userData := data.userData,
      generatedUserFile := data.generatedUserFile,
      generatedAvatar := data.generatedAvatar,
      exportPath := data.exportPath,
      assetsPath := data.assetsPath)
  }

  /** The id of an operation, for the `{ _id: data._id }` filter. */
  function IdIs(id: string): ExportOperation -> bool {
    (op: ExportOperation) => op.id == id
  }

  /** updateOperation: updateOne on the first record with `data`'s id. */
  function UpdateEffect(ops: seq<ExportOperation>, data: ExportOperation): (r: seq<ExportOperation>)
    ensures |r| == |ops|
    ensures FirstIndex(ops, IdIs(data.id)).None? ==> r == ops
    ensures FirstIndex(ops, IdIs(data.id)).Some? ==>
      var i := FirstIndex(ops, IdIs(data.id)).value;
      && r[i] == Updated(ops[i], data)
      && forall k :: 0 <= k < |ops| && k != i ==> r[k] == ops[k]
  {
    match FirstIndex(ops, IdIs(data.id))
    case None => ops
    case Some(i) => ops[i := Updated(ops[i], data)]
  }

  /** updateOperation changes only the matching record, and never its owner, scope or creation time. */
  lemma UpdateKeepsIdentity(ops: seq<ExportOperation>, data: ExportOperation, i: nat)
    requires i < |ops|
    ensures var r := UpdateEffect(ops, data);
      && r[i].id == ops[i].id && r[i].userId == ops[i].userId
      && r[i].fullExport == ops[i].fullExport && r[i].createdAt == ops[i].createdAt
      && (ops[i].id != data.id ==> r[i] == ops[i])
  {
  }

  /** An update with no matching record changes nothing. */
  lemma UpdateUnknownIdNoop(ops: seq<ExportOperation>, data: ExportOperation)
    requires !HasId(ops, data.id)
    ensures UpdateEffect(ops, data) == ops
  {
    match FirstIndex(ops, IdIs(data.id))
    case None =>
    case Some(i) => assert false;
  }

  /** Marking an operation completed or skipped takes it out of the pending set. */
  lemma CompletedNotPending(ops: seq<ExportOperation>, data: ExportOperation, requestDay: int)
    requires UniqueIds(ops)
    requires data.status == "completed" || data.status == "skipped"
    ensures forall op :: op in FindAllPendingBeforeMyRequest(UpdateEffect(ops, data), requestDay) ==> op.id != data.id
  {
    var r := UpdateEffect(ops, data);
    forall op | op in FindAllPendingBeforeMyRequest(r, requestDay)
      ensures op.id != data.id
    {
      var k :| 0 <= k < |r| && r[k] == op;
      match FirstIndex(ops, IdIs(data.id))
      case None =>
      case Some(i) =>
        if k < i {
          assert !IdIs(data.id)(ops[k]);
        } else if k > i {
          assert ops[k].id != ops[i].id;
        }
    }
  }

  /** A created operation, stamped later than everything stored, is the user's last operation. */
  lemma {:induction false} CreatedIsLast(ops: seq<ExportOperation>, data: ExportOperation, now: int)
    requires CreateEffect(ops, data, now).Ok? && data.fullExport.Some?
    requires forall i :: 0 <= i < |ops| ==> ops[i].createdAt < now
    ensures var r := CreateEffect(ops, data, now).value;
      var last := FindLastOperationByUser(r, data.userId, data.fullExport.value);
      last.Some? && last.value.createdAt == now
  {
    var r := CreateEffect(ops, data, now).value;
    var last := FindLastOperationByUser(r, data.userId, data.fullExport.value);
    assert r[|ops|] == data.(createdAt := now);
    assert ByUser(r[|ops|], data.userId, data.fullExport.value);
    assert last.Some?;
    assert last.value.createdAt >= now;
  }

  /** A created operation is stamped with the creation time, whatever `data.createdAt` said. */
  lemma CreateStampsNow(ops: seq<ExportOperation>, data: ExportOperation, now: int)
    requires CreateEffect(ops, data, now).Ok?
    ensures var r := CreateEffect(ops, data, now).value;
      |r| == |ops| + 1 && r[|ops|].createdAt == now && r[|ops|].id == data.id && r[..|ops|] == ops
  {
  }

  /** create and updateOperation keep ids unique. */
  lemma WritesKeepIdsUnique(ops: seq<ExportOperation>, data: ExportOperation, now: int)
    requires UniqueIds(ops)
    ensures CreateEffect(ops, data, now).Ok? ==> UniqueIds(CreateEffect(ops, data, now).value)
    ensures UniqueIds(UpdateEffect(ops, data))
  {
    var r := UpdateEffect(ops, data);
    forall a, b | 0 <= a < b < |r|
      ensures r[a].id != r[b].id
    {
      UpdateKeepsIdentity(ops, data, a);
      UpdateKeepsIdentity(ops, data, b);
    }
  }

  /** The export_operations collection as an object updated in place. */
  class ExportOperationsStore {
    var ops: seq<ExportOperation>

    constructor (initial: seq<ExportOperation>)
      ensures ops == initial
    {
      ops := initial;
    }

    /** create(data): the inserted id, or the duplicate-key error. */
    method Create(data: ExportOperation, now: int) returns (r: Result<string, ExportError>)
      modifies this
      ensures CreateEffect(old(ops), data, now).Ok? ==> r == Ok(data.id) && ops == CreateEffect(old(ops), data, now).value
      ensures CreateEffect(old(ops), data, now).Err? ==> r == Err(DuplicateKey) && ops == old(ops)
    {
      var i := FirstIndex(ops, IdIs(data.id));
      if i.Some? {
        assert ops[i.value].id == data.id;
        return Err(DuplicateKey);
      }
      ops := ops + [data.(createdAt := now)];
      return Ok(data.id);
    }

    /** updateOperation(data): the number of records matched. */
    method UpdateOperation(data: ExportOperation) returns (matched: nat)
      modifies this
      ensures ops == UpdateEffect(old(ops), data)
      ensures matched == (if HasId(old(ops), data.id) then 1 else 0)
    {
      var i := FirstIndex(ops, IdIs(data.id));
      if i.None? {
        return 0;
      }
      assert ops[i.value].id == data.id;
      ops := ops[i.value := Updated(ops[i.value], data)];
      return 1;
    }
  }
}
