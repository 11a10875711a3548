/** The server side of the graphql-ws subscription protocol for one
    websocket connection: how outgoing frames are built, and how the
    connection's table of live operations is kept while operations start,
    stop and the socket closes. Every `await` is a plain sequential step;
    frames handed to the socket are appended to a log. */
module SubscriptionServer {
  import opened Common

  /** Message types of the graphql-ws protocol used here. */
  const GqlConnectionAck: string := "connection_ack"
  const GqlConnectionError: string := "connection_error"
  const GqlData: string := "data"
  const GqlComplete: string := "complete"

  /** The close code sent when `on_connect` fails (an internal error). */
  const InternalErrorCode: int := 1011

  type OpId = string

  /** A frame payload: an execution result, or the `{message: str(e)}`
      body of an error. Both are kept opaque. */
  datatype Payload = ExecutionResult(result: string) | ErrorPayload(message: string)

  datatype FrameValue = Text(text: string) | Body(payload: Payload)

  /** A JSON object sent over the socket. */
  type Frame = map<string, FrameValue>

  /** The dictionary `send_message` builds: each of the three keys is
      inserted only when its argument is not None. */
  function BuildFrame(opId: Option<OpId>, opType: Option<string>, payload: Option<Payload>): (f: Frame)
    ensures f.Keys <= {"id", "type", "payload"}
    ensures "id" in f <==> opId.Some?
    ensures "type" in f <==> opType.Some?
    ensures "payload" in f <==> payload.Some?
    ensures opId.Some? ==> f["id"] == Text(opId.value)
    ensures opType.Some? ==> f["type"] == Text(opType.value)
    ensures payload.Some? ==> f["payload"] == Body(payload.value)
    ensures f == map[] <==> opId.None? && opType.None? && payload.None?
  {
    var withId: Frame := if opId.Some? then map["id" := Text(opId.value)] else map[];
    var withType := if opType.Some? then withId["type" := Text(opType.value)] else withId;
    var frame := if payload.Some? then withType["payload" := Body(payload.value)] else withType;
    assert opId.Some? ==> "id" in frame;
    frame
  }

  /** The three optional fields a receiver reads back from a frame. */
  function ReadFrame(f: Frame): (Option<OpId>, Option<string>, Option<Payload>) {
    var id := if "id" in f && f["id"].Text? then Some(f["id"].text) else None;
    var typ := if "type" in f && f["type"].Text? then Some(f["type"].text) else None;
    var payload := if "payload" in f && f["payload"].Body? then Some(f["payload"].payload) else None;
    (id, typ, payload)
  }

  /** A built frame carries exactly the arguments it was built from. */
  lemma FrameRoundTrip(opId: Option<OpId>, opType: Option<string>, payload: Option<Payload>)
    ensures ReadFrame(BuildFrame(opId, opType, payload)) == (opId, opType, payload)
  {
  }

  function CompleteFrame(opId: OpId): Frame {
    BuildFrame(Some(opId), Some(GqlComplete), None)
  }

  function DataFrame(opId: OpId, result: Payload): Frame {
    BuildFrame(Some(opId), Some(GqlData), Some(result))
  }

  /** The data frames of a run of results, in order. */
  function DataFrames(opId: OpId, results: seq<Payload>): (fs: seq<Frame>)
    ensures |fs| == |results|
    ensures forall k :: 0 <= k < |results| ==> fs[k] == DataFrame(opId, results[k])
  {
    if results == [] then []
    else DataFrames(opId, results[..|results| - 1]) + [DataFrame(opId, results[|results| - 1])]
  }

  /** One completion frame per id, in the given order. */
  function CompleteFrames(ids: seq<OpId>): (fs: seq<Frame>)
    ensures |fs| == |ids|
    ensures forall k :: 0 <= k < |ids| ==> fs[k] == CompleteFrame(ids[k])
  {
    if ids == [] then []
    else CompleteFrames(ids[..|ids| - 1]) + [CompleteFrame(ids[|ids| - 1])]
  }

  /** The elements of a set, each once, in an order the method picks. */
  method InSomeOrder(ids: set<OpId>) returns (order: seq<OpId>)
    ensures forall id :: id in order <==> id in ids
    ensures forall k, l :: 0 <= k < l < |order| ==> order[k] != order[l]
  {
    order := [];
    var remaining := ids;
    while remaining != {}
      invariant forall id :: id in order <==> id in ids && id !in remaining
      invariant remaining <= ids
      invariant forall k, l :: 0 <= k < l < |order| ==> order[k] != order[l]
      decreases remaining
    {
      var id :| id in remaining;
      order := order + [id];
      remaining := remaining - {id};
    }
  }

  /** The iterator registered for an operation; `dispose` is recorded. */
  datatype Operation = Operation(handle: nat)

  /** What `execute` produced: an async iterator of results, or a single result. */
  datatype Execution = Stream(results: seq<Payload>) | Single(result: Payload)

  /** The operations registered under the given ids, in the same order. */
  function OperationsOf(ops: map<OpId, Operation>, ids: seq<OpId>): (r: seq<Operation>)
    requires forall id :: id in ids ==> id in ops
    ensures |r| == |ids|
    ensures forall k :: 0 <= k < |ids| ==> r[k] == ops[ids[k]]
  {
    if ids == [] then []
    else OperationsOf(ops, ids[..|ids| - 1]) + [ops[ids[|ids| - 1]]]
  }

  /** What a connection keeps track of: its table of live operations, the
      frames sent so far and the iterators disposed so far. */
  datatype Bookkeeping = Bookkeeping(operations: map<OpId, Operation>, sent: seq<Frame>, disposed: seq<Operation>)

  /** The state after `unsubscribe(opId)`. */
  function Unsubscribed(b: Bookkeeping, opId: OpId): Bookkeeping {
    Bookkeeping(
      b.operations - {opId},
      b.sent + [CompleteFrame(opId)],
      if opId in b.operations then b.disposed + [b.operations[opId]] else b.disposed)
  }

  /** `unsubscribe` takes `opId` out of the table and leaves every other
      entry as it was; it disposes the operation only when it was
      registered (an unknown id changes neither the table nor the disposed
      iterators), and it always sends exactly one GQL_COMPLETE for the id. */
  lemma UnsubscribeEffect(b: Bookkeeping, opId: OpId)
    ensures var after := Unsubscribed(b, opId);
      && opId !in after.operations
      && (forall id :: id != opId ==> (id in after.operations <==> id in b.operations))
      && (forall id :: id != opId && id in b.operations ==> after.operations[id] == b.operations[id])
      && (opId in b.operations ==> after.disposed == b.disposed + [b.operations[opId]])
      && (opId !in b.operations ==> after.disposed == b.disposed && after.operations == b.operations)
      && after.sent == b.sent + [BuildFrame(Some(opId), Some(GqlComplete), None)]
  {
  }

  /** The state after unsubscribing the ids one after the other. */
  function UnsubscribedAll(b: Bookkeeping, ids: seq<OpId>): Bookkeeping {
    if ids == [] then b
    else Unsubscribed(UnsubscribedAll(b, ids[..|ids| - 1]), ids[|ids| - 1])
  }

  /** Unsubscribing a run of ids sends one GQL_COMPLETE per id, in order. */
  lemma {:induction false} UnsubscribeAllSent(b: Bookkeeping, ids: seq<OpId>)
    ensures UnsubscribedAll(b, ids).sent == b.sent + CompleteFrames(ids)
  {
    if ids != [] {
      UnsubscribeAllSent(b, ids[..|ids| - 1]);
    }
  }

  /** Unsubscribing a run of ids removes exactly those ids from the table. */
  lemma {:induction false} UnsubscribeAllOperations(b: Bookkeeping, ids: seq<OpId>)
    ensures UnsubscribedAll(b, ids).operations == b.operations - (set id | id in ids)
  {
    if ids == [] {
      assert b.operations - (set id | id in ids) == b.operations;
    } else {
      var n := |ids| - 1;
      UnsubscribeAllOperations(b, ids[..n]);
      var done := set id | id in ids[..n];
      assert (set id | id in ids) == done + {ids[n]} by {
        assert ids == ids[..n] + [ids[n]];
      }
      assert (b.operations - done) - {ids[n]} == b.operations - (done + {ids[n]});
    }
  }

  /** Unsubscribing distinct registered ids disposes each of their
      operations once, in order. */
  lemma {:induction false} UnsubscribeAllDisposed(b: Bookkeeping, ids: seq<OpId>)
    requires forall id :: id in ids ==> id in b.operations
    requires forall k, l :: 0 <= k < l < |ids| ==> ids[k] != ids[l]
    ensures UnsubscribedAll(b, ids).disposed == b.disposed + OperationsOf(b.operations, ids)
  {
    if ids != [] {
      var n := |ids| - 1;
      var earlier, last := ids[..n], ids[n];
      forall k | 0 <= k < n ensures earlier[k] == ids[k] && earlier[k] != last { }
      UnsubscribeAllDisposed(b, earlier);
      UnsubscribeAllOperations(b, earlier);
      var before := UnsubscribedAll(b, earlier);
      assert last in before.operations && before.operations[last] == b.operations[last];
      assert UnsubscribedAll(b, ids).disposed == before.disposed + [b.operations[last]];
      assert OperationsOf(b.operations, ids) == OperationsOf(b.operations, earlier) + [b.operations[last]];
    }
  }

  /** The per-connection context: its operations table, the frames sent,
      the iterators disposed and the close code, if the socket was closed. */
  class Connection {
    var operations: map<OpId, Operation>
    var sent: seq<Frame>
    var disposed: seq<Operation>
    var closeCode: Option<int>

    function State(): Bookkeeping
      reads this
    {
      Bookkeeping(operations, sent, disposed)
    }

    constructor ()
      ensures operations == map[] && sent == [] && disposed == [] && closeCode == None
    {
      operations := map[];
      sent := [];
      disposed := [];
      closeCode := None;
    }

    /** `send_message`: a frame with no key at all fails the assertion
      (`ok` is false) and nothing is sent. */
    method SendMessage(opId: Option<OpId>, opType: Option<string>, payload: Option<Payload>) returns (ok: bool)
      modifies this`sent
      ensures ok <==> opId.Some? || opType.Some? || payload.Some?
      ensures ok ==> sent == old(sent) + [BuildFrame(opId, opType, payload)]
      ensures !ok ==> sent == old(sent)
    {
      var message := BuildFrame(opId, opType, payload);
      if message == map[] {
        return false;
      }
      sent := sent + [message];
      return true;
    }

    /** `on_operation_complete`: one GQL_COMPLETE frame for the id. */
    method OnOperationComplete(opId: OpId)
      modifies this`sent
      ensures sent == old(sent) + [CompleteFrame(opId)]
    {
      var _ := SendMessage(Some(opId), Some(GqlComplete), None);
    }

    /** `unsubscribe` (see UnsubscribeEffect). */
    method Unsubscribe(opId: OpId)
      modifies this`operations, this`disposed, this`sent
      ensures State() == Unsubscribed(old(State()), opId)
    {
      if opId in operations {
        var op := operations[opId];
        disposed := disposed + [op];
        operations := operations - {opId};
      }
      OnOperationComplete(opId);
    }

    /** `on_stop`: exactly an unsubscribe. */
    method OnStop(opId: OpId)
      modifies this`operations, this`disposed, this`sent
      ensures State() == Unsubscribed(old(State()), opId)
    {
      Unsubscribe(opId);
    }

    /** Runs `unsubscribe` for each id in turn. */
    method UnsubscribeEach(ids: seq<OpId>)
      modifies this`operations, this`disposed, this`sent
      ensures State() == UnsubscribedAll(old(State()), ids)
    {
      for k := 0 to |ids|
        invariant State() == UnsubscribedAll(old(State()), ids[..k])
      {
        Unsubscribe(ids[k]);
        assert ids[..k + 1][..k] == ids[..k];
      }
      assert ids[..|ids|] == ids;
    }

    /** `on_close`: every operation registered when the socket closed is
      unsubscribed once. The ids are collected first; the unsubscribes
      then run as concurrent tasks, so their order is not fixed: `order`
      is the order they took. */
    method OnClose() returns (order: seq<OpId>)
      modifies this`operations, this`disposed, this`sent
      ensures forall id :: id in order <==> id in old(operations)
      ensures forall k, l :: 0 <= k < l < |order| ==> order[k] != order[l]
      ensures operations == map[]
      ensures sent == old(sent) + CompleteFrames(order)
      ensures disposed == old(disposed) + OperationsOf(old(operations), order)
    {
      order := InSomeOrder(operations.Keys);
      UnsubscribeEach(order);
      UnsubscribeAllOperations(old(State()), order);
      UnsubscribeAllSent(old(State()), order);
      UnsubscribeAllDisposed(old(State()), order);
      assert old(operations) - (set id | id in order) == map[];
    }

    /** `on_connection_init`. `connectError` is the message of the
      exception `on_connect` raised, None when it returned (the hook of
      this server always returns). Success sends one GQL_CONNECTION_ACK;
      failure sends one GQL_CONNECTION_ERROR frame for `opId` and closes
      the socket with 1011. */
    method OnConnectionInit(opId: Option<OpId>, connectError: Option<string>)
      modifies this`sent, this`closeCode
      ensures connectError.None? ==>
        sent == old(sent) + [BuildFrame(None, Some(GqlConnectionAck), None)] && closeCode == old(closeCode)
      ensures connectError.Some? ==>
        sent == old(sent) + [BuildFrame(opId, Some(GqlConnectionError), Some(ErrorPayload(connectError.value)))]
        && closeCode == Some(InternalErrorCode)
    {
      match connectError
      case None =>
        var _ := SendMessage(None, Some(GqlConnectionAck), None);
      case Some(e) =>
        var _ := SendMessage(opId, Some(GqlConnectionError), Some(ErrorPayload(e)));
        closeCode := Some(InternalErrorCode);
    }

    /** `on_start` once `execute` has produced its result. A stream is
      registered under `opId` and its results are sent in order, each
      after checking that the operation is still registered. `stopAt` is
      the index of the result during whose production the client's stop
      for this operation was handled (no stop if it is past the end). The
      final GQL_COMPLETE is always sent. */
    method OnStart(opId: OpId, iter: Operation, execution: Execution, stopAt: nat)
      modifies this`operations, this`disposed, this`sent
      ensures execution.Single? ==>
        sent == old(sent) + [DataFrame(opId, execution.result), CompleteFrame(opId)]
        && operations == old(operations) && disposed == old(disposed)
      ensures execution.Stream? && stopAt >= |execution.results| ==>
        sent == old(sent) + DataFrames(opId, execution.results) + [CompleteFrame(opId)]
        && operations == old(operations)[opId := iter] && disposed == old(disposed)
      ensures execution.Stream? && stopAt < |execution.results| ==>
        sent == old(sent) + DataFrames(opId, execution.results[..stopAt]) + [CompleteFrame(opId), CompleteFrame(opId)]
        && operations == old(operations) - {opId} && disposed == old(disposed) + [iter]
    {
      match execution {
      case Single(result) =>
        var _ := SendMessage(Some(opId), Some(GqlData), Some(result));
      case Stream(results) =>
        operations := operations[opId := iter];
        var k := 0;
        while k < |results|
          invariant k <= |results| && k <= stopAt
          invariant operations == old(operations)[opId := iter] && disposed == old(disposed)
          invariant sent == old(sent) + DataFrames(opId, results[..k])
        {
          if k == stopAt {
            OnStop(opId);
          }
          if opId !in operations {
            break;
          }
          var _ := SendMessage(Some(opId), Some(GqlData), Some(results[k]));
          assert results[..k + 1][..k] == results[..k];
          k := k + 1;
        }
        if k == |results| {
          assert results[..k] == results;
        }
      }
      OnOperationComplete(opId);
    }
  }
}
