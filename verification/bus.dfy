/**
 * The communication server the board and its sensors talk through. Its internals are
 * not part of this model: it is an oracle that answers the k-th call with `answers(k)`
 * and remembers every request it was given, in order, in `trace`.
 */
module Bus {
  import opened Basics

  /** Transport-level outcome of a bus call. */
  datatype ComResult = ResOk | ResTimeout | ResError

  /** Protocol-level error code returned by the remote node. */
  datatype ComError =
    | ErrNone
    | ErrInvalidCommand
    | ErrReadOnly
    | ErrObjectInvalid
    | ErrInvalidDataType
    | ErrValueRangeExceeded
    | ErrConditionsNotMet

  /**
   * One answer of the bus: the transport result, the protocol error code, and the value
   * of the object as an unsigned word (`rawValue`) and as the float it holds (`floatValue`).
   */
  datatype Response = Response(result: ComResult, error: ComError, rawValue: uint32, floatValue: real)

  /** A request the driver issues; timeouts are in milliseconds. */
  datatype Request =
    | RegisterNode(node: nat)
    | Read(node: nat, objectId: nat, timeoutMs: nat, retries: nat)
    | Write(node: nat, objectId: nat, value: uint32, timeoutMs: nat, retries: nat)

  /** A call that went through the transport and that the node accepted. */
  predicate Completed(r: Response) {
    r.result == ResOk && r.error == ErrNone
  }

  class ComServer {
    /** The answer to the k-th call ever made on this server. */
    const answers: nat -> Response
    /** Every request made so far, oldest first. */
    var trace: seq<Request>

    constructor (answers: nat -> Response)
      ensures this.answers == answers && trace == []
    {
      this.answers := answers;
      trace := [];
    }

    /** The answer the next call will receive. */
    function NextAnswer(): Response
      reads this
    {
      answers(|trace|)
    }

    method RegisterNode(node: nat) returns (result: ComResult)
      modifies this
      ensures trace == old(trace) + [Request.RegisterNode(node)]
      ensures result == old(NextAnswer()).result
    {
      result := answers(|trace|).result;
      trace := trace + [Request.RegisterNode(node)];
    }

    method ReadDataObject(node: nat, objectId: nat, timeoutMs: nat, retries: nat) returns (resp: Response)
      modifies this
      ensures trace == old(trace) + [Read(node, objectId, timeoutMs, retries)]
      ensures resp == old(NextAnswer())
    {
      resp := answers(|trace|);
      trace := trace + [Read(node, objectId, timeoutMs, retries)];
    }

    method WriteDataObject(node: nat, objectId: nat, value: uint32, timeoutMs: nat, retries: nat)
      returns (resp: Response)
      modifies this
      ensures trace == old(trace) + [Write(node, objectId, value, timeoutMs, retries)]
      ensures resp == old(NextAnswer())
    {
      resp := answers(|trace|);
      trace := trace + [Write(node, objectId, value, timeoutMs, retries)];
    }
  }
}
