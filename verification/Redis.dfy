/**
 The Redis keys and the stream that gateways and workers share, the commands that are sent to them,
 and the command pipes of src/queue/redis.rs and src/api/result_bus.rs.
 A pipe is not a transaction: the broker executes its commands one at a time, and other clients'
 commands may fall between them.
 */
module Redis {

  type JobId = string

  datatype Request = Request(jobId: JobId, payload: string)

  // What is stored under judge:results:{id}; `report` is everything but the id.
  datatype JobResult = JobResult(jobId: JobId, report: string)

  // What a worker's JSON parse makes of a stream entry.
  datatype Entry = Job(request: Request) | Garbled

  /** Broker state. Message ids are positions in `stream`, which keeps trimmed entries as history. */
  datatype Broker = Broker(
    results: map<JobId, JobResult>,  // judge:results:*
    markers: set<JobId>,             // judge:pending:*
    stream: seq<Entry>,              // judge:jobs, every entry ever added
    floor: nat,                      // entries below were trimmed by MAXLEN
    born: nat,                       // stream length when the consumer group was created at `$`
    delivered: nat,                  // the group's last-delivered position
    pel: set<nat>,                   // the group's pending entries list
    acked: set<nat>,                 // history: entries that XACK took off the pending list
    stored: set<JobId>               // history: ids under which a result was ever stored
  )

  datatype Command =
    | SetResult(id: JobId, result: JobResult)
    | DelResult(id: JobId)
    | SetMarkerNX(id: JobId)
    | DelMarker(id: JobId)
    | XAdd(entry: Entry)
    | XAck(msg: nat)
    | Publish(id: JobId)

  /** One command, executed atomically. PUBLISH changes no key; the Bell module models the bell. */
  function Apply(b: Broker, cmd: Command): Broker {
    match cmd
    case SetResult(id, result) => b.(results := b.results[id := result], stored := b.stored + {id})
    case DelResult(id) => b.(results := b.results - {id})
    case SetMarkerNX(id) => b.(markers := b.markers + {id})
    case DelMarker(id) => b.(markers := b.markers - {id})
    case XAdd(entry) => b.(stream := b.stream + [entry])
    case XAck(msg) => if msg in b.pel then b.(pel := b.pel - {msg}, acked := b.acked + {msg}) else b
    case Publish(_) => b
  }

  function ApplyAll(b: Broker, cmds: seq<Command>): Broker
    decreases |cmds|
  {
    if cmds == [] then b else ApplyAll(Apply(b, cmds[0]), cmds[1..])
  }

  /** The pipes the code sends: publish_result, ack_existing, the sweep's discard, and enqueue's three. */
  datatype Pipe =
    | Report(msg: nat, request: Request, result: JobResult)
    | Reack(msg: nat, id: JobId)
    | Discard(msg: nat)
    | Claim(request: Request)
    | Append(request: Request)
    | Rollback(request: Request)

  function Commands(pipe: Pipe): seq<Command> {
    match pipe
    case Report(msg, request, result) =>
      [SetResult(result.jobId, result), DelMarker(result.jobId), XAck(msg), Publish(result.jobId)]
    case Reack(msg, id) => [DelMarker(id), XAck(msg), Publish(id)]
    case Discard(msg) => [XAck(msg)]
    case Claim(request) => [DelResult(request.jobId), SetMarkerNX(request.jobId)]
    case Append(request) => [XAdd(Job(request))]
    case Rollback(request) => [DelMarker(request.jobId)]
  }

  predicate FromWorker(pipe: Pipe) {
    pipe.Report? || pipe.Reack? || pipe.Discard?
  }
}
