/** The control-plane datatypes every other module is stated over (src/proto.rs). */
module Protocol {

  datatype Option<+T> = None | Some(value: T)

  datatype Result<+T, +E> = Ok(value: T) | Err(error: E)

  /** Supervisor-local id; a `u64` in the source, unbounded here. */
  type Handle = nat

  type Pid = nat

  datatype Limits = Limits(memory: Option<nat>, pids: Option<nat>, cpu: Option<nat>)

  datatype RestartPolicy = Never | OnFailure | Always

  /** The immutable spawn specification. `maxRetries == 0` means unlimited. */
  datatype Spec = Spec(
    cmd: string,
    args: seq<string>,
    env: seq<(string, string)>,
    limits: Limits,
    policy: RestartPolicy,
    maxRetries: nat,
    isolate: bool)

  datatype Request =
    | Spawn(spec: Spec)
    | Signal(id: Handle, sig: int)
    | Stop(id: Handle)
    | StdinStream(id: Handle)
    | Query(id: Handle)
    | Subscribe(id: Handle)
    | Forget(id: Handle)
    | List

  /** Requests that touch no process; all others need control rights. */
  predicate IsReadOnly(req: Request) {
    req.List? || req.Query? || req.Subscribe?
  }

  /** `Exited(None)` is a death by signal. */
  datatype ProcState = Running | Exited(code: Option<int>) | Stale

  datatype Usage = Usage(memBytes: nat, cpuUsec: nat)

  datatype ProcInfo = ProcInfo(
    handle: Handle,
    pid: Pid,
    state: ProcState,
    usage: Option<Usage>,
    restarts: nat)

  datatype ControlError =
    | NotFound(id: Handle)
    | Denied
    | RateLimited
    | SpawnFailed(reason: string)
    | BadRequest(reason: string)
    | Timeout
}
