/** Option and Result values used in place of Go's nil pointers and error returns. */
module Wrappers {
  datatype Option<+T> = None | Some(value: T)
  datatype Result<+T> = Ok(value: T) | Err
}

/** 64-bit Go arithmetic: time.Duration values and wrap-around of int. */
module GoInt {
  const MIN_INT64: int := -0x8000_0000_0000_0000
  const MAX_INT64: int := 0x7FFF_FFFF_FFFF_FFFF

  /** time.Duration; Dafny proves that no operation on it leaves the 64-bit range. */
  newtype Duration = x: int | -0x8000_0000_0000_0000 <= x <= 0x7FFF_FFFF_FFFF_FFFF

  predicate InRange(x: int) {
    MIN_INT64 <= x <= MAX_INT64
  }

  /** The int64 value Go stores for a mathematical result x. */
  function Wrap(x: int): (r: int)
    ensures InRange(r)
    ensures InRange(x) ==> r == x
    ensures exists k: int :: r == x + k * 0x1_0000_0000_0000_0000
  {
    var r := (x - MIN_INT64) % 0x1_0000_0000_0000_0000 + MIN_INT64;
    assert r == x + (-((x - MIN_INT64) / 0x1_0000_0000_0000_0000)) * 0x1_0000_0000_0000_0000;
    r
  }

  function Min(x: int, y: int): int {
    if x <= y then x else y
  }

  function Max(x: int, y: int): int {
    if x >= y then x else y
  }

  function Abs(x: int): nat {
    if x >= 0 then x else -x
  }
}

/** Values exchanged between the reconciler, its workers and the demand path. */
module ControllerTypes {
  import opened GoInt

  type RunnerID = string

  /** RunnerState; Unknown stands for any other string a backend might report. */
  datatype RunnerState = Provisioning | Ready | Idle | Busy | Terminal | Unknown(text: string)

  datatype Runner = Runner(id: RunnerID, state: RunnerState)

  datatype Demand = Demand(assignedJobs: int, generation: nat, busyRunners: seq<RunnerID>)

  datatype Options = Options(
    minRunners: int,
    maxRunners: int,
    workers: int,
    retryInitial: Duration,
    retryMaximum: Duration)

  /** The checks controller.New makes on the numbers the reconciler uses. */
  predicate ValidOptions(o: Options) {
    && 0 <= o.minRunners <= o.maxRunners <= MAX_INT64
    && 1 <= o.workers
    && 0 < o.retryInitial <= o.retryMaximum
  }

  datatype OperationKind = List | Create | Fence | Delete

  datatype Operation = Operation(id: nat, kind: OperationKind, runnerID: RunnerID, generation: nat)

  datatype OperationResult = OperationResult(
    operation: Operation,
    runners: seq<Runner>,
    runner: Runner,
    failed: bool)

  predicate ValidRunner(r: Runner) {
    r.id != "" && !r.state.Unknown?
  }
}
