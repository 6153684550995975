/**
 * The Incus server and GitHub's registration API as a runner's create and delete see them: a hostile
 * environment. Between any two calls the instance under the runner's name may vanish or be replaced, and a
 * mutation may take effect and still report failure.
 */
module Incus {
  import opened Wrappers
  import opened Launch

  /** The instance status, case folded. */
  datatype Status = Stopped | Running | OtherStatus

  datatype Instance = Instance(config: Config, devices: Devices, status: Status)

  /** GetInstance's answers; a response without error may still carry no instance. */
  datatype GetResult = Found(instance: Option<Instance>, etag: string) | NotFound | GetFailed

  datatype Outcome = Done | Missing | Failed

  const PAYLOAD_PATH := "/run/incus-gh-runner/payload.json"
  const READY_PATH := "/run/incus-gh-runner/payload.ready"

  /** What is written to a guest file: the JSON runtime payload, or nothing. */
  datatype Content = PayloadJSON(version: int, jitConfig: string) | Empty

  /** One call to the environment and what it did; affected is the instance it really acted on. */
  datatype Call =
    | Create(name: string, config: Config, devices: Devices, image: string, outcome: Outcome)
    | Get(result: GetResult)
    | Update(etag: string, config: Config, outcome: Outcome)
    | Start(outcome: Outcome)
    | Stop(etag: string, affected: Option<Instance>, outcome: Outcome)
    | Delete(affected: Option<Instance>, outcome: Outcome)
    | WriteFile(path: string, content: Content, outcome: Outcome)
    | ReadConsole(outcome: Outcome)
    | Fence(name: string, outcome: Outcome)

  function UUID(i: Instance): string {
    Lookup(i.config, UUID_KEY)
  }

  class Environment {
    const etagOf: Instance -> string
    /** The instance under the runner's name right now. */
    var current: Option<Instance>
    ghost var log: seq<Call>

    /** An ETag covers the instance config, so it tells instances with different stable UUIDs apart. */
    ghost predicate ETagsIdentify() {
      forall a, b :: etagOf(a) == etagOf(b) ==> UUID(a) == UUID(b)
    }

    constructor (etagOf: Instance -> string, current: Option<Instance>)
      ensures this.etagOf == etagOf && log == []
    {
      this.etagOf, this.current, log := etagOf, current, [];
    }

    /** Anything may happen to the instance between two calls. */
    method Churn()
      modifies this`current
    {
      var next: Option<Instance> := *;
      current := next;
    }

    method CreateInstance(name: string, config: Config, devices: Devices, image: string) returns (outcome: Outcome)
      modifies this
      ensures log == old(log) + [Call.Create(name, config, devices, image, outcome)]
    {
      Churn();
      outcome := *;
      log := log + [Call.Create(name, config, devices, image, outcome)];
    }

    method GetInstance() returns (r: GetResult)
      modifies this
      ensures log == old(log) + [Get(r)]
      ensures r.Found? && r.instance.Some? ==> r.etag == etagOf(r.instance.value)
    {
      Churn();
      var failed: bool := *;
      var empty: bool := *;
      if failed {
        r := GetFailed;
      } else if empty {
        r := Found(None, "");
      } else if current.None? {
        r := NotFound;
      } else {
        r := Found(current, etagOf(current.value));
      }
      log := log + [Get(r)];
    }

    /** Conditional on etag: it changes the config only of an instance that still has it. */
    method UpdateInstance(config: Config, etag: string) returns (outcome: Outcome)
      modifies this
      ensures log == old(log) + [Update(etag, config, outcome)]
    {
      Churn();
      outcome := *;
      if current.Some? && etagOf(current.value) == etag {
        current := Some(current.value.(config := config));
      } else {
        outcome := Failed;
      }
      log := log + [Update(etag, config, outcome)];
    }

    method StartInstance() returns (outcome: Outcome)
      modifies this
      ensures log == old(log) + [Start(outcome)]
    {
      Churn();
      outcome := *;
      if current.Some? {
        current := Some(current.value.(status := Running));
      }
      log := log + [Start(outcome)];
    }

    /** Conditional on etag: it stops only an instance that still has it. */
    method StopInstance(etag: string) returns (outcome: Outcome)
      modifies this
      ensures exists affected ::
                && log == old(log) + [Stop(etag, affected, outcome)]
                && (affected.Some? ==> etagOf(affected.value) == etag)
    {
      Churn();
      outcome := *;
      ghost var affected := None;
      if current.Some? && etagOf(current.value) == etag {
        affected := current;
        current := Some(current.value.(status := Stopped));
      } else if current.None? {
        outcome := Missing;
      } else {
        outcome := Failed;
      }
      log := log + [Stop(etag, affected, outcome)];
    }

    /** Unconditional: whatever is there is deleted. */
    method DeleteInstance() returns (outcome: Outcome)
      modifies this
      ensures exists affected :: log == old(log) + [Delete(affected, outcome)]
    {
      Churn();
      outcome := *;
      ghost var affected := current;
      current := None;
      log := log + [Delete(affected, outcome)];
    }

    method CreateInstanceFile(path: string, content: Content) returns (outcome: Outcome)
      modifies this
      ensures log == old(log) + [WriteFile(path, content, outcome)]
    {
      Churn();
      outcome := *;
      log := log + [WriteFile(path, content, outcome)];
    }

    method GetInstanceConsoleLog() returns (outcome: Outcome)
      modifies this
      ensures log == old(log) + [ReadConsole(outcome)]
    {
      Churn();
      outcome := *;
      log := log + [ReadConsole(outcome)];
    }

    /** The registration fencer. */
    method FenceRegistration(name: string) returns (outcome: Outcome)
      modifies this
      ensures log == old(log) + [Fence(name, outcome)]
    {
      Churn();
      outcome := *;
      log := log + [Fence(name, outcome)];
    }
  }
}
