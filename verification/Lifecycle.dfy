/**
 * Create and Delete as step protocols. Each method's contract says call by call what it may ask of the environment
 * and when it must stop; what that means for safety is proved about those logs.
 */
module Lifecycle {
  import opened Wrappers
  import opened Launch
  import opened Incus

  /** JITRunnerReference, its numbers in decimal as they are stored. */
  datatype JITRunner = JITRunner(id: string, name: string, scaleSetID: string)
  datatype Payload = Payload(version: int, jitConfig: string, positiveIDs: bool, runner: JITRunner)

  const MAXIMUM_INSTANCE_NAME: nat := 63

  /** The correlation ID is a safe instance-name component. */
  predicate SafeCorrelation(id: string) {
    id != "" && forall c | c in id :: c !in " /\\"
  }

  // ---- Reading a log --------------------------------------------------------------------------------

  ghost predicate HasInstance(c: Call) {
    c.Get? && c.result.Found? && c.result.instance.Some?
  }

  /** The instance a read returned. */
  ghost function Seen(c: Call): Instance
    requires HasInstance(c)
  {
    c.result.instance.value
  }

  ghost function SeenUUID(c: Call): string {
    if HasInstance(c) then Lookup(Seen(c).config, UUID_KEY) else ""
  }

  /** Counts the fences of name in a call log. */
  function Fences(calls: seq<Call>, name: string): nat {
    if calls == [] then 0
    else Fences(calls[..|calls| - 1], name) +
         (if calls[|calls| - 1].Fence? && calls[|calls| - 1].name == name then 1 else 0)
  }

  lemma {:induction false} FencesConcat(a: seq<Call>, b: seq<Call>, name: string)
    ensures Fences(a + b, name) == Fences(a, name) + Fences(b, name)
  {
    if b == [] {
      assert a + b == a;
    } else {
      FencesConcat(a, b[..|b| - 1], name);
      assert (a + b)[..|a + b| - 1] == a + b[..|b| - 1];
    }
  }

  lemma {:induction false} NoFences(calls: seq<Call>, name: string)
    requires forall i | 0 <= i < |calls| :: !calls[i].Fence?
    ensures Fences(calls, name) == 0
  {
    if calls != [] {
      NoFences(calls[..|calls| - 1], name);
    }
  }

  /** Whatever a stop really acted on had this UUID. */
  ghost predicate StopsOnly(calls: seq<Call>, uuid: string) {
    forall i | 0 <= i < |calls| && calls[i].Stop? && calls[i].affected.Some? ::
      Lookup(calls[i].affected.value.config, UUID_KEY) == uuid
  }

  /** Every attempt to write the ready marker comes after a payload write that succeeded. */
  ghost predicate ReadyAfterPayload(calls: seq<Call>) {
    forall i | 0 <= i < |calls| && calls[i].WriteFile? && calls[i].path == READY_PATH :: Delivered(calls, i)
  }

  /** The payload was written before position n. */
  ghost predicate Delivered(calls: seq<Call>, n: nat)
    requires n <= |calls|
  {
    exists j | 0 <= j < n :: calls[j].WriteFile? && calls[j].path == PAYLOAD_PATH && calls[j].outcome.Done?
  }

  class Backend {
    const owner: string
    const namePrefix: string
    const imageReference: string
    /** uuid.Parse accepts the string. */
    const parsesAsUUID: string -> bool

    constructor (owner: string, namePrefix: string, imageReference: string, parsesAsUUID: string -> bool)
      ensures this.owner == owner && this.namePrefix == namePrefix && this.imageReference == imageReference
      ensures this.parsesAsUUID == parsesAsUUID
    {
      this.owner, this.namePrefix, this.imageReference := owner, namePrefix, imageReference;
      this.parsesAsUUID := parsesAsUUID;
    }

    /** verifyInstanceIdentity: owned, with a valid server-generated UUID. */
    predicate Identified(i: Option<Instance>) {
      i.Some? && Lookup(i.value.config, OWNERSHIP_KEY) == owner && parsesAsUUID(UUID(i.value))
    }

    /** A read that showed the owned instance with this stable UUID. */
    ghost predicate Shows(c: Call, uuid: string) {
      && HasInstance(c)
      && Lookup(Seen(c).config, OWNERSHIP_KEY) == owner
      && Lookup(Seen(c).config, UUID_KEY) == uuid && parsesAsUUID(uuid)
    }

    /** getVerifiedInstance: a fresh read that must show the original UUID. */
    method GetVerifiedInstance(server: Environment, uuid: string)
      returns (r: Result<(Instance, string)>, ghost read: Call)
      modifies server
      ensures server.log == old(server.log) + [read] && read.Get?
      ensures r.Ok? <==> Shows(read, uuid)
      ensures r.Ok? ==> read.result == Found(Some(r.value.0), r.value.1) && r.value.1 == server.etagOf(r.value.0)
    {
      var result := server.GetInstance();
      read := Get(result);
      if !result.Found? || !Identified(result.instance) || UUID(result.instance.value) != uuid {
        return Err, read;
      }
      return Ok((result.instance.value, result.etag)), read;
    }

    // ---- Binding the JIT registration ---------------------------------------------------------------

    /** The VM carries the JIT reference, its own UUID and the pinned launch digest, and is not running. */
    predicate Bound(i: Instance, runner: JITRunner, uuid: string, launchDigest: string) {
      && i.status.Stopped?
      && Lookup(i.config, JIT_RUNNER_ID_KEY) == runner.id
      && Lookup(i.config, JIT_RUNNER_NAME_KEY) == runner.name
      && Lookup(i.config, JIT_SCALE_SET_ID_KEY) == runner.scaleSetID
      && Lookup(i.config, BOUND_UUID_KEY) == uuid
      && Lookup(i.config, LAUNCH_DIGEST_KEY) == launchDigest
    }

    /** A read of an owned, stopped VM, with an ETag to condition on. */
    ghost predicate Bindable(c: Call) {
      Shows(c, SeenUUID(c)) && Seen(c).status.Stopped? && TrimSpace(c.result.etag) != ""
    }

    /** The four binding records have their values, and every other key is as it was. */
    ghost predicate Binds(before: Config, after: Config, runner: JITRunner, uuid: string) {
      && Lookup(after, JIT_RUNNER_ID_KEY) == runner.id
      && Lookup(after, JIT_RUNNER_NAME_KEY) == runner.name
      && Lookup(after, JIT_SCALE_SET_ID_KEY) == runner.scaleSetID
      && Lookup(after, BOUND_UUID_KEY) == uuid
      && forall key | key !in {JIT_RUNNER_ID_KEY, JIT_RUNNER_NAME_KEY, JIT_SCALE_SET_ID_KEY, BOUND_UUID_KEY} ::
           (key in after <==> key in before) && (key in before ==> after[key] == before[key])
    }

    /** A read that shows the VM of this UUID stopped, bound to runner and pinned to this digest. */
    ghost predicate Confirms(c: Call, uuid: string, runner: JITRunner, launchDigest: string) {
      && Shows(c, uuid) && Seen(c).status.Stopped?
      && var config := Seen(c).config;
         && Lookup(config, JIT_RUNNER_ID_KEY) == runner.id
         && Lookup(config, JIT_RUNNER_NAME_KEY) == runner.name
         && Lookup(config, JIT_SCALE_SET_ID_KEY) == runner.scaleSetID
         && Lookup(config, BOUND_UUID_KEY) == uuid
         && Lookup(config, LAUNCH_DIGEST_KEY) == launchDigest
    }

    /** Read; if bindable, update under that read's ETag; if that was done, read again and compare. */
    ghost predicate BindLog(calls: seq<Call>, launchDigest: string, runner: JITRunner, ok: bool) {
      && |calls| > 0 && calls[0].Get?
      && (!Bindable(calls[0]) ==> |calls| == 1 && !ok)
      && (Bindable(calls[0]) ==>
            && |calls| > 1 && calls[1].Update? && calls[1].etag == calls[0].result.etag
            && Binds(Seen(calls[0]).config, calls[1].config, runner, SeenUUID(calls[0]))
            && (!calls[1].outcome.Done? ==> |calls| == 2 && !ok)
            && (calls[1].outcome.Done? ==>
                  && |calls| == 3 && calls[2].Get?
                  && (ok <==> Confirms(calls[2], SeenUUID(calls[0]), runner, launchDigest))))
    }

    /** bindJITRegistration: read, conditional update, confirming read. */
    method BindJITRegistration(server: Environment, launchDigest: string, runner: JITRunner)
      returns (ok: bool, ghost calls: seq<Call>)
      modifies server
      ensures server.log == old(server.log) + calls && BindLog(calls, launchDigest, runner, ok)
    {
      var result := server.GetInstance();
      ghost var read := Get(result);
      calls := [read];
      if !result.Found? || !Identified(result.instance) {
        return false, calls;
      }
      var instance, uuid := result.instance.value, UUID(result.instance.value);
      BlankIsTrimmedAway(result.etag);
      if !instance.status.Stopped? || Blank(result.etag) {
        return false, calls;
      }
      var config := instance.config + map[
        JIT_RUNNER_ID_KEY := runner.id, JIT_RUNNER_NAME_KEY := runner.name,
        JIT_SCALE_SET_ID_KEY := runner.scaleSetID, BOUND_UUID_KEY := uuid];
      var updated := server.UpdateInstance(config, result.etag);
      ghost var update := Update(result.etag, config, updated);
      calls := [read, update];
      BindingRecords(instance.config, config, runner, uuid);
      if !updated.Done? {
        return false, calls;
      }
      var bound;
      ghost var confirm;
      bound, confirm := GetVerifiedInstance(server, uuid);
      calls := [read, update, confirm];
      return bound.Ok? && Bound(bound.value.0, runner, uuid, launchDigest), calls;
    }

    lemma BindingRecords(before: Config, after: Config, runner: JITRunner, uuid: string)
      requires after == before + map[
        JIT_RUNNER_ID_KEY := runner.id, JIT_RUNNER_NAME_KEY := runner.name,
        JIT_SCALE_SET_ID_KEY := runner.scaleSetID, BOUND_UUID_KEY := uuid]
      ensures Binds(before, after, runner, uuid)
    {
      RecordKeysDistinct();
    }

    // ---- The guest files ----------------------------------------------------------------------------

    /**
     * One write per attempt: the payload until it is written, then the marker until that is. It ends with the
     * marker, or with the attempts.
     */
    ghost predicate PushLog(writes: seq<Call>, payload: Payload, attempts: nat, ok: bool) {
      && |writes| <= attempts
      && (forall i | 0 <= i < |writes| ::
            && writes[i].WriteFile?
            && (Delivered(writes, i) ==> writes[i].path == READY_PATH && writes[i].content == Empty)
            && (!Delivered(writes, i) ==>
                  writes[i].path == PAYLOAD_PATH
                  && writes[i].content == PayloadJSON(payload.version, payload.jitConfig)))
      && (forall i | 0 <= i < |writes| && writes[i].path == READY_PATH && writes[i].outcome.Done? :: i == |writes| - 1)
      && (ok <==> |writes| > 0 && writes[|writes| - 1].path == READY_PATH && writes[|writes| - 1].outcome.Done?)
      && (!ok ==> |writes| == attempts)
    }

    /** pushPayload: tries once, and again on every tick until the context ends; the marker only after the payload. */
    method PushPayload(server: Environment, payload: Payload, ticks: nat) returns (ok: bool, ghost writes: seq<Call>)
      modifies server
      ensures server.log == old(server.log) + writes && PushLog(writes, payload, ticks + 1, ok)
    {
      var payloadWritten := false;
      writes := [];
      for attempt := 0 to ticks + 1
        invariant server.log == old(server.log) + writes && |writes| == attempt
        invariant payloadWritten <==> Delivered(writes, |writes|)
        invariant PushLog(writes, payload, attempt, false)
      {
        ghost var before := writes;
        if !payloadWritten {
          var outcome := server.CreateInstanceFile(PAYLOAD_PATH, PayloadJSON(payload.version, payload.jitConfig));
          payloadWritten := outcome.Done?;
          writes := before + [WriteFile(PAYLOAD_PATH, PayloadJSON(payload.version, payload.jitConfig), outcome)];
          OneMoreWrite(before, writes, payload);
        } else {
          var outcome := server.CreateInstanceFile(READY_PATH, Empty);
          writes := before + [WriteFile(READY_PATH, Empty, outcome)];
          OneMoreWrite(before, writes, payload);
          if outcome.Done? {
            return true, writes;
          }
        }
      }
      return false, writes;
    }

    lemma OneMoreWrite(before: seq<Call>, after: seq<Call>, payload: Payload)
      requires PushLog(before, payload, |before|, false) && |after| == |before| + 1 && after[..|before|] == before
      requires after[|before|].WriteFile?
      requires if Delivered(before, |before|) then after[|before|].path == READY_PATH && after[|before|].content == Empty
               else after[|before|].path == PAYLOAD_PATH
                    && after[|before|].content == PayloadJSON(payload.version, payload.jitConfig)
      ensures PushLog(after, payload, |after|, after[|before|].path == READY_PATH && after[|before|].outcome.Done?)
      ensures Delivered(after, |after|) <==>
                Delivered(before, |before|) || (after[|before|].path == PAYLOAD_PATH && after[|before|].outcome.Done?)
    {
      var n := |before|;
      assert forall i | 0 <= i < n :: after[i] == before[i];
      forall i | 0 <= i <= n ensures Delivered(after, i) <==> Delivered(before, i) {
        if j :| 0 <= j < i && before[j].WriteFile? && before[j].path == PAYLOAD_PATH && before[j].outcome.Done? {
          assert after[j] == before[j];
        }
        if j :| 0 <= j < i && after[j].WriteFile? && after[j].path == PAYLOAD_PATH && after[j].outcome.Done? {
          assert after[j] == before[j];
        }
      }
      if j :| 0 <= j < n && after[j].WriteFile? && after[j].path == PAYLOAD_PATH && after[j].outcome.Done? {
        assert Delivered(after, n);
      }
    }

    // ---- Create -------------------------------------------------------------------------------------

    /** validateRuntimePayload. */
    predicate ValidPayload(name: string, p: Payload) {
      p.version == 1 && !Blank(p.jitConfig) && p.positiveIDs && p.runner.name == name
    }

    ghost predicate Fits(payload: Option<Payload>, name: string) {
      && payload.Some? && payload.value.version == 1 && TrimSpace(payload.value.jitConfig) != ""
      && payload.value.positiveIDs && payload.value.runner.name == name
    }

    /** A pinned identity whose profiles still match, and a safe name of at most 63 characters. */
    ghost predicate Eligible(identity: Option<Identity>, profilesMatch: bool, correlation: string) {
      && identity.Some? && profilesMatch && correlation != ""
      && (forall i | 0 <= i < |correlation| ::
            correlation[i] != ' ' && correlation[i] != '/' && correlation[i] != '\\')
      && |namePrefix| + |correlation| <= 63
    }

    /** Each record of the requested config has its value, and every other key is the pinned one's. */
    ghost predicate Requests(config: Config, identity: Identity, correlation: string, createdAt: string) {
      && Lookup(config, OWNERSHIP_KEY) == owner
      && Lookup(config, CORRELATION_KEY) == correlation
      && Lookup(config, CREATED_AT_KEY) == createdAt
      && Lookup(config, IMAGE_KEY) == identity.imageFingerprint
      && Lookup(config, IMAGE_REFERENCE_KEY) == imageReference
      && Lookup(config, PROFILES_KEY) == identity.profileMetadata
      && Lookup(config, LAUNCH_DIGEST_KEY) == identity.launchDigest
      && forall key | key !in {OWNERSHIP_KEY, CORRELATION_KEY, CREATED_AT_KEY, IMAGE_KEY, IMAGE_REFERENCE_KEY,
                               PROFILES_KEY, LAUNCH_DIGEST_KEY} ::
           (key in config <==> key in identity.config) && (key in config ==> config[key] == identity.config[key])
    }

    /** The calls of one Create, part by part. */
    ghost function AllCalls(t: CreateTrail): seq<Call> {
      t.create + t.bind + t.start + t.writes + t.fence
    }

    ghost predicate CreateLog(
      t: CreateTrail, identity: Option<Identity>, profilesMatch: bool, correlation: string, createdAt: string,
      payload: Option<Payload>, ticks: nat, ok: bool)
    {
      var name := namePrefix + correlation;
      if !Eligible(identity, profilesMatch, correlation) then AllCalls(t) == [] && !ok
      else
        && |t.create| == 1 && t.create[0].Create? && t.create[0].name == name
        && t.create[0].devices == identity.value.devices && t.create[0].image == identity.value.imageFingerprint
        && Requests(t.create[0].config, identity.value, correlation, createdAt)
        && if !t.create[0].outcome.Done? then t.bind == t.start == t.writes == t.fence == [] && !ok
           else
             && (ok ==> t.fence == [])
             && (!ok ==> |t.fence| == 1 && t.fence[0].Fence? && t.fence[0].name == name)
             && ProvisionLog(t, identity.value.launchDigest, name, payload, ticks, ok)
    }

    /** Between creating the instance and fencing a failure. */
    ghost predicate ProvisionLog(
      t: CreateTrail, launchDigest: string, name: string, payload: Option<Payload>, ticks: nat, ok: bool)
    {
      if !Fits(payload, name) then t.bind == t.start == t.writes == [] && !ok
      else
        && BindLog(t.bind, launchDigest, payload.value.runner, t.bound)
        && if !t.bound then t.start == t.writes == [] && !ok
           else
             && |t.start| == 1 && t.start[0].Start?
             && if !t.start[0].outcome.Done? then t.writes == [] && !ok
                else PushLog(t.writes, payload.value, ticks + 1, ok)
    }

    /**
     * Create. Answers of its other collaborators are parameters: the pinned identity, whether the profiles still
     * match it, the new correlation ID and time, the payload, and how many agent polls the context allows.
     */
    method Create(server: Environment, identity: Option<Identity>, profilesMatch: bool, correlation: string,
                  createdAt: string, payload: Option<Payload>, ticks: nat)
      returns (r: Result<string>, ghost trail: CreateTrail)
      modifies server
      ensures server.log == old(server.log) + AllCalls(trail)
      ensures CreateLog(trail, identity, profilesMatch, correlation, createdAt, payload, ticks, r.Ok?)
      ensures r.Ok? ==> r.value == namePrefix + correlation
      ensures CreateSafe(AllCalls(trail), namePrefix + correlation, identity, correlation, createdAt, payload, r.Ok?)
    {
      hide CreateLog, ProvisionLog, CreateSafe, Requests, RequestConfig, SafeCorrelation, Eligible, AllCalls;
      trail := CreateTrail([], [], false, [], [], []);
      ghost var before := server.log;
      var name := namePrefix + correlation;
      EligibleExactly(identity, profilesMatch, correlation);
      if identity.None? || !profilesMatch || !SafeCorrelation(correlation) || |name| > MAXIMUM_INSTANCE_NAME {
        NothingAsked(identity, profilesMatch, correlation, createdAt, payload, ticks);
        CreateIsSafe(trail, identity, profilesMatch, correlation, createdAt, payload, ticks, false);
        return Err, trail;
      }
      var config := RequestConfig(identity.value, owner, correlation, createdAt, imageReference);
      RequestedRecords(config, identity.value, correlation, createdAt);
      var created := server.CreateInstance(name, config, identity.value.devices, identity.value.imageFingerprint);
      ghost var first := Call.Create(name, config, identity.value.devices, identity.value.imageFingerprint, created);
      trail := CreateTrail([first], [], false, [], [], []);
      assert AllCalls(trail) == [first] by { CallsOfParts(trail); }
      if !created.Done? {
        CreationFailed(trail, identity, profilesMatch, correlation, createdAt, payload, ticks);
        CreateIsSafe(trail, identity, profilesMatch, correlation, createdAt, payload, ticks, false);
        return Err, trail;
      }
      var provisioned;
      ghost var part;
      provisioned, part := Provision(server, name, identity.value.launchDigest, payload, ticks);
      ghost var fence: seq<Call> := [];
      if !provisioned {
        ghost var outcome;
        outcome := FenceProvisioningFailure(server, name);
        fence := [Fence(name, outcome)];
      }
      trail := part.(create := [first], fence := fence);
      CallsOfParts(trail);
      assert server.log == before + [first] + (part.bind + part.start + part.writes) + fence;
      assert before + [first] + (part.bind + part.start + part.writes) + fence
          == before + ([first] + part.bind + part.start + part.writes + fence);
      Proceeded(trail, part, identity, profilesMatch, correlation, createdAt, payload, ticks, provisioned);
      CreateIsSafe(trail, identity, profilesMatch, correlation, createdAt, payload, ticks, provisioned);
      return if provisioned then Ok(name) else Err, trail;
    }

    /** What Create does between creating the instance and fencing a failure. */
    method Provision(server: Environment, name: string, launchDigest: string, payload: Option<Payload>, ticks: nat)
      returns (ok: bool, ghost t: CreateTrail)
      modifies server
      ensures server.log == old(server.log) + (t.bind + t.start + t.writes)
      ensures ProvisionLog(t, launchDigest, name, payload, ticks, ok)
    {
      hide BindLog, PushLog, Blank, TrimSpace;
      t := CreateTrail([], [], false, [], [], []);
      if payload.Some? {
        BlankIsTrimmedAway(payload.value.jitConfig);
      }
      if payload.None? || !ValidPayload(name, payload.value) {
        return false, t;
      }
      var bound;
      ghost var bind;
      bound, bind := BindJITRegistration(server, launchDigest, payload.value.runner);
      t := CreateTrail([], bind, bound, [], [], []);
      assert bind + [] + [] == bind;
      if !bound {
        return false, t;
      }
      var started := server.StartInstance();
      t := CreateTrail([], bind, true, [Start(started)], [], []);
      assert bind + [Start(started)] + [] == bind + [Start(started)];
      if !started.Done? {
        return false, t;
      }
      ghost var writes;
      ok, writes := PushPayload(server, payload.value, ticks);
      t := CreateTrail([], bind, true, [Start(started)], writes, []);
    }

    /** fenceProvisioningFailure: exactly one fence of this name, whatever it answers. */
    method FenceProvisioningFailure(server: Environment, name: string) returns (ghost outcome: Outcome)
      modifies server
      ensures server.log == old(server.log) + [Fence(name, outcome)]
    {
      var answer := server.FenceRegistration(name);
      outcome := answer;
    }

    lemma CallsOfParts(t: CreateTrail)
      ensures AllCalls(t) == t.create + t.bind + t.start + t.writes + t.fence
    {
    }

    lemma EligibleExactly(identity: Option<Identity>, profilesMatch: bool, correlation: string)
      ensures Eligible(identity, profilesMatch, correlation) <==>
                identity.Some? && profilesMatch && SafeCorrelation(correlation)
                && |namePrefix + correlation| <= MAXIMUM_INSTANCE_NAME
    {
      if SafeCorrelation(correlation) {
        forall i | 0 <= i < |correlation|
          ensures correlation[i] != ' ' && correlation[i] != '/' && correlation[i] != '\\'
        {
          assert correlation[i] in correlation;
          assert " /\\"[0] == ' ' && " /\\"[1] == '/' && " /\\"[2] == '\\';
        }
      }
    }

    lemma RequestedRecords(config: Config, identity: Identity, correlation: string, createdAt: string)
      requires config == RequestConfig(identity, owner, correlation, createdAt, imageReference)
      ensures Requests(config, identity, correlation, createdAt)
    {
      RecordKeysDistinct();
    }

    /** A requested config is what the launch round trip starts from. */
    lemma RequestedIsPinned(config: Config, identity: Identity, correlation: string, createdAt: string)
      requires Requests(config, identity, correlation, createdAt)
      requires owner != "" && correlation != "" && createdAt != "" && imageReference != ""
      requires identity.imageFingerprint != "" && identity.profileMetadata != "" && identity.launchDigest != ""
      ensures config == RequestConfig(identity, owner, correlation, createdAt, imageReference)
    {
      var expected := RequestConfig(identity, owner, correlation, createdAt, imageReference);
      RequestedRecords(expected, identity, correlation, createdAt);
      SameRequests(config, expected, identity, correlation, createdAt);
    }

    lemma SameRequests(a: Config, b: Config, identity: Identity, correlation: string, createdAt: string)
      requires Requests(a, identity, correlation, createdAt) && Requests(b, identity, correlation, createdAt)
      requires owner != "" && correlation != "" && createdAt != "" && imageReference != ""
      requires identity.imageFingerprint != "" && identity.profileMetadata != "" && identity.launchDigest != ""
      ensures a == b
    {
      forall key ensures (key in a <==> key in b) && (key in a ==> a[key] == b[key]) {
        if key in {OWNERSHIP_KEY, CORRELATION_KEY, CREATED_AT_KEY, IMAGE_KEY, IMAGE_REFERENCE_KEY,
                   PROFILES_KEY, LAUNCH_DIGEST_KEY} {
          assert Lookup(a, key) == Lookup(b, key) != "";
        }
      }
    }

    lemma NothingAsked(
      identity: Option<Identity>, profilesMatch: bool, correlation: string, createdAt: string,
      payload: Option<Payload>, ticks: nat)
      requires !Eligible(identity, profilesMatch, correlation)
      ensures CreateLog(CreateTrail([], [], false, [], [], []), identity, profilesMatch, correlation, createdAt,
                        payload, ticks, false)
      ensures AllCalls(CreateTrail([], [], false, [], [], [])) == []
    {
      hide Eligible;
    }

    lemma CreationFailed(
      t: CreateTrail, identity: Option<Identity>, profilesMatch: bool, correlation: string, createdAt: string,
      payload: Option<Payload>, ticks: nat)
      requires Eligible(identity, profilesMatch, correlation)
      requires |t.create| == 1 && t.create[0].Create? && t.create[0].name == namePrefix + correlation
      requires t.create[0].devices == identity.value.devices && t.create[0].image == identity.value.imageFingerprint
      requires Requests(t.create[0].config, identity.value, correlation, createdAt)
      requires !t.create[0].outcome.Done? && t.bind == t.start == t.writes == t.fence == []
      ensures CreateLog(t, identity, profilesMatch, correlation, createdAt, payload, ticks, false)
    {
      hide Eligible, Requests;
    }

    lemma Proceeded(
      t: CreateTrail, part: CreateTrail, identity: Option<Identity>, profilesMatch: bool, correlation: string,
      createdAt: string, payload: Option<Payload>, ticks: nat, ok: bool)
      requires Eligible(identity, profilesMatch, correlation)
      requires |t.create| == 1 && t.create[0].Create? && t.create[0].name == namePrefix + correlation
      requires t.create[0].devices == identity.value.devices && t.create[0].image == identity.value.imageFingerprint
      requires Requests(t.create[0].config, identity.value, correlation, createdAt) && t.create[0].outcome.Done?
      requires ProvisionLog(part, identity.value.launchDigest, namePrefix + correlation, payload, ticks, ok)
      requires t.bind == part.bind && t.bound == part.bound && t.start == part.start && t.writes == part.writes
      requires if ok then t.fence == []
               else |t.fence| == 1 && t.fence[0].Fence? && t.fence[0].name == namePrefix + correlation
      ensures CreateLog(t, identity, profilesMatch, correlation, createdAt, payload, ticks, ok)
    {
      hide Eligible, Requests, BindLog, PushLog, Fits;
    }

    // ---- What the log of a Create means -------------------------------------------------------------

    /** What the first call of a Create requests. */
    ghost predicate Requested(
      calls: seq<Call>, name: string, identity: Identity, correlation: string, createdAt: string)
    {
      && calls != [] && calls[0].Create? && calls[0].name == name
      && calls[0].devices == identity.devices && calls[0].image == identity.imageFingerprint
      && Requests(calls[0].config, identity, correlation, createdAt)
      && ((forall key | key in identity.config :: !IsMetadataKey(key)) ==> Stripped(calls[0].config) == identity.config)
    }

    ghost predicate CreateSafe(
      calls: seq<Call>, name: string, identity: Option<Identity>, correlation: string, createdAt: string,
      payload: Option<Payload>, ok: bool)
    {
      // The request carries every record, and without them is what is pinned.
      && (calls != [] ==> identity.Some? && Requested(calls, name, identity.value, correlation, createdAt))
      // A VM is started only directly after a read that confirmed its binding.
      && (forall i | 0 <= i < |calls| && calls[i].Start? ::
            i > 0 && identity.Some? && Fits(payload, name)
            && Confirms(calls[i - 1], SeenUUID(calls[i - 1]), payload.value.runner, identity.value.launchDigest))
      // The ready marker is written only after the payload.
      && ReadyAfterPayload(calls)
      // Every failure after the instance was created is fenced exactly once; nothing else is.
      && Fences(calls, name) == (if calls != [] && calls[0].Create? && calls[0].outcome.Done? && !ok then 1 else 0)
      // Nothing is created but by the first call, and success means created, started and handed the payload.
      && (forall i | 0 < i < |calls| :: !calls[i].Create?)
      && (ok ==> calls != [] && calls[0].Create? && calls[0].outcome.Done?
                 && Start(Done) in calls && Delivered(calls, |calls|) && WriteFile(READY_PATH, Empty, Done) in calls)
    }

    /** The log of every Create is safe, whatever the environment answered. */
    lemma CreateIsSafe(
      t: CreateTrail, identity: Option<Identity>, profilesMatch: bool, correlation: string, createdAt: string,
      payload: Option<Payload>, ticks: nat, ok: bool)
      requires CreateLog(t, identity, profilesMatch, correlation, createdAt, payload, ticks, ok)
      ensures CreateSafe(AllCalls(t), namePrefix + correlation, identity, correlation, createdAt, payload, ok)
    {
      hide Requests, Confirms, Fits, ProvisionLog, Requested;
      var name := namePrefix + correlation;
      if !Eligible(identity, profilesMatch, correlation) {
        assert AllCalls(t) == [];
      } else {
        RequestIsMade(t, identity.value, correlation, createdAt);
        if !t.create[0].outcome.Done? {
          assert AllCalls(t) == t.create;
          NoFences(t.create, name);
        } else {
          ProvisionShape(t, identity.value.launchDigest, name, payload, ticks, ok);
          Assembled(t, identity.value, correlation, createdAt, name, payload, ok);
        }
      }
    }

    lemma RequestIsMade(t: CreateTrail, identity: Identity, correlation: string, createdAt: string)
      requires |t.create| == 1 && t.create[0].Create? && t.create[0].name == namePrefix + correlation
      requires t.create[0].devices == identity.devices && t.create[0].image == identity.imageFingerprint
      requires Requests(t.create[0].config, identity, correlation, createdAt)
      ensures Requested(AllCalls(t), namePrefix + correlation, identity, correlation, createdAt)
    {
      hide Requests, IsMetadataKey, Stripped;
      assert AllCalls(t)[0] == t.create[0];
      if forall key | key in identity.config :: !IsMetadataKey(key) {
        RequestedStrips(t.create[0].config, identity, correlation, createdAt);
      }
    }

    /** Stripped of metadata, what is requested is what is pinned. */
    lemma RequestedStrips(config: Config, identity: Identity, correlation: string, createdAt: string)
      requires Requests(config, identity, correlation, createdAt)
      requires forall key | key in identity.config :: !IsMetadataKey(key)
      ensures Stripped(config) == identity.config
    {
      hide IsMetadataKey;
      ControllerKeysAreMetadata();
    }

    /** What the parts of a provisioning are, seen from outside. */
    ghost predicate Parts(t: CreateTrail, launchDigest: string, name: string, payload: Option<Payload>, ok: bool) {
      && (forall i | 0 <= i < |t.bind| :: t.bind[i].Get? || t.bind[i].Update?)
      && |t.start| <= 1 && (forall i | 0 <= i < |t.start| :: t.start[i].Start?)
      && (forall i | 0 <= i < |t.writes| :: t.writes[i].WriteFile?)
      && ReadyAfterPayload(t.writes)
      && (t.start != [] ==>
            |t.bind| > 0 && Fits(payload, name)
            && var last := t.bind[|t.bind| - 1]; Confirms(last, SeenUUID(last), payload.value.runner, launchDigest))
      && (ok ==> t.start == [Start(Done)] && Delivered(t.writes, |t.writes|)
                 && WriteFile(READY_PATH, Empty, Done) in t.writes)
    }

    lemma ProvisionShape(
      t: CreateTrail, launchDigest: string, name: string, payload: Option<Payload>, ticks: nat, ok: bool)
      requires ProvisionLog(t, launchDigest, name, payload, ticks, ok)
      ensures Parts(t, launchDigest, name, payload, ok)
    {
      hide Bindable, Binds, Fits, Confirms;
      if t.start != [] {
        FittingPayload(payload, name);
        ConfirmedLast(t.bind, launchDigest, payload.value.runner);
      }
      if ok {
        WritesDelivered(t.writes, payload.value, ticks + 1);
        assert t.start == [Start(Done)];
      }
    }

    lemma FittingPayload(payload: Option<Payload>, name: string)
      requires Fits(payload, name)
      ensures payload.Some?
    {
    }

    lemma ConfirmedLast(bind: seq<Call>, launchDigest: string, runner: JITRunner)
      requires BindLog(bind, launchDigest, runner, true)
      ensures |bind| == 3 && Confirms(bind[2], SeenUUID(bind[2]), runner, launchDigest)
    {
    }

    lemma WritesDelivered(writes: seq<Call>, payload: Payload, attempts: nat)
      requires PushLog(writes, payload, attempts, true)
      ensures Delivered(writes, |writes|) && WriteFile(READY_PATH, Empty, Done) in writes
    {
      var last := |writes| - 1;
      assert PAYLOAD_PATH != READY_PATH by { PathsDistinct(); }
      assert Delivered(writes, last);
      assert writes[last] == WriteFile(READY_PATH, Empty, Done);
    }

    lemma Assembled(
      t: CreateTrail, identity: Identity, correlation: string, createdAt: string, name: string,
      payload: Option<Payload>, ok: bool)
      requires Parts(t, identity.launchDigest, name, payload, ok)
      requires Requested(AllCalls(t), name, identity, correlation, createdAt)
      requires |t.create| == 1 && t.create[0].Create? && t.create[0].outcome.Done?
      requires if ok then t.fence == [] else |t.fence| == 1 && t.fence[0].Fence? && t.fence[0].name == name
      ensures CreateSafe(AllCalls(t), name, Some(identity), correlation, createdAt, payload, ok)
    {
      hide Confirms, Fits, ReadyAfterPayload, Delivered, Requested;
      Positions(t);
      StartsConfirmed(t, identity.launchDigest, name, payload, ok);
      MarkersAfterPayload(t, identity.launchDigest, name, payload, ok);
      FencedOnce(t, name, ok);
    }

    /** Which part a call of the whole log belongs to. */
    lemma Positions(t: CreateTrail)
      ensures var calls, a, b, c, d :=
                AllCalls(t), |t.create|, |t.create + t.bind|, |t.create + t.bind + t.start|,
                |t.create + t.bind + t.start + t.writes|;
              && (forall i | 0 <= i < a :: calls[i] == t.create[i])
              && (forall i | a <= i < b :: calls[i] == t.bind[i - a])
              && (forall i | b <= i < c :: calls[i] == t.start[i - b])
              && (forall i | c <= i < d :: calls[i] == t.writes[i - c])
              && (forall i | d <= i < |calls| :: calls[i] == t.fence[i - d])
    {
    }

    lemma StartsConfirmed(t: CreateTrail, launchDigest: string, name: string, payload: Option<Payload>, ok: bool)
      requires Parts(t, launchDigest, name, payload, ok) && |t.create| == 1 && t.create[0].Create?
      requires forall i | 0 <= i < |t.fence| :: t.fence[i].Fence?
      ensures var calls := AllCalls(t);
              && (forall i | 0 <= i < |calls| && calls[i].Start? ::
                    i > 0 && Fits(payload, name)
                    && Confirms(calls[i - 1], SeenUUID(calls[i - 1]), payload.value.runner, launchDigest))
              && (forall i | 0 < i < |calls| :: !calls[i].Create?)
    {
      hide Confirms, Fits, ReadyAfterPayload, Delivered;
      Positions(t);
    }

    lemma MarkersAfterPayload(t: CreateTrail, launchDigest: string, name: string, payload: Option<Payload>, ok: bool)
      requires Parts(t, launchDigest, name, payload, ok) && |t.create| == 1 && t.create[0].Create?
      requires forall i | 0 <= i < |t.fence| :: t.fence[i].Fence?
      ensures ReadyAfterPayload(AllCalls(t))
      ensures ok ==> Start(Done) in AllCalls(t) && Delivered(AllCalls(t), |AllCalls(t)|)
                     && WriteFile(READY_PATH, Empty, Done) in AllCalls(t)
    {
      hide Confirms, Fits;
      Positions(t);
      var calls, c := AllCalls(t), |t.create + t.bind + t.start|;
      forall i | 0 <= i < |calls| && calls[i].WriteFile? && calls[i].path == READY_PATH ensures Delivered(calls, i) {
        assert calls[i] == t.writes[i - c];
        assert Delivered(t.writes, i - c);
        Shifted(t.writes, calls, c, i - c);
      }
      if ok {
        assert calls[c - 1] == t.start[0];
        Shifted(t.writes, calls, c, |t.writes|);
        var k :| 0 <= k < |t.writes| && t.writes[k] == WriteFile(READY_PATH, Empty, Done);
        assert calls[c + k] == t.writes[k];
      }
    }

    lemma Shifted(part: seq<Call>, whole: seq<Call>, offset: nat, n: nat)
      requires n <= |part| && offset + |part| <= |whole| && Delivered(part, n)
      requires forall i | offset <= i < offset + |part| :: whole[i] == part[i - offset]
      ensures Delivered(whole, offset + n) && Delivered(whole, |whole|)
    {
      var j :| 0 <= j < n && part[j].WriteFile? && part[j].path == PAYLOAD_PATH && part[j].outcome.Done?;
      assert whole[offset + j] == part[j];
    }

    lemma FencedOnce(t: CreateTrail, name: string, ok: bool)
      requires |t.create| == 1 && t.create[0].Create?
      requires forall i | 0 <= i < |t.bind| :: t.bind[i].Get? || t.bind[i].Update?
      requires forall i | 0 <= i < |t.start| :: t.start[i].Start?
      requires forall i | 0 <= i < |t.writes| :: t.writes[i].WriteFile?
      requires if ok then t.fence == [] else |t.fence| == 1 && t.fence[0].Fence? && t.fence[0].name == name
      ensures Fences(AllCalls(t), name) == if ok then 0 else 1
    {
      var before := t.create + t.bind + t.start + t.writes;
      NoFences(before, name);
      FencesConcat(before, t.fence, name);
      if !ok {
        assert t.fence[..0] == [];
        assert Fences(t.fence, name) == Fences(t.fence[..0], name) + 1;
      }
    }

    // ---- Delete -------------------------------------------------------------------------------------

    /** Nothing to do for a stopped VM; otherwise a read, and a stop under that read's ETag unless it shows it stopped. */
    ghost predicate StopLog(calls: seq<Call>, initial: Instance, uuid: string, ok: bool) {
      if initial.status.Stopped? then calls == [] && ok
      else
        && |calls| > 0 && calls[0].Get?
        && if !Shows(calls[0], uuid) then |calls| == 1 && !ok
           else if Seen(calls[0]).status.Stopped? then |calls| == 1 && ok
           else if TrimSpace(calls[0].result.etag) == "" then |calls| == 1 && !ok
           else |calls| == 2 && calls[1].Stop? && calls[1].etag == calls[0].result.etag
                && (ok <==> calls[1].outcome.Done?)
    }

    /** stopInstance: a conditional stop of the verified instance, if it is not stopped already. */
    method StopInstance(server: Environment, uuid: string, initial: Instance)
      returns (ok: bool, ghost calls: seq<Call>)
      requires server.ETagsIdentify()
      modifies server
      ensures server.log == old(server.log) + calls && StopLog(calls, initial, uuid, ok) && StopsOnly(calls, uuid)
    {
      calls := [];
      if initial.status.Stopped? {
        return true, calls;
      }
      var current;
      ghost var read;
      current, read := GetVerifiedInstance(server, uuid);
      calls := [read];
      if current.Err? {
        return false, calls;
      }
      if current.value.0.status.Stopped? {
        return true, calls;
      }
      BlankIsTrimmedAway(current.value.1);
      if Blank(current.value.1) {
        return false, calls;
      }
      ghost var mark := server.log;
      var stopped := server.StopInstance(current.value.1);
      calls := [read, server.log[|mark|]];
      return stopped.Done?, calls;
    }

    ghost predicate CollectLog(calls: seq<Call>, uuid: string, ok: bool) {
      && |calls| > 0 && calls[0].Get? && (ok <==> Shows(calls[0], uuid))
      && if ok then |calls| == 2 && calls[1].ReadConsole? else |calls| == 1
    }

    /** collectDiagnostics: best effort, after another identity check. */
    method CollectDiagnostics(server: Environment, uuid: string) returns (ok: bool, ghost calls: seq<Call>)
      modifies server
      ensures server.log == old(server.log) + calls && CollectLog(calls, uuid, ok)
    {
      var verified;
      ghost var read;
      verified, read := GetVerifiedInstance(server, uuid);
      calls := [read];
      if verified.Err? {
        return false, calls;
      }
      var console := server.GetInstanceConsoleLog();
      calls := [read, ReadConsole(console)];
      return true, calls;
    }

    ghost predicate RemoveLog(calls: seq<Call>, uuid: string, ok: bool) {
      && |calls| > 0 && calls[0].Get?
      && if !Shows(calls[0], uuid) then |calls| == 1 && !ok
         else |calls| == 2 && calls[1].Delete? && (ok <==> calls[1].outcome.Done? || calls[1].outcome.Missing?)
    }

    /** The end of Delete: a last identity check and the deletion. */
    method DeleteVerified(server: Environment, uuid: string) returns (ok: bool, ghost calls: seq<Call>)
      modifies server
      ensures server.log == old(server.log) + calls && RemoveLog(calls, uuid, ok)
    {
      var verified;
      ghost var read;
      verified, read := GetVerifiedInstance(server, uuid);
      calls := [read];
      if verified.Err? {
        return false, calls;
      }
      ghost var mark := server.log;
      var deleted := server.DeleteInstance();
      calls := [read, server.log[|mark|]];
      return !deleted.Failed?, calls;
    }

    ghost function AllDeleteCalls(t: DeleteTrail): seq<Call> {
      [t.read] + t.fence + t.stop + t.collect + t.remove
    }

    /** Each part of a Delete runs only if the one before it succeeded. */
    ghost predicate DeleteLog(t: DeleteTrail, runnerID: string, ok: bool) {
      && t.read.Get?
      && if t.read.result.NotFound? then t.fence == t.stop == t.collect == t.remove == [] && ok
         else if !Shows(t.read, SeenUUID(t.read)) then t.fence == t.stop == t.collect == t.remove == [] && !ok
         else
           && |t.fence| == 1 && t.fence[0].Fence? && t.fence[0].name == runnerID
           && if !t.fence[0].outcome.Done? then t.stop == t.collect == t.remove == [] && !ok
              else
                && StopLog(t.stop, Seen(t.read), SeenUUID(t.read), t.stopped)
                && if !t.stopped then t.collect == t.remove == [] && !ok
                   else
                     && CollectLog(t.collect, SeenUUID(t.read), t.collected)
                     && if !t.collected then t.remove == [] && !ok else RemoveLog(t.remove, SeenUUID(t.read), ok)
    }

    /**
     * Delete. With ETags that tell instances apart, no instance but the first verified one is ever stopped; the
     * registration is fenced before any stop; nothing is deleted that was not stopped or seen stopped; and the call
     * directly before the deletion is a read that showed the original UUID under this owner.
     */
    method Delete(server: Environment, runnerID: string) returns (ok: bool, ghost t: DeleteTrail)
      requires server.ETagsIdentify()
      modifies server
      ensures server.log == old(server.log) + AllDeleteCalls(t) && DeleteLog(t, runnerID, ok)
      ensures DeleteSafe(AllDeleteCalls(t), runnerID, ok)
    {
      hide StopLog, CollectLog, RemoveLog, StopsOnly, DeleteSafe;
      var result := server.GetInstance();
      ghost var read := Get(result);
      t := DeleteTrail(read, [], [], false, [], false, []);
      NothingStopped(SeenUUID(read));
      assert AllDeleteCalls(t) == [read];
      if result.NotFound? {
        DeleteIsSafe(t, runnerID, true);
        return true, t;
      }
      if !result.Found? || !Identified(result.instance) {
        DeleteIsSafe(t, runnerID, false);
        return false, t;
      }
      var uuid := UUID(result.instance.value);
      var fenced := server.FenceRegistration(runnerID);
      t := t.(fence := [Fence(runnerID, fenced)]);
      assert AllDeleteCalls(t) == [read, Fence(runnerID, fenced)];
      if !fenced.Done? {
        DeleteIsSafe(t, runnerID, false);
        return false, t;
      }
      ghost var part;
      ok, part := StopAndRemove(server, uuid, result.instance.value);
      t := part.(read := read, fence := [Fence(runnerID, fenced)]);
      assert AllDeleteCalls(t) == [read, Fence(runnerID, fenced)] + (part.stop + part.collect + part.remove);
      DeleteIsSafe(t, runnerID, ok);
    }

    lemma NothingStopped(uuid: string)
      ensures StopsOnly([], uuid)
    {
    }

    /** What Delete does once the registration is fenced. */
    method StopAndRemove(server: Environment, uuid: string, instance: Instance)
      returns (ok: bool, ghost t: DeleteTrail)
      requires server.ETagsIdentify()
      modifies server
      ensures server.log == old(server.log) + (t.stop + t.collect + t.remove) && StopsOnly(t.stop, uuid)
      ensures StopLog(t.stop, instance, uuid, t.stopped)
      ensures !t.stopped ==> t.collect == t.remove == [] && !ok
      ensures t.stopped ==> CollectLog(t.collect, uuid, t.collected)
      ensures t.stopped && !t.collected ==> t.remove == [] && !ok
      ensures t.stopped && t.collected ==> RemoveLog(t.remove, uuid, ok)
    {
      hide StopLog, CollectLog, RemoveLog, StopsOnly;
      var stopped, collected;
      ghost var stop, collect, remove;
      stopped, stop := StopInstance(server, uuid, instance);
      t := DeleteTrail(Get(NotFound), [], stop, stopped, [], false, []);
      assert stop + [] + [] == stop;
      if !stopped {
        return false, t;
      }
      collected, collect := CollectDiagnostics(server, uuid);
      t := t.(collect := collect, collected := collected);
      assert stop + collect + [] == stop + collect;
      if !collected {
        return false, t;
      }
      ok, remove := DeleteVerified(server, uuid);
      t := t.(remove := remove);
    }

    // ---- What the log of a Delete means -------------------------------------------------------------

    /** Before position n, a read of this VM showed it stopped, or a stop conditioned on one succeeded. */
    ghost predicate StoppedBefore(calls: seq<Call>, n: nat, uuid: string)
      requires n <= |calls|
    {
      exists j | 0 <= j < n :: StoppedAt(calls, j, uuid)
    }

    ghost predicate StoppedAt(calls: seq<Call>, j: nat, uuid: string)
      requires j < |calls|
    {
      || (Shows(calls[j], uuid) && Seen(calls[j]).status.Stopped?)
      || (j > 0 && Shows(calls[j - 1], uuid)
          && calls[j].Stop? && calls[j].outcome.Done? && calls[j].etag == calls[j - 1].result.etag)
    }

    ghost predicate DeleteSafe(calls: seq<Call>, runnerID: string, ok: bool) {
      && |calls| > 0 && calls[0].Get?
      && var uuid := SeenUUID(calls[0]);
         // An instance that is gone is a success; anything else goes on only with an identified instance, fenced first.
         && (calls[0].result.NotFound? ==> ok && |calls| == 1)
         && (|calls| > 1 ==> Shows(calls[0], uuid) && calls[1].Fence? && calls[1].name == runnerID)
         && (|calls| > 2 ==> calls[1].outcome.Done?)
         // Only the first verified instance is ever stopped.
         && StopsOnly(calls, uuid)
         // The deletion is the last call, directly after a read of the original instance, which has been stopped.
         && (forall i | 0 <= i < |calls| && calls[i].Delete? ::
               i == |calls| - 1 > 2 && Shows(calls[i - 1], uuid) && StoppedBefore(calls, i, uuid))
         && (ok <==> calls[0].result.NotFound? || (calls[|calls| - 1].Delete? && !calls[|calls| - 1].outcome.Failed?))
    }

    /** The log of every Delete is safe, whatever the environment answered. */
    lemma DeleteIsSafe(t: DeleteTrail, runnerID: string, ok: bool)
      requires DeleteLog(t, runnerID, ok) && StopsOnly(t.stop, SeenUUID(t.read))
      ensures DeleteSafe(AllDeleteCalls(t), runnerID, ok)
    {
      hide StopLog, CollectLog, RemoveLog, StopsOnly, StoppedBefore;
      var calls, uuid := AllDeleteCalls(t), SeenUUID(t.read);
      if t.fence == [] {
        assert calls == [t.read];
        StopsInPart(t, uuid);
      } else {
        PartKinds(t, runnerID, ok);
        StopsInPart(t, uuid);
        Removed(t, runnerID, ok);
      }
    }

    lemma PartKinds(t: DeleteTrail, runnerID: string, ok: bool)
      requires DeleteLog(t, runnerID, ok)
      ensures forall i | 0 <= i < |t.fence| :: t.fence[i].Fence?
      ensures forall i | 0 <= i < |t.stop| :: t.stop[i].Get? || t.stop[i].Stop?
      ensures forall i | 0 <= i < |t.collect| :: t.collect[i].Get? || t.collect[i].ReadConsole?
      ensures |t.remove| <= 2 && (|t.remove| > 0 ==> t.remove[0].Get?) && (|t.remove| > 1 ==> t.remove[1].Delete?)
    {
    }

    lemma StopsInPart(t: DeleteTrail, uuid: string)
      requires StopsOnly(t.stop, uuid) && t.read.Get?
      requires forall i | 0 <= i < |t.fence| :: t.fence[i].Fence?
      requires forall i | 0 <= i < |t.collect| :: t.collect[i].Get? || t.collect[i].ReadConsole?
      requires |t.remove| <= 2 && (|t.remove| > 0 ==> t.remove[0].Get?) && (|t.remove| > 1 ==> t.remove[1].Delete?)
      ensures StopsOnly(AllDeleteCalls(t), uuid)
    {
      DeletePositions(t);
    }

    lemma DeletePositions(t: DeleteTrail)
      ensures var calls, a, b, c := AllDeleteCalls(t), 1 + |t.fence|, 1 + |t.fence| + |t.stop|,
                1 + |t.fence| + |t.stop| + |t.collect|;
              && calls[0] == t.read && |calls| == c + |t.remove|
              && (forall i | 1 <= i < a :: calls[i] == t.fence[i - 1])
              && (forall i | a <= i < b :: calls[i] == t.stop[i - a])
              && (forall i | b <= i < c :: calls[i] == t.collect[i - b])
              && (forall i | c <= i < |calls| :: calls[i] == t.remove[i - c])
    {
    }

    lemma Removed(t: DeleteTrail, runnerID: string, ok: bool)
      requires DeleteLog(t, runnerID, ok) && t.fence != []
      ensures var calls, uuid := AllDeleteCalls(t), SeenUUID(t.read);
              && |calls| > 1 && calls[0] == t.read && calls[1] == t.fence[0]
              && (|calls| > 2 ==> t.fence[0].outcome.Done?)
              && (forall i | 0 <= i < |calls| && calls[i].Delete? ::
                    i == |calls| - 1 > 2 && Shows(calls[i - 1], uuid) && StoppedBefore(calls, i, uuid))
              && (ok <==> calls[|calls| - 1].Delete? && !calls[|calls| - 1].outcome.Failed?)
    {
      hide StoppedBefore, Shows;
      PartKinds(t, runnerID, ok);
      DeletePositions(t);
      var calls, c := AllDeleteCalls(t), 1 + |t.fence| + |t.stop| + |t.collect|;
      if |t.remove| == 2 {
        WasStopped(t, runnerID, ok);
        assert calls[|calls| - 1] == t.remove[1] && calls[|calls| - 2] == t.remove[0];
      } else {
        NotRemoved(t, runnerID, ok);
      }
    }

    lemma NotRemoved(t: DeleteTrail, runnerID: string, ok: bool)
      requires DeleteLog(t, runnerID, ok) && t.fence != [] && |t.remove| < 2
      ensures !ok && !AllDeleteCalls(t)[|AllDeleteCalls(t)| - 1].Delete?
    {
      hide Shows;
      PartKinds(t, runnerID, ok);
      DeletePositions(t);
    }

    lemma WasStopped(t: DeleteTrail, runnerID: string, ok: bool)
      requires DeleteLog(t, runnerID, ok) && |t.remove| == 2
      ensures t.fence != [] && Shows(t.remove[0], SeenUUID(t.read)) && |t.collect| == 2
      ensures ok <==> t.remove[1].Delete? && !t.remove[1].outcome.Failed?
      ensures StoppedBefore(AllDeleteCalls(t), |AllDeleteCalls(t)| - 1, SeenUUID(t.read))
    {
      DeletePositions(t);
      var calls, uuid := AllDeleteCalls(t), SeenUUID(t.read);
      if Seen(t.read).status.Stopped? {
        assert StoppedAt(calls, 0, uuid);
      } else if Seen(t.stop[0]).status.Stopped? {
        assert calls[2] == t.stop[0];
        assert StoppedAt(calls, 2, uuid);
      } else {
        assert calls[2] == t.stop[0] && calls[3] == t.stop[1];
        assert StoppedAt(calls, 3, uuid);
      }
    }
  }

  /** The calls of one Create, part by part, and whether binding succeeded. */
  datatype CreateTrail = CreateTrail(
    create: seq<Call>, bind: seq<Call>, bound: bool, start: seq<Call>, writes: seq<Call>, fence: seq<Call>)

  /** The calls of one Delete, part by part. */
  datatype DeleteTrail = DeleteTrail(
    read: Call, fence: seq<Call>, stop: seq<Call>, stopped: bool, collect: seq<Call>, collected: bool, remove: seq<Call>)

  lemma PathsDistinct()
    ensures PAYLOAD_PATH != READY_PATH
  {
    assert |PAYLOAD_PATH| != |READY_PATH|;
  }

  /** No two record keys are the same. */
  lemma RecordKeysDistinct()
    ensures forall i, j | 0 <= i < j < |RECORD_KEYS| :: RECORD_KEYS[i] != RECORD_KEYS[j]
    ensures RECORD_KEYS == [
      OWNERSHIP_KEY, CORRELATION_KEY, CREATED_AT_KEY, IMAGE_KEY, IMAGE_REFERENCE_KEY, PROFILES_KEY, LAUNCH_DIGEST_KEY,
      JIT_RUNNER_ID_KEY, JIT_RUNNER_NAME_KEY, JIT_SCALE_SET_ID_KEY, BOUND_UUID_KEY]
  {
  }

  const RECORD_KEYS: seq<string> := [
    OWNERSHIP_KEY, CORRELATION_KEY, CREATED_AT_KEY, IMAGE_KEY, IMAGE_REFERENCE_KEY, PROFILES_KEY, LAUNCH_DIGEST_KEY,
    JIT_RUNNER_ID_KEY, JIT_RUNNER_NAME_KEY, JIT_SCALE_SET_ID_KEY, BOUND_UUID_KEY]
}
