/** ProofSink.Deliver: a proof file, then its commit marker, written into one exact running owned VM. */
module ProofSinks {
  import opened Wrappers
  import opened Launch

  type Envelope = string

  datatype Target = Target(instanceName: string, instanceUUID: string)

  /** What Deliver looks at in a verified proof payload. */
  datatype Proof = Proof(jobID: string, runnerID: int, machine: Target)

  /** A VM by its stable UUID: it keeps its name, and the guest keeps its files. */
  datatype Guest = Guest(name: string, owner: string, running: bool, files: map<string, Envelope>)

  type Guests = map<string, Guest>

  const PROOF_PATH := "/run/incus-gh-runner-proof/job-proof.dsse.json"
  const PROOF_READY_PATH := "/run/incus-gh-runner-proof/job-proof.ready"

  predicate Marked(guests: Guests, uuid: string) {
    uuid in guests && PROOF_READY_PATH in guests[uuid].files
  }

  function Stored(guests: Guests, uuid: string): Option<Envelope> {
    if uuid in guests && PROOF_PATH in guests[uuid].files then Some(guests[uuid].files[PROOF_PATH]) else None
  }

  /** A VM keeps its name. */
  predicate SameVM(before: Guests, after: Guests, uuid: string) {
    uuid in before ==> uuid in after && after[uuid].name == before[uuid].name
  }

  /** The VM has the same proof and the same marker; a new one has neither. */
  predicate Untouched(before: Guests, after: Guests, uuid: string) {
    && SameVM(before, after, uuid)
    && Stored(after, uuid) == Stored(before, uuid)
    && (Marked(after, uuid) <==> Marked(before, uuid))
  }

  /** The VM has been restarted: both files lay on a tmpfs, and are gone. */
  predicate Restarted(before: Guests, after: Guests, uuid: string) {
    SameVM(before, after, uuid) && Stored(after, uuid).None? && !Marked(after, uuid)
  }

  predicate ChurnedAt(before: Guests, after: Guests, restarts: set<string>, uuid: string) {
    if uuid in restarts then Restarted(before, after, uuid) else Untouched(before, after, uuid)
  }

  /** Names may move, VMs may change hands, stop and appear; proofs and markers go only by a restart. */
  ghost predicate Churned(before: Guests, after: Guests, restarts: set<string>) {
    forall uuid :: ChurnedAt(before, after, restarts, uuid)
  }

  /** One write to the VM's path: nothing else changes, and only a successful one says what is at the path. */
  ghost predicate Wrote(before: Guests, after: Guests, uuid: string, path: string, content: Envelope, ok: bool) {
    && uuid in before && uuid in after && after == before[uuid := after[uuid]]
    && after[uuid].(files := map[]) == before[uuid].(files := map[])
    && after[uuid].files - {path} == before[uuid].files - {path}
    && (ok ==> path in after[uuid].files && after[uuid].files[path] == content)
  }

  /** On every VM but t, proofs and markers have changed only by these restarts. */
  ghost predicate OnlyAt(before: Guests, after: Guests, t: string, restarts: set<string>) {
    && (forall uuid | uuid != t :: ChurnedAt(before, after, restarts, uuid))
    && SameVM(before, after, t)
  }

  lemma ThenChurn(before: Guests, between: Guests, after: Guests, t: string, early: set<string>, late: set<string>)
    requires OnlyAt(before, between, t, early) && Churned(between, after, late)
    ensures OnlyAt(before, after, t, early + late)
    ensures t in late ==> Stored(after, t).None? && !Marked(after, t)
    ensures t !in late && t in between ==> Stored(after, t) == Stored(between, t)
    ensures t !in late ==> (Marked(after, t) <==> Marked(between, t))
    ensures t in between ==> t in after && after[t].name == between[t].name
  {
    assert ChurnedAt(between, after, late, t);
    forall uuid | uuid != t ensures ChurnedAt(before, after, early + late, uuid) {
      assert ChurnedAt(before, between, early, uuid) && ChurnedAt(between, after, late, uuid);
    }
  }

  lemma ChurnIsAnywhere(before: Guests, after: Guests, t: string, restarts: set<string>)
    requires Churned(before, after, restarts)
    ensures OnlyAt(before, after, t, restarts) && ChurnedAt(before, after, restarts, t)
    ensures t !in restarts ==> (Marked(after, t) <==> Marked(before, t))
    ensures t !in restarts && Marked(before, t) ==> Stored(after, t) == Stored(before, t)
    ensures t in restarts ==> !Marked(after, t)
  {
    assert ChurnedAt(before, after, restarts, t);
  }

  lemma IsMarked(guests: Guests, t: string)
    ensures t in guests ==> (Marked(guests, t) <==> PROOF_READY_PATH in guests[t].files)
    ensures Marked(guests, t) ==> t in guests
  {
  }

  lemma ThenWrite(
    before: Guests, between: Guests, after: Guests, t: string, path: string, content: Envelope, ok: bool,
    restarts: set<string>)
    requires OnlyAt(before, between, t, restarts) && Wrote(between, after, t, path, content, ok)
    ensures OnlyAt(before, after, t, restarts) && t in after && after[t].name == between[t].name
  {
    forall uuid | uuid != t ensures ChurnedAt(before, after, restarts, uuid) {
      assert ChurnedAt(before, between, restarts, uuid);
    }
  }

  /** Writing the proof leaves the marker as it is. */
  lemma ProofWritten(before: Guests, after: Guests, t: string, content: Envelope, ok: bool)
    requires Wrote(before, after, t, PROOF_PATH, content, ok)
    ensures Marked(after, t) <==> Marked(before, t)
    ensures ok ==> Stored(after, t) == Some(content)
  {
    assert PROOF_READY_PATH in after[t].files <==> PROOF_READY_PATH in after[t].files - {PROOF_PATH};
    assert PROOF_READY_PATH in before[t].files <==> PROOF_READY_PATH in before[t].files - {PROOF_PATH};
  }

  /** Writing the marker leaves the proof as it is. */
  lemma MarkerWritten(before: Guests, after: Guests, t: string, ok: bool)
    requires Wrote(before, after, t, PROOF_READY_PATH, "", ok)
    ensures Stored(after, t) == Stored(before, t)
    ensures ok ==> Marked(after, t)
  {
    var left, right := after[t].files - {PROOF_READY_PATH}, before[t].files - {PROOF_READY_PATH};
    assert PROOF_PATH in after[t].files <==> PROOF_PATH in left;
    assert PROOF_PATH in before[t].files <==> PROOF_PATH in right;
    assert PROOF_PATH in left ==> left[PROOF_PATH] == right[PROOF_PATH];
  }

  datatype InstanceRead = Found(instance: Option<(string, Guest)>) | GetFailed
  datatype FileRead = Content(content: Envelope) | FileNotFound | ReadFailed

  /** A call to Incus: an identity read, or a file call. */
  datatype Call = Identify(name: string) | Look(name: string, path: string) | Write(name: string, path: string, ok: bool)

  /**
   * The Incus file and identity surface. The VM behind a name may be replaced, restarted or disowned whenever its
   * identity is about to be read, but not between that read and the file calls it guards. Any call may fail, and a
   * failed write may have left anything at its path.
   */
  class Client {
    var guests: Guests
    /** The UUID of the VM now behind a name. */
    var current: map<string, string>
    /** How many calls have failed, or were answered without an instance, though there was one to answer about. */
    ghost var faults: nat
    ghost var log: seq<Call>

    ghost predicate Valid()
      reads this
    {
      forall name | name in current :: current[name] in guests && guests[current[name]].name == name
    }

    constructor ()
      ensures Valid() && guests == map[] && current == map[]
    {
      guests, current, faults, log := map[], map[], 0, [];
    }

    method Churn() returns (ghost restarts: set<string>)
      requires Valid()
      modifies this
      ensures Valid() && Churned(old(guests), guests, restarts) && faults == old(faults) && log == old(log)
    {
      var next: Guests := *;
      var rebooting: set<string> := *;
      restarts := {};
      if forall uuid | uuid in guests.Keys + next.Keys + rebooting :: ChurnedAt(guests, next, rebooting, uuid) {
        assert forall uuid | uuid !in guests.Keys + next.Keys + rebooting :: ChurnedAt(guests, next, rebooting, uuid);
        guests, restarts := next, rebooting;
      }
      var names: map<string, string> := *;
      current := map name | name in names && names[name] in guests && guests[names[name]].name == name :: names[name];
    }

    method GetInstance(name: string) returns (r: InstanceRead, ghost restarts: set<string>)
      requires Valid()
      modifies this
      ensures Valid() && Churned(old(guests), guests, restarts)
      ensures r.Found? && r.instance.Some? ==>
                name in current && r.instance.value == (current[name], guests[current[name]])
      ensures faults == old(faults) + if name in current && !(r.Found? && r.instance.Some?) then 1 else 0
      ensures log == old(log) + [Identify(name)]
    {
      restarts := Churn();
      var failed: bool := *;
      var empty: bool := *;
      if failed || (!empty && name !in current) {
        r := GetFailed;
      } else if empty {
        r := Found(None);
      } else {
        r := Found(Some((current[name], guests[current[name]])));
      }
      if name in current && !(r.Found? && r.instance.Some?) {
        faults := faults + 1;
      }
      log := log + [Identify(name)];
    }

    method GetInstanceFile(name: string, path: string) returns (r: FileRead)
      requires Valid()
      modifies this`faults, this`log
      ensures Valid() && log == old(log) + [Look(name, path)]
      ensures faults == old(faults) + if name in current && r.ReadFailed? then 1 else 0
      ensures r.Content? ==> name in current && path in guests[current[name]].files
                             && r.content == guests[current[name]].files[path]
      ensures r.FileNotFound? ==> name in current && path !in guests[current[name]].files
    {
      var failed: bool := *;
      if failed || name !in current {
        r := ReadFailed;
        faults := if name in current then faults + 1 else faults;
      } else if path in guests[current[name]].files {
        r := Content(guests[current[name]].files[path]);
      } else {
        r := FileNotFound;
      }
      log := log + [Look(name, path)];
    }

    method CreateInstanceFile(name: string, path: string, content: Envelope) returns (ok: bool)
      requires Valid()
      modifies this`guests, this`faults, this`log
      ensures Valid() && log == old(log) + [Write(name, path, ok)]
      ensures faults == old(faults) + if name in current && !ok then 1 else 0
      ensures name !in current ==> !ok && guests == old(guests)
      ensures name in current ==> Wrote(old(guests), guests, current[name], path, content, ok)
    {
      var failed: bool := *;
      var left: Option<Envelope> := *;
      if name !in current {
        log := log + [Write(name, path, false)];
        return false;
      }
      var guest := guests[current[name]];
      var what := if failed then left else Some(content);
      var files := if what.Some? then guest.files[path := what.value] else guest.files - {path};
      guests := guests[current[name] := guest.(files := files)];
      assert files - {path} == guest.files - {path};
      faults := if failed then faults + 1 else faults;
      log := log + [Write(name, path, !failed)];
      return !failed;
    }
  }

  datatype Delivery =
    | Delivered
    | InvalidTarget
    | Unverified
    | NotItsTarget
    | Refused
    | Unavailable
    | CommittedUnverified
    | Conflict

  /**
   * What a delivery met with: the VMs restarted by the time of its first identity read, and between its two writes;
   * and whether every call it made was answered, about the VM it was meant for.
   */
  datatype Conditions = Conditions(early: set<string>, late: set<string>, answered: bool)

  /** One step of a VM's history: a delivery, or the environment on its own. */
  datatype Event =
    | Churn(restarted: set<string>)
    | Deliver(target: Target, envelope: Envelope, result: Delivery, met: Conditions)

  class ProofSink {
    const owner: string
    const verify: Envelope -> Option<Proof>
    const parsesAsUUID: string -> bool

    constructor (owner: string, verify: Envelope -> Option<Proof>, parsesAsUUID: string -> bool)
      ensures this.owner == owner && this.verify == verify && this.parsesAsUUID == parsesAsUUID
    {
      this.owner, this.verify, this.parsesAsUUID := owner, verify, parsesAsUUID;
    }

    /** proofTupleFor. */
    function Tuple(p: Proof): (string, int, string) {
      (p.jobID, p.runnerID, p.machine.instanceUUID)
    }

    /** The envelope verifies as a proof of exactly this machine. */
    predicate Proves(envelope: Envelope, target: Target) {
      verify(envelope).Some? && verify(envelope).value.machine == target
    }

    /** The VM carries the marker, beside a proof that verifies for that VM. */
    predicate Committed(guests: Guests, uuid: string) {
      && Marked(guests, uuid) && Stored(guests, uuid).Some?
      && Proves(Stored(guests, uuid).value, Target(guests[uuid].name, uuid))
    }

    function CommittedProof(guests: Guests, uuid: string): Proof
      requires Committed(guests, uuid)
    {
      verify(Stored(guests, uuid).value).value
    }

    /** A marker is only ever found beside a proof of its own VM. */
    ghost predicate Sound(guests: Guests) {
      forall uuid | Marked(guests, uuid) :: Committed(guests, uuid)
    }

    predicate Admissible(target: Target, envelope: Envelope) {
      !Blank(target.instanceName) && parsesAsUUID(target.instanceUUID) && Proves(envelope, target)
    }

    /** Two proofs are of the same job on the same runner and VM. */
    predicate Agree(a: Proof, b: Proof) {
      a.jobID == b.jobID && a.runnerID == b.runnerID && a.machine.instanceUUID == b.machine.instanceUUID
    }

    /** The stored proof verifies, and agrees with this envelope's or does not. */
    predicate StoredAgrees(guests: Guests, uuid: string, envelope: Envelope, same: bool) {
      && verify(envelope).Some? && Stored(guests, uuid).Some? && verify(Stored(guests, uuid).value).Some?
      && (same <==> Agree(verify(Stored(guests, uuid).value).value, verify(envelope).value))
    }

    /** Deliver was turned away before it touched anything, and why. */
    predicate TurnedAway(target: Target, envelope: Envelope, r: Delivery) {
      && (r.InvalidTarget? <==> Blank(target.instanceName) || !parsesAsUUID(target.instanceUUID))
      && (r.Unverified? <==> !r.InvalidTarget? && verify(envelope).None?)
      && (r.NotItsTarget? <==> !r.InvalidTarget? && !r.Unverified? && !Proves(envelope, target))
    }

    /** What one Deliver may have done to the VMs, whatever failed on the way. */
    ghost predicate DeliverStep(
      before: Guests, after: Guests, target: Target, envelope: Envelope, r: Delivery, met: Conditions)
    {
      var t, early, late := target.instanceUUID, met.early, met.late;
      && TurnedAway(target, envelope, r)
      && (!Admissible(target, envelope) ==> after == before && early == {} && late == {})
      && OnlyAt(before, after, t, early + late)
      // A marked VM that is not restarted is left alone, and its stored proof decides.
      && (Marked(before, t) && t !in early ==> Untouched(before, after, t) && late == {})
      && (Marked(before, t) && t !in early && r.Delivered? ==> StoredAgrees(before, t, envelope, true))
      && (r.Conflict? ==> Marked(before, t) && t !in early && StoredAgrees(before, t, envelope, false))
      && (r.CommittedUnverified? ==>
            && Marked(before, t) && t !in early
            && Stored(before, t).Some? && verify(Stored(before, t).value).None?)
      // A new marker is put beside this envelope, unless a restart came between the two writes.
      && (Marked(after, t) && !(Marked(before, t) && t !in early) ==>
            && Proves(envelope, Target(after[t].name, t))
            && Stored(after, t) == if t in late then None else Some(envelope))
      && (r.Delivered? ==> Admissible(target, envelope) && Marked(after, t) && after[t].name == target.instanceName)
      // With every call answered, it fails only on what is stored.
      && (met.answered ==> !r.Refused? && (r.Unavailable? ==> Marked(before, t) && t !in early && Stored(before, t).None?))
    }

    /** The running owned VM of this UUID is behind the target's name. */
    ghost predicate IsTarget(client: Client, target: Target)
      requires client.Valid()
      reads client
    {
      var name, uuid := target.instanceName, target.instanceUUID;
      && name in client.current && client.current[name] == uuid && parsesAsUUID(uuid)
      && client.guests[uuid].owner == owner && client.guests[uuid].running
    }

    /** verifyTarget: the exact owner, running state and UUID. It errs only where a call fails or that is not there. */
    method VerifyTarget(client: Client, target: Target) returns (r: Option<Delivery>, ghost restarts: set<string>)
      requires client.Valid()
      modifies client
      ensures client.Valid() && Churned(old(client.guests), client.guests, restarts)
      ensures r.None? <==> IsTarget(client, target) && client.faults == old(client.faults)
      ensures client.faults >= old(client.faults) && client.log == old(client.log) + [Identify(target.instanceName)]
      ensures r.Some? ==> r.value.Refused? || r.value.Unavailable?
    {
      var got;
      got, restarts := client.GetInstance(target.instanceName);
      if got.GetFailed? {
        return Some(Unavailable), restarts;
      }
      if got.instance.None? {
        return Some(Refused), restarts;
      }
      var (uuid, guest) := got.instance.value;
      if guest.owner != owner || !guest.running || !parsesAsUUID(uuid) || uuid != target.instanceUUID {
        return Some(Refused), restarts;
      }
      return None, restarts;
    }

    /** acceptCommittedDuplicate: the marker stands, so the stored proof decides. */
    method AcceptCommittedDuplicate(client: Client, name: string, incoming: Proof) returns (r: Delivery)
      requires client.Valid() && name in client.current
      modifies client`faults, client`log
      ensures client.Valid() && client.log == old(client.log) + [Look(name, PROOF_PATH)]
      ensures r.Unavailable? <==>
                client.faults > old(client.faults) || Stored(client.guests, client.current[name]).None?
      ensures !r.Unavailable? ==>
                var stored := verify(Stored(client.guests, client.current[name]).value);
                && client.faults == old(client.faults)
                && (r.CommittedUnverified? <==> stored.None?)
                && (r.Delivered? <==>
                      stored.Some? && stored.value.jobID == incoming.jobID && stored.value.runnerID == incoming.runnerID
                      && stored.value.machine.instanceUUID == incoming.machine.instanceUUID)
                && (r.Conflict? <==>
                      stored.Some? && (stored.value.jobID != incoming.jobID || stored.value.runnerID != incoming.runnerID
                                       || stored.value.machine.instanceUUID != incoming.machine.instanceUUID))
    {
      var stored := client.GetInstanceFile(name, PROOF_PATH);
      if !stored.Content? {
        return Unavailable;
      }
      var committed := verify(stored.content);
      if committed.None? {
        return CommittedUnverified;
      }
      return if Tuple(committed.value) != Tuple(incoming) then Conflict else Delivered;
    }

    /**
     * The calls of one delivery, in order: an identity read guards each write, with only the look for the marker in
     * between, and the marker is written only after the proof was. Success ends with the marker, or with a look at
     * the proof beside one.
     */
    ghost predicate Guarded(calls: seq<Call>, name: string, r: Delivery) {
      && |calls| <= 5
      && (|calls| > 0 ==> calls[0] == Identify(name))
      && (|calls| > 1 ==> calls[1] == Look(name, PROOF_READY_PATH))
      && (|calls| > 2 ==>
            || (calls[2] == Look(name, PROOF_PATH) && |calls| == 3)
            || calls[2] == Write(name, PROOF_PATH, true)
            || (calls[2] == Write(name, PROOF_PATH, false) && |calls| == 3 && r.Unavailable?))
      && (|calls| > 3 ==> calls[3] == Identify(name))
      && (|calls| > 4 ==> calls[4] == Write(name, PROOF_READY_PATH, r.Delivered?))
      && match r
         case Delivered => |calls| == 5 || (|calls| == 3 && calls[2].Look?)
         case Conflict | CommittedUnverified => |calls| == 3 && calls[2].Look?
         case Refused => |calls| == 1 || |calls| == 4
         case Unavailable => |calls| > 0
         case InvalidTarget | Unverified | NotItsTarget => calls == []
    }

    /** The calls of a delivery that comes to look at the proof at most. */
    lemma ShortCalls(name: string, r: Delivery)
      ensures r.InvalidTarget? || r.Unverified? || r.NotItsTarget? ==> Guarded([], name, r)
      ensures r.Refused? || r.Unavailable? ==> Guarded([Identify(name)], name, r)
      ensures r.Unavailable? ==> Guarded([Identify(name), Look(name, PROOF_READY_PATH)], name, r)
      ensures r.Delivered? || r.Conflict? || r.CommittedUnverified? || r.Unavailable? ==>
                Guarded([Identify(name), Look(name, PROOF_READY_PATH), Look(name, PROOF_PATH)], name, r)
    {
    }

    lemma LongCalls(name: string, r: Delivery, rest: seq<Call>)
      requires || (rest == [Write(name, PROOF_PATH, false)] && r.Unavailable?)
               || (rest == [Write(name, PROOF_PATH, true), Identify(name)] && (r.Refused? || r.Unavailable?))
               || (rest == [Write(name, PROOF_PATH, true), Identify(name), Write(name, PROOF_READY_PATH, r.Delivered?)]
                   && (r.Delivered? || r.Unavailable?))
      ensures Guarded([Identify(name), Look(name, PROOF_READY_PATH)] + rest, name, r)
    {
    }

    method Deliver(client: Client, target: Target, envelope: Envelope)
      returns (r: Delivery, ghost met: Conditions, ghost calls: seq<Call>)
      requires client.Valid()
      modifies client
      ensures client.Valid() && DeliverStep(old(client.guests), client.guests, target, envelope, r, met)
      ensures met.answered <==> IsTarget(client, target) && client.faults == old(client.faults)
      ensures client.log == old(client.log) + calls && Guarded(calls, target.instanceName, r)
    {
      ghost var name := target.instanceName;
      calls := [];
      met := Conditions({}, {}, IsTarget(client, target));
      ShortCalls(name, InvalidTarget);
      ShortCalls(name, Unverified);
      ShortCalls(name, NotItsTarget);
      if Blank(target.instanceName) || !parsesAsUUID(target.instanceUUID) {
        return InvalidTarget, met, calls;
      }
      var incoming := verify(envelope);
      if incoming.None? {
        return Unverified, met, calls;
      }
      if incoming.value.machine != target {
        return NotItsTarget, met, calls;
      }
      assert Admissible(target, envelope);
      r, met, calls := DeliverAdmissible(client, target, envelope, incoming.value);
    }

    /** What Deliver does once it has found the envelope to prove its target. */
    method DeliverAdmissible(client: Client, target: Target, envelope: Envelope, incoming: Proof)
      returns (r: Delivery, ghost met: Conditions, ghost calls: seq<Call>)
      requires client.Valid() && Admissible(target, envelope) && verify(envelope) == Some(incoming)
      modifies client
      ensures client.Valid() && DeliverStep(old(client.guests), client.guests, target, envelope, r, met)
      ensures met.answered <==> IsTarget(client, target) && client.faults == old(client.faults)
      ensures client.log == old(client.log) + calls && Guarded(calls, target.instanceName, r)
    {
      hide Churned, OnlyAt, Marked, Stored, DeliverStep, Admissible, Guarded;
      ghost var before, name, start := client.guests, target.instanceName, client.log;
      var refusal;
      ghost var early, rest;
      refusal, early := VerifyTarget(client, target);
      if refusal.Some? {
        OnlyChurned(before, client.guests, target, envelope, early);
        ShortCalls(name, refusal.value);
        return refusal.value, Conditions(early, {}, false), [Identify(name)];
      }
      r, met, rest := CheckMarker(client, target, envelope, incoming, before, early);
      calls := [Identify(name)] + rest;
    }

    /** The marker decides whether the stored proof is judged or this one written. */
    method CheckMarker(client: Client, target: Target, envelope: Envelope, incoming: Proof,
                       ghost before: Guests, ghost early: set<string>)
      returns (r: Delivery, ghost met: Conditions, ghost calls: seq<Call>)
      requires client.Valid() && Admissible(target, envelope) && verify(envelope) == Some(incoming)
      requires IsTarget(client, target) && Churned(before, client.guests, early)
      modifies client
      ensures client.Valid() && DeliverStep(before, client.guests, target, envelope, r, met)
      ensures met.answered <==> IsTarget(client, target) && client.faults == old(client.faults)
      ensures client.log == old(client.log) + calls && Guarded([Identify(target.instanceName)] + calls, target.instanceName, r)
    {
      hide Untouched, Churned, ChurnedAt, Restarted, OnlyAt, Wrote, Marked, Stored, DeliverStep, Admissible, Proves, Blank;
      hide Guarded;
      ghost var name, uuid, faults := target.instanceName, target.instanceUUID, client.faults;
      OnlyChurned(before, client.guests, target, envelope, early);
      var marker := client.GetInstanceFile(target.instanceName, PROOF_READY_PATH);
      ghost var look := Look(name, PROOF_READY_PATH);
      calls := [look];
      assert [Identify(name)] + calls == [Identify(name), look];
      IsMarked(client.guests, uuid);
      if marker.Content? {
        r := AcceptCommittedDuplicate(client, target.instanceName, incoming);
        calls := [look, Look(name, PROOF_PATH)];
        assert [Identify(name)] + calls == [Identify(name), look, Look(name, PROOF_PATH)];
        ShortCalls(name, r);
        met := Conditions(early, {}, client.faults == faults);
        DuplicateJudged(before, client.guests, target, envelope, r, met);
        return;
      }
      if !marker.FileNotFound? {
        ShortCalls(name, Unavailable);
        return Unavailable, Conditions(early, {}, false), calls;
      }
      ghost var rest;
      r, met, rest := WriteAndMark(client, target, envelope, before, early);
      calls := [look] + rest;
      assert [Identify(name)] + calls == [Identify(name), look] + rest;
    }

    /** The second half of Deliver: the proof, another identity check, the marker. */
    method WriteAndMark(client: Client, target: Target, envelope: Envelope, ghost before: Guests, ghost early: set<string>)
      returns (r: Delivery, ghost met: Conditions, ghost calls: seq<Call>)
      requires client.Valid() && Admissible(target, envelope) && IsTarget(client, target)
      requires OnlyAt(before, client.guests, target.instanceUUID, early) && !Marked(client.guests, target.instanceUUID)
      requires !(Marked(before, target.instanceUUID) && target.instanceUUID !in early)
      modifies client
      ensures client.Valid() && DeliverStep(before, client.guests, target, envelope, r, met)
      ensures met.answered <==> IsTarget(client, target) && client.faults == old(client.faults)
      ensures client.log == old(client.log) + calls && (r.Delivered? || r.Refused? || r.Unavailable?)
      ensures Guarded([Identify(target.instanceName), Look(target.instanceName, PROOF_READY_PATH)] + calls,
                      target.instanceName, r)
    {
      hide Untouched, Churned, ChurnedAt, Restarted, OnlyAt, Wrote, Marked, Stored, DeliverStep, Admissible, Guarded;
      ghost var name, start := target.instanceName, client.log;
      ghost var uuid, late := target.instanceUUID, {};
      ghost var between := client.guests;
      var written := client.CreateInstanceFile(target.instanceName, PROOF_PATH, envelope);
      ThenWrite(before, between, client.guests, uuid, PROOF_PATH, envelope, written, early);
      ProofWritten(between, client.guests, uuid, envelope, written);
      if !written {
        assert early + late == early;
        NothingCommitted(before, client.guests, target, envelope, early, late);
        calls := [Write(name, PROOF_PATH, false)];
        LongCalls(name, Unavailable, calls);
        return Unavailable, Conditions(early, late, false), calls;
      }
      between := client.guests;
      var refusal;
      refusal, late := VerifyTarget(client, target);
      ThenChurn(before, between, client.guests, uuid, early, late);
      if refusal.Some? {
        NothingCommitted(before, client.guests, target, envelope, early, late);
        calls := [Write(name, PROOF_PATH, true), Identify(name)];
        assert client.log == start + calls;
        LongCalls(name, refusal.value, calls);
        return refusal.value, Conditions(early, late, false), calls;
      }
      between := client.guests;
      written := client.CreateInstanceFile(target.instanceName, PROOF_READY_PATH, "");
      ThenWrite(before, between, client.guests, uuid, PROOF_READY_PATH, "", written, early + late);
      MarkerWritten(between, client.guests, uuid, written);
      MarkerKeepsTarget(between, client.guests, uuid, written);
      met := Conditions(early, late, written);
      MarkerTried(before, client.guests, target, envelope, written, met);
      calls := [Write(name, PROOF_PATH, true), Identify(name), Write(name, PROOF_READY_PATH, written)];
      r := if written then Delivered else Unavailable;
      assert client.log == start + calls;
      LongCalls(name, r, calls);
    }

    lemma MarkerKeepsTarget(before: Guests, after: Guests, t: string, ok: bool)
      requires Wrote(before, after, t, PROOF_READY_PATH, "", ok)
      ensures t in before && t in after
      ensures after[t].owner == before[t].owner && after[t].running == before[t].running
    {
      assert after[t].(files := map[]).owner == before[t].(files := map[]).owner;
    }

    /** The four ways in which an admissible delivery ends. */
    lemma OnlyChurned(before: Guests, after: Guests, target: Target, envelope: Envelope, early: set<string>)
      requires Admissible(target, envelope) && Churned(before, after, early)
      ensures OnlyAt(before, after, target.instanceUUID, early)
      ensures Marked(after, target.instanceUUID) <==>
                Marked(before, target.instanceUUID) && target.instanceUUID !in early
      ensures forall r: Delivery | r.Refused? || r.Unavailable? ::
                DeliverStep(before, after, target, envelope, r, Conditions(early, {}, false))
    {
      ChurnIsAnywhere(before, after, target.instanceUUID, early);
      assert early + {} == early;
    }

    lemma DuplicateJudged(
      before: Guests, after: Guests, target: Target, envelope: Envelope, r: Delivery, met: Conditions)
      requires Admissible(target, envelope) && Churned(before, after, met.early) && met.late == {}
      requires Marked(after, target.instanceUUID) && after[target.instanceUUID].name == target.instanceName
      requires r.Delivered? || r.Conflict? || r.CommittedUnverified? || r.Unavailable?
      requires !r.Unavailable? ==>
                 var stored := Stored(after, target.instanceUUID);
                 && stored.Some? && (r.CommittedUnverified? <==> verify(stored.value).None?)
                 && (verify(stored.value).Some? ==>
                       (r.Delivered? <==> Agree(verify(stored.value).value, verify(envelope).value)))
      requires met.answered && r.Unavailable? ==> Stored(after, target.instanceUUID).None?
      ensures DeliverStep(before, after, target, envelope, r, met)
    {
      ChurnIsAnywhere(before, after, target.instanceUUID, met.early);
      assert met.early + {} == met.early;
    }

    lemma NothingCommitted(
      before: Guests, after: Guests, target: Target, envelope: Envelope, early: set<string>, late: set<string>)
      requires Admissible(target, envelope) && OnlyAt(before, after, target.instanceUUID, early + late)
      requires !(Marked(before, target.instanceUUID) && target.instanceUUID !in early)
      requires !Marked(after, target.instanceUUID)
      ensures forall r: Delivery | r.Refused? || r.Unavailable? ::
                DeliverStep(before, after, target, envelope, r, Conditions(early, late, false))
    {
    }

    lemma MarkerTried(
      before: Guests, after: Guests, target: Target, envelope: Envelope, written: bool, met: Conditions)
      requires Admissible(target, envelope) && OnlyAt(before, after, target.instanceUUID, met.early + met.late)
      requires !(Marked(before, target.instanceUUID) && target.instanceUUID !in met.early)
      requires (written ==> Marked(after, target.instanceUUID)) && (met.answered ==> written)
      requires target.instanceUUID in after && after[target.instanceUUID].name == target.instanceName
      requires Stored(after, target.instanceUUID) == if target.instanceUUID in met.late then None else Some(envelope)
      ensures DeliverStep(before, after, target, envelope, if written then Delivered else Unavailable, met)
    {
    }

    // ---- Whole histories ----------------------------------------------------------------------------

    ghost predicate EventStep(before: Guests, after: Guests, e: Event) {
      match e
      case Churn(restarted) => Churned(before, after, restarted)
      case Deliver(target, envelope, r, met) => DeliverStep(before, after, target, envelope, r, met)
    }

    /** Deliveries one after another, the VMs churning between them. */
    ghost predicate IsHistory(states: seq<Guests>, events: seq<Event>) {
      && |states| == |events| + 1
      && forall i | 0 <= i < |events| :: EventStep(states[i], states[i + 1], events[i])
    }

    /** The event restarted this VM. */
    predicate RestartsVM(e: Event, uuid: string) {
      match e
      case Churn(restarted) => uuid in restarted
      case Deliver(_, _, _, met) => uuid in met.early || uuid in met.late
    }

    /** A delivery's target was restarted between its two writes, and the marker came after. */
    predicate OutlivesProof(after: Guests, e: Event) {
      e.Deliver? && e.target.instanceUUID in e.met.late && Marked(after, e.target.instanceUUID)
    }

    /** A step from sound VMs leaves a marker without its proof exactly when it outlived it in a restart. */
    lemma StepKeepsSoundExactly(before: Guests, after: Guests, e: Event)
      requires Sound(before) && EventStep(before, after, e)
      ensures Sound(after) <==> !OutlivesProof(after, e)
    {
      forall uuid ensures Marked(after, uuid) && !OutlivesProof(after, e) ==> Committed(after, uuid) {
        assert Marked(before, uuid) ==> Committed(before, uuid);
        if e.Churn? {
          assert ChurnedAt(before, after, e.restarted, uuid);
        } else if uuid != e.target.instanceUUID {
          assert ChurnedAt(before, after, e.met.early + e.met.late, uuid);
        }
      }
      if OutlivesProof(after, e) {
        assert Stored(after, e.target.instanceUUID).None?;
        assert !Committed(after, e.target.instanceUUID);
      }
    }

    /**
     * Over any history of deliveries, every marker is always found beside a proof that verifies for its own VM, if
     * and only if no target was restarted between the two writes of a delivery that went on to leave its marker.
     */
    lemma {:induction false} MarkerMeansVerifiedProof(states: seq<Guests>, events: seq<Event>, n: nat)
      requires IsHistory(states, events) && Sound(states[0]) && n < |states|
      ensures (forall i | 0 <= i <= n :: Sound(states[i])) <==>
              (forall i | 0 <= i < n :: !OutlivesProof(states[i + 1], events[i]))
    {
      hide EventStep, Sound, OutlivesProof;
      if n > 0 {
        MarkerMeansVerifiedProof(states, events, n - 1);
        if Sound(states[n - 1]) {
          assert EventStep(states[n - 1], states[n], events[n - 1]);
          StepKeepsSoundExactly(states[n - 1], states[n], events[n - 1]);
        }
      }
    }

    /** No marker has outlived its proof up to n. */
    ghost predicate ProofsKept(states: seq<Guests>, events: seq<Event>, n: nat)
      requires |states| == |events| + 1 && n < |states|
    {
      Sound(states[0]) && forall i | 0 <= i < n :: !OutlivesProof(states[i + 1], events[i])
    }

    /** Nothing restarts this VM from i up to j. */
    ghost predicate KeptUp(events: seq<Event>, i: nat, j: nat, uuid: string)
      requires j <= |events|
    {
      forall k | i <= k < j :: !RestartsVM(events[k], uuid)
    }

    lemma StepKeepsCommit(before: Guests, after: Guests, e: Event, uuid: string)
      requires EventStep(before, after, e) && Marked(before, uuid) && !RestartsVM(e, uuid)
      ensures Marked(after, uuid) && Stored(after, uuid) == Stored(before, uuid)
      ensures uuid in before && uuid in after
      ensures after[uuid].name == before[uuid].name
    {
      if e.Churn? {
        assert ChurnedAt(before, after, e.restarted, uuid);
      } else if uuid != e.target.instanceUUID {
        assert ChurnedAt(before, after, e.met.early + e.met.late, uuid);
      }
    }

    /** Until the VM is restarted, neither its marker nor the proof file beside it ever changes. */
    lemma {:induction false} CommitIsFinal(states: seq<Guests>, events: seq<Event>, i: nat, j: nat, uuid: string)
      requires IsHistory(states, events) && i <= j < |states| && Marked(states[i], uuid) && KeptUp(events, i, j, uuid)
      ensures Marked(states[j], uuid) && Stored(states[j], uuid) == Stored(states[i], uuid)
      ensures uuid in states[i] && uuid in states[j]
      ensures states[j][uuid].name == states[i][uuid].name
      decreases j - i
    {
      hide EventStep, Stored, RestartsVM;
      if i < j {
        StepKeepsCommit(states[i], states[i + 1], events[i], uuid);
        CommitIsFinal(states, events, i + 1, j, uuid);
      }
    }

    lemma SoundAt(states: seq<Guests>, events: seq<Event>, n: nat)
      requires IsHistory(states, events) && n < |states| && ProofsKept(states, events, n)
      ensures Sound(states[n])
    {
      hide EventStep, Sound, OutlivesProof;
      MarkerMeansVerifiedProof(states, events, n);
    }

    /** From an accepted delivery until the VM is restarted, its (job, runner, UUID) is what the VM holds. */
    lemma AcceptedTupleStays(states: seq<Guests>, events: seq<Event>, i: nat, j: nat)
      requires IsHistory(states, events) && i < |events| && i < j < |states| && ProofsKept(states, events, j)
      requires events[i].Deliver? && events[i].result.Delivered?
      requires KeptUp(events, i + 1, j, events[i].target.instanceUUID)
      ensures verify(events[i].envelope).Some? && Committed(states[j], events[i].target.instanceUUID)
      ensures var held, accepted :=
                CommittedProof(states[j], events[i].target.instanceUUID), verify(events[i].envelope).value;
              && held.jobID == accepted.jobID && held.runnerID == accepted.runnerID
              && held.machine.instanceUUID == accepted.machine.instanceUUID == events[i].target.instanceUUID
    {
      var uuid := events[i].target.instanceUUID;
      assert EventStep(states[i], states[i + 1], events[i]);
      assert !OutlivesProof(states[i + 1], events[i]);
      CommitIsFinal(states, events, i + 1, j, uuid);
      SoundAt(states, events, j);
    }

    /** Two deliveries accepted for one VM without a restart in between carried the same (job, runner, UUID). */
    lemma AcceptedDeliveriesAgree(states: seq<Guests>, events: seq<Event>, i: nat, j: nat)
      requires IsHistory(states, events) && i < j < |events| && ProofsKept(states, events, j + 1)
      requires events[i].Deliver? && events[i].result.Delivered?
      requires events[j].Deliver? && events[j].result.Delivered?
      requires events[i].target.instanceUUID == events[j].target.instanceUUID
      requires KeptUp(events, i + 1, j + 1, events[i].target.instanceUUID)
      ensures verify(events[i].envelope).Some? && verify(events[j].envelope).Some?
      ensures var first, second := verify(events[i].envelope).value, verify(events[j].envelope).value;
              && first.jobID == second.jobID && first.runnerID == second.runnerID
              && first.machine.instanceUUID == second.machine.instanceUUID
    {
      AcceptedTupleStays(states, events, i, j + 1);
      AcceptedTupleStays(states, events, j, j + 1);
    }

    /**
     * A delivery to a committed VM that is not restarted changes nothing there and never finds an unverifiable proof.
     * Judged by the stored proof, it is accepted exactly if job, runner and UUID all agree, and a conflict exactly if
     * one differs; and an admissible one is judged whenever every call was answered.
     */
    lemma RedeliveryVerdict(states: seq<Guests>, events: seq<Event>, i: nat)
      requires IsHistory(states, events) && i < |events| && events[i].Deliver? && ProofsKept(states, events, i)
      requires Marked(states[i], events[i].target.instanceUUID)
      requires events[i].target.instanceUUID !in events[i].met.early
      ensures var uuid, r := events[i].target.instanceUUID, events[i].result;
              Untouched(states[i], states[i + 1], uuid) && Committed(states[i], uuid) && !r.CommittedUnverified?
      ensures var uuid, r := events[i].target.instanceUUID, events[i].result;
              Admissible(events[i].target, events[i].envelope) && events[i].met.answered ==> r.Delivered? || r.Conflict?
      ensures var uuid, r := events[i].target.instanceUUID, events[i].result;
              r.Delivered? || r.Conflict? ==>
                verify(events[i].envelope).Some?
                && var held, incoming := CommittedProof(states[i], uuid), verify(events[i].envelope).value;
                   && (r.Delivered? <==> held.jobID == incoming.jobID && held.runnerID == incoming.runnerID
                                         && held.machine.instanceUUID == incoming.machine.instanceUUID)
                   && (r.Conflict? <==> held.jobID != incoming.jobID || held.runnerID != incoming.runnerID
                                        || held.machine.instanceUUID != incoming.machine.instanceUUID)
    {
      assert EventStep(states[i], states[i + 1], events[i]);
      SoundAt(states, events, i);
    }

    /** An admissible delivery to a VM without a marker is accepted whenever every call was answered. */
    lemma FirstDeliveryAccepted(states: seq<Guests>, events: seq<Event>, i: nat)
      requires IsHistory(states, events) && i < |events| && events[i].Deliver?
      requires Admissible(events[i].target, events[i].envelope) && events[i].met.answered
      requires !Marked(states[i], events[i].target.instanceUUID) || events[i].target.instanceUUID in events[i].met.early
      ensures events[i].result.Delivered?
    {
      assert EventStep(states[i], states[i + 1], events[i]);
    }

    // ---- What a restart undoes ----------------------------------------------------------------------

    function Alone(target: Target, files: map<string, Envelope>): Guests {
      map[target.instanceUUID := Guest(target.instanceName, owner, true, files)]
    }

    /** A fresh VM in front of any delivery to it: the marker goes beside the proof, whose tuple is stored. */
    lemma FirstDelivery(target: Target, envelope: Envelope)
      requires Admissible(target, envelope)
      ensures var before, after := Alone(target, map[]), Alone(target, map[PROOF_PATH := envelope, PROOF_READY_PATH := ""]);
              DeliverStep(before, after, target, envelope, Delivered, Conditions({}, {}, true))
    {
    }

    /**
     * The commit does not survive a restart: between two deliveries of different jobs or runners that are both
     * accepted for one VM, all it takes is one.
     */
    lemma RestartAdmitsAnother(target: Target, first: Envelope, second: Envelope)
      returns (states: seq<Guests>, events: seq<Event>)
      requires Admissible(target, first) && Admissible(target, second)
      requires var a, b := verify(first).value, verify(second).value; a.jobID != b.jobID || a.runnerID != b.runnerID
      ensures IsHistory(states, events) && states[0] == Alone(target, map[]) && Sound(states[0]) && |events| == 3
      ensures events[0] == Event.Deliver(target, first, Delivered, Conditions({}, {}, true))
      ensures events[1] == Event.Churn({target.instanceUUID})
      ensures events[2] == Event.Deliver(target, second, Delivered, Conditions({}, {}, true))
    {
      var empty := Alone(target, map[]);
      states := [empty, Alone(target, map[PROOF_PATH := first, PROOF_READY_PATH := ""]), empty,
                 Alone(target, map[PROOF_PATH := second, PROOF_READY_PATH := ""])];
      events := [Event.Deliver(target, first, Delivered, Conditions({}, {}, true)), Event.Churn({target.instanceUUID}),
                 Event.Deliver(target, second, Delivered, Conditions({}, {}, true))];
      FirstDelivery(target, first);
      FirstDelivery(target, second);
      assert EventStep(states[0], states[1], events[0]);
      assert EventStep(states[1], states[2], events[1]);
      assert EventStep(states[2], states[3], events[2]);
    }

    /** A restart between the two writes leaves a marker alone, and Deliver reports success. */
    lemma MarkerCanOutliveProof(target: Target, envelope: Envelope) returns (states: seq<Guests>, events: seq<Event>)
      requires Admissible(target, envelope)
      ensures IsHistory(states, events) && Sound(states[0]) && |events| == 1
      ensures events[0] == Event.Deliver(target, envelope, Delivered, Conditions({}, {target.instanceUUID}, true))
      ensures Marked(states[1], target.instanceUUID) && Stored(states[1], target.instanceUUID).None?
    {
      states := [Alone(target, map[]), Alone(target, map[PROOF_READY_PATH := ""])];
      events := [Event.Deliver(target, envelope, Delivered, Conditions({}, {target.instanceUUID}, true))];
      assert EventStep(states[0], states[1], events[0]);
    }
  }
}
