/**
 * Launch identity: what Preflight pins, what Create requests, what the server and the controller add later, and
 * what Snapshot rebuilds from the running VM.
 */
module Launch {
  import opened Wrappers

  type Config = map<string, string>
  type Devices = map<string, map<string, string>>

  const DEFAULT_PROFILE := "default"
  const OWNERSHIP_KEY := "user.incus-gh-runner.owner"
  const CORRELATION_KEY := "user.incus-gh-runner.correlation-id"
  const CREATED_AT_KEY := "user.incus-gh-runner.created-at"
  const IMAGE_KEY := "user.incus-gh-runner.image"
  const IMAGE_REFERENCE_KEY := "user.incus-gh-runner.image-reference"
  const PROFILES_KEY := "user.incus-gh-runner.profiles"
  const LAUNCH_DIGEST_KEY := "user.incus-gh-runner.launch-configuration-sha256"
  const JIT_RUNNER_ID_KEY := "user.incus-gh-runner.jit-runner-id"
  const JIT_RUNNER_NAME_KEY := "user.incus-gh-runner.jit-runner-name"
  const JIT_SCALE_SET_ID_KEY := "user.incus-gh-runner.jit-scale-set-id"
  const BOUND_UUID_KEY := "user.incus-gh-runner.instance-uuid"
  const UUID_KEY := "volatile.uuid"
  const FINGERPRINT_LENGTH: nat := 64

  datatype Profile = Profile(config: Config, devices: Devices)
  datatype ProfileReference = ProfileReference(name: string, digest: string)

  /** profiles is None where the image names none, which is not the same as naming an empty list. */
  datatype Image = Image(fingerprint: string, profiles: Option<seq<string>>)

  datatype LaunchInput = LaunchInput(
    imageFingerprint: string, profiles: seq<ProfileReference>, config: Config, devices: Devices)

  datatype Identity = Identity(
    imageFingerprint: string,
    profiles: seq<ProfileReference>,
    profileMetadata: string,
    config: Config,
    devices: Devices,
    launchDigest: string)

  /** The JSON encodings and SHA-256 digests, as given functions; a digest of an invalid input is None. */
  datatype Codec = Codec(
    encodeProfiles: seq<ProfileReference> -> string,
    decodeProfiles: string -> Option<seq<ProfileReference>>,
    profileDigest: Profile -> Option<string>,
    launchDigest: LaunchInput -> Option<string>)

  /** isLaunchMetadataKey: keys the server or this controller adds after the launch request. */
  predicate IsMetadataKey(key: string) {
    "volatile." <= key || "image." <= key || "user.incus-gh-runner." <= key
  }

  /** Exactly the keys under one of three prefixes. */
  lemma MetadataKeysExactly(key: string)
    ensures IsMetadataKey(key) <==>
              exists suffix ::
                key == "volatile." + suffix || key == "image." + suffix || key == "user.incus-gh-runner." + suffix
  {
    if IsMetadataKey(key) {
      var prefix :=
        if "volatile." <= key then "volatile." else if "image." <= key then "image." else "user.incus-gh-runner.";
      assert key == prefix + key[|prefix|..];
    }
  }

  predicate IsSpace(c: char) {
    || c in "\t\n\U{0b}\U{0c}\r \U{85}\U{a0}\U{1680}\U{2028}\U{2029}\U{202f}\U{205f}\U{3000}"
    || '\U{2000}' <= c <= '\U{200a}'
  }

  predicate Blank(s: string) {
    forall c | c in s :: IsSpace(c)
  }

  /** strings.TrimSpace: without leading and trailing space. */
  function TrimSpace(s: string): string
    decreases |s|
  {
    if s == "" then ""
    else if IsSpace(s[0]) then TrimSpace(s[1..])
    else if IsSpace(s[|s| - 1]) then TrimSpace(s[..|s| - 1])
    else s
  }

  /** A string is blank if and only if nothing is left of it when trimmed. */
  lemma {:induction false} BlankIsTrimmedAway(s: string)
    ensures Blank(s) <==> TrimSpace(s) == ""
    decreases |s|
  {
    if s != "" && IsSpace(s[0]) {
      BlankIsTrimmedAway(s[1..]);
      assert s == [s[0]] + s[1..];
    } else if s != "" {
      assert s[0] in s;
      if IsSpace(s[|s| - 1]) {
        BlankIsTrimmedAway(s[..|s| - 1]);
        assert s[..|s| - 1][0] == s[0];
      }
    }
  }

  predicate IsHex(c: char) {
    '0' <= c <= '9' || 'a' <= c <= 'f' || 'A' <= c <= 'F'
  }

  predicate ValidFingerprint(fingerprint: string) {
    |fingerprint| == FINGERPRINT_LENGTH && forall c | c in fingerprint :: IsHex(c)
  }

  /** Incus's own selection: configured profiles, else the image's, else the default one. */
  function EffectiveProfileNames(configured: seq<string>, image: Image): seq<string> {
    if configured != [] then configured
    else if image.profiles.Some? then image.profiles.value
    else [DEFAULT_PROFILE]
  }

  /** Later profiles override earlier ones, key by key and device by device. */
  function MergedConfig(profiles: seq<Profile>): Config {
    if profiles == [] then map[]
    else MergedConfig(profiles[..|profiles| - 1]) + profiles[|profiles| - 1].config
  }

  function MergedDevices(profiles: seq<Profile>): Devices {
    if profiles == [] then map[]
    else MergedDevices(profiles[..|profiles| - 1]) + profiles[|profiles| - 1].devices
  }

  /** Which of several maps a key is taken from: the last that has it. */
  ghost predicate LastWith<V>(maps: seq<map<string, V>>, key: string, i: int) {
    0 <= i < |maps| && key in maps[i] && forall j | i < j < |maps| :: key !in maps[j]
  }

  /** merged holds the keys of all maps, each with the value the last map that has it gives it. */
  ghost predicate LastWins<V>(merged: map<string, V>, maps: seq<map<string, V>>) {
    forall key ::
      && (key in merged <==> exists i | 0 <= i < |maps| :: key in maps[i])
      && forall i | LastWith(maps, key, i) :: key in merged && merged[key] == maps[i][key]
  }

  lemma LastWinsMore<V>(merged: map<string, V>, maps: seq<map<string, V>>, last: map<string, V>)
    requires LastWins(merged, maps)
    ensures LastWins(merged + last, maps + [last])
  {
    var after := maps + [last];
    forall key
      ensures key in merged + last <==> exists i | 0 <= i < |after| :: key in after[i]
      ensures forall i | LastWith(after, key, i) :: key in merged + last && (merged + last)[key] == after[i][key]
    {
      if key in last {
        assert key in after[|maps|];
      } else if key in merged {
        var i :| 0 <= i < |maps| && key in maps[i];
        assert key in after[i];
      }
      forall i | LastWith(after, key, i)
        ensures key in merged + last && (merged + last)[key] == after[i][key]
      {
        if i < |maps| {
          assert key !in after[|maps|];
          assert forall j | i < j < |maps| :: after[j] == maps[j];
          assert LastWith(maps, key, i);
        }
      }
    }
  }

  ghost function Configs(profiles: seq<Profile>): seq<Config> {
    seq(|profiles|, i requires 0 <= i < |profiles| => profiles[i].config)
  }

  ghost function DevicesOf(profiles: seq<Profile>): seq<Devices> {
    seq(|profiles|, i requires 0 <= i < |profiles| => profiles[i].devices)
  }

  /** Later profiles win, key by key and device by device. */
  lemma {:induction false} LaterProfilesWin(profiles: seq<Profile>)
    ensures LastWins(MergedConfig(profiles), Configs(profiles))
    ensures LastWins(MergedDevices(profiles), DevicesOf(profiles))
  {
    hide LastWins;
    if profiles == [] {
      NothingWins();
    } else {
      var n := |profiles| - 1;
      LaterProfilesWin(profiles[..n]);
      LastWinsMore(MergedConfig(profiles[..n]), Configs(profiles[..n]), profiles[n].config);
      LastWinsMore(MergedDevices(profiles[..n]), DevicesOf(profiles[..n]), profiles[n].devices);
      assert Configs(profiles) == Configs(profiles[..n]) + [profiles[n].config];
      assert DevicesOf(profiles) == DevicesOf(profiles[..n]) + [profiles[n].devices];
    }
  }

  lemma NothingWins()
    ensures LastWins(MergedConfig([]), Configs([])) && LastWins(MergedDevices([]), DevicesOf([]))
  {
  }

  predicate Unreserved(profile: Profile) {
    forall key | key in profile.config :: !IsMetadataKey(key)
  }

  /** The digest of a profile that has one. */
  function Digest(profile: Profile, codec: Codec): string {
    if codec.profileDigest(profile).Some? then codec.profileDigest(profile).value else ""
  }

  function References(names: seq<string>, profiles: seq<Profile>, codec: Codec): seq<ProfileReference>
    requires |names| == |profiles|
  {
    seq(|names|, i requires 0 <= i < |names| => ProfileReference(names[i], Digest(profiles[i], codec)))
  }

  /** launchInput: the pinned request before any metadata. */
  function LaunchInputOf(identity: Identity): LaunchInput {
    LaunchInput(identity.imageFingerprint, identity.profiles, identity.config, identity.devices)
  }

  /**
   * The profiles Preflight reads, one answer per effective name: None where the server has an error. Each must be
   * unreserved and have a digest.
   */
  ghost predicate Resolved(names: seq<string>, answers: seq<Option<Profile>>, codec: Codec) {
    && |answers| == |names|
    && forall i | 0 <= i < |names| ::
         && !Blank(names[i]) && answers[i].Some? && Unreserved(answers[i].value)
         && codec.profileDigest(answers[i].value).Some?
  }

  function Values(answers: seq<Option<Profile>>): seq<Profile>
    requires forall i | 0 <= i < |answers| :: answers[i].Some?
  {
    seq(|answers|, i requires 0 <= i < |answers| => answers[i].value)
  }

  /** What these answers pin, before the digest of the finished launch input. */
  function Undigested(image: Image, names: seq<string>, profiles: seq<Profile>, codec: Codec): Identity
    requires |names| == |profiles|
  {
    var references := References(names, profiles, codec);
    Identity(image.fingerprint, references, codec.encodeProfiles(references),
             MergedConfig(profiles), MergedDevices(profiles), "")
  }

  /** identity is what a successful Preflight pins. */
  ghost predicate Pins(identity: Identity, image: Image, names: seq<string>, profiles: seq<Profile>, codec: Codec)
    requires |names| == |profiles|
  {
    && identity.(launchDigest := "") == Undigested(image, names, profiles, codec)
    && codec.launchDigest(LaunchInputOf(identity)) == Some(identity.launchDigest)
  }

  /**
   * What a pinned identity holds, field by field: the image, the profiles that apply with their digests, their
   * encoding, config and devices merged with later profiles winning, and the digest of it all. Profiles are the
   * configured ones; the image's only where none is configured; and the default one where the image names none.
   */
  ghost predicate Holds(
    identity: Identity, image: Image, configured: seq<string>, profiles: seq<Profile>, codec: Codec)
  {
    && identity.imageFingerprint == image.fingerprint
    && |identity.profiles| == |profiles|
    && (forall i | 0 <= i < |profiles| ::
          codec.profileDigest(profiles[i]) == Some(identity.profiles[i].digest))
    && (configured != [] ==>
          |configured| == |profiles| && forall i | 0 <= i < |profiles| :: identity.profiles[i].name == configured[i])
    && (configured == [] && image.profiles.Some? ==>
          && |image.profiles.value| == |profiles|
          && forall i | 0 <= i < |profiles| :: identity.profiles[i].name == image.profiles.value[i])
    && (configured == [] && image.profiles.None? ==> |profiles| == 1 && identity.profiles[0].name == "default")
    && identity.profileMetadata == codec.encodeProfiles(identity.profiles)
    && LastWins(identity.config, Configs(profiles)) && LastWins(identity.devices, DevicesOf(profiles))
    && codec.launchDigest(LaunchInput(identity.imageFingerprint, identity.profiles, identity.config, identity.devices))
       == Some(identity.launchDigest)
  }

  lemma PinnedHolds(
    identity: Identity, image: Image, configured: seq<string>, answers: seq<Option<Profile>>, codec: Codec)
    requires Resolved(EffectiveProfileNames(configured, image), answers, codec)
    requires Pins(identity, image, EffectiveProfileNames(configured, image), Values(answers), codec)
    ensures Holds(identity, image, configured, Values(answers), codec)
  {
    hide LastWins, Blank, Unreserved;
    LaterProfilesWin(Values(answers));
    var references := References(EffectiveProfileNames(configured, image), Values(answers), codec);
    assert identity.profiles == identity.(launchDigest := "").profiles == references;
    assert identity.imageFingerprint == identity.(launchDigest := "").imageFingerprint;
    assert identity.config == identity.(launchDigest := "").config;
    assert identity.devices == identity.(launchDigest := "").devices;
    assert identity.profileMetadata == identity.(launchDigest := "").profileMetadata;
    forall i | 0 <= i < |answers| ensures codec.profileDigest(answers[i].value) == Some(identity.profiles[i].digest) {
      assert identity.profiles[i] == references[i];
    }
  }

  lemma NoProfile(codec: Codec)
    ensures MergedConfig([]) == map[] && MergedDevices([]) == map[] && References([], [], codec) == []
  {
  }

  /** Reading one more profile extends what is pinned by it. */
  lemma NextProfile(names: seq<string>, answers: seq<Option<Profile>>, i: nat, codec: Codec)
    requires i < |names| == |answers| && Resolved(names[..i], answers[..i], codec)
    requires !Blank(names[i]) && answers[i].Some? && Unreserved(answers[i].value)
    requires codec.profileDigest(answers[i].value).Some?
    ensures Resolved(names[..i + 1], answers[..i + 1], codec)
    ensures var before, after := Values(answers[..i]), Values(answers[..i + 1]);
            && MergedConfig(after) == MergedConfig(before) + answers[i].value.config
            && MergedDevices(after) == MergedDevices(before) + answers[i].value.devices
            && References(names[..i + 1], after, codec) == References(names[..i], before, codec)
                 + [ProfileReference(names[i], Digest(answers[i].value, codec))]
  {
    hide Blank, Unreserved;
    assert names[..i + 1] == names[..i] + [names[i]];
    assert answers[..i + 1] == answers[..i] + [answers[i]];
    var before, after := Values(answers[..i]), Values(answers[..i + 1]);
    assert after[..i] == before;
  }

  class Backend {
    const configured: seq<string>
    const codec: Codec
    var identity: Option<Identity>

    constructor (configured: seq<string>, codec: Codec)
      ensures identity.None? && this.configured == configured && this.codec == codec
    {
      this.configured, this.codec, identity := configured, codec, None;
    }

    /** Preflight: pins image and profiles, or fails and leaves what was pinned before. */
    method Preflight(image: Option<Image>, answers: seq<Option<Profile>>) returns (ok: bool)
      requires image.Some? ==> |answers| == |EffectiveProfileNames(configured, image.value)|
      modifies this`identity
      ensures !ok ==> identity == old(identity)
      ensures ok <==>
                && image.Some? && ValidFingerprint(image.value.fingerprint)
                && var names := EffectiveProfileNames(configured, image.value);
                   Resolved(names, answers, codec)
                   && codec.launchDigest(LaunchInputOf(Undigested(image.value, names, Values(answers), codec))).Some?
      ensures ok ==> identity.Some? && Pins(identity.value, image.value, EffectiveProfileNames(configured, image.value),
                                            Values(answers), codec)
      ensures ok ==> Holds(identity.value, image.value, configured, Values(answers), codec)
      ensures ok ==> |image.value.fingerprint| == 64
    {
      if image.None? || !ValidFingerprint(image.value.fingerprint) {
        return false;
      }
      var names := EffectiveProfileNames(configured, image.value);
      hide Blank, Unreserved, References, MergedConfig, MergedDevices, IsHex, IsMetadataKey, Holds;
      var config: Config, devices: Devices, references: seq<ProfileReference> := map[], map[], [];
      NoProfile(codec);
      for i := 0 to |names|
        invariant identity == old(identity) && Resolved(names[..i], answers[..i], codec)
        invariant config == MergedConfig(Values(answers[..i])) && devices == MergedDevices(Values(answers[..i]))
        invariant references == References(names[..i], Values(answers[..i]), codec)
      {
        if Blank(names[i]) || answers[i].None? || !Unreserved(answers[i].value) {
          return false;
        }
        var profile := answers[i].value;
        var digest := codec.profileDigest(profile);
        if digest.None? {
          return false;
        }
        NextProfile(names, answers, i, codec);
        references := references + [ProfileReference(names[i], digest.value)];
        config, devices := config + profile.config, devices + profile.devices;
      }
      assert names[..|names|] == names && answers[..|names|] == answers;
      var pinned := Identity(image.value.fingerprint, references, codec.encodeProfiles(references), config, devices, "");
      var digest := codec.launchDigest(LaunchInputOf(pinned));
      if digest.None? {
        return false;
      }
      identity := Some(pinned.(launchDigest := digest.value));
      PinnedHolds(identity.value, image.value, configured, answers, codec);
      return true;
    }
  }

  // ---- Create and after -----------------------------------------------------------------------------

  /** The instance config Create requests. */
  function RequestConfig(
    identity: Identity, owner: string, correlation: string, createdAt: string, imageReference: string): Config
  {
    identity.config + map[
      OWNERSHIP_KEY := owner,
      CORRELATION_KEY := correlation,
      CREATED_AT_KEY := createdAt,
      IMAGE_KEY := identity.imageFingerprint,
      IMAGE_REFERENCE_KEY := imageReference,
      PROFILES_KEY := identity.profileMetadata,
      LAUNCH_DIGEST_KEY := identity.launchDigest]
  }

  /** A change of one config key by the server, the controller or an operator. */
  datatype Edit = SetKey(key: string, value: string) | UnsetKey(key: string)

  function Edited(config: Config, edits: seq<Edit>): Config {
    if edits == [] then config
    else
      var before := Edited(config, edits[..|edits| - 1]);
      match edits[|edits| - 1]
      case SetKey(key, value) => before[key := value]
      case UnsetKey(key) => before - {key}
  }

  function Stripped(config: Config): Config {
    map key | key in config && !IsMetadataKey(key) :: config[key]
  }

  /** Go's config[key]: the empty string where the key is missing. */
  function Lookup(config: Config, key: string): string {
    if key in config then config[key] else ""
  }

  /** instanceLaunchInput: the current VM without server and controller metadata. */
  function InstanceLaunchInput(config: Config, devices: Devices, profiles: seq<ProfileReference>): LaunchInput {
    LaunchInput(Lookup(config, IMAGE_KEY), profiles, Stripped(config), devices)
  }

  /** Snapshot's launch check on an instance. */
  predicate LaunchUnchanged(config: Config, devices: Devices, codec: Codec) {
    var profiles := codec.decodeProfiles(Lookup(config, PROFILES_KEY));
    profiles.Some?
    && codec.launchDigest(InstanceLaunchInput(config, devices, profiles.value)) == Some(Lookup(config, LAUNCH_DIGEST_KEY))
  }

  lemma {:induction false} MergedIsUnreserved(profiles: seq<Profile>)
    requires forall i | 0 <= i < |profiles| :: Unreserved(profiles[i])
    ensures forall key | key in MergedConfig(profiles) :: !IsMetadataKey(key)
  {
    if profiles != [] {
      MergedIsUnreserved(profiles[..|profiles| - 1]);
      assert Unreserved(profiles[|profiles| - 1]);
    }
  }

  /** A pinned config holds no key that Snapshot strips, so stripping the request gives it back. */
  lemma RequestStripsToPinned(
    identity: Identity, owner: string, correlation: string, createdAt: string, imageReference: string)
    requires forall key | key in identity.config :: !IsMetadataKey(key)
    ensures var request := RequestConfig(identity, owner, correlation, createdAt, imageReference);
            && Stripped(request) == identity.config
            && Lookup(request, IMAGE_KEY) == identity.imageFingerprint
            && Lookup(request, PROFILES_KEY) == identity.profileMetadata
            && Lookup(request, LAUNCH_DIGEST_KEY) == identity.launchDigest
  {
    hide IsMetadataKey;
    ControllerKeysAreMetadata();
    var request := RequestConfig(identity, owner, correlation, createdAt, imageReference);
    assert forall key | key in identity.config :: key in request && request[key] == identity.config[key];
  }

  lemma ControllerKeysAreMetadata()
    ensures IsMetadataKey(OWNERSHIP_KEY) && IsMetadataKey(CORRELATION_KEY) && IsMetadataKey(CREATED_AT_KEY)
    ensures IsMetadataKey(IMAGE_KEY) && IsMetadataKey(IMAGE_REFERENCE_KEY) && IsMetadataKey(PROFILES_KEY)
    ensures IsMetadataKey(LAUNCH_DIGEST_KEY) && IsMetadataKey(JIT_RUNNER_ID_KEY) && IsMetadataKey(JIT_RUNNER_NAME_KEY)
    ensures IsMetadataKey(JIT_SCALE_SET_ID_KEY) && IsMetadataKey(BOUND_UUID_KEY) && IsMetadataKey(UUID_KEY)
  {
    var prefix := "user.incus-gh-runner.";
    assert OWNERSHIP_KEY[..|prefix|] == prefix;
    assert CORRELATION_KEY[..|prefix|] == prefix;
    assert CREATED_AT_KEY[..|prefix|] == prefix;
    assert IMAGE_KEY[..|prefix|] == prefix;
    assert IMAGE_REFERENCE_KEY[..|prefix|] == prefix;
    assert PROFILES_KEY[..|prefix|] == prefix;
    assert LAUNCH_DIGEST_KEY[..|prefix|] == prefix;
    assert JIT_RUNNER_ID_KEY[..|prefix|] == prefix;
    assert JIT_RUNNER_NAME_KEY[..|prefix|] == prefix;
    assert JIT_SCALE_SET_ID_KEY[..|prefix|] == prefix;
    assert BOUND_UUID_KEY[..|prefix|] == prefix;
    assert UUID_KEY[..|"volatile."|] == "volatile.";
  }

  /** Edits of keys that Incus or this controller may add after the launch request, and of no other. */
  ghost predicate OnlyMetadata(edits: seq<Edit>) {
    forall e | e in edits :: IsMetadataKey(e.key)
  }

  lemma {:induction false} MetadataEditsAreInvisible(config: Config, edits: seq<Edit>)
    requires OnlyMetadata(edits)
    ensures Stripped(Edited(config, edits)) == Stripped(config)
    ensures forall key | forall e | e in edits :: e.key != key ::
              Lookup(Edited(config, edits), key) == Lookup(config, key)
  {
    if edits != [] {
      MetadataEditsAreInvisible(config, edits[..|edits| - 1]);
      assert edits[|edits| - 1] in edits;
    }
  }

  /**
   * Launch identity round trip: for every profile list that passed Preflight and all later edits of server and
   * controller metadata, what is rebuilt from the VM is exactly what was pinned, if and only if the image and
   * profiles records still say what they said. They do unless an edit touches them.
   */
  lemma LaunchRoundTrip(
    identity: Identity, image: Image, names: seq<string>, profiles: seq<Profile>, codec: Codec,
    owner: string, correlation: string, createdAt: string, imageReference: string, edits: seq<Edit>)
    requires |names| == |profiles| && Pins(identity, image, names, profiles, codec)
    requires forall i | 0 <= i < |profiles| :: Unreserved(profiles[i])
    requires codec.decodeProfiles(identity.profileMetadata) == Some(identity.profiles)
    requires OnlyMetadata(edits)
    ensures var config := Edited(RequestConfig(identity, owner, correlation, createdAt, imageReference), edits);
            Rebuilt(config, identity.devices, codec) == Some(LaunchInputOf(identity)) <==>
              && Lookup(config, IMAGE_KEY) == identity.imageFingerprint
              && codec.decodeProfiles(Lookup(config, PROFILES_KEY)) == Some(identity.profiles)
    ensures (forall e | e in edits :: e.key != IMAGE_KEY && e.key != PROFILES_KEY) ==>
              var config := Edited(RequestConfig(identity, owner, correlation, createdAt, imageReference), edits);
              Rebuilt(config, identity.devices, codec) == Some(LaunchInputOf(identity))
  {
    hide IsMetadataKey, RequestConfig, Edited;
    MergedIsUnreserved(profiles);
    RequestStripsToPinned(identity, owner, correlation, createdAt, imageReference);
    MetadataEditsAreInvisible(RequestConfig(identity, owner, correlation, createdAt, imageReference), edits);
  }

  /** What Snapshot rebuilds from a VM, unless its profiles record does not decode. */
  function Rebuilt(config: Config, devices: Devices, codec: Codec): Option<LaunchInput> {
    var profiles := codec.decodeProfiles(Lookup(config, PROFILES_KEY));
    if profiles.Some? then Some(InstanceLaunchInput(config, devices, profiles.value)) else None
  }

  /** What is rebuilt is what was pinned exactly when image, profiles, every other config key and every device agree. */
  lemma RebuiltExactly(identity: Identity, config: Config, devices: Devices, profiles: seq<ProfileReference>)
    requires forall key | key in identity.config :: !IsMetadataKey(key)
    ensures InstanceLaunchInput(config, devices, profiles) == LaunchInputOf(identity) <==>
              && Lookup(config, IMAGE_KEY) == identity.imageFingerprint
              && profiles == identity.profiles
              && devices == identity.devices
              && (forall key | !IsMetadataKey(key) ::
                    (key in config <==> key in identity.config)
                    && (key in config ==> config[key] == identity.config[key]))
  {
    if InstanceLaunchInput(config, devices, profiles) == LaunchInputOf(identity) {
      assert forall key | !IsMetadataKey(key) :: key in config <==> key in Stripped(config);
    }
  }

  /**
   * Snapshot's check, on any VM and barring a collision of what is rebuilt with what was pinned. While the digest
   * record is the pinned one, the check passes exactly when image, profiles, every other config key and every device
   * are the pinned ones. If it passes with another digest record, something else has changed with it.
   */
  lemma SnapshotDetectsDriftExactly(identity: Identity, config: Config, devices: Devices, codec: Codec)
    requires codec.launchDigest(LaunchInputOf(identity)) == Some(identity.launchDigest)
    requires var rebuilt := Rebuilt(config, devices, codec);
             rebuilt.Some? && codec.launchDigest(rebuilt.value) == Some(identity.launchDigest) ==>
               rebuilt.value == LaunchInputOf(identity)
    ensures Lookup(config, LAUNCH_DIGEST_KEY) == identity.launchDigest ==>
              (LaunchUnchanged(config, devices, codec) <==>
                 && Lookup(config, IMAGE_KEY) == identity.imageFingerprint
                 && codec.decodeProfiles(Lookup(config, PROFILES_KEY)) == Some(identity.profiles)
                 && Stripped(config) == identity.config && devices == identity.devices)
    ensures Lookup(config, LAUNCH_DIGEST_KEY) != identity.launchDigest && LaunchUnchanged(config, devices, codec) ==>
              Rebuilt(config, devices, codec).Some? && Rebuilt(config, devices, codec).value != LaunchInputOf(identity)
  {
    hide IsMetadataKey;
    var rebuilt := Rebuilt(config, devices, codec);
    assert LaunchUnchanged(config, devices, codec) <==>
             rebuilt.Some? && codec.launchDigest(rebuilt.value) == Some(Lookup(config, LAUNCH_DIGEST_KEY));
  }
}
