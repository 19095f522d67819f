/**
 * Backend identity and epochs: gateway/src/storage.ts.
 *
 * The two mapping tables are maps and a random identifier is a parameter of the call that draws it.
 */
module Storage {
  import opened Options

  newtype DeviceId = x: int | 0 <= x
  newtype InstanceId = x: int | 0 <= x
  newtype BackendId = x: int | 0 <= x
  type Epoch = nat

  const DEFAULT_CHANNEL := "prod"

  /** The persistent tables, as a value. */
  datatype Identities = Identities(
    devices: map<DeviceId, BackendId>,
    instances: map<InstanceId, BackendId>,
    maxEpoch: Epoch
  )

  /** Every backend identifier the tables mention. */
  function Used(s: Identities): set<BackendId> {
    s.devices.Values + s.instances.Values
  }

  /** Two device rows, or two instance rows, never share a backend identifier. */
  ghost predicate Valid(s: Identities) {
    && (forall d, d' :: d in s.devices && d' in s.devices && s.devices[d] == s.devices[d'] ==> d == d')
    && (forall i, i' :: i in s.instances && i' in s.instances && s.instances[i] == s.instances[i'] ==> i == i')
  }

  /** The legacy row this instance may take over: default channel only, and not claimed yet. */
  function Inherited(s: Identities, device: DeviceId, channel: string): Option<BackendId> {
    if (channel == "" || channel == DEFAULT_CHANNEL) && device in s.devices
       && s.devices[device] !in s.instances.Values
    then Some(s.devices[device])
    else None
  }

  /** The backend identifier an instance ends up with. */
  function BackendFor(s: Identities, i: InstanceId, device: DeviceId, channel: string,
                      generated: BackendId): BackendId {
    if i in s.instances then s.instances[i]
    else match Inherited(s, device, channel)
      case Some(b) => b
      case None => generated
  }

  function Claim(s: Identities, i: InstanceId, device: DeviceId, channel: string, generated: BackendId): Identities {
    s.(instances := s.instances[i := BackendFor(s, i, device, channel, generated)])
  }

  function RegisterDevice(s: Identities, device: DeviceId, generated: BackendId): Identities {
    if device in s.devices then s else s.(devices := s.devices[device := generated])
  }

  /** Claiming keeps both tables injective and never rebinds an instance that already has an identifier. */
  lemma ClaimKeepsIdentity(s: Identities, i: InstanceId, device: DeviceId, channel: string, generated: BackendId)
    requires Valid(s) && generated !in Used(s)
    ensures var t := Claim(s, i, device, channel, generated);
            && Valid(t)
            && (forall j :: j in s.instances ==> j in t.instances && t.instances[j] == s.instances[j])
            && t.instances.Keys == s.instances.Keys + {i}
            && t.devices == s.devices && t.maxEpoch == s.maxEpoch
  {
  }

  /** Registering a legacy device keeps the tables injective. */
  lemma RegisterDeviceKeepsIdentity(s: Identities, device: DeviceId, generated: BackendId)
    requires Valid(s) && generated !in Used(s)
    ensures Valid(RegisterDevice(s, device, generated))
    ensures forall d :: d in s.devices ==> Lookup(RegisterDevice(s, device, generated).devices, d) == Some(s.devices[d])
  {
  }

  /** One call on the storage, with the random identifier it would draw. */
  datatype Call =
    | RegisterLegacy(device: DeviceId, generated: BackendId)
    | ClaimInstance(instance: InstanceId, device: DeviceId, channel: string, generated: BackendId)
    | Allocate

  function Apply(s: Identities, c: Call): Identities {
    match c
    case RegisterLegacy(d, g) => RegisterDevice(s, d, g)
    case ClaimInstance(i, d, ch, g) => Claim(s, i, d, ch, g)
    case Allocate => s.(maxEpoch := s.maxEpoch + 1)
  }

  /** The randomness assumption: a drawn identifier is not in any table yet. */
  ghost predicate Fresh(s: Identities, c: Call) {
    c.Allocate? || c.generated !in Used(s)
  }

  function ApplyAll(s: Identities, calls: seq<Call>): Identities
    decreases |calls|
  {
    if calls == [] then s else ApplyAll(Apply(s, calls[0]), calls[1..])
  }

  ghost predicate AllFresh(s: Identities, calls: seq<Call>)
    decreases |calls|
  {
    calls == [] || (Fresh(s, calls[0]) && AllFresh(Apply(s, calls[0]), calls[1..]))
  }

  /** Over any run: injective both ways, no binding ever changes, and the epoch counter never goes back. */
  lemma {:induction false} IdentityIsForever(s: Identities, calls: seq<Call>)
    requires Valid(s) && AllFresh(s, calls)
    ensures Valid(ApplyAll(s, calls))
    ensures forall i :: i in s.instances ==> Lookup(ApplyAll(s, calls).instances, i) == Some(s.instances[i])
    ensures s.maxEpoch <= ApplyAll(s, calls).maxEpoch
    decreases |calls|
  {
    if calls != [] {
      match calls[0] {
        case RegisterLegacy(d, g) => RegisterDeviceKeepsIdentity(s, d, g);
        case ClaimInstance(i, d, ch, g) => ClaimKeepsIdentity(s, i, d, ch, g);
        case Allocate =>
      }
      IdentityIsForever(Apply(s, calls[0]), calls[1..]);
    }
  }

  /** A legacy identifier is inherited by at most one instance, whatever the order of claims. */
  lemma LegacyInheritedOnce(s: Identities, device: DeviceId, i: InstanceId, j: InstanceId, calls: seq<Call>)
    requires Valid(s) && AllFresh(s, calls) && device in s.devices
    requires Lookup(ApplyAll(s, calls).instances, i) == Some(s.devices[device])
    requires Lookup(ApplyAll(s, calls).instances, j) == Some(s.devices[device])
    ensures i == j
  {
    IdentityIsForever(s, calls);
  }

  // ---------------------------------------------------------------- which identifier an instance gets

  /** A registered device's identifier that no instance has claimed. */
  predicate Unclaimed(s: Identities, device: DeviceId) {
    device in s.devices && forall i :: i in s.instances ==> s.instances[i] != s.devices[device]
  }

  /** The claim of a new instance that takes its device's identifier: on the default channel, by name or without one. */
  predicate Inherits(s: Identities, i: InstanceId, device: DeviceId, channel: string) {
    i !in s.instances && (channel == "" || channel == "prod") && Unclaimed(s, device)
  }

  /**
   * An instance keeps the identifier it has.  A new one gets its device's identifier exactly when it comes on the default
   * channel and that identifier is registered and unclaimed, and the drawn one otherwise.
   */
  lemma ClaimedAs(s: Identities, i: InstanceId, device: DeviceId, channel: string, generated: BackendId)
    requires Valid(s) && generated !in Used(s)
    ensures var t := Claim(s, i, device, channel, generated);
            if i in s.instances then t == s
            else && i in t.instances
                 && (device in s.devices ==>
                       (t.instances[i] == s.devices[device] <==> Inherits(s, i, device, channel)))
                 && (t.instances[i] == generated <==> !Inherits(s, i, device, channel))
  {
    if i in s.instances { assert s.instances[i := s.instances[i]] == s.instances; }
  }

  /** The first call that inherits the identifier of a device, if any. */
  ghost predicate Taken(s: Identities, calls: seq<Call>, device: DeviceId)
    decreases |calls|
  {
    calls != [] &&
    (|| (calls[0].ClaimInstance? && calls[0].device == device && Inherits(s, calls[0].instance, device, calls[0].channel))
     || Taken(Apply(s, calls[0]), calls[1..], device))
  }

  /** One call takes a device's identifier exactly by inheriting it. */
  lemma CallTakes(s: Identities, c: Call, device: DeviceId)
    requires Valid(s) && Fresh(s, c) && device in s.devices
    ensures var t := Apply(s, c);
            && Lookup(t.devices, device) == Some(s.devices[device])
            && (Unclaimed(t, device) <==>
                  Unclaimed(s, device) && !(c.ClaimInstance? && c.device == device && Inherits(s, c.instance, device, c.channel)))
  {
    match c
    case RegisterLegacy(d, g) => RegisterDeviceKeepsIdentity(s, d, g);
    case ClaimInstance(i, d, ch, g) =>
      ClaimKeepsIdentity(s, i, d, ch, g);
      ClaimedAs(s, i, d, ch, g);
    case Allocate =>
  }

  /**
   * Over any run, a device's identifier stays unclaimed exactly until a new instance of that device comes on the default
   * channel: that one inherits it, and nobody else does before or after.
   */
  lemma {:induction false} UnclaimedUntil(s: Identities, calls: seq<Call>, device: DeviceId)
    requires Valid(s) && AllFresh(s, calls) && device in s.devices
    ensures Lookup(ApplyAll(s, calls).devices, device) == Some(s.devices[device])
    ensures Unclaimed(ApplyAll(s, calls), device) <==> Unclaimed(s, device) && !Taken(s, calls, device)
    decreases |calls|
  {
    hide Apply, Unclaimed, Inherits, Fresh;
    if calls != [] {
      OneCall(s, calls[0]);
      CallTakes(s, calls[0], device);
      IdentityIsForever(s, [calls[0]]);
      UnclaimedUntil(Apply(s, calls[0]), calls[1..], device);
    }
  }

  lemma OneCall(s: Identities, c: Call)
    requires Fresh(s, c)
    ensures AllFresh(s, [c]) && ApplyAll(s, [c]) == Apply(s, c)
  {
    assert [c][1..] == [];
  }

  /**
   * The claim of a new instance after any run: the device's identifier when it comes on the default channel and no claim
   * of that device has inherited before, and its own drawn one in every other case.
   */
  lemma InheritedByTheFirst(s: Identities, calls: seq<Call>, i: InstanceId, device: DeviceId, channel: string,
                            generated: BackendId)
    requires Valid(s) && AllFresh(s, calls) && Unclaimed(s, device)
    requires var t := ApplyAll(s, calls); i !in t.instances && generated !in Used(t)
    ensures var u := Claim(ApplyAll(s, calls), i, device, channel, generated);
            Lookup(u.instances, i) ==
            Some(if (channel == "" || channel == "prod") && !Taken(s, calls, device) then s.devices[device] else generated)
  {
    hide Claim, Taken;
    UnclaimedUntil(s, calls, device);
    IdentityIsForever(s, calls);
    ClaimedAs(ApplyAll(s, calls), i, device, channel, generated);
  }

  /** Registering a device gives it the drawn identifier, unless it has one. */
  lemma RegisteredAs(s: Identities, device: DeviceId, generated: BackendId)
    ensures var t := RegisterDevice(s, device, generated);
            && Lookup(t.devices, device) == Some(if device in s.devices then s.devices[device] else generated)
            && (forall d :: d != device ==> Lookup(t.devices, d) == Lookup(s.devices, d))
            && t.instances == s.instances && t.maxEpoch == s.maxEpoch
  {
  }

  /** gateway/src/storage.ts: GatewayStorage, in-memory branch. */
  class GatewayStorage {
    var devices: map<DeviceId, BackendId>
    var instances: map<InstanceId, BackendId>
    var maxEpoch: Epoch

    ghost function View(): Identities
      reads this
    {
      Identities(devices, instances, maxEpoch)
    }

    /** Opens the tables as an earlier process left them. */
    constructor (stored: Identities)
      ensures View() == stored
    {
      devices, instances, maxEpoch := stored.devices, stored.instances, stored.maxEpoch;
    }

    method GetOrCreateBackendId(device: DeviceId, generated: BackendId) returns (b: BackendId)
      modifies this
      ensures View() == RegisterDevice(old(View()), device, generated)
      ensures Lookup(devices, device) == Some(b)
    {
      if device in devices {
        return devices[device];
      }
      devices := devices[device := generated];
      b := generated;
    }

    method GetOrCreateBackendIdByInstance(i: InstanceId, device: DeviceId, channel: string, generated: BackendId)
      returns (b: BackendId)
      modifies this
      ensures View() == Claim(old(View()), i, device, channel, generated)
      ensures b == BackendFor(old(View()), i, device, channel, generated)
      ensures Lookup(instances, i) == Some(b)
    {
      if i in instances {
        assert instances[i := instances[i]] == instances;
        return instances[i];
      }
      var ch := if channel == "" then DEFAULT_CHANNEL else channel;
      if ch == DEFAULT_CHANNEL && device in devices {
        var claimed := GetInstanceByBackendId(devices[device]);
        if claimed == None {
          b := devices[device];
          instances := instances[i := b];
          return;
        }
      }
      b := generated;
      instances := instances[i := b];
    }

    /** The scan over the instance rows; with injective tables it inverts the claim. */
    method GetInstanceByBackendId(b: BackendId) returns (r: Option<InstanceId>)
      ensures r.Some? ==> Lookup(instances, r.value) == Some(b)
      ensures r.None? <==> b !in instances.Values
      ensures Valid(View()) && b in instances.Values ==>
                forall i :: i in instances ==> (instances[i] == b <==> r == Some(i))
    {
      var rest := instances.Keys;
      while rest != {}
        invariant rest <= instances.Keys
        invariant forall i :: i in instances && i !in rest ==> instances[i] != b
        decreases rest
      {
        var i :| i in rest;
        if instances[i] == b {
          assert b in instances.Values;
          return Some(i);
        }
        rest := rest - {i};
      }
      r := None;
    }

    method AllocateEpoch() returns (e: Epoch)
      modifies this
      ensures e == old(maxEpoch) + 1 && maxEpoch == e
      ensures devices == old(devices) && instances == old(instances)
    {
      maxEpoch := maxEpoch + 1;
      e := maxEpoch;
    }
  }
}
