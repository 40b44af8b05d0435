/** The devices of an account: how one JSON entry is classified by its
    `kind` tag, and how the device listing flattens the per-category lists
    of the response into one list. */
module Devices {
  import opened Wrappers
  import Sequences

  /** The JSON text of a field the model does not interpret. */
  type Payload = string

  const UsizeLimit: int := 0x1_0000_0000_0000_0000

  /** A `usize` on a 64-bit target. */
  type Usize = x: int | 0 <= x < UsizeLimit

  const CocoaCameraKind: string := "cocoa_camera"
  const DoorbellKind: string := "doorbell_graham_cracker"
  const BaseStationKind: string := "base_station_v1"

  const KnownKinds: set<string> := {CocoaCameraKind, DoorbellKind, BaseStationKind}

  datatype DeviceData =
    | CocoaCamera(id: Usize, locationId: string, description: string, extra: map<string, Payload>)
    | DoorbellGrahamCracker(id: Usize, locationId: string, description: string, extra: map<string, Payload>)
    | BaseStationV1(id: Usize, locationId: string, description: string, extra: map<string, Payload>)
    | Other

  /** `Device::new` wraps the data as it is. */
  datatype Device = Device(data: DeviceData)

  /** One entry of the listing as the JSON reader sees it: the `kind` tag,
      the three fields the known kinds require (`None` when absent or not of
      the required JSON type), and the remaining keys. */
  datatype RawDevice = RawDevice(
    kind: Option<string>,
    id: Option<int>,
    locationId: Option<string>,
    description: Option<string>,
    extra: map<string, Payload>)

  predicate HasDeviceFields(raw: RawDevice)
  {
    raw.id.Some? && 0 <= raw.id.value < UsizeLimit && raw.locationId.Some? && raw.description.Some?
  }

  /** The tag a device of this variant carries; `Other` has none of its own. */
  function KindTag(d: DeviceData): Option<string>
  {
    match d
    case CocoaCamera(_, _, _, _) => Some(CocoaCameraKind)
    case DoorbellGrahamCracker(_, _, _, _) => Some(DoorbellKind)
    case BaseStationV1(_, _, _, _) => Some(BaseStationKind)
    case Other => None
  }

  /** Decoding of one entry (`None` is a decoding failure): a missing tag
      fails, an unknown tag gives `Other` whatever the other keys hold, and
      a known tag needs its three fields. */
  function DecodeDevice(raw: RawDevice): (d: Option<DeviceData>)
    ensures raw.kind.None? ==> d.None?
    ensures raw.kind.Some? && raw.kind.value !in KnownKinds ==> d == Some(Other)
    ensures raw.kind.Some? && raw.kind.value in KnownKinds ==>
      (d.Some? <==> HasDeviceFields(raw))
    ensures d.Some? && !d.value.Other? ==>
      && KindTag(d.value) == raw.kind
      && Some(d.value.id as int) == raw.id
      && Some(d.value.locationId) == raw.locationId
      && Some(d.value.description) == raw.description
      && d.value.extra == raw.extra
  {
    match raw.kind
    case None => None
    case Some(kind) =>
      if kind !in KnownKinds then Some(Other)
      else if !HasDeviceFields(raw) then None
      else
        var id: Usize := raw.id.value;
        if kind == CocoaCameraKind then
          Some(CocoaCamera(id, raw.locationId.value, raw.description.value, raw.extra))
        else if kind == DoorbellKind then
          Some(DoorbellGrahamCracker(id, raw.locationId.value, raw.description.value, raw.extra))
        else
          Some(BaseStationV1(id, raw.locationId.value, raw.description.value, raw.extra))
  }

  /** The JSON entry a known device is read from. */
  function EncodeDevice(d: DeviceData): (raw: RawDevice)
    requires !d.Other?
    ensures raw.kind == KindTag(d) && HasDeviceFields(raw)
  {
    RawDevice(KindTag(d), Some(d.id as int), Some(d.locationId), Some(d.description), d.extra)
  }

  /** Reading back the entry of a known device gives that device. */
  lemma DecodeEncodeDevice(d: DeviceData)
    requires !d.Other?
    ensures DecodeDevice(EncodeDevice(d)) == Some(d)
  {
  }

  /** The three tags name three different variants. */
  lemma KindTagsAreDistinct()
    ensures |KnownKinds| == 3
  {
    assert CocoaCameraKind[0] != DoorbellKind[0] && DoorbellKind[0] != BaseStationKind[0] && CocoaCameraKind[0] != BaseStationKind[0];
  }

  /** The decoded body of the listing: one list per category. */
  datatype Response = Response(
    doorbots: seq<DeviceData>,
    authorizedDoorbots: seq<DeviceData>,
    chimes: seq<DeviceData>,
    stickupCams: seq<DeviceData>,
    baseStations: seq<DeviceData>,
    beams: seq<DeviceData>,
    beamsBridges: seq<DeviceData>,
    other: seq<DeviceData>)

  /** The categories in the order the listing chains them. */
  function Categories(r: Response): (lists: seq<seq<DeviceData>>)
    ensures |lists| == 8
  {
    [r.doorbots, r.authorizedDoorbots, r.chimes, r.stickupCams,
     r.baseStations, r.beams, r.beamsBridges, r.other]
  }

  /** The list `get_device_data` returns for a decoded response. */
  function GetDeviceData(r: Response): (d: seq<DeviceData>)
    ensures |d| == |r.doorbots| + |r.authorizedDoorbots| + |r.chimes|
      + |r.stickupCams| + |r.baseStations| + |r.beams| + |r.beamsBridges| + |r.other|
  {
    [] + r.doorbots + r.authorizedDoorbots + r.chimes + r.stickupCams
      + r.baseStations + r.beams + r.beamsBridges + r.other
  }

  /** The listing is the concatenation of the categories in their fixed order. */
  lemma GetDeviceDataIsFlatten(r: Response)
    ensures GetDeviceData(r) == Sequences.Flatten(Categories(r))
  {
    var lists := Categories(r);
    forall i | 0 <= i < 8
      ensures Sequences.Flatten(lists[i..]) == lists[i] + Sequences.Flatten(lists[i + 1..])
    {
      assert lists[i..][1..] == lists[i + 1..];
    }
    assert lists[8..] == [] && lists[0..] == lists;
    var tail := r.beamsBridges + r.other;
    assert Sequences.Flatten(lists[6..]) == tail;
    tail := r.beams + tail;
    assert Sequences.Flatten(lists[5..]) == tail;
    tail := r.baseStations + tail;
    assert Sequences.Flatten(lists[4..]) == tail;
    tail := r.stickupCams + tail;
    assert Sequences.Flatten(lists[3..]) == tail;
    tail := r.chimes + tail;
    assert Sequences.Flatten(lists[2..]) == tail;
    tail := r.authorizedDoorbots + tail;
    assert Sequences.Flatten(lists[1..]) == tail;
    tail := r.doorbots + tail;
    assert Sequences.Flatten(lists) == tail;
  }

  /** Device `i` of category `k` is at position `i` after all devices of the
      categories before `k`. */
  lemma {:induction false} GetDeviceDataAt(r: Response, k: nat, i: nat)
    requires k < 8 && i < |Categories(r)[k]|
    ensures Sequences.TotalLength(Categories(r)[..k]) + i < |GetDeviceData(r)|
    ensures GetDeviceData(r)[Sequences.TotalLength(Categories(r)[..k]) + i] == Categories(r)[k][i]
  {
    GetDeviceDataIsFlatten(r);
    Sequences.FlattenAt(Categories(r), k, i);
  }

  /** Each device of the response occurs in the listing exactly as often as
      in the response. */
  lemma GetDeviceDataMultiset(r: Response)
    ensures multiset(GetDeviceData(r)) == Sequences.MultisetUnion(Categories(r))
  {
    GetDeviceDataIsFlatten(r);
    Sequences.FlattenMultiset(Categories(r));
  }

  /** A device is listed exactly when some category holds it; in particular
      unrecognised (`Other`) devices are kept. */
  lemma GetDeviceDataMembership(r: Response, d: DeviceData)
    ensures d in GetDeviceData(r) <==> exists k :: 0 <= k < 8 && d in Categories(r)[k]
    ensures d in r.other ==> d in GetDeviceData(r)
  {
    GetDeviceDataIsFlatten(r);
    Sequences.FlattenMembership(Categories(r), d);
    if d in r.other {
      assert d in Categories(r)[7];
    }
  }

}
