/**
 * public/js/data.js, the page's state: the `TrackedDevices` registry and
 * the WebSocket `onMessage` handler with its three rules (drop incomplete
 * messages, find or create the device, auto-select the first device once).
 * Charting, the DOM and `JSON.parse` are not modelled; the chart subject
 * is kept as the id of the device the chart shows.
 */
module Dashboard {
  import opened Wrappers
  import opened DeviceSeries

  /** The parsed `IotData` object. */
  datatype IotData = IotData(temperature: Reading, humidity: Reading)

  /** A parsed message, with the keys the handler reads. */
  datatype Message = Message(deviceId: string, messageDate: Option<string>, iotData: Option<IotData>)

  /**
   * What the handler does with a message: return early because it is
   * incomplete, throw (and log) because it has no `IotData` to read, or
   * record a sample.
   */
  datatype Disposition = Incomplete | MissingIotData | Accepted(sample: Sample)

  /** Line 148: `!MessageDate || (!IotData.temperature && !IotData.humidity)` decides. */
  function Classify(m: Message): (d: Disposition)
    ensures d.Accepted? <==>
      && m.messageDate.Some? && m.messageDate.value != ""
      && m.iotData.Some? && (Truthy(m.iotData.value.temperature) || Truthy(m.iotData.value.humidity))
    ensures d.Accepted? ==>
      d.sample == Sample(m.messageDate.value, m.iotData.value.temperature, m.iotData.value.humidity)
  {
    if m.messageDate.None? || m.messageDate.value == "" then Incomplete
    else if m.iotData.None? then MissingIotData
    else if !Truthy(m.iotData.value.temperature) && !Truthy(m.iotData.value.humidity) then Incomplete
    else Accepted(Sample(m.messageDate.value, m.iotData.value.temperature, m.iotData.value.humidity))
  }

  /** One registered device as a value. */
  datatype DeviceRecord = DeviceRecord(id: string, series: Window)

  /** The handler's state: the registry in insertion order, the auto-select flag and the chart subject. */
  datatype Session = Session(devices: seq<DeviceRecord>, needsAutoSelect: bool, selected: Option<string>)

  function Ids(ds: seq<DeviceRecord>): (ids: seq<string>)
    ensures |ids| == |ds| && forall i :: 0 <= i < |ds| ==> ids[i] == ds[i].id
  {
    seq(|ds|, i requires 0 <= i < |ds| => ds[i].id)
  }

  /** `Array.prototype.find` on ids: the first index holding `id`. */
  function FirstIndex(ids: seq<string>, id: string): (r: Option<nat>)
    ensures r.None? <==> id !in ids
    ensures r.Some? ==> r.value < |ids| && ids[r.value] == id && id !in ids[..r.value]
    decreases |ids|
  {
    if ids == [] then None
    else if ids[0] == id then Some(0)
    else match FirstIndex(ids[1..], id)
      case None => None
      case Some(i) =>
        assert ids[..i + 1] == [ids[0]] + ids[1..][..i];
        Some(i + 1)
  }

  /** The series of the first device with this id, if any. */
  function SeriesOf(ds: seq<DeviceRecord>, id: string): Option<Window>
  {
    match FirstIndex(Ids(ds), id)
    case None => None
    case Some(i) => Some(ds[i].series)
  }

  predicate Distinct(ids: seq<string>)
  {
    forall i, j :: 0 <= i < j < |ids| ==> ids[i] != ids[j]
  }

  /** The page before any message: no device, auto-selection pending, nothing shown. */
  function InitialSession(): Session
  {
    Session([], true, None)
  }

  /** The handler's effect on the state, for one message. */
  function Step(s: Session, m: Message): Session
  {
    match Classify(m)
    case Accepted(x) =>
      (match FirstIndex(Ids(s.devices), m.deviceId)
       case Some(i) => s.(devices := s.devices[i := DeviceRecord(s.devices[i].id, Append(s.devices[i].series, x))])
       case None =>
         var devices := s.devices + [DeviceRecord(m.deviceId, Append(Initial(), x))];
         if s.needsAutoSelect then Session(devices, false, Some(devices[0].id))
         else s.(devices := devices))
    case _ => s
  }

  lemma StepKnown(s: Session, m: Message, x: Sample)
    requires Classify(m) == Accepted(x) && m.deviceId in Ids(s.devices)
    ensures var i := FirstIndex(Ids(s.devices), m.deviceId).value;
      Step(s, m) == s.(devices := s.devices[i := DeviceRecord(s.devices[i].id, Append(s.devices[i].series, x))])
  {
  }

  lemma StepNew(s: Session, m: Message, x: Sample)
    requires Classify(m) == Accepted(x) && m.deviceId !in Ids(s.devices)
    ensures Step(s, m).devices == s.devices + [DeviceRecord(m.deviceId, Append(Initial(), x))]
    ensures !Step(s, m).needsAutoSelect
    ensures Step(s, m).selected == if s.needsAutoSelect then Some(Step(s, m).devices[0].id) else s.selected
  {
  }

  /** The handler run on each message in turn. */
  function Run(s: Session, ms: seq<Message>): Session
    decreases |ms|
  {
    if ms == [] then s else Run(Step(s, ms[0]), ms[1..])
  }

  /** An incomplete message, or one without `IotData`, changes nothing. */
  lemma StepIgnores(s: Session, m: Message)
    requires !Classify(m).Accepted?
    ensures Step(s, m) == s
  {
  }

  /**
   * The registry only grows, at its end, by the id of an accepted message
   * whose device was not yet known: ids keep their insertion order and no
   * device is ever removed.
   */
  lemma StepIds(s: Session, m: Message)
    ensures Ids(Step(s, m).devices) ==
      if Classify(m).Accepted? && m.deviceId !in Ids(s.devices) then Ids(s.devices) + [m.deviceId]
      else Ids(s.devices)
  {
    if Classify(m).Accepted? {
      if FirstIndex(Ids(s.devices), m.deviceId).Some? {
        assert Ids(Step(s, m).devices) == Ids(s.devices);
      } else {
        assert Ids(Step(s, m).devices) == Ids(s.devices) + [m.deviceId];
      }
    }
  }

  /**
   * An accepted message appends exactly one sample to the series of its
   * device (a fresh series for a new device), and every other device's
   * series is unchanged.
   */
  lemma StepSeries(s: Session, m: Message, other: string)
    requires Classify(m).Accepted?
    ensures SeriesOf(Step(s, m).devices, m.deviceId)
      == Some(Append(match SeriesOf(s.devices, m.deviceId) case Some(w) => w case None => Initial(),
                     Classify(m).sample))
    ensures other != m.deviceId ==> SeriesOf(Step(s, m).devices, other) == SeriesOf(s.devices, other)
  {
    var x := Classify(m).sample;
    if m.deviceId in Ids(s.devices) {
      StepKnown(s, m, x);
      assert Ids(Step(s, m).devices) == Ids(s.devices);
    } else {
      StepNew(s, m, x);
      assert Ids(Step(s, m).devices) == Ids(s.devices) + [m.deviceId];
      FirstIndexSnoc(Ids(s.devices), m.deviceId, m.deviceId);
      FirstIndexSnoc(Ids(s.devices), m.deviceId, other);
    }
  }

  /** Looking an id up after appending one more id at the end. */
  lemma FirstIndexSnoc(ids: seq<string>, last: string, id: string)
    ensures FirstIndex(ids + [last], id) ==
      if id in ids then FirstIndex(ids, id) else if id == last then Some(|ids|) else None
  {
    if id in ids {
      var i := FirstIndex(ids, id).value;
      assert (ids + [last])[..i] == ids[..i];
      FirstIndexIs(ids + [last], id, i);
    } else if id == last {
      assert (ids + [last])[..|ids|] == ids;
      FirstIndexIs(ids + [last], id, |ids|);
    }
  }

  /**
   * The invariant the handler keeps: ids are distinct, every series is
   * exactly `MaxLen` long, auto-selection is pending exactly while no
   * device is known, and the chart shows the first device once there is one.
   */
  ghost predicate Invariant(s: Session)
  {
    && Distinct(Ids(s.devices))
    && (forall i :: 0 <= i < |s.devices| ==> Full(s.devices[i].series))
    && (s.needsAutoSelect <==> s.devices == [])
    && s.selected == (if s.devices == [] then None else Some(s.devices[0].id))
  }

  lemma InitialInvariant()
    ensures Invariant(InitialSession())
  {
  }

  lemma StepInvariant(s: Session, m: Message)
    requires Invariant(s)
    ensures Invariant(Step(s, m))
  {
    var r := Step(s, m);
    StepIds(s, m);
    if Classify(m).Accepted? {
      var x := Classify(m).sample;
      var found := FirstIndex(Ids(s.devices), m.deviceId);
      if found.Some? {
        AppendToFull(s.devices[found.value].series, x);
        assert r.devices[0].id == s.devices[0].id;
      } else {
        AppendToFull(Initial(), x);
        assert Ids(r.devices) == Ids(s.devices) + [m.deviceId];
      }
    }
  }

  /**
   * Auto-selection fires at most once: once a device is shown, no later
   * message changes the selection, and the flag is never set back.
   */
  lemma {:induction false} SelectionIsStable(s: Session, ms: seq<Message>)
    requires Invariant(s) && s.selected.Some?
    ensures Run(s, ms).selected == s.selected && !Run(s, ms).needsAutoSelect
    decreases |ms|
  {
    if ms != [] {
      StepInvariant(s, ms[0]);
      var t := Step(s, ms[0]);
      assert t.selected == s.selected;
      SelectionIsStable(t, ms[1..]);
    }
  }

  /**
   * From a fresh page, whatever the messages: the chart shows the first
   * device ever registered, or nothing while no message was accepted.
   */
  lemma {:induction false} FirstDeviceIsSelected(ms: seq<Message>)
    ensures Invariant(Run(InitialSession(), ms))
    ensures var r := Run(InitialSession(), ms);
      r.selected == (if r.devices == [] then None else Some(r.devices[0].id))
  {
    RunInvariant(InitialSession(), ms);
  }

  lemma {:induction false} RunInvariant(s: Session, ms: seq<Message>)
    requires Invariant(s)
    ensures Invariant(Run(s, ms))
    decreases |ms|
  {
    if ms != [] {
      StepInvariant(s, ms[0]);
      RunInvariant(Step(s, ms[0]), ms[1..]);
    }
  }

  /** A distinct list of ids has as many ids as distinct values. */
  lemma {:induction false} DistinctCount(ids: seq<string>)
    requires Distinct(ids)
    ensures |set id | id in ids| == |ids|
    decreases |ids|
  {
    if ids != [] {
      var rest := ids[1..];
      DistinctCount(rest);
      assert (set id | id in ids) == {ids[0]} + (set id | id in rest);
      assert ids[0] !in rest;
    }
  }

  function IdsOf(ds: seq<DeviceData>): (ids: seq<string>)
    ensures |ids| == |ds| && forall i :: 0 <= i < |ds| ==> ids[i] == ds[i].deviceId
  {
    seq(|ds|, i requires 0 <= i < |ds| => ds[i].deviceId)
  }

  /** The registry's devices as values. */
  ghost function RecordsOf(ds: seq<DeviceData>): (rs: seq<DeviceRecord>)
    reads ds
    ensures |rs| == |ds|
    ensures forall i :: 0 <= i < |ds| ==> rs[i] == DeviceRecord(ds[i].deviceId, ds[i].Series())
    decreases |ds|
  {
    if ds == [] then [] else RecordsOf(ds[..|ds| - 1]) + [DeviceRecord(ds[|ds| - 1].deviceId, ds[|ds| - 1].Series())]
  }

  /** `TrackedDevices`: the devices seen so far, in insertion order. */
  class TrackedDevices {
    var devices: seq<DeviceData>

    ghost predicate Valid()
      reads this, devices
    {
      && Distinct(IdsOf(devices))
      && forall i :: 0 <= i < |devices| ==> devices[i].Valid()
    }

    constructor ()
      ensures Valid() && devices == []
    {
      devices := [];
    }

    /** `findDevice(deviceId)`: the first device with this id, or nothing. */
    method FindDevice(deviceId: string) returns (found: Option<DeviceData>)
      ensures found.None? <==> deviceId !in IdsOf(devices)
      ensures found.Some? ==> found.value == devices[FirstIndex(IdsOf(devices), deviceId).value]
    {
      var i := 0;
      while i < |devices|
        invariant 0 <= i <= |devices|
        invariant deviceId !in IdsOf(devices)[..i]
      {
        if devices[i].deviceId == deviceId {
          FirstIndexIs(IdsOf(devices), deviceId, i);
          return Some(devices[i]);
        }
        assert IdsOf(devices)[..i + 1] == IdsOf(devices)[..i] + [devices[i].deviceId];
        i := i + 1;
      }
      assert IdsOf(devices)[..i] == IdsOf(devices);
      return None;
    }

    /** `devices.push(device)` for a device whose id is new. */
    method Push(d: DeviceData)
      requires Valid() && d.Valid() && d.deviceId !in IdsOf(devices)
      modifies this
      ensures Valid() && devices == old(devices) + [d]
    {
      devices := devices + [d];
      assert IdsOf(devices) == IdsOf(old(devices)) + [d.deviceId];
    }

    /** `getDevicesCount()`: with distinct ids, the number of distinct devices seen. */
    function GetDevicesCount(): (n: nat)
      reads this, devices
      requires Valid()
      ensures n == |set id | id in IdsOf(devices)|
    {
      DistinctCount(IdsOf(devices));
      |devices|
    }
  }

  /** The first occurrence is where `find` stops. */
  lemma FirstIndexIs(ids: seq<string>, id: string, i: nat)
    requires i < |ids| && ids[i] == id && id !in ids[..i]
    ensures FirstIndex(ids, id) == Some(i)
  {
  }

  /** `new DeviceData(deviceId)` followed by its first `addData`. */
  method NewDevice(id: string, x: Sample) returns (d: DeviceData)
    ensures fresh(d) && d.deviceId == id && d.Valid() && d.Series() == Append(Initial(), x)
  {
    d := new DeviceData(id);
    d.AddData(x.time, x.temperature, x.humidity);
  }

  lemma RecordsOfSnoc(ds: seq<DeviceData>, d: DeviceData)
    ensures RecordsOf(ds + [d]) == RecordsOf(ds) + [DeviceRecord(d.deviceId, d.Series())]
  {
    assert (ds + [d])[..|ds|] == ds;
  }

  lemma IdsOfRecords(ds: seq<DeviceData>, rs: seq<DeviceRecord>)
    requires |rs| == |ds| && forall i :: 0 <= i < |ds| ==> rs[i].id == ds[i].deviceId
    ensures Ids(rs) == IdsOf(ds)
  {
  }

  /**
   * One page's handler state: the registry, the `needsAutoSelect` flag and
   * the device the chart shows.
   */
  class Page {
    const trackedDevices: TrackedDevices
    var needsAutoSelect: bool
    var selected: Option<string>

    ghost predicate Valid()
      reads this, trackedDevices, trackedDevices.devices
    {
      trackedDevices.Valid()
    }

    ghost function State(): Session
      reads this, trackedDevices, trackedDevices.devices
    {
      Session(RecordsOf(trackedDevices.devices), needsAutoSelect, selected)
    }

    constructor ()
      ensures Valid() && State() == InitialSession()
      ensures fresh(trackedDevices)
    {
      trackedDevices := new TrackedDevices();
      needsAutoSelect := true;
      selected := None;
    }

    /** `webSocket.onmessage`, on a message already parsed. */
    method OnMessage(m: Message)
      requires Valid()
      modifies this, trackedDevices, trackedDevices.devices
      ensures Valid()
      ensures State() == Step(old(State()), m)
    {
      if m.messageDate.None? || m.messageDate.value == "" {
        return;
      }
      if m.iotData.None? {
        // `messageData.IotData.temperature` throws; the handler's catch logs the error.
        return;
      }
      var data := m.iotData.value;
      if !Truthy(data.temperature) && !Truthy(data.humidity) {
        return;
      }
      var x := Sample(m.messageDate.value, data.temperature, data.humidity);
      Accept(m, x);
    }

    /** The rest of the handler, for a message that passed the checks: find or create the device, then auto-select. */
    method Accept(m: Message, x: Sample)
      requires Valid() && Classify(m) == Accepted(x)
      modifies this, trackedDevices, trackedDevices.devices
      ensures Valid()
      ensures State() == Step(old(State()), m)
    {
      var existing := trackedDevices.FindDevice(m.deviceId);
      if existing.Some? {
        AddToKnown(m, x, existing.value);
      } else {
        Register(m, x);
      }
    }

    /** A known device: its `addData`. */
    method AddToKnown(m: Message, x: Sample, d: DeviceData)
      requires Valid() && Classify(m) == Accepted(x)
      requires m.deviceId in IdsOf(trackedDevices.devices)
      requires d == trackedDevices.devices[FirstIndex(IdsOf(trackedDevices.devices), m.deviceId).value]
      modifies d
      ensures Valid()
      ensures State() == Step(old(State()), m)
      ensures trackedDevices.devices == old(trackedDevices.devices)
    {
      ghost var ds := trackedDevices.devices;
      ghost var s := State();
      IdsOfRecords(ds, s.devices);
      StepKnown(s, m, x);
      ghost var i := FirstIndex(IdsOf(ds), m.deviceId).value;
      d.AddData(x.time, x.temperature, x.humidity);
      assert forall j :: 0 <= j < |ds| && j != i ==> ds[j] != d;
      AppendToFull(old(d.Series()), x);
    }

    /**
     * An unknown device: a new `DeviceData` pushed onto the registry with
     * its first sample added, then the one-time auto-selection.
     */
    method Register(m: Message, x: Sample)
      requires Valid() && Classify(m) == Accepted(x)
      requires m.deviceId !in IdsOf(trackedDevices.devices)
      modifies this, trackedDevices
      ensures Valid()
      ensures State() == Step(old(State()), m)
    {
      ghost var s := State();
      IdsOfRecords(trackedDevices.devices, s.devices);
      StepNew(s, m, x);
      Push(m.deviceId, x);
      if needsAutoSelect {
        needsAutoSelect := false;
        selected := Some(trackedDevices.devices[0].deviceId);
      }
    }

    /** `new DeviceData(deviceId)`, its first `addData`, and `trackedDevices.devices.push`. */
    method Push(id: string, x: Sample)
      requires Valid()
      requires id !in IdsOf(trackedDevices.devices)
      modifies trackedDevices
      ensures Valid()
      ensures State().devices == old(State().devices) + [DeviceRecord(id, Append(Initial(), x))]
    {
      ghost var before := trackedDevices.devices;
      ghost var rs := RecordsOf(before);
      var d := NewDevice(id, x);
      assert RecordsOf(before) == rs;
      trackedDevices.Push(d);
      assert RecordsOf(before) == rs;
      RecordsOfSnoc(before, d);
    }
  }
}
