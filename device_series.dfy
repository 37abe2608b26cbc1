/**
 * public/js/data.js, class `DeviceData`: the last `maxLen` = 50 samples of
 * one device, kept in three parallel arrays (time, temperature, humidity)
 * that `addData` updates in place with `push` and `shift`.
 *
 * The arrays are created with `new Array(50)`, so they start with 50
 * empty slots, not empty: a slot here is an `Option`, `None` for a hole
 * that was never written.
 */
module DeviceSeries {
  import opened Wrappers

  const MaxLen: nat := 50

  /** A numeric telemetry field of the parsed message: a number, or absent (undefined or null). */
  datatype Reading = Absent | Num(value: real)

  /** JavaScript truthiness of a reading: a number other than 0. */
  predicate Truthy(r: Reading)
  {
    r.Num? && r.value != 0.0
  }

  /** `humidity || null`: a falsy humidity, 0 included, is stored as null. */
  function OrNull(r: Reading): (h: Reading)
    ensures Truthy(r) ==> h == r
    ensures !Truthy(r) ==> h == Absent
  {
    if Truthy(r) then r else Absent
  }

  /** The arguments of one `addData(time, temperature, humidity)` call. */
  datatype Sample = Sample(time: string, temperature: Reading, humidity: Reading)

  /** The contents of the three arrays. */
  datatype Window = Window(
    times: seq<Option<string>>,
    temperatures: seq<Option<Reading>>,
    humidities: seq<Option<Reading>>)

  /** The three arrays are exactly `MaxLen` long. */
  predicate Full(w: Window)
  {
    |w.times| == MaxLen && |w.temperatures| == MaxLen && |w.humidities| == MaxLen
  }

  /** Three arrays of `MaxLen` holes, as `new Array(this.maxLen)` creates them. */
  function Initial(): (w: Window)
    ensures Full(w)
    ensures forall i :: 0 <= i < MaxLen ==> w.times[i].None? && w.temperatures[i].None? && w.humidities[i].None?
  {
    Window(seq(MaxLen, _ => None), seq(MaxLen, _ => None), seq(MaxLen, _ => None))
  }

  /**
   * `addData`: push the time, the temperature as given and `humidity || null`;
   * then, if the time array has grown past `MaxLen`, shift all three.
   */
  function Append(w: Window, x: Sample): Window
  {
    var times := w.times + [Some(x.time)];
    var temperatures := w.temperatures + [Some(x.temperature)];
    var humidities := w.humidities + [Some(OrNull(x.humidity))];
    if |times| > MaxLen then Window(times[1..], temperatures[1..], humidities[1..])
    else Window(times, temperatures, humidities)
  }

  /**
   * On full arrays an append drops the oldest entry of each and puts the
   * new values last, so all three stay exactly `MaxLen` long.
   */
  lemma AppendToFull(w: Window, x: Sample)
    requires Full(w)
    ensures Full(Append(w, x))
    ensures Append(w, x).times == w.times[1..] + [Some(x.time)]
    ensures Append(w, x).temperatures == w.temperatures[1..] + [Some(x.temperature)]
    ensures Append(w, x).humidities == w.humidities[1..] + [Some(OrNull(x.humidity))]
  {
  }

  /** `addData` called with each sample in turn. */
  function AppendAll(w: Window, xs: seq<Sample>): Window
    decreases |xs|
  {
    if xs == [] then w else Append(AppendAll(w, xs[..|xs| - 1]), xs[|xs| - 1])
  }

  /** The last `MaxLen` entries of a sequence. */
  function Last<T>(s: seq<T>): (r: seq<T>)
    requires |s| >= MaxLen
    ensures |r| == MaxLen
  {
    s[|s| - MaxLen..]
  }

  function TimesOf(xs: seq<Sample>): seq<Option<string>>
  {
    seq(|xs|, i requires 0 <= i < |xs| => Some(xs[i].time))
  }

  function TemperaturesOf(xs: seq<Sample>): seq<Option<Reading>>
  {
    seq(|xs|, i requires 0 <= i < |xs| => Some(xs[i].temperature))
  }

  function HumiditiesOf(xs: seq<Sample>): seq<Option<Reading>>
  {
    seq(|xs|, i requires 0 <= i < |xs| => Some(OrNull(xs[i].humidity)))
  }

  /**
   * Sliding window: after any number of appends to full arrays, each array
   * holds the last `MaxLen` entries of its old contents followed by the
   * appended values, in order.
   */
  lemma {:induction false} AppendAllIsSuffix(w: Window, xs: seq<Sample>)
    requires Full(w)
    ensures AppendAll(w, xs) == Window(Last(w.times + TimesOf(xs)),
                                       Last(w.temperatures + TemperaturesOf(xs)),
                                       Last(w.humidities + HumiditiesOf(xs)))
    decreases |xs|
  {
    if xs == [] {
      assert w.times + TimesOf(xs) == w.times;
      assert w.temperatures + TemperaturesOf(xs) == w.temperatures;
      assert w.humidities + HumiditiesOf(xs) == w.humidities;
    } else {
      var init, x := xs[..|xs| - 1], xs[|xs| - 1];
      AppendAllIsSuffix(w, init);
      var v := AppendAll(w, init);
      AppendToFull(v, x);
      assert TimesOf(xs) == TimesOf(init) + [Some(x.time)];
      assert TemperaturesOf(xs) == TemperaturesOf(init) + [Some(x.temperature)];
      assert HumiditiesOf(xs) == HumiditiesOf(init) + [Some(OrNull(x.humidity))];
      LastOfSnoc(w.times + TimesOf(init), Some(x.time));
      LastOfSnoc(w.temperatures + TemperaturesOf(init), Some(x.temperature));
      LastOfSnoc(w.humidities + HumiditiesOf(init), Some(OrNull(x.humidity)));
    }
  }

  /** Slot `i` of the last `MaxLen` entries of `MaxLen` holes followed by `ys`. */
  lemma LastAfterHoles<T>(ys: seq<Option<T>>, i: nat)
    requires i < MaxLen
    ensures Last(seq(MaxLen, _ => None) + ys)[i] == if i < MaxLen - |ys| then None else ys[|ys| - MaxLen + i]
  {
    var s := seq(MaxLen, _ => None) + ys;
    assert Last(s)[i] == s[|ys| + i];
  }

  /** Appending one entry slides the last-`MaxLen` view by one. */
  lemma LastOfSnoc<T>(s: seq<T>, x: T)
    requires |s| >= MaxLen
    ensures Last(s + [x]) == Last(s)[1..] + [x]
  {
  }

  /**
   * A device's arrays after its first k samples: the last min(k, 50)
   * slots hold the samples in order (humidity as `humidity || null`), at
   * the same index in all three arrays, and the slots before them are
   * still the initial holes.
   */
  lemma WindowAfterSamples(xs: seq<Sample>)
    ensures Full(AppendAll(Initial(), xs))
    ensures var w := AppendAll(Initial(), xs);
      forall i :: 0 <= i < MaxLen ==>
        if i < MaxLen - |xs| then w.times[i].None? && w.temperatures[i].None? && w.humidities[i].None?
        else
          && w.times[i] == Some(xs[|xs| - MaxLen + i].time)
          && w.temperatures[i] == Some(xs[|xs| - MaxLen + i].temperature)
          && w.humidities[i] == Some(OrNull(xs[|xs| - MaxLen + i].humidity))
  {
    AppendAllIsSuffix(Initial(), xs);
    SlotsOfLast(xs, AppendAll(Initial(), xs));
  }

  /** The slot-by-slot reading of the sliding window started from the initial holes. */
  lemma SlotsOfLast(xs: seq<Sample>, w: Window)
    requires w == Window(Last(Initial().times + TimesOf(xs)),
                         Last(Initial().temperatures + TemperaturesOf(xs)),
                         Last(Initial().humidities + HumiditiesOf(xs)))
    ensures Full(w)
    ensures forall i :: 0 <= i < MaxLen ==>
        if i < MaxLen - |xs| then w.times[i].None? && w.temperatures[i].None? && w.humidities[i].None?
        else
          && w.times[i] == Some(xs[|xs| - MaxLen + i].time)
          && w.temperatures[i] == Some(xs[|xs| - MaxLen + i].temperature)
          && w.humidities[i] == Some(OrNull(xs[|xs| - MaxLen + i].humidity))
  {
    forall i | 0 <= i < MaxLen
      ensures if i < MaxLen - |xs| then w.times[i].None? && w.temperatures[i].None? && w.humidities[i].None?
        else
          && w.times[i] == Some(xs[|xs| - MaxLen + i].time)
          && w.temperatures[i] == Some(xs[|xs| - MaxLen + i].temperature)
          && w.humidities[i] == Some(OrNull(xs[|xs| - MaxLen + i].humidity))
    {
      LastAfterHoles(TimesOf(xs), i);
      LastAfterHoles(TemperaturesOf(xs), i);
      LastAfterHoles(HumiditiesOf(xs), i);
    }
  }

  /** One device's series, as `DeviceData` holds it. */
  class DeviceData {
    const deviceId: string
    var timeData: seq<Option<string>>
    var temperatureData: seq<Option<Reading>>
    var humidityData: seq<Option<Reading>>

    /** The three arrays as a value. */
    ghost function Series(): Window
      reads this
    {
      Window(timeData, temperatureData, humidityData)
    }

    ghost predicate Valid()
      reads this
    {
      Full(Series())
    }

    /** `new DeviceData(deviceId)`: 50 empty slots in each array. */
    constructor (deviceId: string)
      ensures this.deviceId == deviceId
      ensures Valid() && Series() == Initial()
    {
      this.deviceId := deviceId;
      timeData := seq(MaxLen, _ => None);
      temperatureData := seq(MaxLen, _ => None);
      humidityData := seq(MaxLen, _ => None);
    }

    /** `addData(time, temperature, humidity)`, in place. */
    method AddData(time: string, temperature: Reading, humidity: Reading)
      modifies this
      ensures Series() == Append(old(Series()), Sample(time, temperature, humidity))
      ensures old(Valid()) ==> Valid()
    {
      timeData := timeData + [Some(time)];
      temperatureData := temperatureData + [Some(temperature)];
      humidityData := humidityData + [Some(OrNull(humidity))];
      if |timeData| > MaxLen {
        timeData := timeData[1..];
        temperatureData := temperatureData[1..];
        humidityData := humidityData[1..];
      }
    }
  }
}
