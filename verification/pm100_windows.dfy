/**
  The Windows driver wrapper of a Thorlabs power meter. The vendor driver is
  abstract: every value it would return is a parameter of the method that
  asks for it, and every value sent to it is a result. What is modelled is
  the wrapper's own logic: clamping requested settings to the reported
  range, gating features by meter model, decoding sensor codes, narrowing
  the device lists on connect and rebuilding them on a device scan.
*/
module PM100 {
  import opened Options

  // ---------------------------------------------------------------------------
  // Clamping a requested setting

  /** The value the setters send: the request moved into [lo, hi], the upper bound winning when lo > hi. */
  function Clamped(x: real, lo: real, hi: real): (r: real)
    ensures lo <= x <= hi ==> r == x
    ensures x < lo && lo <= hi ==> r == lo
    ensures hi < x ==> r == hi
    ensures lo <= hi ==> lo <= r <= hi
    ensures hi < lo ==> r == hi
  {
    var raised := if x < lo then lo else x;
    if raised > hi then hi else raised
  }

  /** The setters' own steps: keep an in-range request, else raise it to the minimum, then cap it at the maximum. */
  method ClampStep(x: real, lo: real, hi: real) returns (v: real)
    ensures v == Clamped(x, lo, hi)
  {
    v := x;
    if lo <= v && v <= hi {
    } else {
      if lo > v {
        v := lo;
      }
      if v > hi {
        v := hi;
      }
    }
  }

  /**
    What a `*Set` attribute holds: a number, or the driver's whole
    (status, value) reply where a getter stores the reply unpacked.
  */
  datatype Stored = Number(value: real) | Reply(status: int, value: real)

  /** A setting the device reports: its minimum, maximum and current value, None until read. */
  datatype Limits = Limits(min: Option<real>, max: Option<real>, current: Option<Stored>)

  /** Every value a setting holds is a number, as the setters store it. */
  predicate Numeric(l: Limits) {
    l.current.None? || l.current.value.Number?
  }

  /** A getter as written for average time, power range, brightness and attenuation: the whole reply is stored. */
  function ReadBackAsWritten(l: Limits, status: int, value: real): (r: Limits)
    ensures r.min == l.min && r.max == l.max
    ensures r.current == Some(Reply(status, value))
  {
    l.(current := Some(Reply(status, value)))
  }

  /** After such a getter the setting no longer holds a number. */
  lemma ReadBackAsWrittenIsNotNumeric(l: Limits, status: int, value: real)
    ensures !Numeric(ReadBackAsWritten(l, status, value))
    ensures ReadBackAsWritten(l, status, value).current != Some(Number(value))
  {
  }

  /** A getter as `getWaveLength` writes it, and as the others evidently mean: the value is unpacked from the reply. */
  function ReadBack(l: Limits, status: int, value: real): (r: Limits)
    ensures Numeric(r) && r.min == l.min && r.max == l.max
    ensures r.current == Some(Number(value))
  {
    l.(current := Some(Number(value)))
  }

  const Unread: Limits := Limits(None, None, None)

  /** The display brightness range is fixed by the wrapper, not read from the device. */
  const BrightnessMin: real := 0.0
  const BrightnessMax: real := 1.0

  // ---------------------------------------------------------------------------
  // Gating by meter model

  const AttenuationModels: set<string> := {"PM100D", "PM100A", "PM100USB", "PM200", "PM400"}
  const VoltageModels: set<string> := {"PM100D", "PM100A", "PM100USB", "PM160T", "PM200", "PM400"}
  const DarkAdjustModels: set<string> := {"PM400"}

  /** Dark adjustment is a PM400 feature, attenuation a subset of voltage, which adds only the PM160T. */
  lemma GatingNested()
    ensures DarkAdjustModels <= AttenuationModels <= VoltageModels
    ensures VoltageModels - AttenuationModels == {"PM160T"}
  {
  }

  // ---------------------------------------------------------------------------
  // Sensor decode tables

  function SensorTypeName(t: int): (r: Option<string>)
    ensures r.Some? <==> 0 <= t <= 3
  {
    if t == 0x00 then Some("No sensor")
    else if t == 0x01 then Some("Photodiode sensor")
    else if t == 0x02 then Some("Thermopile sensor")
    else if t == 0x03 then Some("Pyroelectric sensor")
    else None
  }

  /** The inverse of the type table. */
  function SensorTypeCode(name: string): Option<int> {
    if name == "No sensor" then Some(0x00)
    else if name == "Photodiode sensor" then Some(0x01)
    else if name == "Thermopile sensor" then Some(0x02)
    else if name == "Pyroelectric sensor" then Some(0x03)
    else None
  }

  /** Every decoded type name encodes back to its code, so no two codes share a name. */
  lemma SensorTypeRoundTrip(t: int)
    requires SensorTypeName(t).Some?
    ensures SensorTypeCode(SensorTypeName(t).value) == Some(t)
  {
  }

  /** The subtype table, looked up only under a known type. */
  function SensorSubTypeName(t: int, sub: int): (r: Option<string>)
    ensures r.Some? ==> SensorTypeName(t).Some?
    ensures t == 0x00 ==> (r.Some? <==> sub == 0x00)
    ensures 1 <= t <= 3 ==> (r.Some? <==> sub == 0x01 || sub == 0x02 || sub == 0x12 || (t == 0x01 && sub == 0x03))
  {
    if t == 0x00 then
      if sub == 0x00 then Some("No sensor") else None
    else if t == 0x01 then
      if sub == 0x01 then Some("Photodiode adapter")
      else if sub == 0x02 then Some("Photodiode sensor")
      else if sub == 0x03 then Some("Photodiode sensor with integrated filter identified by position")
      else if sub == 0x12 then Some("Photodiode sensor with temperature sensor")
      else None
    else if t == 0x02 then
      if sub == 0x01 then Some("Thermopile adapter")
      else if sub == 0x02 then Some("Thermopile sensor")
      else if sub == 0x12 then Some("Thermopile sensor with temperature sensor")
      else None
    else if t == 0x03 then
      if sub == 0x01 then Some("Pyroelectric adapter")
      else if sub == 0x02 then Some("Pyroelectric sensor")
      else if sub == 0x12 then Some("Pyroelectric sensor with temperature sensor")
      else None
    else None
  }

  /** Under one type, distinct known subtypes decode to distinct names. */
  lemma SensorSubTypeNamesDistinct(t: int, s1: int, s2: int)
    requires SensorSubTypeName(t, s1).Some? && SensorSubTypeName(t, s1) == SensorSubTypeName(t, s2)
    ensures s1 == s2
  {
  }

  /** The lowest nibble of the flags: what the sensor measures. */
  function KindText(tag: int): (r: string)
    ensures r != "" <==> tag == 0x1 || tag == 0x2
  {
    if tag == 0x1 then "Power sensor; "
    else if tag == 0x2 then "Energy sensor; "
    else ""
  }

  /** The second nibble, kept in place: which one thing is settable; a combination adds nothing. */
  function SettableText(tag: int): (r: string)
    ensures r != "" <==> tag == 0x10 || tag == 0x20 || tag == 0x40
  {
    if tag == 0x10 then "Responsivity settable; "
    else if tag == 0x20 then "Wavelength settable; "
    else if tag == 0x40 then "Time constant settable; "
    else ""
  }

  /** The third nibble, kept in place: a temperature sensor. */
  function TemperatureText(tag: int): (r: string)
    ensures r != "" <==> tag == 0x100
  {
    if tag == 0x100 then "With Temperature sensor; " else ""
  }

  /**
    The text the flags add: each tag is the remainder of the flags, with the
    lower tags already subtracted, by 16, 256 and 4096 (a floor remainder,
    as Python's `%` is for a positive modulus).
  */
  function FlagText(flag: int): string {
    var tag1 := flag % 16;
    var rest1 := flag - tag1;
    var tag2 := rest1 % 256;
    var rest2 := rest1 - tag2;
    var tag3 := rest2 % 4096;
    KindText(tag1) + SettableText(tag2) + TemperatureText(tag3)
  }

  /** Euclidean division by 16 is determined by any quotient and in-range remainder. */
  lemma DivMod16(x: int, q: int, r: int)
    requires x == 16 * q + r && 0 <= r < 16
    ensures x / 16 == q && x % 16 == r
  {
  }

  /** The same for 256. */
  lemma DivMod256(x: int, q: int, r: int)
    requires x == 256 * q + r && 0 <= r < 256
    ensures x % 256 == r
  {
  }

  /** The same for 4096. */
  lemma DivMod4096(x: int, q: int, r: int)
    requires x == 4096 * q + r && 0 <= r < 4096
    ensures x % 4096 == r
  {
  }

  /** Shifting left by one nibble commutes with taking the low nibble. */
  lemma NibbleShift(q: int)
    ensures (16 * q) % 256 == 16 * (q % 16)
  {
    DivMod16(q, q / 16, q % 16);
    DivMod256(16 * q, q / 16, 16 * (q % 16));
  }

  /** The same, two nibbles up. */
  lemma NibbleShiftTwice(q: int)
    ensures (256 * q) % 4096 == 256 * (q % 16)
  {
    DivMod16(q, q / 16, q % 16);
    DivMod4096(256 * q, q / 16, 256 * (q % 16));
  }

  /** The flags read nibble by nibble: the low three nibbles decide the text. */
  lemma FlagNibbles(flag: int)
    ensures FlagText(flag) ==
              KindText(flag % 16)
              + SettableText(16 * ((flag / 16) % 16))
              + TemperatureText(256 * ((flag / 256) % 16))
  {
    var q1 := flag / 16;
    assert flag - flag % 16 == 16 * q1;
    NibbleShift(q1);
    var tag2 := (16 * q1) % 256;
    assert tag2 == 16 * (q1 % 16);
    var q2 := q1 / 16;
    assert 16 * q1 - tag2 == 256 * q2;
    assert flag / 256 == q2;
    NibbleShiftTwice(q2);
    assert (256 * q2) % 4096 == 256 * (q2 % 16);
  }


  /** Bits above 0xFFF never change the decoded text. */
  lemma FlagHighBitsIgnored(flag: int)
    ensures FlagText(flag) == FlagText(flag % 0x1000)
  {
    var low := flag % 0x1000;
    var h := flag / 0x1000;
    var n0, n1, n2 := low % 16, (low / 16) % 16, low / 256;
    DivMod16(low, low / 16, n0);
    DivMod16(low / 16, n2, n1);
    DivMod16(flag, 256 * h + low / 16, n0);
    DivMod16(256 * h + low / 16, 16 * h + n2, n1);
    assert flag / 256 == 16 * h + n2;
    DivMod16(16 * h + n2, h, n2);
    assert low / 256 == n2;
    DivMod16(n2, 0, n2);
    FlagNibbles(flag);
    FlagNibbles(low);
  }

  /** 0x111 is a power sensor with settable responsivity and a temperature sensor; 0x31 only a power sensor. */
  lemma FlagExamples()
    ensures FlagText(0x111) == "Power sensor; " + "Responsivity settable; " + "With Temperature sensor; "
    ensures FlagText(0x31) == "Power sensor; "
  {
    assert 0x111 % 16 == 1 && 0x110 % 256 == 0x10 && 0x100 % 4096 == 0x100;
    assert 0x31 % 16 == 1 && 0x30 % 256 == 0x30 && 0 % 4096 == 0;
  }

  /** The power unit code: 0 is watts, 1 is dBm, anything else unknown. */
  function PowerUnitName(code: int): (r: Option<string>)
    ensures r.Some? <==> code == 0 || code == 1
  {
    if code == 0 then Some("W") else if code == 1 then Some("dBm") else None
  }

  // ---------------------------------------------------------------------------
  // The device lists

  datatype DeviceInfo = DeviceInfo(resourceName: string, modelName: string, serialNumber: string, manufacturer: string)

  /** The first position of `name` in the list (Python's `list.index`), None where it raises. */
  function FirstIndex(names: seq<string>, name: string): (r: Option<nat>)
    ensures r.Some? <==> name in names
    ensures r.Some? ==> r.value < |names| && names[r.value] == name
    ensures r.Some? ==> forall m :: 0 <= m < r.value ==> names[m] != name
  {
    if |names| == 0 then None
    else if names[0] == name then Some(0)
    else match FirstIndex(names[1..], name)
      case None => None
      case Some(k) => Some(k + 1)
  }

  /** Everything one wrapper object holds, for saying what a copy or a call keeps. */
  datatype DeviceState = DeviceState(
    isConnected: bool, resourceNameConnected: Option<string>, selected: Option<DeviceInfo>,
    sensorName: Option<string>, sensorSerialNumber: Option<string>, sensorCalibrationMessage: Option<string>,
    sensorType: Option<string>, sensorSubType: Option<string>, sensorFlags: string,
    averageTime: Limits, timeoutValue: Option<real>, wavelength: Limits, powerRange: Limits, brightness: Limits, attenuation: Limits,
    meterPowerReading: Option<real>, meterPowerUnit: Option<string>,
    meterVoltageReading: Option<real>, meterVoltageUnit: Option<string>,
    darkOffsetVoltage: Option<real>, darkOffsetUnit: Option<string>)

  const InitialState: DeviceState := DeviceState(
    false, None, None, None, None, None, None, None, "",
    Unread, None, Unread, Unread, Unread, Unread, None, None, None, None, None, None)

  /**
    One wrapper object. `selected` is None on the object a device scan
    returns, whose list attributes are the class's lists; on a connected copy
    it holds the entries the lists were narrowed to.
  */
  class PM100D {
    var isConnected: bool
    var resourceNameConnected: Option<string>
    var selected: Option<DeviceInfo>
    var sensorName: Option<string>
    var sensorSerialNumber: Option<string>
    var sensorCalibrationMessage: Option<string>
    var sensorType: Option<string>
    var sensorSubType: Option<string>
    var sensorFlags: string
    var averageTime: Limits
    var timeoutValue: Option<real>
    var wavelength: Limits
    var powerRange: Limits
    var brightness: Limits
    var attenuation: Limits
    var meterPowerReading: Option<real>
    var meterPowerUnit: Option<string>
    var meterVoltageReading: Option<real>
    var meterVoltageUnit: Option<string>
    var darkOffsetVoltage: Option<real>
    var darkOffsetUnit: Option<string>

    ghost function State(): DeviceState
      reads this
    {
      DeviceState(
        isConnected, resourceNameConnected, selected,
        sensorName, sensorSerialNumber, sensorCalibrationMessage,
        sensorType, sensorSubType, sensorFlags,
        averageTime, timeoutValue, wavelength, powerRange, brightness, attenuation,
        meterPowerReading, meterPowerUnit, meterVoltageReading, meterVoltageUnit,
        darkOffsetVoltage, darkOffsetUnit)
    }

    /** A connected object always knows its model. */
    ghost predicate Valid()
      reads this
    {
      isConnected ==> selected.Some? && resourceNameConnected.Some?
    }

    /** A new object: nothing read, flags empty, not connected. */
    constructor ()
      ensures Valid() && State() == InitialState
    {
      isConnected, resourceNameConnected, selected := false, None, None;
      sensorName, sensorSerialNumber, sensorCalibrationMessage := None, None, None;
      sensorType, sensorSubType, sensorFlags := None, None, "";
      averageTime, wavelength, powerRange, brightness, attenuation := Unread, Unread, Unread, Unread, Unread;
      timeoutValue := None;
      meterPowerReading, meterPowerUnit, meterVoltageReading, meterVoltageUnit := None, None, None, None;
      darkOffsetVoltage, darkOffsetUnit := None, None;
    }

    /** The deep copy `connect` starts from, already narrowed: connected to `name` with the entry `info`. */
    constructor Narrowed(d: PM100D, name: string, info: DeviceInfo)
      ensures Valid()
      ensures State() == d.State().(isConnected := true, resourceNameConnected := Some(name), selected := Some(info))
    {
      sensorName, sensorSerialNumber, sensorCalibrationMessage := d.sensorName, d.sensorSerialNumber, d.sensorCalibrationMessage;
      sensorType, sensorSubType, sensorFlags := d.sensorType, d.sensorSubType, d.sensorFlags;
      averageTime, wavelength, powerRange, brightness, attenuation := d.averageTime, d.wavelength, d.powerRange, d.brightness, d.attenuation;
      timeoutValue := d.timeoutValue;
      meterPowerReading, meterPowerUnit, meterVoltageReading, meterVoltageUnit := d.meterPowerReading, d.meterPowerUnit, d.meterVoltageReading, d.meterVoltageUnit;
      darkOffsetVoltage, darkOffsetUnit := d.darkOffsetVoltage, d.darkOffsetUnit;
      resourceNameConnected := Some(name);
      isConnected := true;
      selected := Some(info);
    }

    /**
      Connect to the resource `name` through a scan result: when this object
      is not connected, the driver opens the session (`driverOk`) and the
      name is in the scanned list at position k, a copy is returned that is
      connected to `name` and narrowed to entry k of the four lists; in every
      other case there is no copy, and a connected object is left as it is.
      An unconnected object stays unconnected.
    */
    method Connect(registry: DriverRegistry, name: string, driverOk: bool) returns (copy: PM100D?)
      requires registry.Valid() && (selected.None? || isConnected)
      modifies this`isConnected
      ensures isConnected == old(isConnected)
      ensures copy != null <==> !old(isConnected) && driverOk && name in registry.resourceName
      ensures copy != null ==>
                fresh(copy) && copy.Valid() &&
                copy.State() == old(State()).(isConnected := true, resourceNameConnected := Some(name),
                                              selected := Some(registry.Entry(FirstIndex(registry.resourceName, name).value)))
    {
      copy := null;
      if !isConnected {
        if driverOk {
          var index := FirstIndex(registry.resourceName, name);
          if index.Some? {
            copy := new PM100D.Narrowed(this, name, registry.Entry(index.value));
            isConnected := false;
          }
        }
      }
    }

    /** `connectForce`: the same narrowed copy without the connected check, and this object is marked unconnected. */
    method ConnectForce(registry: DriverRegistry, name: string, driverOk: bool) returns (copy: PM100D?)
      requires registry.Valid() && selected.None?
      modifies this`isConnected
      ensures copy != null <==> driverOk && name in registry.resourceName
      ensures copy != null ==>
                !isConnected && fresh(copy) && copy.Valid() &&
                copy.State() == old(State()).(isConnected := true, resourceNameConnected := Some(name),
                                              selected := Some(registry.Entry(FirstIndex(registry.resourceName, name).value)))
      ensures copy == null ==> isConnected == old(isConnected)
    {
      copy := null;
      if driverOk {
        var index := FirstIndex(registry.resourceName, name);
        if index.Some? {
          copy := new PM100D.Narrowed(this, name, registry.Entry(index.value));
          isConnected := false;
        }
      }
    }

    /** Releasing the session clears the connected flag, only when connected and the driver released it. */
    method Disconnect(disposeOk: bool)
      modifies this`isConnected
      ensures isConnected == (old(isConnected) && !disposeOk)
    {
      if isConnected {
        if disposeOk {
          isConnected := false;
        }
      }
    }

    /** Average time: the device's range and current value are read, the clamped request is sent and kept. */
    method SetAverageTime(x: real, devMin: real, devMax: real, devSet: real) returns (sent: real)
      requires isConnected
      modifies this`averageTime
      ensures sent == Clamped(x, devMin, devMax)
      ensures averageTime == Limits(Some(devMin), Some(devMax), Some(Number(sent)))
    {
      averageTime := Limits(Some(devMin), Some(devMax), Some(Number(devSet)));
      sent := ClampStep(x, devMin, devMax);
      averageTime := averageTime.(current := Some(Number(sent)));
    }

    /** Wavelength, clamped to the device's range like the average time. */
    method SetWaveLength(x: real, devMin: real, devMax: real, devSet: real) returns (sent: real)
      requires isConnected
      modifies this`wavelength
      ensures sent == Clamped(x, devMin, devMax)
      ensures wavelength == Limits(Some(devMin), Some(devMax), Some(Number(sent)))
    {
      wavelength := Limits(Some(devMin), Some(devMax), Some(Number(devSet)));
      sent := ClampStep(x, devMin, devMax);
      wavelength := wavelength.(current := Some(Number(sent)));
    }

    /** Power range, clamped to the device's range like the average time. */
    method SetPowerRange(x: real, devMin: real, devMax: real, devSet: real) returns (sent: real)
      requires isConnected
      modifies this`powerRange
      ensures sent == Clamped(x, devMin, devMax)
      ensures powerRange == Limits(Some(devMin), Some(devMax), Some(Number(sent)))
    {
      powerRange := Limits(Some(devMin), Some(devMax), Some(Number(devSet)));
      sent := ClampStep(x, devMin, devMax);
      powerRange := powerRange.(current := Some(Number(sent)));
    }

    /** Display brightness, clamped to the fixed range [0, 1]. */
    method SetDispBrightness(x: real, devSet: real) returns (sent: real)
      requires isConnected
      modifies this`brightness
      ensures sent == Clamped(x, BrightnessMin, BrightnessMax)
      ensures brightness == Limits(Some(BrightnessMin), Some(BrightnessMax), Some(Number(sent)))
    {
      brightness := Limits(Some(BrightnessMin), Some(BrightnessMax), Some(Number(devSet)));
      sent := ClampStep(x, BrightnessMin, BrightnessMax);
      brightness := brightness.(current := Some(Number(sent)));
    }

    /** Attenuation, clamped like the others on the models that have it; other models send and change nothing. */
    method SetAttenuation(x: real, devMin: real, devMax: real, devSet: real) returns (sent: Option<real>)
      requires Valid() && isConnected
      modifies this`attenuation
      ensures sent.Some? <==> selected.value.modelName in AttenuationModels
      ensures sent.Some? ==> sent.value == Clamped(x, devMin, devMax)
      ensures sent.Some? ==> attenuation == Limits(Some(devMin), Some(devMax), Some(Number(sent.value)))
      ensures sent.None? ==> attenuation == old(attenuation)
    {
      if selected.value.modelName in AttenuationModels {
        attenuation := Limits(Some(devMin), Some(devMax), Some(Number(devSet)));
        var v := ClampStep(x, devMin, devMax);
        attenuation := attenuation.(current := Some(Number(v)));
        sent := Some(v);
      } else {
        sent := None;
      }
    }

    /** Reading back the average time; the reply is unpacked (see ReadBack). */
    method GetAverageTime(status: int, value: real)
      requires isConnected
      modifies this`averageTime
      ensures averageTime == ReadBack(old(averageTime), status, value)
    {
      averageTime := averageTime.(current := Some(Number(value)));
    }

    /** The timeout is sent as given and kept. */
    method SetTimeoutValue(timeout: real)
      requires isConnected
      modifies this`timeoutValue
      ensures timeoutValue == Some(timeout)
    {
      timeoutValue := Some(timeout);
    }

    /** The timeout the driver reports is kept. */
    method GetTimeoutValue(status: int, value: real)
      requires isConnected
      modifies this`timeoutValue
      ensures timeoutValue == Some(value)
    {
      timeoutValue := Some(value);
    }

    /** Reading back the wavelength. */
    method GetWaveLength(status: int, value: real)
      requires isConnected
      modifies this`wavelength
      ensures wavelength == ReadBack(old(wavelength), status, value)
    {
      wavelength := wavelength.(current := Some(Number(value)));
    }

    /** Reading back the power range; the reply is unpacked (see ReadBack). */
    method GetPowerRange(status: int, value: real)
      requires isConnected
      modifies this`powerRange
      ensures powerRange == ReadBack(old(powerRange), status, value)
    {
      powerRange := powerRange.(current := Some(Number(value)));
    }

    /** Reading back the display brightness; the reply is unpacked (see ReadBack). */
    method GetDispBrightness(status: int, value: real)
      requires isConnected
      modifies this`brightness
      ensures brightness == ReadBack(old(brightness), status, value)
    {
      brightness := brightness.(current := Some(Number(value)));
    }

    /** Reading back the attenuation on the models that have it; other models change nothing. */
    method GetAttenuation(status: int, value: real)
      requires Valid() && isConnected
      modifies this`attenuation
      ensures selected.value.modelName in AttenuationModels ==> attenuation == ReadBack(old(attenuation), status, value)
      ensures selected.value.modelName !in AttenuationModels ==> attenuation == old(attenuation)
    {
      if selected.value.modelName in AttenuationModels {
        attenuation := attenuation.(current := Some(Number(value)));
      }
    }

    /**
      Store the sensor's descriptions and decode its codes: a known type or
      subtype replaces the stored name, an unknown one leaves it; the flag
      text is appended to what the flags already hold, never reset.
    */
    method GetSensorInfo(name: string, serial: string, calibration: string, typ: int, subtype: int, flag: int)
      requires isConnected
      modifies this`sensorName, this`sensorSerialNumber, this`sensorCalibrationMessage
      modifies this`sensorType, this`sensorSubType, this`sensorFlags
      ensures sensorName == Some(name) && sensorSerialNumber == Some(serial)
      ensures sensorCalibrationMessage == Some(calibration)
      ensures sensorType == if SensorTypeName(typ).Some? then SensorTypeName(typ) else old(sensorType)
      ensures sensorSubType == if SensorSubTypeName(typ, subtype).Some? then SensorSubTypeName(typ, subtype) else old(sensorSubType)
      ensures sensorFlags == old(sensorFlags) + FlagText(flag)
    {
      sensorName, sensorSerialNumber, sensorCalibrationMessage := Some(name), Some(serial), Some(calibration);
      var t := SensorTypeName(typ);
      if t.Some? {
        sensorType := t;
        var s := SensorSubTypeName(typ, subtype);
        if s.Some? {
          sensorSubType := s;
        }
      }
      var rest := flag;
      var tag := rest % 16;
      var text := KindText(tag);
      rest := rest - tag;
      tag := rest % 256;
      text := text + SettableText(tag);
      rest := rest - tag;
      tag := rest % 4096;
      text := text + TemperatureText(tag);
      sensorFlags := sensorFlags + text;
    }

    /** Store a power reading and decode its unit; an unknown unit code keeps the previous unit. */
    method UpdatePowerReading(reading: real, unitCode: int)
      requires isConnected
      modifies this`meterPowerReading, this`meterPowerUnit
      ensures meterPowerReading == Some(reading)
      ensures meterPowerUnit == if PowerUnitName(unitCode).Some? then PowerUnitName(unitCode) else old(meterPowerUnit)
    {
      meterPowerReading := Some(reading);
      var u := PowerUnitName(unitCode);
      if u.Some? {
        meterPowerUnit := u;
      }
    }

    /** Store a voltage reading in volts on the models that measure voltage, unless the driver raised (None). */
    method UpdateVoltageReading(reading: Option<real>)
      requires Valid() && isConnected
      modifies this`meterVoltageReading, this`meterVoltageUnit
      ensures selected.value.modelName in VoltageModels && reading.Some? ==>
                meterVoltageReading == reading && meterVoltageUnit == Some("V")
      ensures !(selected.value.modelName in VoltageModels && reading.Some?) ==>
                meterVoltageReading == old(meterVoltageReading) && meterVoltageUnit == old(meterVoltageUnit)
    {
      if selected.value.modelName in VoltageModels {
        if reading.Some? {
          meterVoltageReading := reading;
          meterVoltageUnit := Some("V");
        }
      }
    }

    /**
      Dark adjustment, only on a PM400: after starting it the adjustment
      state is polled until the device reports it finished. `states` are the
      device's successive replies; `polls` counts the replies read.
    */
    method DarkAdjust(states: seq<bool>) returns (started: bool, polls: nat)
      requires Valid() && isConnected
      requires selected.value.modelName == "PM400" ==> false in states
      ensures started <==> selected.value.modelName == "PM400"
      ensures !started ==> polls == 0
      ensures started ==> 0 < polls <= |states| && !states[polls - 1]
      ensures started ==> forall k :: 0 <= k < polls - 1 ==> states[k]
    {
      started, polls := false, 0;
      if selected.value.modelName in DarkAdjustModels {
        started := true;
        var state := states[0];
        polls := 1;
        while state
          invariant 0 < polls <= |states| && state == states[polls - 1]
          invariant forall k :: 0 <= k < polls - 1 ==> states[k]
          invariant false in states[polls - 1..]
          decreases |states| - polls
        {
          state := states[polls];
          polls := polls + 1;
        }
      }
    }

    /** The dark offset is read, in volts, only on a PM400. */
    method GetDarkOffset(voltage: real)
      requires Valid() && isConnected
      modifies this`darkOffsetVoltage, this`darkOffsetUnit
      ensures selected.value.modelName == "PM400" ==> darkOffsetVoltage == Some(voltage) && darkOffsetUnit == Some("V")
      ensures selected.value.modelName != "PM400" ==>
                darkOffsetVoltage == old(darkOffsetVoltage) && darkOffsetUnit == old(darkOffsetUnit)
    {
      if selected.value.modelName in DarkAdjustModels {
        darkOffsetVoltage := Some(voltage);
        darkOffsetUnit := Some("V");
      }
    }
  }

  /**
    The class-level state of the wrapper: the resource count and the four
    parallel lists every object without a selection reads through.
  */
  class DriverRegistry {
    var resourceCount: int
    var resourceName: seq<string>
    var modelName: seq<string>
    var serialNumber: seq<string>
    var manufacturer: seq<string>

    ghost predicate Valid()
      reads this
    {
      |modelName| == |resourceName| && |serialNumber| == |resourceName| && |manufacturer| == |resourceName|
    }

    /** Entry k of the four lists. */
    function Entry(k: nat): DeviceInfo
      reads this
      requires Valid() && k < |resourceName|
    {
      DeviceInfo(resourceName[k], modelName[k], serialNumber[k], manufacturer[k])
    }

    constructor ()
      ensures Valid() && resourceCount == 0 && resourceName == []
    {
      resourceCount := 0;
      resourceName, modelName, serialNumber, manufacturer := [], [], [], [];
    }

    /**
      A device scan: the driver reports `count` resources and, for each index
      below it, the entry `found[i]`. The lists are cleared and refilled in
      index order (left empty when the count is not positive), and a fresh
      unconnected object is returned.
    */
    method ListDevices(count: int, found: seq<DeviceInfo>) returns (listing: PM100D)
      requires count <= |found|
      modifies this
      ensures Valid() && resourceCount == count
      ensures |resourceName| == if count <= 0 then 0 else count
      ensures forall k :: 0 <= k < |resourceName| ==> Entry(k) == found[k]
      ensures fresh(listing) && listing.Valid() && listing.State() == InitialState
    {
      resourceCount := count;
      resourceName, modelName, serialNumber, manufacturer := [], [], [], [];
      if resourceCount > 0 {
        var i := 0;
        while i < resourceCount
          invariant 0 <= i <= resourceCount == count
          invariant Valid() && |resourceName| == i
          invariant forall k :: 0 <= k < i ==> Entry(k) == found[k]
        {
          resourceName := resourceName + [found[i].resourceName];
          modelName := modelName + [found[i].modelName];
          serialNumber := serialNumber + [found[i].serialNumber];
          manufacturer := manufacturer + [found[i].manufacturer];
          i := i + 1;
        }
      }
      listing := new PM100D();
    }
  }
}
