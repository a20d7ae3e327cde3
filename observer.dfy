/** The Observer pattern: a temperature sensor notifies its subscribed listeners (a
    heater and an air conditioner) each time its temperature is set. Temperatures are
    whole numbers here; every comparison in the pattern is strict, so the scale does not
    matter. */
module Observer {

  /** The position of the first occurrence of `x`. */
  function IndexOf<T(==)>(s: seq<T>, x: T): (k: nat)
    requires x in s
    ensures k < |s| && s[k] == x
    ensures forall j :: 0 <= j < k ==> s[j] != x
  {
    if s[0] == x then 0 else 1 + IndexOf(s[1..], x)
  }

  /** A list's Remove: drops the first occurrence of `x`, if any, keeping the order of the rest. */
  function RemoveFirst<T(==)>(s: seq<T>, x: T): (r: seq<T>)
    ensures x !in s ==> r == s
    ensures x in s ==> |r| == |s| - 1 && multiset(r) == multiset(s) - multiset{x}
    ensures x in s ==> var k := IndexOf(s, x); r[..k] == s[..k] && r[k..] == s[k + 1..]
  {
    if x in s then
      var k := IndexOf(s, x);
      assert s == s[..k] + [x] + s[k + 1..];
      s[..k] + s[k + 1..]
    else s
  }

  /** A subscriber: one of the two concrete listeners. */
  datatype SensorListener = HeaterListener(heater: Heater) | CoolerListener(cooler: AirConditioner)
  {
    function Target(): object
    {
      match this
      case HeaterListener(h) => h
      case CoolerListener(c) => c
    }

    /** The listener's status agrees with the temperature of the sensor it watches. */
    ghost predicate UpToDate()
      reads Target(), match this case HeaterListener(h) => h.sensor case CoolerListener(c) => c.sensor
    {
      match this
      case HeaterListener(h) => h.isHeating == (h.sensor.temperature < h.maxHeatingTemperature)
      case CoolerListener(c) => c.isCooling == (c.sensor.temperature > c.minCoolingTemperature)
    }
  }

  /** The objects a list of listeners may update. */
  function Targets(listeners: seq<SensorListener>): set<object>
  {
    set i | 0 <= i < |listeners| :: listeners[i].Target()
  }

  /** The subject: a temperature and the subscribed listeners, in subscription order. */
  class TemperatureSensor {
    var temperature: int
    var listeners: seq<SensorListener>

    constructor ()
      ensures temperature == 0 && listeners == []
    {
      temperature := 0;
      listeners := [];
    }

    method AddListener(listener: SensorListener)
      modifies this
      ensures listeners == old(listeners) + [listener] && temperature == old(temperature)
    {
      listeners := listeners + [listener];
    }

    /** Unsubscribes the first occurrence of the listener; a listener not subscribed is ignored. */
    method RemoveListener(listener: SensorListener)
      modifies this
      ensures listeners == RemoveFirst(old(listeners), listener) && temperature == old(temperature)
    {
      listeners := RemoveFirst(listeners, listener);
    }

    /** Updates every subscribed listener, in order; nothing else changes. */
    method NotifyListeners()
      modifies Targets(listeners)
      ensures forall j :: 0 <= j < |listeners| ==> listeners[j].UpToDate()
    {
      for i := 0 to |listeners|
        invariant forall j :: 0 <= j < i ==> listeners[j].UpToDate()
      {
        assert listeners[i].Target() in Targets(listeners);
        match listeners[i]
        case HeaterListener(h) => h.Update();
        case CoolerListener(c) => c.Update();
      }
    }

    /** Setting the temperature notifies the listeners. */
    method SetTemperature(value: int)
      modifies this, Targets(listeners)
      ensures temperature == value && listeners == old(listeners)
      ensures forall j :: 0 <= j < |listeners| ==> listeners[j].UpToDate()
    {
      temperature := value;
      NotifyListeners();
    }
  }

  /** Heats while the watched temperature is below its threshold. */
  class Heater {
    const sensor: TemperatureSensor
    const maxHeatingTemperature: int
    var isHeating: bool

    /** Subscribes itself to the sensor; it is not heating until first notified. */
    constructor (sensor: TemperatureSensor, maxHeatingTemperature: int)
      modifies sensor
      ensures this.sensor == sensor && this.maxHeatingTemperature == maxHeatingTemperature && !isHeating
      ensures sensor.listeners == old(sensor.listeners) + [HeaterListener(this)]
      ensures sensor.temperature == old(sensor.temperature)
    {
      this.maxHeatingTemperature := maxHeatingTemperature;
      this.sensor := sensor;
      isHeating := false;
      new;
      sensor.AddListener(HeaterListener(this));
    }

    method Update()
      modifies this
      ensures isHeating <==> sensor.temperature < maxHeatingTemperature
    {
      isHeating := sensor.temperature < maxHeatingTemperature;
    }
  }

  /** Cools while the watched temperature is above its threshold. */
  class AirConditioner {
    const sensor: TemperatureSensor
    const minCoolingTemperature: int
    var isCooling: bool

    /** Subscribes itself to the sensor; it is not cooling until first notified. */
    constructor (sensor: TemperatureSensor, minCoolingTemperature: int)
      modifies sensor
      ensures this.sensor == sensor && this.minCoolingTemperature == minCoolingTemperature && !isCooling
      ensures sensor.listeners == old(sensor.listeners) + [CoolerListener(this)]
      ensures sensor.temperature == old(sensor.temperature)
    {
      this.minCoolingTemperature := minCoolingTemperature;
      this.sensor := sensor;
      isCooling := false;
      new;
      sensor.AddListener(CoolerListener(this));
    }

    method Update()
      modifies this
      ensures isCooling <==> sensor.temperature > minCoolingTemperature
    {
      isCooling := sensor.temperature > minCoolingTemperature;
    }
  }

  /** The example scenario: both appliances follow the sensor until the heater unsubscribes,
      after which it keeps its last status. */
  method ThermostatScenario()
  {
    var sensor := new TemperatureSensor();
    var heater := new Heater(sensor, 18);
    var airConditioner := new AirConditioner(sensor, 21);
    assert sensor.listeners == [HeaterListener(heater), CoolerListener(airConditioner)];

    sensor.SetTemperature(17);
    assert sensor.listeners[0].UpToDate() && sensor.listeners[1].UpToDate();
    assert heater.isHeating && !airConditioner.isCooling;

    sensor.SetTemperature(20);
    assert sensor.listeners[0].UpToDate() && sensor.listeners[1].UpToDate();
    assert !heater.isHeating && !airConditioner.isCooling;

    sensor.SetTemperature(22);
    assert sensor.listeners[0].UpToDate() && sensor.listeners[1].UpToDate();
    assert !heater.isHeating && airConditioner.isCooling;

    sensor.RemoveListener(HeaterListener(heater));
    assert sensor.listeners == [CoolerListener(airConditioner)];
    assert heater !in Targets(sensor.listeners);
    sensor.SetTemperature(17);
    assert sensor.listeners[0].UpToDate();
    assert !heater.isHeating && !airConditioner.isCooling;
  }
}
