/** The Adapter pattern: a phone charges from a USB socket (milliamps, a 32-bit integer);
    an adapter turns an AC outlet's current (amps, a decimal) into a USB current, capped
    at a maximum. Amps are held here as whole thousandths of an amp. */
module Adapter {
  import opened Wrappers

  const Int32Min: int := -0x8000_0000
  const Int32Max: int := 0x7FFF_FFFF

  /** The cast out of range and the phone's refusal of too strong a current raise the same
      exception. */
  datatype AdapterError = Overflow

  /** A count of thousandths as a whole number of hundredths, dropping the fraction toward
      zero as a decimal-to-integer cast does. */
  function TruncateToHundredths(thousandths: int): (q: int)
    ensures thousandths >= 0 ==> 0 <= 10 * q <= thousandths < 10 * q + 10
    ensures thousandths < 0 ==> 10 * q - 10 < thousandths <= 10 * q <= 0
  {
    if thousandths >= 0 then thousandths / 10 else -((-thousandths) / 10)
  }

  /** The adapters' conversion: the amps multiplied by 100, cast to a 32-bit integer, which
      drops the fraction and fails outside the 32-bit range. */
  function ScaledToInt32(thousandths: int): (r: Result<int, AdapterError>)
    ensures r.Ok? <==> Int32Min <= TruncateToHundredths(thousandths) <= Int32Max
    ensures r.Ok? ==> r.value == TruncateToHundredths(thousandths)
  {
    var scaled := TruncateToHundredths(thousandths);
    if Int32Min <= scaled <= Int32Max then Ok(scaled) else Err(Overflow)
  }

  /** The adaptee: an outlet delivering a fixed current. */
  datatype AcOutlet = AcOutlet(thousandths: int)
  {
    /** The current the outlet delivers, in thousandths of an amp. */
    function GetPower(): (r: int)
      ensures r == thousandths
    {
      thousandths
    }
  }

  /** The two USB sockets: a proper adapter with a cap, and one without. */
  datatype UsbSocket = UsbAdapter(outlet: AcOutlet, maxMAmps: int) | BadUsbAdapter(outlet: AcOutlet)
  {
    /** The converted current; the proper adapter never gives more than its cap. */
    function GetPower(): (r: Result<int, AdapterError>)
      ensures r.Ok? <==> ScaledToInt32(outlet.GetPower()).Ok?
      ensures UsbAdapter? && r.Ok? ==> r.value <= maxMAmps
      ensures UsbAdapter? && r.Ok? ==> r.value == Min(maxMAmps, ScaledToInt32(outlet.GetPower()).value)
      ensures BadUsbAdapter? ==> r == ScaledToInt32(outlet.GetPower())
    {
      match ScaledToInt32(outlet.GetPower())
      case Err(e) => Err(e)
      case Ok(mAmps) => if UsbAdapter? then Ok(Min(maxMAmps, mAmps)) else Ok(mAmps)
    }
  }

  function Min(a: int, b: int): int { if a <= b then a else b }

  /** The client: it takes the socket's current unless that exceeds its own maximum. */
  class Phone {
    const maxMAmps: int
    var mAmps: int

    constructor (maxMAmps: int)
      ensures this.maxMAmps == maxMAmps && mAmps == 0 && !IsCharging()
    {
      this.maxMAmps := maxMAmps;
      mAmps := 0;
    }

    function IsCharging(): (r: bool)
      reads this
      ensures r <==> mAmps > 0
    {
      mAmps > 0
    }

    /** Connecting fails, leaving the phone as it was, when the socket fails or gives more
        than the phone's maximum; otherwise the phone draws the socket's current. */
    method ConnectTo(socket: UsbSocket) returns (r: Outcome<AdapterError>)
      modifies this
      ensures var p := socket.GetPower();
              && (r == Pass <==> p.Ok? && p.value <= maxMAmps)
              && (r == Pass ==> mAmps == p.value)
              && (r != Pass ==> r == Fail(Overflow) && mAmps == old(mAmps))
    {
      var power := socket.GetPower();
      if power.Err? {
        return Fail(Overflow);
      }
      if power.value > maxMAmps {
        return Fail(Overflow);
      }
      mAmps := power.value;
      r := Pass;
    }
  }

  /** A capped adapter is always safe for a phone that takes at least the cap, whatever
      the outlet delivers, as long as the cast succeeds. */
  lemma AdapterSafeForPhone(outlet: AcOutlet, cap: int, phoneMax: int)
    requires cap <= phoneMax
    requires ScaledToInt32(outlet.GetPower()).Ok?
    ensures UsbAdapter(outlet, cap).GetPower().Ok?
    ensures UsbAdapter(outlet, cap).GetPower().value <= phoneMax
  {
  }

  /** The conversion as written scales amps by 100 where milliamps need 1000: a one-amp
      outlet through the uncapped adapter reads as 100 milliamps. */
  lemma AsWrittenScalesByHundred()
    ensures BadUsbAdapter(AcOutlet(1000)).GetPower() == Ok(100)
  {
  }

  /** The conversion with the factor of a thousand milliamps per amp. */
  function ToMilliAmps(thousandths: int): (r: Result<int, AdapterError>)
    ensures r.Ok? <==> Int32Min <= thousandths <= Int32Max
    ensures r.Ok? ==> r.value == thousandths
  {
    if Int32Min <= thousandths <= Int32Max then Ok(thousandths) else Err(Overflow)
  }

  /** With the factor of a thousand the uncapped adapter reports the outlet's true current,
      and a phone limited to 200 milliamps refuses a one-amp outlet, which the conversion
      as written lets through. */
  lemma CorrectedScaleProtectsPhone(thousandths: int)
    requires 0 <= thousandths <= Int32Max
    ensures ToMilliAmps(thousandths) == Ok(thousandths)
    ensures ScaledToInt32(thousandths).Ok? && ScaledToInt32(thousandths).value * 10 <= thousandths
    ensures thousandths == 1000 ==> ToMilliAmps(thousandths).value > 200 && ScaledToInt32(thousandths).value <= 200
  {
  }

  /** The example scenario: a 15 A outlet through an adapter capped at 200 mA charges a phone
      that takes 200 mA; through the uncapped adapter it is refused. */
  method ChargingScenario()
  {
    var phone := new Phone(200);
    assert !phone.IsCharging();
    var outlet := AcOutlet(15000);
    var adapter := UsbAdapter(outlet, 200);
    var connected := phone.ConnectTo(adapter);
    assert connected == Pass && phone.IsCharging();
    var badAdapter := BadUsbAdapter(outlet);
    assert badAdapter.GetPower() == Ok(1500);
    connected := phone.ConnectTo(badAdapter);
    assert connected == Fail(Overflow);
  }
}
