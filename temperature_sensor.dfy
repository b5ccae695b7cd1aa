/** The simulated P3T1085UK temperature sensor: a pointer register selecting
    one of four 16-bit registers (temperature, configuration, low limit, high
    limit), and the bit and byte helpers the register file is built from.
    Temperatures are 12-bit two's complement values in the top bits of a
    16-bit word, in steps of 1/16 degree. */
module TemperatureSensor {
  import opened Common

  /** `getBit`: bit `pos` of a non-negative `num`, as 0 or 1. */
  function GetBit(num: nat, pos: nat): (r: nat)
    ensures r <= 1
  {
    if pos == 0 then num % 2 else GetBit(num / 2, pos - 1)
  }

  /** `getBit` is the source's mask-and-shift: bit `pos` is `num / 2^pos` mod 2. */
  lemma {:induction false} GetBitIsShiftedMask(num: nat, pos: nat)
    ensures GetBit(num, pos) == (num / Pow2(pos)) % 2
  {
    if pos > 0 {
      GetBitIsShiftedMask(num / 2, pos - 1);
      HalveThenDivide(num, Pow2(pos - 1));
    }
  }

  /** Halving and then dividing by `p` is dividing by `2 * p`. */
  lemma HalveThenDivide(num: nat, p: nat)
    requires p >= 1
    ensures num / 2 / p == num / (2 * p)
  {
    var q, r1, r0 := num / 2 / p, num / 2 % p, num % 2;
    assert num == q * (2 * p) + (2 * r1 + r0);
    DivideUnique(num, 2 * p, q, 2 * r1 + r0);
  }

  /** A quotient is fixed by any split with an in-range remainder. */
  lemma DivideUnique(num: nat, d: nat, q: nat, rest: nat)
    requires d >= 1 && rest < d && num == q * d + rest
    ensures num / d == q
  {
    var k := num / d;
    assert num == k * d + num % d;
    if k > q {
      assert (q + 1) * d == q * d + d;
      MultiplyMonotonic(q + 1, k, d);
    } else if k < q {
      assert (k + 1) * d == k * d + d;
      MultiplyMonotonic(k + 1, q, d);
    }
  }

  lemma MultiplyMonotonic(a: nat, b: nat, d: nat)
    requires a <= b
    ensures a * d <= b * d
  {
    assert b * d == a * d + (b - a) * d;
  }

  function BitValue(b: bool): nat {
    if b then 1 else 0
  }

  /** `setBit`: `num` with bit `pos` set (`bitValue`) or cleared (not `bitValue`). */
  function SetBit(num: nat, pos: nat, bitValue: bool): nat {
    if pos == 0 then num - num % 2 + BitValue(bitValue)
    else 2 * SetBit(num / 2, pos - 1, bitValue) + num % 2
  }

  /** Reading back the bit just written gives its value. */
  lemma {:induction false} GetBitOfSetBit(num: nat, pos: nat, bitValue: bool)
    ensures GetBit(SetBit(num, pos, bitValue), pos) == BitValue(bitValue)
  {
    if pos > 0 {
      GetBitOfSetBit(num / 2, pos - 1, bitValue);
      assert (2 * SetBit(num / 2, pos - 1, bitValue) + num % 2) / 2 == SetBit(num / 2, pos - 1, bitValue);
    }
  }

  /** Writing one bit leaves every other bit as it was. */
  lemma {:induction false} GetBitOfSetOtherBit(num: nat, pos: nat, other: nat, bitValue: bool)
    requires other != pos
    ensures GetBit(SetBit(num, pos, bitValue), other) == GetBit(num, other)
  {
    var r := SetBit(num, pos, bitValue);
    if pos == 0 {
      assert r / 2 == num / 2;
    } else if other == 0 {
    } else {
      assert r / 2 == SetBit(num / 2, pos - 1, bitValue);
      GetBitOfSetOtherBit(num / 2, pos - 1, other - 1, bitValue);
    }
  }

  /** `setBit` is the source's mask operation: it adds 2^pos when setting a
      clear bit, subtracts it when clearing a set bit, and otherwise changes nothing. */
  lemma {:induction false} SetBitIsMask(num: nat, pos: nat, bitValue: bool)
    ensures SetBit(num, pos, bitValue) == num + (BitValue(bitValue) - GetBit(num, pos)) * Pow2(pos)
  {
    if pos > 0 {
      var half := num / 2;
      SetBitIsMask(half, pos - 1, bitValue);
      ShiftedMask(num, SetBit(half, pos - 1, bitValue), BitValue(bitValue) - GetBit(half, pos - 1), Pow2(pos - 1));
    }
  }

  /** The arithmetic step of `SetBitIsMask`: shifting a masked half back up
      and restoring the low bit masks `num` at twice the weight. */
  lemma ShiftedMask(num: nat, upper: int, d: int, p: int)
    requires upper == num / 2 + d * p
    ensures 2 * upper + num % 2 == num + d * (2 * p)
  {
  }

  /** Writing a bit below `width` keeps a `width`-bit number within `width` bits. */
  lemma {:induction false} SetBitBounded(num: nat, pos: nat, width: nat, bitValue: bool)
    requires num < Pow2(width) && pos < width
    ensures SetBit(num, pos, bitValue) < Pow2(width)
  {
    var p := Pow2(width - 1);
    assert Pow2(width) == 2 * p;
    if pos > 0 {
      assert num / 2 < p;
      SetBitBounded(num / 2, pos - 1, width - 1, bitValue);
      assert SetBit(num, pos, bitValue) == 2 * SetBit(num / 2, pos - 1, bitValue) + num % 2;
    } else {
      assert num - num % 2 == 2 * (num / 2) && num / 2 < p;
    }
  }

  /** `intListToInt`: the big-endian value of the first two bytes. */
  function IntListToInt(num: seq<int>): (r: int)
    requires |num| >= 2
    ensures 0 <= num[0] < 256 && 0 <= num[1] < 256 ==> 0 <= r < 0x10000 && r / 256 == num[0] && r % 256 == num[1]
  {
    num[1] + num[0] * 256
  }

  /** `intToListInt`: a 16-bit value as two big-endian bytes; `intListToInt` undoes it. */
  function IntToListInt(num: nat): (r: seq<int>)
    ensures |r| == 2
    ensures num < 0x10000 ==> 0 <= r[0] < 256 && 0 <= r[1] < 256 && IntListToInt(r) == num
  {
    [num / 256, num % 256]
  }

  /** `binIntToTwosComplementInt`: the low `bitNum` bits of `num`, which is
      `num` itself when it already fits. */
  function BinIntToTwosComplementInt(num: int, bitNum: nat): (r: int)
    ensures 0 <= r < Pow2(bitNum)
    ensures 0 <= num < Pow2(bitNum) ==> r == num
  {
    SmallMod(num, Pow2(bitNum));
    num % Pow2(bitNum)
  }

  /** A number already in `[0, p)` is its own remainder. */
  lemma SmallMod(x: int, p: int)
    requires 0 < p
    ensures 0 <= x < p ==> x % p == x
  {
    if 0 <= x < p {
      assert x == 0 * p + x;
    }
  }

  /** For `0 <= x < 2 * p`, `x / p` is non-zero exactly when `x >= p`. */
  lemma HalfRange(x: int, p: int)
    requires 0 < p
    ensures 0 <= x < 2 * p ==> ((x / p != 0) == (x >= p))
  {
    if 0 <= x < 2 * p {
      var q := if x >= p then 1 else 0;
      assert x == q * p + (x - q * p) && 0 <= x - q * p < p;
    }
  }

  /** `twosComplementIntToBinInt`: the signed value of the low `bitNum` bits,
      taking as sign whatever `num` has above bit `bitNum - 1`. */
  function TwosComplementIntToBinInt(num: int, bitNum: nat): (r: int)
    requires bitNum >= 1
    ensures 0 <= num < Pow2(bitNum) ==>
              -(Pow2(bitNum - 1) as int) <= r < Pow2(bitNum - 1) && (r == num || r == num - Pow2(bitNum))
  {
    var result := BinIntToTwosComplementInt(num, bitNum);
    HalfRange(num, Pow2(bitNum - 1));
    if num / Pow2(bitNum - 1) != 0 then result - Pow2(bitNum) else result
  }

  /** A signed value survives the trip through its two's complement bits. */
  lemma TwosComplementRoundTrip(v: int, bitNum: nat)
    requires bitNum >= 1 && -(Pow2(bitNum - 1) as int) <= v < Pow2(bitNum - 1)
    ensures TwosComplementIntToBinInt(BinIntToTwosComplementInt(v, bitNum), bitNum) == v
  {
    var p := Pow2(bitNum);
    var h := Pow2(bitNum - 1);
    assert p == 2 * h;
    var u := BinIntToTwosComplementInt(v, bitNum);
    if v < 0 {
      NegativeMod(v, p);
    }
    assert u == if v < 0 then v + p else v;
    HalfRange(u, h);
  }

  /** A number in `[-p, 0)` has remainder `x + p`. */
  lemma NegativeMod(x: int, p: int)
    requires 0 < p && -p <= x < 0
    ensures x % p == x + p
  {
    assert x == -1 * p + (x + p) && 0 <= x + p < p;
  }

  /** The temperature a 16-bit register word holds, in 1/16 degree: the source's
      `twosComplementToFloat` at resolution 0.0625, times 16 (exact, since every
      value involved is a multiple of 1/16). */
  function Sixteenths(word: nat): int {
    16 * TwosComplementIntToBinInt(IntToListInt(word)[0], 8) + IntToListInt(word)[1] / 16
  }

  /** The register word that holds the temperature `t`, in 1/16 degree. */
  function TemperatureWord(t: int): nat {
    (t % 4096) * 16
  }

  /** Every representable temperature reads back from its register word. */
  lemma TemperatureWordRoundTrip(t: int)
    requires -2048 <= t < 2048
    ensures TemperatureWord(t) < 0x10000 && Sixteenths(TemperatureWord(t)) == t
  {
    var w := TemperatureWord(t);
    var u := t % 4096;
    assert w / 256 == u / 16 && w % 256 == (u % 16) * 16;
    assert Pow2(7) == 128 && Pow2(8) == 256;
    if t < 0 {
      assert t == -1 * 4096 + (t + 4096) && 0 <= t + 4096 < 4096;
      assert u == t + 4096;
    }
  }

  /** The configuration register after a temperature reading. */
  function ConfigAfterReading(config: nat, sample: nat, low: nat, high: nat): nat {
    var above := SetBit(config, 12, Sixteenths(sample) > Sixteenths(high));
    SetBit(above, 11, Sixteenths(sample) < Sixteenths(low))
  }

  /** After a reading, bit 12 of the configuration records "above the high
      limit", bit 11 "below the low limit", every other bit is kept, and a
      16-bit register stays 16-bit. */
  lemma ConfigAfterReadingEffect(config: nat, sample: nat, low: nat, high: nat)
    ensures var r := ConfigAfterReading(config, sample, low, high);
            GetBit(r, 12) == BitValue(Sixteenths(sample) > Sixteenths(high)) &&
            GetBit(r, 11) == BitValue(Sixteenths(sample) < Sixteenths(low)) &&
            (forall p :: p != 11 && p != 12 ==> GetBit(r, p) == GetBit(config, p)) &&
            (config < 0x10000 ==> r < 0x10000)
  {
    var isAbove := Sixteenths(sample) > Sixteenths(high);
    var isBelow := Sixteenths(sample) < Sixteenths(low);
    var above := SetBit(config, 12, isAbove);
    var r := SetBit(above, 11, isBelow);
    GetBitOfSetBit(config, 12, isAbove);
    GetBitOfSetOtherBit(above, 11, 12, isBelow);
    GetBitOfSetBit(above, 11, isBelow);
    forall p | p != 11 && p != 12
      ensures GetBit(r, p) == GetBit(config, p)
    {
      GetBitOfSetOtherBit(config, 12, p, isAbove);
      GetBitOfSetOtherBit(above, 11, p, isBelow);
    }
    if config < 0x10000 {
      assert Pow2(16) == 0x10000 by {
        assert Pow2(8) == 256;
        assert Pow2(16) == 256 * Pow2(8);
      }
      SetBitBounded(config, 12, 16, isAbove);
      SetBitBounded(above, 11, 16, isBelow);
    }
  }

  /** What `read(bytesToRead)` returns for a register word: its two bytes cut to
      `bytesToRead` when that is at most 2, otherwise padded with 0xFF. */
  function RegisterBytes(word: nat, bytesToRead: nat): (r: seq<int>)
    ensures |r| == bytesToRead
    ensures forall i :: 0 <= i < Min(bytesToRead, 2) ==> r[i] == IntToListInt(word)[i]
    ensures forall i :: 2 <= i < bytesToRead ==> r[i] == 255
  {
    var result := IntToListInt(word);
    if bytesToRead <= 2 then result[..bytesToRead] else result + seq(bytesToRead - 2, _ => 255)
  }

  /** The sensor's device information before it has a dynamic address. */
  function SensorInfo(staticAddress: int): TargetDeviceInfo {
    TargetDeviceInfo(staticAddress, None, 3, 99, [2, 23, 15, 29, 0, 90], 0)
  }

  /** The sensor's state: pointer, temperature, configuration and limit
      registers, dynamic address and device information. */
  datatype SensorState = SensorState(
    pointer: int, temperature: nat, config: nat, low: nat, high: nat,
    dynamicAddress: int, info: TargetDeviceInfo)

  /** Every register holds a 16-bit word. */
  predicate Registers16(s: SensorState) {
    s.config < 0x10000 && s.low < 0x10000 && s.high < 0x10000
  }

  /** `write(data)`: the first byte becomes the pointer; with pointer 1, 2 or 3
      and further bytes, the next two bytes are stored big-endian in that
      register. No byte at all, or a single byte after such a pointer, raises
      an index error (the second after the pointer has been set). */
  function SensorWrite(s: SensorState, data: seq<Byte>): (r: (SensorState, Option<string>))
    ensures Registers16(s) ==> Registers16(r.0)
    ensures |data| == 0 ==> r == (s, Some("IndexError"))
    ensures |data| >= 1 ==> r.0.pointer == data[0]
    ensures r.1.Some? <==> |data| == 0 || (|data| == 2 && 1 <= data[0] <= 3)
    ensures r.1.Some? ==> r.1 == Some("IndexError")
    ensures r.0.temperature == s.temperature && r.0.dynamicAddress == s.dynamicAddress && r.0.info == s.info
    ensures !(|data| >= 3 && 1 <= data[0] <= 3) ==> r.0.config == s.config && r.0.low == s.low && r.0.high == s.high
    ensures |data| >= 3 && data[0] == 1 ==>
              r.0.config == (data[1] as int) * 256 + data[2] && r.0.low == s.low && r.0.high == s.high
    ensures |data| >= 3 && data[0] == 2 ==>
              r.0.low == (data[1] as int) * 256 + data[2] && r.0.config == s.config && r.0.high == s.high
    ensures |data| >= 3 && data[0] == 3 ==>
              r.0.high == (data[1] as int) * 256 + data[2] && r.0.config == s.config && r.0.low == s.low
  {
    if |data| == 0 then (s, Some("IndexError"))
    else
      var p := s.(pointer := data[0]);
      if |data| > 1 && 1 <= data[0] <= 3 then
        if |data| == 2 then (p, Some("IndexError"))
        else
          var value := IntListToInt(data[1..]);
          if data[0] == 1 then (p.(config := value), None)
          else if data[0] == 2 then (p.(low := value), None)
          else (p.(high := value), None)
      else (p, None)
  }

  /** `read(bytesToRead)`: the selected register's bytes (cut or padded to
      `bytesToRead`); pointer 0 takes a fresh temperature `sample` and updates
      the configuration's limit flags; any other pointer above 3 leaves the
      result unbound, which the source raises. */
  function SensorRead(s: SensorState, bytesToRead: nat, sample: nat): (r: (SensorState, Result<seq<int>>))
    ensures Registers16(s) ==> Registers16(r.0)
    ensures r.1.Success? <==> 0 <= s.pointer <= 3
    ensures r.1.Failure? ==> r == (s, Failure("UnboundLocalError"))
    ensures r.1.Success? ==> |r.1.value| == bytesToRead
    ensures s.pointer == 0 ==>
              r.0 == s.(config := ConfigAfterReading(s.config, sample, s.low, s.high)) &&
              r.1.value == RegisterBytes(sample, bytesToRead)
    ensures 1 <= s.pointer <= 3 ==> r.0 == s
    ensures s.pointer == 1 ==> r.1.value == RegisterBytes(s.config, bytesToRead)
    ensures s.pointer == 2 ==> r.1.value == RegisterBytes(s.low, bytesToRead)
    ensures s.pointer == 3 ==> r.1.value == RegisterBytes(s.high, bytesToRead)
  {
    ConfigAfterReadingEffect(s.config, sample, s.low, s.high);
    if s.pointer == 0 then
      (s.(config := ConfigAfterReading(s.config, sample, s.low, s.high)), Success(RegisterBytes(sample, bytesToRead)))
    else if s.pointer == 1 then (s, Success(RegisterBytes(s.config, bytesToRead)))
    else if s.pointer == 2 then (s, Success(RegisterBytes(s.low, bytesToRead)))
    else if s.pointer == 3 then (s, Success(RegisterBytes(s.high, bytesToRead)))
    else (s, Failure("UnboundLocalError"))
  }

  /** Writing a limit register and reading it back at the same pointer returns
      the two bytes written. */
  lemma WriteThenReadRegister(s: SensorState, register: Byte, hi: Byte, lo: Byte, sample: nat)
    requires 1 <= register <= 3
    ensures var w := SensorWrite(s, [register, hi, lo]);
            w.1 == None && SensorRead(w.0, 2, sample).1 == Success([hi, lo])
  {
    var data: seq<Byte> := [register, hi, lo];
    var w := SensorWrite(s, data);
    assert data[1..] == [hi, lo];
    var word := IntListToInt([hi, lo]);
    assert word == (hi as int) * 256 + lo;
    var bytes := IntToListInt(word);
    assert bytes[0] == hi && bytes[1] == lo;
    assert RegisterBytes(word, 2) == bytes[..2] == [hi, lo];
  }

  /** `SimulatedP3T1085UK`: the register fields are updated in place. The random
      temperature generator is replaced by the `sample` word passed to each
      temperature reading. */
  class SimulatedP3T1085UK {
    const staticAddress: int
    var dynamicAddress: int
    var pointerRegister: int
    var sensedTemperature: nat
    var lowTemperatureLimit: nat
    var highTemperatureLimit: nat
    var configurationRegister: nat
    var deviceInfo: TargetDeviceInfo

    function Snapshot(): SensorState
      reads this
    {
      SensorState(pointerRegister, sensedTemperature, configurationRegister, lowTemperatureLimit,
                  highTemperatureLimit, dynamicAddress, deviceInfo)
    }

    ghost predicate Valid()
      reads this
    {
      Registers16(Snapshot())
    }

    /** The power-on state: pointer 0, temperature 0, low limit 0xB500, high
        limit 0x7FF0, configuration 0x2210. */
    constructor (staticAddress: int)
      ensures Valid() && this.staticAddress == staticAddress
      ensures Snapshot() == SensorState(0, 0, 0x2210, 0xB500, 0x7FF0, staticAddress, SensorInfo(staticAddress))
    {
      this.staticAddress := staticAddress;
      dynamicAddress := staticAddress;
      pointerRegister := 0;
      sensedTemperature := 0;
      lowTemperatureLimit := 0xB500;
      highTemperatureLimit := 0x7FF0;
      configurationRegister := 0x2210;
      deviceInfo := SensorInfo(staticAddress);
    }

    function GetDeviceInfo(): TargetDeviceInfo
      reads this
    {
      deviceInfo
    }

    /** `readTemperature`: takes the next temperature word and records in the
        configuration register whether it is out of the limits. */
    method ReadTemperature(sample: nat) returns (temperature: nat)
      requires Valid()
      modifies this`configurationRegister
      ensures Valid() && temperature == sample
      ensures configurationRegister ==
              ConfigAfterReading(old(configurationRegister), sample, lowTemperatureLimit, highTemperatureLimit)
    {
      var high := Sixteenths(highTemperatureLimit);
      var low := Sixteenths(lowTemperatureLimit);
      var t := Sixteenths(sample);
      configurationRegister := SetBit(configurationRegister, 12, t > high);
      configurationRegister := SetBit(configurationRegister, 11, t < low);
      temperature := sample;
      ConfigAfterReadingEffect(old(configurationRegister), sample, lowTemperatureLimit, highTemperatureLimit);
    }

    method Read(bytesToRead: nat, sample: nat) returns (result: Result<seq<int>>)
      requires Valid()
      modifies this`configurationRegister
      ensures Valid()
      ensures (Snapshot(), result) == SensorRead(old(Snapshot()), bytesToRead, sample)
    {
      var word: nat;
      if pointerRegister == 0 {
        word := ReadTemperature(sample);
      } else if pointerRegister == 1 {
        word := configurationRegister;
      } else if pointerRegister == 2 {
        word := lowTemperatureLimit;
      } else if pointerRegister == 3 {
        word := highTemperatureLimit;
      } else {
        return Failure("UnboundLocalError");
      }
      var bytes := IntToListInt(word);
      if bytesToRead <= 2 {
        result := Success(bytes[..bytesToRead]);
      } else {
        result := Success(bytes + seq(bytesToRead - 2, _ => 255));
      }
    }

    method Write(data: seq<Byte>) returns (raised: Option<string>)
      requires Valid()
      modifies this`pointerRegister, this`configurationRegister, this`lowTemperatureLimit,
               this`highTemperatureLimit
      ensures Valid()
      ensures (Snapshot(), raised) == SensorWrite(old(Snapshot()), data)
    {
      if |data| == 0 {
        return Some("IndexError");
      }
      pointerRegister := data[0];
      raised := None;
      if |data| > 1 && 1 <= pointerRegister <= 3 {
        if |data| == 2 {
          return Some("IndexError");
        }
        var value := IntListToInt(data[1..]);
        if pointerRegister == 1 {
          configurationRegister := value;
        } else if pointerRegister == 2 {
          lowTemperatureLimit := value;
        } else {
          highTemperatureLimit := value;
        }
      }
    }

    /** `setDynamicAddress`: records the address in the field and in the device information. */
    method SetDynamicAddress(dynamicAddress: int)
      modifies this`dynamicAddress, this`deviceInfo
      ensures Snapshot() == old(Snapshot()).(dynamicAddress := dynamicAddress,
                                             info := old(deviceInfo).(dynamicAddress := Some(dynamicAddress)))
    {
      this.dynamicAddress := dynamicAddress;
      deviceInfo := deviceInfo.(dynamicAddress := Some(dynamicAddress));
    }
  }
}
