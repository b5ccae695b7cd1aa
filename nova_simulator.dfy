/** The simulated Binho Nova adapter: a table of the five IO pins in use, pin
    objects whose digital value follows their number, four I2C memories, an
    SPI transfer that echoes the write buffer, and a 1-Wire bus with one
    200-byte device. */
module NovaSimulator {
  import opened Common
  import opened SimulatedMemory
  import opened I2cTargetMemories

  // ---------------------------------------------------------------- GPIO pin table

  /** The pin number `int(c)` gives for a one-character string. */
  function DigitValue(c: char): (r: Option<nat>)
    ensures r.Some? <==> '0' <= c <= '9'
    ensures r.Some? ==> r.value < 10 && c == ['0', '1', '2', '3', '4', '5', '6', '7', '8', '9'][r.value]
  {
    if '0' <= c <= '9' then Some(c as int - '0' as int) else None
  }

  /** `gpio.markPinAsUnused(pinString)` on the five-entry table: a string that
      does not start with "IO" changes nothing; otherwise the third character
      is the pin number, and a missing character or a pin past the table is an
      index error, a non-digit a value error. */
  function MarkUnused(pins: seq<bool>, pinString: string): (r: (seq<bool>, Option<string>))
    requires |pins| == 5
    ensures |r.0| == 5
    ensures !StartsWith(pinString, "IO") ==> r == (pins, None)
    ensures r.1.None? ==> forall i :: 0 <= i < 5 && (|pinString| < 3 || DigitValue(pinString[2]) != Some(i)) ==> r.0[i] == pins[i]
    ensures r.1.Some? ==> r.0 == pins && r.1.value in {"IndexError", "ValueError"}
    ensures StartsWith(pinString, "IO") && |pinString| >= 3 && DigitValue(pinString[2]).Some? ==>
              var n := DigitValue(pinString[2]).value;
              if n < 5 then r.1 == None && !r.0[n] else r == (pins, Some("IndexError"))
  {
    if !StartsWith(pinString, "IO") then (pins, None)
    else if |pinString| < 3 then (pins, Some("IndexError"))
    else match DigitValue(pinString[2])
      case None => (pins, Some("ValueError"))
      case Some(n) => if n < 5 then (pins[n := false], None) else (pins, Some("IndexError"))
  }

  /** Pin i's own name, "IO0" to "IO4", clears exactly entry i. */
  lemma MarkOwnNameClears(pins: seq<bool>, i: nat)
    requires |pins| == 5 && i < 5
    ensures var r := MarkUnused(pins, "IO" + [['0', '1', '2', '3', '4'][i]]);
            r.1 == None && !r.0[i] && forall j :: 0 <= j < 5 && j != i ==> r.0[j] == pins[j]
  {
    var name := "IO" + [['0', '1', '2', '3', '4'][i]];
    assert name[..2] == "IO" && name[2] == ['0', '1', '2', '3', '4'][i];
    assert DigitValue(name[2]) == Some(i);
  }

  /** The nested `gpio` object: which of the five IO pins are in use. */
  class Gpio {
    const pinsInUse: array<bool>

    constructor ()
      ensures fresh(pinsInUse) && pinsInUse[..] == [false, false, false, false, false]
    {
      pinsInUse := new bool[5](_ => false);
      new;
      assert pinsInUse[..] == [false, false, false, false, false];
    }

    method MarkPinAsUnused(pinString: string) returns (raised: Option<string>)
      requires pinsInUse.Length == 5
      modifies pinsInUse
      ensures (pinsInUse[..], raised) == MarkUnused(old(pinsInUse[..]), pinString)
    {
      raised := None;
      if |pinString| >= 2 && pinString[..2] == "IO" {
        if |pinString| < 3 {
          raised := Some("IndexError");
        } else {
          var digit := DigitValue(pinString[2]);
          if digit.None? {
            raised := Some("ValueError");
          } else if digit.value >= 5 {
            raised := Some("IndexError");
          } else {
            pinsInUse[digit.value] := false;
          }
        }
      }
    }
  }

  // ---------------------------------------------------------------- GPIO pins

  /** What a pin's `value` can hold: the initial string "0", a digital level,
      or the 3.3 an odd analog pin reports. */
  datatype PinValue = Str(s: string) | Level(n: int) | Analog3V3

  /** The `value` property: in "DIN" mode a pin reads its number mod 2, in
      "AIN" mode 3.3 for odd pins and 0 for even ones, and in any other mode
      whatever was stored last. */
  function PinRead(mode: string, pin: int, stored: PinValue): (r: PinValue)
    ensures mode == "DIN" ==> r == Level(pin % 2) && (r.n == 0 || r.n == 1)
    ensures mode == "AIN" ==> r == if pin % 2 == 1 then Analog3V3 else Level(0)
    ensures mode != "DIN" && mode != "AIN" ==> r == stored
  {
    if mode == "DIN" then Level(pin % 2)
    else if mode == "AIN" then (if pin % 2 == 1 then Analog3V3 else Level(0))
    else stored
  }

  /** `gpio.gpioPin`: the mode and the stored value are fields. */
  class GpioPin {
    var mode: string
    var storedValue: PinValue
    var pwmFreq: int
    const pin: int

    constructor (pinID: int)
      ensures mode == "" && storedValue == Str("0") && pwmFreq == 0 && pin == pinID
    {
      mode := "";
      storedValue := Str("0");
      pwmFreq := 0;
      pin := pinID;
    }

    /** The getter, which stores what it reports. */
    method Value() returns (v: PinValue)
      modifies this`storedValue
      ensures v == storedValue == PinRead(mode, pin, old(storedValue))
    {
      if mode == "DIN" {
        storedValue := Level(if pin % 2 != 0 then 1 else 0);
      }
      if mode == "AIN" {
        storedValue := if pin % 2 != 0 then Analog3V3 else Level(0);
      }
      v := storedValue;
    }

    /** The setter ignores the new value. */
    method SetValue(newValue: PinValue)
      ensures storedValue == old(storedValue) && mode == old(mode)
    {
    }
  }

  // ---------------------------------------------------------------- I2C

  /** The addresses `scan` reports, each with a memory behind it. */
  const AvailableAddresses: seq<int> := [80, 81, 82, 83]

  /** The four I2C memories' states, by address. */
  datatype Memories = Memories(at80: MemState, at81: MemState, at82: MemState, at83: MemState) {
    function At(a: int): MemState
      requires a in AvailableAddresses
    {
      if a == 80 then at80 else if a == 81 then at81 else if a == 82 then at82 else at83
    }

    function With(a: int, v: MemState): (r: Memories)
      requires a in AvailableAddresses
      ensures r.At(a) == v
      ensures forall b :: b in AvailableAddresses && b != a ==> r.At(b) == At(b)
    {
      if a == 80 then this.(at80 := v) else if a == 81 then this.(at81 := v)
      else if a == 82 then this.(at82 := v) else this.(at83 := v)
    }
  }

  /** Every memory has its 65536 cells; a transfer may latch a subaddress
      past the end, so nothing more is kept. */
  ghost predicate GoodMemories(m: Memories) {
    Sized(2, m.at80) && Sized(2, m.at81) && Sized(2, m.at82) && Sized(2, m.at83)
  }

  /** `i2c.write(address, buffer)`: an unforced write to the addressed memory,
      whose loops may raise an index error after storing part of the data;
      an address with no memory is a key error. */
  ghost function I2cWriteStep(m: Memories, address: int, writeBuffer: seq<Byte>): (r: (Memories, Option<string>))
    requires GoodMemories(m)
    ensures GoodMemories(r.0)
    ensures address !in AvailableAddresses <==> r == (m, Some("KeyError"))
    ensures address in AvailableAddresses ==>
              r.0 == m.With(address, AfterWrite(2, m.At(address), writeBuffer, false)) &&
              (r.1.Some? <==> WriteRaises(2, m.At(address), writeBuffer, false))
  {
    if address !in AvailableAddresses then (m, Some("KeyError"))
    else
      var t := m.At(address);
      (m.With(address, AfterWrite(2, t, writeBuffer, false)),
       if WriteRaises(2, t, writeBuffer, false) then Some("IndexError") else None)
  }

  /** `i2c.transfer(address, subaddress, count)`: the subaddress is latched by
      a forced write, then `count` bytes are read from it. */
  ghost function I2cTransferStep(m: Memories, address: int, subaddress: seq<Byte>, count: nat)
    : (r: (Memories, Result<seq<Byte>>))
    requires GoodMemories(m)
    ensures GoodMemories(r.0)
    ensures address !in AvailableAddresses <==> r == (m, Failure("KeyError"))
    ensures address in AvailableAddresses ==>
              r.0 == m.With(address, m.At(address).(subaddress := SubaddressToInt(subaddress), latched := false)) &&
              r.1 == Success(WrappedRead(m.At(address).cells, SubaddressToInt(subaddress), count))
  {
    if address !in AvailableAddresses then (m, Failure("KeyError"))
    else
      var latched := AfterWrite(2, m.At(address), subaddress, true);
      (m.With(address, latched.(latched := false)), Success(ReadResult(latched, count)))
  }

  /** `i2c.read(address, count)`: `count` bytes from the addressed memory,
      which releases its latch; an address with no memory is a key error. */
  ghost function I2cReadStep(m: Memories, address: int, count: nat): (r: (Memories, Result<seq<Byte>>))
    requires GoodMemories(m)
    ensures GoodMemories(r.0)
    ensures address !in AvailableAddresses <==> r == (m, Failure("KeyError"))
    ensures address in AvailableAddresses ==>
              r.0 == m.With(address, m.At(address).(latched := false)) &&
              r.1 == Success(ReadResult(m.At(address), count))
  {
    if address !in AvailableAddresses then (m, Failure("KeyError"))
    else (m.With(address, m.At(address).(latched := false)), Success(ReadResult(m.At(address), count)))
  }

  /** A transfer from a two-byte subaddress returns the cells from there on,
      wrapping at the end of the memory; no memory cell changes. */
  lemma TransferReadsAtSubaddress(m: Memories, address: int, subaddress: seq<Byte>, count: nat)
    requires GoodMemories(m) && address in AvailableAddresses && |subaddress| == 2 && count <= 65536
    ensures SubaddressToInt(subaddress) < 65536
    ensures var r := I2cTransferStep(m, address, subaddress, count);
            r.0.At(address).cells == m.At(address).cells &&
            r.1.Success? && |r.1.value| == count &&
            forall i :: 0 <= i < count ==> r.1.value[i] == m.At(address).cells[(SubaddressToInt(subaddress) + i) % 65536]
  {
    assert Pow256(2) == 65536;
    WrappedReadEffect(m.At(address).cells, SubaddressToInt(subaddress), count);
  }

  /** The nested `i2c` object: four I2C memories at 80, 81, 82 and 83. */
  class I2c {
    const mem80: I2cTargetMemory
    const mem81: I2cTargetMemory
    const mem82: I2cTargetMemory
    const mem83: I2cTargetMemory

    ghost function Objects(): set<object> {
      {mem80, mem81, mem82, mem83, mem80.memModule, mem81.memModule, mem82.memModule, mem83.memModule,
       mem80.memModule.memory, mem81.memModule.memory, mem82.memModule.memory, mem83.memModule.memory}
    }

    /** `mems[str(a)]`. */
    function MemAt(a: int): (t: I2cTargetMemory)
      requires a in AvailableAddresses
      ensures t == (if a == 80 then mem80 else if a == 81 then mem81 else if a == 82 then mem82 else mem83)
    {
      if a == 80 then mem80 else if a == 81 then mem81 else if a == 82 then mem82 else mem83
    }

    ghost function Snapshot(): Memories
      reads Objects()
    {
      Memories(mem80.memModule.State(), mem81.memModule.State(), mem82.memModule.State(), mem83.memModule.State())
    }

    /** Every memory is valid, and no two share a module or a cell array. */
    ghost predicate Valid()
      reads Objects()
    {
      mem80.Valid() && mem81.Valid() && mem82.Valid() && mem83.Valid() &&
      Apart(mem80.memModule, mem81.memModule) && Apart(mem80.memModule, mem82.memModule) &&
      Apart(mem80.memModule, mem83.memModule) && Apart(mem81.memModule, mem82.memModule) &&
      Apart(mem81.memModule, mem83.memModule) && Apart(mem82.memModule, mem83.memModule) &&
      GoodMemories(Snapshot())
    }

    constructor ()
      ensures Valid()
      ensures Snapshot() == Memories(Zeroed(), Zeroed(), Zeroed(), Zeroed())
    {
      mem80 := new I2cTargetMemory(80);
      mem81 := new I2cTargetMemory(81);
      mem82 := new I2cTargetMemory(82);
      mem83 := new I2cTargetMemory(83);
      new;
      assert Pow256(2) == 65536;
    }

    method Scan() returns (addresses: seq<int>)
      ensures addresses == AvailableAddresses
    {
      addresses := [80, 81, 82, 83];
    }

    method Write(address: int, writeBuffer: seq<Byte>) returns (raised: Option<string>)
      requires Valid()
      modifies Objects()
      ensures Valid()
      ensures (Snapshot(), raised) == I2cWriteStep(old(Snapshot()), address, writeBuffer)
    {
      if address !in AvailableAddresses {
        return Some("KeyError");
      }
      var t := MemAt(address);
      ghost var after := AfterWrite(2, t.memModule.State(), writeBuffer, false);
      var indexError := t.Write(writeBuffer, false);
      assert Snapshot() == old(Snapshot()).With(address, after);
      raised := if indexError then Some("IndexError") else None;
    }

    method Read(address: int, bytesToRead: nat) returns (result: Result<seq<Byte>>)
      requires Valid()
      modifies Objects()
      ensures Valid()
      ensures (Snapshot(), result) == I2cReadStep(old(Snapshot()), address, bytesToRead)
    {
      if address !in AvailableAddresses {
        return Failure("KeyError");
      }
      var t := MemAt(address);
      ghost var before := t.memModule.State();
      var data := t.Read(bytesToRead);
      assert Snapshot() == old(Snapshot()).With(address, before.(latched := false));
      result := Success(data);
    }

    method Transfer(address: int, subaddress: seq<Byte>, bytesToRead: nat) returns (result: Result<seq<Byte>>)
      requires Valid()
      modifies Objects()
      ensures Valid()
      ensures (Snapshot(), result) == I2cTransferStep(old(Snapshot()), address, subaddress, bytesToRead)
    {
      if address !in AvailableAddresses {
        return Failure("KeyError");
      }
      var t := MemAt(address);
      var _ := t.Write(subaddress, true);
      ghost var latched := t.memModule.State();
      var data := t.Read(bytesToRead);
      assert Snapshot() == old(Snapshot()).With(address, latched.(latched := false));
      result := Success(data);
    }
  }

  /** The state of a new 65536-cell memory. */
  function Zeroed(): MemState {
    MemState(seq(65536, _ => 0), 0, false)
  }

  // ---------------------------------------------------------------- SPI

  /** `spi.transfer`: exactly `bytesToRead` bytes, the write buffer's own
      bytes first and zeros after them. */
  function SpiEcho(writeBuffer: seq<Byte>, bytesToRead: nat): (r: seq<Byte>)
    ensures |r| == bytesToRead
    ensures forall i :: 0 <= i < bytesToRead ==> r[i] == if i < |writeBuffer| then writeBuffer[i] else 0
  {
    if bytesToRead > |writeBuffer| then writeBuffer + seq(bytesToRead - |writeBuffer|, _ => 0)
    else writeBuffer[..bytesToRead]
  }

  /** The nested `spi` object; its settings are never read by `transfer`. */
  class Spi {
    const mode: int
    const frequency: int
    const bitOrder: string
    const bitsPerTransfer: int

    constructor ()
      ensures mode == 0 && frequency == 2000000 && bitOrder == "MSBFIRST" && bitsPerTransfer == 8
    {
      mode := 0;
      frequency := 2000000;
      bitOrder := "MSBFIRST";
      bitsPerTransfer := 8;
    }

    method Transfer(writeBuffer: seq<Byte>, bytesToRead: nat) returns (result: seq<Byte>)
      ensures result == SpiEcho(writeBuffer, bytesToRead)
    {
      if bytesToRead > |writeBuffer| {
        result := seq(bytesToRead, _ => 0);
        var i := 0;
        while i < |writeBuffer|
          invariant 0 <= i <= |writeBuffer| && |result| == bytesToRead
          invariant forall j :: 0 <= j < bytesToRead ==> result[j] == if j < i then writeBuffer[j] else 0
        {
          result := result[i := writeBuffer[i]];
          i := i + 1;
        }
      } else {
        result := writeBuffer[..bytesToRead];
      }
    }
  }

  // ---------------------------------------------------------------- 1-Wire

  /** `oneWireDevice.write`: cell i takes byte i of the buffer; a buffer longer
      than the memory fills every cell and then raises an index error. */
  function OneWireWrite(memory: seq<int>, writeBuffer: seq<int>): (r: (seq<int>, Option<string>))
    ensures |r.0| == |memory|
    ensures r.1 == None <==> |writeBuffer| <= |memory|
    ensures r.1 == None || r.1 == Some("IndexError")
    ensures forall i :: 0 <= i < |memory| ==> r.0[i] == if i < |writeBuffer| then writeBuffer[i] else memory[i]
  {
    if |writeBuffer| <= |memory| then (writeBuffer + memory[|writeBuffer|..], None)
    else (writeBuffer[..|memory|], Some("IndexError"))
  }

  /** `oneWireDevice.read`: the first `bytesToRead` cells, or `[0]` when more
      are asked for than there are. */
  function OneWireRead(memory: seq<int>, bytesToRead: nat): (r: seq<int>)
    ensures bytesToRead <= |memory| ==> r == memory[..bytesToRead]
    ensures bytesToRead > |memory| ==> r == [0]
  {
    if bytesToRead > |memory| then [0] else memory[..bytesToRead]
  }

  /** Reading back as many bytes as were written returns them. */
  lemma {:induction false} OneWireWriteThenRead(memory: seq<int>, writeBuffer: seq<int>)
    requires |writeBuffer| <= |memory|
    ensures OneWireRead(OneWireWrite(memory, writeBuffer).0, |writeBuffer|) == writeBuffer
  {
    var w := OneWireWrite(memory, writeBuffer).0;
    assert forall i :: 0 <= i < |writeBuffer| ==> w[i] == writeBuffer[i];
  }

  /** `oneWire.oneWireDevice`: the memory list is an array written in place. */
  class OneWireDevice {
    const address: seq<int>
    const memSize: nat
    const memory: array<int>

    constructor (address: seq<int>, memSize: nat)
      ensures this.address == address && this.memSize == memSize
      ensures fresh(memory) && memory[..] == seq(memSize, _ => 0)
    {
      this.address := address;
      this.memSize := memSize;
      memory := new int[memSize](_ => 0);
    }

    method Write(writeBuffer: seq<int>) returns (raised: Option<string>)
      modifies memory
      ensures (memory[..], raised) == OneWireWrite(old(memory[..]), writeBuffer)
    {
      var i := 0;
      while i < |writeBuffer|
        invariant 0 <= i <= |writeBuffer| && i <= memory.Length
        invariant forall j :: 0 <= j < memory.Length ==> memory[j] == if j < i then writeBuffer[j] else old(memory[j])
      {
        if i == memory.Length {
          assert memory[..] == OneWireWrite(old(memory[..]), writeBuffer).0;
          return Some("IndexError");
        }
        memory[i] := writeBuffer[i];
        i := i + 1;
      }
      assert memory[..] == OneWireWrite(old(memory[..]), writeBuffer).0;
      raised := None;
    }

    method Read(bytesToRead: nat) returns (data: seq<int>)
      requires memory.Length == memSize
      ensures data == OneWireRead(memory[..], bytesToRead)
    {
      if bytesToRead > memSize {
        return [0];
      }
      data := memory[0..bytesToRead];
    }
  }

  /** The nested `oneWire` object: the bus settings and its single device. */
  class OneWire {
    var channel: int
    var internalPullUpResistors: bool
    const availableDeviceId: seq<int>
    const device: OneWireDevice

    constructor ()
      ensures channel == 0 && !internalPullUpResistors
      ensures availableDeviceId == [45, 92, 29, 206, 176, 7, 16, 173]
      ensures fresh(device) && fresh(device.memory) && device.address == availableDeviceId
      ensures device.memSize == 200 && device.memory[..] == seq(200, _ => 0)
    {
      channel := 0;
      internalPullUpResistors := false;
      availableDeviceId := [45, 92, 29, 206, 176, 7, 16, 173];
      device := new OneWireDevice([45, 92, 29, 206, 176, 7, 16, 173], 200);
    }

    /** `begin`: only the channel and the pull-up flag change. */
    method Begin(channel: int, internalPullUpResistors: bool)
      modifies this`channel, this`internalPullUpResistors
      ensures this.channel == channel && this.internalPullUpResistors == internalPullUpResistors
    {
      this.channel := channel;
      this.internalPullUpResistors := internalPullUpResistors;
    }

    method Search() returns (ids: seq<int>)
      ensures ids == availableDeviceId
    {
      ids := availableDeviceId;
    }

    /** `write`: the device's write; the command argument is not used. */
    method Write(writeBuffer: seq<int>) returns (raised: Option<string>)
      modifies device.memory
      ensures (device.memory[..], raised) == OneWireWrite(old(device.memory[..]), writeBuffer)
    {
      raised := device.Write(writeBuffer);
    }

    /** `read`: the device's read; the command argument is not used. */
    method Read(bytesToRead: nat) returns (data: seq<int>)
      requires device.memory.Length == device.memSize
      ensures data == OneWireRead(device.memory[..], bytesToRead)
    {
      data := device.Read(bytesToRead);
    }

    /** `transfer`: the device's write, then its read, unless the write raised. */
    method Transfer(writeBuffer: seq<int>, bytesToRead: nat) returns (result: Result<seq<int>>)
      requires device.memory.Length == device.memSize
      modifies device.memory
      ensures var w := OneWireWrite(old(device.memory[..]), writeBuffer);
              device.memory[..] == w.0 &&
              result == if w.1.Some? then Failure(w.1.value) else Success(OneWireRead(w.0, bytesToRead))
    {
      var raised := device.Write(writeBuffer);
      if raised.Some? {
        return Failure(raised.value);
      }
      var data := device.Read(bytesToRead);
      result := Success(data);
    }
  }

  // ---------------------------------------------------------------- the simulator object

  /** `BinhoNovaSimulator`: the nested peripherals it builds and the pins it
      releases on `close`. */
  class BinhoNovaSimulator {
    const gpioPins: seq<GpioPin>
    const gpio: Gpio
    const i2c: I2c
    const spi: Spi
    const oneWire: OneWire

    constructor ()
      ensures |gpioPins| == 5 && forall i :: 0 <= i < 5 ==> gpioPins[i].pin == i
      ensures fresh(gpio) && fresh(gpio.pinsInUse) && gpio.pinsInUse[..] == [false, false, false, false, false]
      ensures i2c.Valid()
      ensures fresh(oneWire) && oneWire.channel == 0 && oneWire.device.memory[..] == seq(200, _ => 0)
    {
      gpio := new Gpio();
      i2c := new I2c();
      spi := new Spi();
      var pins := NewGpioPins();
      gpioPins := pins;
      oneWire := new OneWire();
    }

    /** The five pin objects `IO0` to `IO4`, each knowing its own number, with
        no mode and the stored value "0". */
    static method NewGpioPins() returns (pins: seq<GpioPin>)
      ensures |pins| == 5
      ensures forall i :: 0 <= i < 5 ==> pins[i].pin == i && pins[i].mode == "" && pins[i].storedValue == Str("0")
    {
      var p0 := new GpioPin(0);
      var p1 := new GpioPin(1);
      var p2 := new GpioPin(2);
      var p3 := new GpioPin(3);
      var p4 := new GpioPin(4);
      pins := [p0, p1, p2, p3, p4];
    }

    /** `releaseAllPins`: "IO0" to "IO4" are marked unused in turn, so no pin
        is left in use. */
    method ReleaseAllPins()
      requires gpio.pinsInUse.Length == 5
      modifies gpio.pinsInUse
      ensures gpio.pinsInUse[..] == [false, false, false, false, false]
    {
      ghost var before := gpio.pinsInUse[..];
      var raised := gpio.MarkPinAsUnused("IO0");
      MarkOwnNameClears(before, 0);
      ghost var after0 := gpio.pinsInUse[..];
      raised := gpio.MarkPinAsUnused("IO1");
      MarkOwnNameClears(after0, 1);
      ghost var after1 := gpio.pinsInUse[..];
      raised := gpio.MarkPinAsUnused("IO2");
      MarkOwnNameClears(after1, 2);
      ghost var after2 := gpio.pinsInUse[..];
      raised := gpio.MarkPinAsUnused("IO3");
      MarkOwnNameClears(after2, 3);
      ghost var after3 := gpio.pinsInUse[..];
      raised := gpio.MarkPinAsUnused("IO4");
      MarkOwnNameClears(after3, 4);
      assert gpio.pinsInUse[..] == [false, false, false, false, false];
    }

    /** `close`: every pin released, and an empty answer. */
    method Close()
      requires gpio.pinsInUse.Length == 5
      modifies gpio.pinsInUse
      ensures gpio.pinsInUse[..] == [false, false, false, false, false]
    {
      ReleaseAllPins();
    }
  }
}
