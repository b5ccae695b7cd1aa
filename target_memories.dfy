/** The simulated I3C memory target: a memory with a 2-byte subaddress whose
    writes and reads are clamped to the target's maximum write length (MWL)
    and maximum read length (MRL). */
module I3cTargetMemories {
  import opened Common
  import opened SimulatedMemory

  /** The device information a simulated I3C memory target reports before it
      has a dynamic address. */
  function I3cMemoryInfo(staticAddress: int): TargetDeviceInfo {
    TargetDeviceInfo(staticAddress, None, 16, 195, [0, 0, 0, 0, 100, 101], 1944)
  }

  /** The buffer `write` hands to the memory: a prefix of the buffer holding the
      subaddress and at most `mwl` data bytes. */
  function ClampWrite(buffer: seq<Byte>, subaddressSize: nat, mwl: nat): (r: seq<Byte>)
    ensures r <= buffer
    ensures |r| == Min(|buffer|, mwl + subaddressSize)
  {
    if |buffer| - subaddressSize > mwl then buffer[..mwl + subaddressSize] else buffer
  }

  /** The count `read` asks the memory for: the request, cut down to `mrl`. */
  function ClampRead(bytesToRead: nat, mrl: nat): (r: nat)
    ensures r <= bytesToRead && r <= mrl
    ensures r == bytesToRead || r == mrl
  {
    if bytesToRead > mrl then mrl else bytesToRead
  }

  /** An unlatched clamped write of a subaddress and data (with a non-zero MWL)
      latches nothing, takes the leading bytes as the subaddress and stores the
      first min(|data|, mwl) data bytes from that subaddress on. */
  lemma ClampedWriteStores(size: nat, s: MemState, buffer: seq<Byte>, mwl: nat)
    requires WellFormed(size, s) && !s.latched && |buffer| > size && 0 < mwl <= |s.cells|
    ensures var t := AfterWrite(size, s, ClampWrite(buffer, size, mwl), false);
            t.subaddress == SubaddressToInt(buffer[..size]) && !t.latched &&
            forall j :: 0 <= j < Min(|buffer| - size, mwl) ==>
              t.cells[(t.subaddress + j) % |s.cells|] == buffer[size..][j]
  {
    var n := |s.cells|;
    var b := ClampWrite(buffer, size, mwl);
    assert |b| > size;
    assert b[..size] == buffer[..size];
    var sub := SubaddressToInt(b[..size]);
    var data := b[size..];
    assert |data| == Min(|buffer| - size, mwl);
    assert data <= buffer[size..];
    UnlatchedWriteInRange(size, s, b);
    WrappedPrefixAt(AfterWrite(size, s, b, false), s.cells, data, buffer[size..]);
  }

  /** The same write leaves every cell `mwl` or more cells past the subaddress
      (modulo the memory size) alone: no more than MWL data bytes reach the memory. */
  lemma ClampedWriteKeeps(size: nat, s: MemState, buffer: seq<Byte>, mwl: nat)
    requires WellFormed(size, s) && !s.latched && |buffer| > size && 0 < mwl <= |s.cells|
    ensures var t := AfterWrite(size, s, ClampWrite(buffer, size, mwl), false);
            forall c :: 0 <= c < |s.cells| && (c - t.subaddress) % |s.cells| >= mwl ==> t.cells[c] == s.cells[c]
  {
    var n := |s.cells|;
    var b := ClampWrite(buffer, size, mwl);
    assert |b| > size;
    var sub := SubaddressToInt(b[..size]);
    var data := b[size..];
    var w := WrappedWrite(s.cells, sub, data);
    assert |data| <= mwl;
    UnlatchedWriteInRange(size, s, b);
    assert AfterWrite(size, s, b, false) == MemState(w, sub, false);
    forall c | 0 <= c < n && (c - sub) % n >= mwl
      ensures w[c] == s.cells[c]
    {
      WrapMod(c - sub, n);
    }
  }

  /** A memory target's state as a value: its memory, limits and device information. */
  datatype I3cMemState = I3cMemState(mem: MemState, mrl: nat, mwl: nat, info: TargetDeviceInfo)

  /** An unforced `write`: the clamped buffer reaches the memory, and the
      limits and device information stay as they are. */
  ghost function TargetWrite(t: I3cMemState, buffer: seq<Byte>): (r: I3cMemState)
    requires Sized(2, t.mem)
    ensures r.mrl == t.mrl && r.mwl == t.mwl && r.info == t.info
    ensures r.mem == AfterWrite(2, t.mem, ClampWrite(buffer, 2, t.mwl), false)
    ensures WellFormed(2, t.mem) ==> WellFormed(2, r.mem)
  {
    t.(mem := AfterWrite(2, t.mem, ClampWrite(buffer, 2, t.mwl), false))
  }

  /** Whether that write raises an index error in the memory's data loops. */
  ghost function TargetWriteRaises(t: I3cMemState, buffer: seq<Byte>): bool
    requires Sized(2, t.mem)
  {
    WriteRaises(2, t.mem, ClampWrite(buffer, 2, t.mwl), false)
  }

  /** With an MWL at least two bytes smaller than the memory, a write through
      the target never raises (a latched write stores the subaddress bytes as
      data too, so they count). */
  lemma ClampedWriteNeverRaises(t: I3cMemState, buffer: seq<Byte>)
    requires WellFormed(2, t.mem) && t.mwl + 2 <= |t.mem.cells|
    ensures !TargetWriteRaises(t, buffer)
  {
    var b := ClampWrite(buffer, 2, t.mwl);
    if !t.mem.latched && |b| > 2 {
      assert |b[2..]| <= t.mwl;
      StoreInRange(t.mem.cells, SubaddressToInt(b[..2]), b[2..]);
    } else if t.mem.latched {
      assert |b| <= t.mwl + 2;
      StoreRaises(t.mem.cells, t.mem.subaddress, b);
    }
  }

  /** `read(bytesToRead)`: at most MRL bytes, from a subaddress inside the
      memory, and the latch is released. */
  ghost function TargetRead(t: I3cMemState, bytesToRead: nat): (r: (I3cMemState, seq<Byte>))
    ensures WellFormed(2, t.mem) ==> |r.1| <= t.mrl && |r.1| <= bytesToRead
    ensures r.0 == t.(mem := t.mem.(latched := false))
  {
    (t.(mem := t.mem.(latched := false)), ReadResult(t.mem, ClampRead(bytesToRead, t.mrl)))
  }

  /** `I3cTargetMemory`: the target's limits and device information are fields
      updated in place; the memory module is written through `write`. */
  class I3cTargetMemory {
    const subaddressSize: nat
    const memModule: SimpleMemory
    const staticAddress: int
    var deviceInfo: TargetDeviceInfo
    var mrl: nat
    var mwl: nat

    ghost predicate Valid()
      reads memModule
    {
      subaddressSize == 2 && memModule.subaddressSize == 2 && memModule.Valid()
    }

    ghost function Snapshot(): I3cMemState
      reads this, memModule, memModule.memory
    {
      I3cMemState(memModule.State(), mrl, mwl, deviceInfo)
    }

    /** A new target: MRL 16, MWL 8, a zeroed memory of 65536 cells, no subaddress latched. */
    constructor (staticAddress: int)
      ensures Valid() && fresh(memModule) && fresh(memModule.memory)
      ensures this.staticAddress == staticAddress && deviceInfo == I3cMemoryInfo(staticAddress)
      ensures mrl == 16 && mwl == 8
      ensures memModule.State() == MemState(seq(65536, _ => 0), 0, false)
    {
      subaddressSize := 2;
      memModule := new SimpleMemory(2);
      this.staticAddress := staticAddress;
      deviceInfo := I3cMemoryInfo(staticAddress);
      mrl := 16;
      mwl := 8;
    }

    method SetDynamicAddress(dynamicAddress: int)
      modifies this`deviceInfo
      ensures deviceInfo == old(deviceInfo).(dynamicAddress := Some(dynamicAddress))
    {
      deviceInfo := deviceInfo.(dynamicAddress := Some(dynamicAddress));
    }

    method SetMrl(mrl: nat)
      modifies this`mrl
      ensures this.mrl == mrl
    {
      this.mrl := mrl;
    }

    method GetMrl() returns (r: nat)
      ensures r == mrl
    {
      r := mrl;
    }

    method SetMwl(mwl: nat)
      modifies this`mwl
      ensures this.mwl == mwl
    {
      this.mwl := mwl;
    }

    method GetMwl() returns (r: nat)
      ensures r == mwl
    {
      r := mwl;
    }

    function GetDeviceInfo(): TargetDeviceInfo
      reads this
    {
      deviceInfo
    }

    method Write(writeBuffer: seq<Byte>, forceSetSubaddress: bool) returns (raised: bool)
      requires Valid()
      modifies memModule, memModule.memory
      ensures Valid()
      ensures memModule.State() ==
              AfterWrite(2, old(memModule.State()), ClampWrite(writeBuffer, 2, mwl), forceSetSubaddress)
      ensures raised == WriteRaises(2, old(memModule.State()), ClampWrite(writeBuffer, 2, mwl), forceSetSubaddress)
    {
      var buffer := writeBuffer;
      if |buffer| - subaddressSize > mwl {
        buffer := buffer[..mwl + subaddressSize];
      }
      raised := memModule.Write(buffer, forceSetSubaddress);
    }

    method Read(bytesToRead: nat) returns (data: seq<Byte>)
      requires Valid()
      modifies memModule`subaddressIsSet
      ensures Valid()
      ensures data == ReadResult(old(memModule.State()), ClampRead(bytesToRead, mrl))
      ensures old(memModule.subaddress) < memModule.memSize ==> |data| <= mrl
      ensures memModule.State() == old(memModule.State()).(latched := false)
    {
      var count := bytesToRead;
      if count > mrl {
        count := mrl;
      }
      data := memModule.Read(count);
    }
  }
}

/** The simulated I2C memory target: a memory with a 2-byte subaddress behind a fixed address. */
module I2cTargetMemories {
  import opened Common
  import opened SimulatedMemory

  class I2cTargetMemory {
    const memModule: SimpleMemory
    const address: int

    ghost predicate Valid()
      reads memModule
    {
      memModule.subaddressSize == 2 && memModule.Valid()
    }

    /** A new target: a zeroed memory of 65536 cells behind `address`. */
    constructor (address: int)
      ensures Valid() && fresh(memModule) && fresh(memModule.memory) && this.address == address
      ensures memModule.State() == MemState(seq(65536, _ => 0), 0, false)
    {
      memModule := new SimpleMemory(2);
      this.address := address;
    }

    method Write(writeBuffer: seq<Byte>, forceSetSubaddress: bool) returns (raised: bool)
      requires Valid()
      modifies memModule, memModule.memory
      ensures Valid()
      ensures memModule.State() == AfterWrite(2, old(memModule.State()), writeBuffer, forceSetSubaddress)
      ensures raised == WriteRaises(2, old(memModule.State()), writeBuffer, forceSetSubaddress)
    {
      raised := memModule.Write(writeBuffer, forceSetSubaddress);
    }

    method Read(bytesToRead: nat) returns (data: seq<Byte>)
      requires Valid()
      modifies memModule`subaddressIsSet
      ensures Valid()
      ensures data == ReadResult(old(memModule.State()), bytesToRead)
      ensures memModule.State() == old(memModule.State()).(latched := false)
    {
      data := memModule.Read(bytesToRead);
    }
  }
}
