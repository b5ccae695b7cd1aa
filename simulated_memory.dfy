/** The byte-addressable memory the simulated I2C and I3C targets are built on:
    2^(8 * subaddressSize) cells, a subaddress that a write latches, and data
    writes and reads that start at the latched subaddress and wrap around to
    cell 0. */
module SimulatedMemory {
  import opened Common

  /** `subaddressToInt`: the big-endian base-256 value of the subaddress bytes. */
  function SubaddressToInt(s: seq<Byte>): (r: nat)
    ensures r < Pow256(|s|)
  {
    if s == [] then 0 else SubaddressToInt(s[..|s| - 1]) * 256 + s[|s| - 1]
  }

  /** The `len` big-endian bytes of `n`: the encoding `SubaddressToInt` decodes. */
  ghost function BigEndianBytes(n: nat, len: nat): (s: seq<Byte>)
    ensures |s| == len
  {
    if len == 0 then [] else BigEndianBytes(n / 256, len - 1) + [n % 256]
  }

  lemma {:induction false} SubaddressRoundTrip(n: nat, len: nat)
    requires n < Pow256(len)
    ensures SubaddressToInt(BigEndianBytes(n, len)) == n
  {
    if len > 0 {
      var s := BigEndianBytes(n / 256, len - 1);
      SubaddressRoundTrip(n / 256, len - 1);
      assert (s + [n % 256])[..len - 1] == s;
    }
  }

  /** The abstract value of a memory: its cells, the subaddress and whether it is latched. */
  datatype MemState = MemState(cells: seq<Byte>, subaddress: nat, latched: bool)

  /** A memory of `size`-byte subaddresses has 256^size cells. A forced write
      may latch any subaddress, even one past the last cell. */
  ghost predicate Sized(size: nat, s: MemState) {
    |s.cells| == Pow256(size)
  }

  /** The subaddress also lies inside the memory, as every unforced write keeps it. */
  ghost predicate WellFormed(size: nat, s: MemState) {
    Sized(size, s) && s.subaddress < |s.cells|
  }

  /** `x % n` for an `x` within one period of `[0, n)`. */
  lemma WrapMod(x: int, n: int)
    requires 0 < n && -n <= x < 2 * n
    ensures x % n == if x < 0 then x + n else if x < n then x else x - n
  {
    if x < 0 {
      assert x == -1 * n + (x + n);
    } else if x >= n {
      assert x == 1 * n + (x - n);
    }
  }

  /** The position a slice bound `i` stands for in a list of `len` elements:
      a negative bound counts from the end, and either kind is clipped to the list. */
  function SliceIndex(i: int, len: nat): (r: nat)
    ensures r <= len
    ensures 0 <= i ==> r == Min(i, len)
    ensures i < 0 && len + i >= 0 ==> r == len + i
    ensures len + i < 0 ==> r == 0
  {
    if i >= 0 then Min(i, len) else if len + i > 0 then len + i else 0
  }

  /** The data part of a write from subaddress `sub`, as the source's index
      loops perform it, with whether they raise an index error. When the data
      runs past the end, the part that fits (`data[:memSize - sub]`) is written
      from `sub` on, and the rest from cell 0 on, where it overwrites anything
      the first part wrote; a loop that reaches a cell past the end raises, and
      the cells it wrote before stay written. */
  ghost function Store(cells: seq<Byte>, sub: nat, data: seq<Byte>): (r: (seq<Byte>, bool))
    ensures |r.0| == |cells|
  {
    var n := |cells|;
    if sub + |data| > n then
      var cut := SliceIndex(n - sub, |data|);
      if sub >= n && cut > 0 then (cells, true)
      else
        var down := |data| - cut;
        (seq(n, c requires 0 <= c < n =>
           if c < down then data[cut + c] else if sub <= c < sub + cut then data[c - sub] else cells[c]),
         down > n)
    else
      (seq(n, c requires 0 <= c < n => if sub <= c < sub + |data| then data[c - sub] else cells[c]), false)
  }

  /** The cells after writing `data` from `sub` onward, continuing at cell 0
      once the end of the memory is reached. */
  ghost function WrappedWrite(cells: seq<Byte>, sub: nat, data: seq<Byte>): (r: seq<Byte>)
    requires sub < |cells| && |data| <= |cells|
    ensures |r| == |cells|
  {
    seq(|cells|, c requires 0 <= c < |cells| =>
      if sub <= c < sub + |data| then data[c - sub]
      else if c + |cells| < sub + |data| then data[c + |cells| - sub]
      else cells[c])
  }

  /** From a subaddress inside the memory, data no longer than the memory is
      stored wrapped around, without an error. */
  lemma StoreInRange(cells: seq<Byte>, sub: nat, data: seq<Byte>)
    requires sub < |cells| && |data| <= |cells|
    ensures Store(cells, sub, data) == (WrappedWrite(cells, sub, data), false)
  {
    var n := |cells|;
    var w := WrappedWrite(cells, sub, data);
    if sub + |data| > n {
      var cut := SliceIndex(n - sub, |data|);
      assert cut == n - sub;
      forall c | 0 <= c < n
        ensures Store(cells, sub, data).0[c] == w[c]
      {
      }
    }
    assert Store(cells, sub, data).0 == w;
  }

  /** When the loops raise. From a subaddress inside the memory only data
      longer than 2 * memSize - sub raises, after the second loop has written
      every cell; from a subaddress past the end, data that reaches the first
      loop raises before any cell is written, and otherwise data longer than
      the memory raises. */
  lemma StoreRaises(cells: seq<Byte>, sub: nat, data: seq<Byte>)
    ensures sub < |cells| ==> (Store(cells, sub, data).1 <==> |data| > 2 * |cells| - sub)
    ensures sub > |cells| && sub - |cells| < |data| ==> Store(cells, sub, data) == (cells, true)
    ensures sub >= |cells| && (sub == |cells| || sub - |cells| >= |data|) ==>
              (Store(cells, sub, data).1 <==> |data| > |cells|)
    ensures sub < |cells| && Store(cells, sub, data).1 ==>
              forall c :: 0 <= c < |cells| ==> Store(cells, sub, data).0[c] == data[|cells| - sub + c]
  {
  }

  /** A write of memSize + 1 bytes from cell 0 raises nothing: the last byte
      lands on cell 0 a second time. */
  lemma OverlongWriteWrapsOnce(cells: seq<Byte>, data: seq<Byte>)
    requires |cells| > 0 && |data| == |cells| + 1
    ensures Store(cells, 0, data) == (data[|cells|..] + data[1..|cells|], false)
  {
    var r := Store(cells, 0, data);
    assert r.0 == data[|cells|..] + data[1..|cells|];
  }

  /** A data write puts byte i at cell (sub + i) mod memSize and leaves every other cell alone. */
  lemma WrappedWriteEffect(cells: seq<Byte>, sub: nat, data: seq<Byte>)
    requires sub < |cells| && |data| <= |cells|
    ensures forall i :: 0 <= i < |data| ==> WrappedWrite(cells, sub, data)[(sub + i) % |cells|] == data[i]
    ensures forall c :: 0 <= c < |cells| && (c - sub) % |cells| >= |data| ==>
              WrappedWrite(cells, sub, data)[c] == cells[c]
  {
    var n := |cells|;
    forall i | 0 <= i < |data|
      ensures WrappedWrite(cells, sub, data)[(sub + i) % n] == data[i]
    {
      WrapMod(sub + i, n);
    }
    forall c | 0 <= c < n && (c - sub) % n >= |data|
      ensures WrappedWrite(cells, sub, data)[c] == cells[c]
    {
      WrapMod(c - sub, n);
    }
  }

  /** The bytes a latched read of `count` returns, as the source slices them:
      from `sub` to the end, then from cell 0 (slices are clipped to the
      memory, so a subaddress past the end contributes nothing of its own and
      the second slice can be longer than `count`). */
  ghost function WrappedRead(cells: seq<Byte>, sub: nat, count: nat): seq<Byte> {
    var n := |cells|;
    if sub + count > n then cells[Min(sub, n)..] + cells[..Min(sub + count - n, n)]
    else cells[sub..sub + count]
  }

  /** A read of at most memSize bytes returns byte i from cell (sub + i) mod memSize. */
  lemma WrappedReadEffect(cells: seq<Byte>, sub: nat, count: nat)
    requires sub < |cells| && count <= |cells|
    ensures |WrappedRead(cells, sub, count)| == count
    ensures forall i :: 0 <= i < count ==> WrappedRead(cells, sub, count)[i] == cells[(sub + i) % |cells|]
  {
    var n := |cells|;
    forall i | 0 <= i < count
      ensures WrappedRead(cells, sub, count)[i] == cells[(sub + i) % n]
    {
      WrapMod(sub + i, n);
    }
  }

  /** Reading back as many bytes as were written, from the same subaddress, gives the data. */
  lemma WrappedRoundTrip(cells: seq<Byte>, sub: nat, data: seq<Byte>)
    requires sub < |cells| && |data| <= |cells|
    ensures WrappedRead(WrappedWrite(cells, sub, data), sub, |data|) == data
  {
    var w := WrappedWrite(cells, sub, data);
    WrappedWriteEffect(cells, sub, data);
    WrappedReadEffect(w, sub, |data|);
  }

  /** The state after `write(buffer, force)`: a forced write latches the
      whole buffer as the subaddress; an unlatched write longer than a
      subaddress latches its leading bytes and stores the rest; a latched
      write stores the whole buffer; any other write latches the buffer. A
      store releases the latch, unless its loops raised. */
  ghost function AfterWrite(size: nat, s: MemState, buffer: seq<Byte>, force: bool): (t: MemState)
    requires Sized(size, s)
    ensures Sized(size, t)
    ensures !force && WellFormed(size, s) ==> WellFormed(size, t)
  {
    if force then
      MemState(s.cells, SubaddressToInt(buffer), true)
    else if !s.latched && |buffer| > size then
      var sub := SubaddressToInt(buffer[..size]);
      var st := Store(s.cells, sub, buffer[size..]);
      MemState(st.0, sub, st.1)
    else if s.latched then
      var st := Store(s.cells, s.subaddress, buffer);
      MemState(st.0, s.subaddress, st.1)
    else
      Pow256Monotonic(|buffer|, size);
      MemState(s.cells, SubaddressToInt(buffer), true)
  }

  /** An unlatched write of a subaddress and no more data than the memory
      holds stores the data wrapped from that subaddress, without an error. */
  lemma UnlatchedWriteInRange(size: nat, s: MemState, buffer: seq<Byte>)
    requires Sized(size, s) && !s.latched && size < |buffer| <= size + |s.cells|
    ensures var sub := SubaddressToInt(buffer[..size]);
            AfterWrite(size, s, buffer, false) == MemState(WrappedWrite(s.cells, sub, buffer[size..]), sub, false)
  {
    var sub := SubaddressToInt(buffer[..size]);
    assert sub < |s.cells|;
    StoreInRange(s.cells, sub, buffer[size..]);
  }

  /** A state holding a wrapped write of a prefix of `tail` has the bytes of
      that prefix from the subaddress on. */
  lemma WrappedPrefixAt(t: MemState, cells: seq<Byte>, data: seq<Byte>, tail: seq<Byte>)
    requires t.subaddress < |cells| && |data| <= |cells| && data <= tail
    requires t.cells == WrappedWrite(cells, t.subaddress, data)
    ensures forall j :: 0 <= j < |data| ==> t.cells[(t.subaddress + j) % |cells|] == tail[j]
  {
    WrappedWriteEffect(cells, t.subaddress, data);
  }

  /** Whether `write(buffer, force)` raises an index error: only a store can. */
  ghost function WriteRaises(size: nat, s: MemState, buffer: seq<Byte>, force: bool): (r: bool)
    requires Sized(size, s)
    ensures r ==> !force && (s.latched || |buffer| > size) && AfterWrite(size, s, buffer, force).latched
  {
    if force then false
    else if !s.latched && |buffer| > size then Store(s.cells, SubaddressToInt(buffer[..size]), buffer[size..]).1
    else if s.latched then Store(s.cells, s.subaddress, buffer).1
    else false
  }

  /** What `read(count)` returns: never more than was asked for, and exactly
      that many bytes when at most memSize were asked for, unless a forced
      write latched a subaddress past the end. */
  ghost function ReadResult(s: MemState, count: nat): (r: seq<Byte>)
    ensures s.subaddress < |s.cells| || !s.latched ==> |r| <= count
    ensures (s.subaddress < |s.cells| || !s.latched) && count <= |s.cells| ==> |r| == count
    ensures !s.latched ==> r == seq(count, _ => 255)
  {
    if s.latched then WrappedRead(s.cells, s.subaddress, count) else seq(count, _ => 255)
  }

  /** A read from a forced subaddress past the end returns no cell from the
      subaddress on, but sub + count - memSize cells from cell 0 (all of them
      at most): more bytes than were asked for once sub - memSize exceeds 0. */
  lemma ReadPastEnd(s: MemState, count: nat)
    requires s.latched && s.subaddress >= |s.cells| && s.subaddress + count > |s.cells|
    ensures ReadResult(s, count) == s.cells[..Min(s.subaddress + count - |s.cells|, |s.cells|)]
    ensures s.subaddress + count <= 2 * |s.cells| ==> |ReadResult(s, count)| == count + (s.subaddress - |s.cells|)
  {
  }

  /** Write the subaddress with the data, latch the subaddress alone, read the
      data's length: the data comes back. */
  lemma WriteLatchReadRoundTrip(size: nat, s: MemState, a: seq<Byte>, d: seq<Byte>)
    requires WellFormed(size, s) && !s.latched
    requires |a| == size && 0 < |d| <= |s.cells|
    ensures !WriteRaises(size, s, a + d, false)
    ensures var s1 := AfterWrite(size, s, a + d, false);
            !WriteRaises(size, s1, a, false) &&
            ReadResult(AfterWrite(size, s1, a, false), |d|) == d
  {
    assert (a + d)[..size] == a && (a + d)[size..] == d;
    var sub := SubaddressToInt(a);
    StoreInRange(s.cells, sub, d);
    var s1 := AfterWrite(size, s, a + d, false);
    assert s1 == MemState(WrappedWrite(s.cells, sub, d), sub, false);
    WrappedRoundTrip(s.cells, sub, d);
  }

  /** Two memory modules that are different objects with different cell arrays. */
  ghost predicate Apart(m1: SimpleMemory, m2: SimpleMemory) {
    m1 != m2 && m1.memory != m2.memory
  }

  /** `simpleSimulatedMemory`: the memory list is an array written in place. */
  class SimpleMemory {
    const subaddressSize: nat
    const memSize: nat
    const memory: array<Byte>
    var subaddress: nat
    var subaddressIsSet: bool

    ghost predicate Valid()
      reads this
    {
      memSize == Pow256(subaddressSize) && memory.Length == memSize
    }

    ghost function State(): (s: MemState)
      reads this, memory
      ensures Valid() ==> Sized(subaddressSize, s)
    {
      MemState(memory[..], subaddress, subaddressIsSet)
    }

    /** A new memory has 2^(8 * subaddressSize) cells, all zero, and no subaddress latched. */
    constructor (subaddressSize: nat)
      ensures Valid() && this.subaddressSize == subaddressSize && fresh(memory)
      ensures State() == MemState(seq(Pow256(subaddressSize), _ => 0), 0, false)
    {
      this.subaddressSize := subaddressSize;
      memSize := Pow256(subaddressSize);
      memory := new Byte[Pow256(subaddressSize)](_ => 0);
      subaddress := 0;
      subaddressIsSet := false;
    }

    /** `write`; `raised` is the index error the data loops can raise. */
    method Write(writeBuffer: seq<Byte>, forceSetSubaddress: bool) returns (raised: bool)
      requires Valid()
      modifies this, memory
      ensures Valid()
      ensures State() == AfterWrite(subaddressSize, old(State()), writeBuffer, forceSetSubaddress)
      ensures raised == WriteRaises(subaddressSize, old(State()), writeBuffer, forceSetSubaddress)
    {
      raised := false;
      if forceSetSubaddress {
        subaddress := SubaddressToInt(writeBuffer);
        subaddressIsSet := true;
        return;
      }
      var buffer := writeBuffer;
      if |buffer| > subaddressSize && !subaddressIsSet {
        subaddress := SubaddressToInt(buffer[..subaddressSize]);
        buffer := buffer[subaddressSize..];
        subaddressIsSet := true;
      }
      if subaddressIsSet {
        raised := StoreWrapped(buffer);
        if raised {
          return;
        }
        subaddressIsSet := forceSetSubaddress;
      } else {
        subaddress := SubaddressToInt(buffer);
        subaddressIsSet := true;
      }
    }

    /** The data part of a write: the index loops of the source, which stop
        with an index error at the first cell past the end. */
    method StoreWrapped(data: seq<Byte>) returns (raised: bool)
      requires Valid()
      modifies memory
      ensures (memory[..], raised) == Store(old(memory[..]), subaddress, data)
    {
      var sub := subaddress;
      if sub + |data| > memSize {
        var remainingSpace := memSize - sub;
        var cut := SliceIndex(remainingSpace, |data|);
        var up := data[..cut];
        var down := data[cut..];
        var i := 0;
        while i < |up|
          invariant 0 <= i <= |up|
          invariant sub >= memSize ==> i == 0
          invariant forall c :: 0 <= c < memory.Length ==>
                      memory[c] == if sub <= c < sub + i then up[c - sub] else old(memory[c])
        {
          if sub + i >= memory.Length {
            assert memory[..] == old(memory[..]);
            return true;
          }
          memory[sub + i] := up[i];
          i := i + 1;
        }
        var j := 0;
        while j < |down|
          invariant 0 <= j <= |down| && j <= memory.Length
          invariant forall c :: 0 <= c < memory.Length ==>
                      memory[c] == if c < j then down[c] else if sub <= c < sub + cut then up[c - sub] else old(memory[c])
        {
          if j >= memory.Length {
            assert memory[..] == Store(old(memory[..]), sub, data).0;
            return true;
          }
          memory[j] := down[j];
          j := j + 1;
        }
        assert memory[..] == Store(old(memory[..]), sub, data).0;
      } else {
        var i := 0;
        while i < |data|
          invariant 0 <= i <= |data|
          invariant forall c :: 0 <= c < memory.Length ==>
                      memory[c] == if sub <= c < sub + i then data[c - sub] else old(memory[c])
        {
          memory[sub + i] := data[i];
          i := i + 1;
        }
        assert memory[..] == Store(old(memory[..]), sub, data).0;
      }
      raised := false;
    }

    method Read(bytesToRead: nat) returns (data: seq<Byte>)
      requires Valid()
      modifies this`subaddressIsSet
      ensures Valid()
      ensures data == ReadResult(old(State()), bytesToRead)
      ensures State() == old(State()).(latched := false)
    {
      if subaddressIsSet {
        subaddressIsSet := false;
        if subaddress + bytesToRead > memSize {
          data := memory[Min(subaddress, memSize)..] + memory[..Min(subaddress + bytesToRead - memSize, memSize)];
        } else {
          data := memory[subaddress..subaddress + bytesToRead];
        }
      } else {
        data := seq(bytesToRead, _ => 255);
      }
    }
  }
}
