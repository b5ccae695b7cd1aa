/** The simulated Supernova host adapter: the I3C target table built by bus
    initialisation, the guard every targeted I3C command passes through, and
    the commands that reach the simulated I2C and I3C targets (three memories
    and a temperature sensor). Every command's effect is first given as a
    function on the simulator's state as a value; the simulator class, which
    owns the target objects, is proved to follow those functions. */
module SupernovaSimulator {
  import opened Common
  import opened SimulatedMemory
  import opened I3cTargetMemories
  import opened I2cTargetMemories
  import opened TemperatureSensor

  /** The device's answer to `open(path)`. */
  datatype OpenResult = OpenResult(code: string, message: string)

  const SimulatedPort := "SupernovaSimulatedPort"

  /** `open` as written: a path other than the simulated port fails, but the
      two messages are swapped. */
  function OpenAsWritten(path: Option<string>): (r: OpenResult)
    ensures r.code == "OK" <==> path == None || path == Some(SimulatedPort)
    ensures r.code == "OK" ==> r.message == "Simulator address should be " + SimulatedPort
    ensures r.code != "OK" ==>
              r == OpenResult("OPEN_CONNECTION_FAIL", "Connection with Supernova device opened successfully.")
  {
    var p := if path == None then SimulatedPort else path.value;
    if p != SimulatedPort then OpenResult("OPEN_CONNECTION_FAIL", "Connection with Supernova device opened successfully.")
    else OpenResult("OK", "Simulator address should be " + SimulatedPort)
  }

  /** The discrepancy: the successful open reports a wrong address and the
      failed one reports success. */
  lemma OpenMessagesSwapped()
    ensures OpenAsWritten(None).code == "OK"
    ensures OpenAsWritten(None).message != "Connection with Supernova device opened successfully."
    ensures OpenAsWritten(Some("COM3")).code == "OPEN_CONNECTION_FAIL"
    ensures OpenAsWritten(Some("COM3")).message == "Connection with Supernova device opened successfully."
  {
  }

  /** `open` with the messages where they belong: the success message exactly
      when the connection is opened, the address hint exactly when it is not. */
  function Open(path: Option<string>): (r: OpenResult)
    ensures r.code == "OK" <==> path == None || path == Some(SimulatedPort)
    ensures r.code != "OK" ==> r.code == "OPEN_CONNECTION_FAIL"
    ensures r.code == "OK" <==> r.message == "Connection with Supernova device opened successfully."
    ensures r.code != "OK" <==> r.message == "Simulator address should be " + SimulatedPort
  {
    var p := if path == None then SimulatedPort else path.value;
    if p != SimulatedPort then OpenResult("OPEN_CONNECTION_FAIL", "Simulator address should be " + SimulatedPort)
    else OpenResult("OK", "Connection with Supernova device opened successfully.")
  }

  /** The replies the simulator hands to the registered callback. */
  datatype Reply =
    /** `build_error_response`: named "I3C_TRANSFER", result I3C_TRANSFER_FAIL,
        no data, the one error given. */
    | TransferFail(id: int, command: int, error: string)
    /** An I3C TRANSFER (command 12) with result I3C_TRANSFER_SUCCESS and
        error NO_TRANSFER_ERROR, as `i3cWrite` and `i3cRead` build it. */
    | TransferSuccess(id: int, hasData: bool, data: seq<int>)
    /** The transfer template (command 12, success) with a data length and one
        extra entry, as the MRL/MWL commands build it. */
    | CccReply(id: int, dataLength: int, key: string, value: Field)
    | InitBusSuccess(id: int)
    | ClearFeatureSuccess(id: int)
    | DeviceTable(id: int, numberOfTargets: int, table: seq<TargetDeviceInfo>)
    | I2cWriteDone(id: int, payloadLength: int)
    | I2cReadDone(id: int, payloadLength: int, data: seq<int>)
    | I2cReadFromDone(id: int, payloadLength: int, data: seq<int>)

  /** One row of the target table: a dynamic address and the device
      information of the target it was given to. */
  datatype TableEntry = TableEntry(dynamicAddress: int, info: TargetDeviceInfo)

  /** The table's keys in order. */
  function Keys(table: seq<TableEntry>): seq<int> {
    if table == [] then [] else [table[0].dynamicAddress] + Keys(table[1..])
  }

  /** `table[str(key)]`. */
  function Lookup(table: seq<TableEntry>, key: int): (r: Option<TargetDeviceInfo>)
    ensures r.Some? <==> key in Keys(table)
  {
    if table == [] then None
    else if table[0].dynamicAddress == key then Some(table[0].info)
    else Lookup(table[1..], key)
  }

  /** `table[str(key)] = info`, with a dictionary's semantics: an existing key
      keeps its place and takes the new value, a new key goes at the end, and
      every other key keeps its value. */
  function Put(table: seq<TableEntry>, key: int, info: TargetDeviceInfo): (r: seq<TableEntry>)
    ensures Lookup(r, key) == Some(info)
    ensures forall k :: k != key ==> Lookup(r, k) == Lookup(table, k)
    ensures key in Keys(table) ==> Keys(r) == Keys(table)
    ensures key !in Keys(table) ==> Keys(r) == Keys(table) + [key]
  {
    if table == [] then [TableEntry(key, info)]
    else if table[0].dynamicAddress == key then [TableEntry(key, info)] + table[1..]
    else [table[0]] + Put(table[1..], key, info)
  }

  /** One value for each of the addresses 80, 81 and 82, where the simulator
      keeps a dictionary from those addresses to its memory targets. */
  datatype Targets<T> = Targets(at80: T, at81: T, at82: T) {
    function At(a: int): T
      requires a in MemoryAddresses
    {
      if a == 80 then at80 else if a == 81 then at81 else at82
    }

    /** The dictionary with the entry at a replaced. */
    function With(a: int, v: T): (r: Targets<T>)
      requires a in MemoryAddresses
      ensures r.At(a) == v
      ensures forall b :: b in MemoryAddresses && b != a ==> r.At(b) == At(b)
    {
      if a == 80 then this.(at80 := v) else if a == 81 then this.(at81 := v) else this.(at82 := v)
    }
  }

  /** The simulator's state as a value: whether the I3C bus was started, the
      target table, the three I3C memory targets and the sensor (by static
      address), and the three I2C memories (by address). */
  datatype SimState = SimState(
    busStarted: bool,
    table: seq<TableEntry>,
    mems: Targets<I3cMemState>,
    sensor: SensorState,
    i2c: Targets<MemState>)

  /** The addresses of the memory targets, on either bus. */
  const MemoryAddresses: set<int> := {80, 81, 82}
  const SensorAddress := 83

  /** The shape every reachable state keeps; it concerns the targets only. */
  ghost predicate Good(s: SimState) {
    GoodDevices(s.mems, s.sensor, s.i2c)
  }

  ghost predicate GoodDevices(mems: Targets<I3cMemState>, sensor: SensorState, i2c: Targets<MemState>) {
    GoodTarget(mems, i2c, 80) && GoodTarget(mems, i2c, 81) && GoodTarget(mems, i2c, 82) &&
    Registers16(sensor) && sensor.info.staticAddress == SensorAddress
  }

  /** The memory target and the I2C memory at address a are well formed, and
      the target's information names its own static address. */
  ghost predicate GoodTarget(mems: Targets<I3cMemState>, i2c: Targets<MemState>, a: int)
    requires a in MemoryAddresses
  {
    WellFormed(2, mems.At(a).mem) && mems.At(a).info.staticAddress == a && WellFormed(2, i2c.At(a))
  }

  /** The simulator as constructed: bus not started, empty table, three
      zeroed memory targets with MRL 16 and MWL 8, the sensor in its power-on
      state, and three zeroed I2C memories. */
  ghost function PowerOn(): (s: SimState)
    ensures Good(s) && !s.busStarted && s.table == []
  {
    assert Pow256(2) == 65536;
    var zero := MemState(seq(65536, _ => 0), 0, false);
    SimState(false, [],
             Targets(I3cMemState(zero, 16, 8, I3cMemoryInfo(80)),
                     I3cMemState(zero, 16, 8, I3cMemoryInfo(81)),
                     I3cMemState(zero, 16, 8, I3cMemoryInfo(82))),
             SensorState(0, 0, 0x2210, 0xB500, 0x7FF0, SensorAddress, SensorInfo(SensorAddress)),
             Targets(zero, zero, zero))
  }

  /** What `check_i3c_conditions` decides: go ahead with the target's static
      address, or answer with an error reply and do nothing else. */
  datatype Guard = Proceed(staticAddress: int) | Reject(reply: Reply)

  /** `check_i3c_conditions`: before bus initialisation every guarded command
      is refused with "Bus was not Initialized" (under command 5); afterwards
      an address missing from the table is refused with "NACK_ERROR" (under
      command 6); otherwise the command proceeds on the static address the
      table records for it. */
  function CheckConditions(id: int, busStarted: bool, table: seq<TableEntry>, targetAddress: int): (g: Guard)
    ensures g.Proceed? <==> busStarted && targetAddress in Keys(table)
    ensures !busStarted ==> g == Reject(TransferFail(id, 5, "Bus was not Initialized"))
    ensures busStarted && targetAddress !in Keys(table) ==> g == Reject(TransferFail(id, 6, "NACK_ERROR"))
    ensures g.Proceed? ==> g.staticAddress == Lookup(table, targetAddress).value.staticAddress
  {
    if !busStarted then Reject(TransferFail(id, 5, "Bus was not Initialized"))
    else match Lookup(table, targetAddress)
      case None => Reject(TransferFail(id, 6, "NACK_ERROR"))
      case Some(info) => Proceed(info.staticAddress)
  }

  // ---------------------------------------------------------------- bus set-up

  /** The device information the k-th target (static addresses 80, 81, 82,
      then the sensor's 83) reports once the `i3cInitBus` loop has given it
      dynamic address 8 + k. */
  ghost function TurnInfo(u: SimState, k: nat): TargetDeviceInfo
    requires Good(u) && k < 4
  {
    (if k < 3 then u.mems.At(80 + k).info else u.sensor.info).(dynamicAddress := Some(8 + k))
  }

  /** One turn of the `i3cInitBus` loop: the k-th target takes dynamic address
      8 + k, and the table maps 8 + k to the target's device information. */
  ghost function InitBusTurn(u: SimState, k: nat): (v: SimState)
    requires Good(u) && k < 4
    ensures Good(v) && v.busStarted == u.busStarted && v.i2c == u.i2c
  {
    var info := TurnInfo(u, k);
    u.(table := Put(u.table, 8 + k, info),
       mems := if k < 3 then u.mems.With(80 + k, u.mems.At(80 + k).(info := info)) else u.mems,
       sensor := if k == 3 then u.sensor.(dynamicAddress := 8 + k, info := info) else u.sensor)
  }

  /** The state after the first k turns of the `i3cInitBus` loop. */
  ghost function InitBusPartial(s: SimState, k: nat): (r: SimState)
    requires Good(s) && k <= 4
    ensures Good(r) && r.busStarted == s.busStarted && r.i2c == s.i2c
  {
    if k == 0 then s else InitBusTurn(InitBusPartial(s, k - 1), k - 1)
  }

  /** `i3cInitBus`: every target takes its dynamic address (in its own state
      and its device information), the table records them, and the bus is started. */
  ghost function InitBusStep(s: SimState, id: int): (r: (SimState, Reply))
    requires Good(s)
    ensures Good(r.0) && r.0.busStarted && r.1 == InitBusSuccess(id)
  {
    (InitBusPartial(s, 4).(busStarted := true), InitBusSuccess(id))
  }

  /** Bus initialisation gives dynamic addresses 8, 9, 10, 11 to the targets
      at static addresses 80, 81, 82, 83 and maps each to the target's updated
      device information, which is otherwise the information it had. */
  lemma InitBusAssignsAddresses(s: SimState, id: int, t: SimState)
    requires Good(s) && t == InitBusStep(s, id).0
    ensures forall a :: a in MemoryAddresses ==>
              t.mems.At(a).info == s.mems.At(a).info.(dynamicAddress := Some(a - 72)) &&
              Lookup(t.table, a - 72) == Some(t.mems.At(a).info)
    ensures t.sensor.dynamicAddress == 11 && t.sensor.info == s.sensor.info.(dynamicAddress := Some(11))
    ensures Lookup(t.table, 11) == Some(t.sensor.info)
  {
    var u1 := InitBusTurn(s, 0);
    assert InitBusPartial(s, 1) == u1;
    InitBusTurnDone(s, 0, u1);
    var u2 := InitBusTurn(u1, 1);
    assert InitBusPartial(s, 2) == u2;
    InitBusTurnDone(u1, 1, u2);
    var u3 := InitBusTurn(u2, 2);
    assert InitBusPartial(s, 3) == u3;
    InitBusTurnDone(u2, 2, u3);
    var u4 := InitBusTurn(u3, 3);
    assert InitBusPartial(s, 4) == u4;
    InitBusTurnDone(u3, 3, u4);
    FourTurnsAssign(s, u1, u2, u3, u4);
  }

  /** What one turn does: the k-th target takes its dynamic address in its
      device information (the sensor also in its own field), the table maps
      8 + k to that information, and every other target and key is left alone. */
  ghost predicate TurnDone(u: SimState, k: nat, v: SimState)
    requires Good(u) && k < 4
  {
    Lookup(v.table, 8 + k) == Some(TurnInfo(u, k)) &&
    (forall d :: d != 8 + k ==> Lookup(v.table, d) == Lookup(u.table, d)) &&
    v.mems == (if k < 3 then u.mems.With(80 + k, u.mems.At(80 + k).(info := TurnInfo(u, k))) else u.mems) &&
    v.sensor == (if k == 3 then u.sensor.(dynamicAddress := 11, info := TurnInfo(u, k)) else u.sensor)
  }

  lemma InitBusTurnDone(u: SimState, k: nat, v: SimState)
    requires Good(u) && k < 4 && v == InitBusTurn(u, k)
    ensures TurnDone(u, k, v)
  {
  }

  /** The four turns of the loop, one after the other. */
  lemma FourTurnsAssign(s: SimState, u1: SimState, u2: SimState, u3: SimState, u4: SimState)
    requires Good(s) && Good(u1) && Good(u2) && Good(u3)
    requires TurnDone(s, 0, u1) && TurnDone(u1, 1, u2) && TurnDone(u2, 2, u3) && TurnDone(u3, 3, u4)
    ensures forall a :: a in MemoryAddresses ==>
              u4.mems.At(a).info == s.mems.At(a).info.(dynamicAddress := Some(a - 72)) &&
              Lookup(u4.table, a - 72) == Some(u4.mems.At(a).info)
    ensures u4.sensor.dynamicAddress == 11 && u4.sensor.info == s.sensor.info.(dynamicAddress := Some(11))
    ensures Lookup(u4.table, 11) == Some(u4.sensor.info)
  {
    assert Lookup(u4.table, 8) == Lookup(u1.table, 8);
    assert Lookup(u4.table, 9) == Lookup(u2.table, 9);
    assert Lookup(u4.table, 10) == Lookup(u3.table, 10);
    forall a | a in MemoryAddresses
      ensures u4.mems.At(a).info == s.mems.At(a).info.(dynamicAddress := Some(a - 72))
      ensures Lookup(u4.table, a - 72) == Some(u4.mems.At(a).info)
    {
      if a == 80 {
      } else if a == 81 {
      } else {
        assert a == 82;
      }
    }
  }

  /** From an empty table, bus initialisation leaves exactly the keys 8, 9,
      10, 11, in that order. */
  lemma InitBusKeys(s: SimState, id: int)
    requires Good(s) && s.table == []
    ensures Keys(InitBusStep(s, id).0.table) == [8, 9, 10, 11]
  {
    var u1 := InitBusTurn(s, 0);
    assert InitBusPartial(s, 1) == u1;
    var u2 := InitBusTurn(u1, 1);
    assert InitBusPartial(s, 2) == u2;
    var u3 := InitBusTurn(u2, 2);
    assert InitBusPartial(s, 3) == u3;
    var u4 := InitBusTurn(u3, 3);
    assert InitBusPartial(s, 4) == u4;
    KeysAfterPuts(u1.table, u2.table, u3.table, u4.table, TurnInfo(u1, 1), TurnInfo(u2, 2), TurnInfo(u3, 3));
  }

  lemma KeysAfterPuts(t1: seq<TableEntry>, t2: seq<TableEntry>, t3: seq<TableEntry>, t4: seq<TableEntry>,
                      i2: TargetDeviceInfo, i3: TargetDeviceInfo, i4: TargetDeviceInfo)
    requires Keys(t1) == [8] && t2 == Put(t1, 9, i2) && t3 == Put(t2, 10, i3) && t4 == Put(t3, 11, i4)
    ensures Keys(t4) == [8, 9, 10, 11]
  {
    assert 9 !in Keys(t1);
    assert Keys(t2) == [8, 9];
    assert 10 !in Keys(t2);
    assert Keys(t3) == [8, 9, 10];
    assert 11 !in Keys(t3);
  }

  /** `i3cClearFeature`: only the broadcast address 0x7E with the I3C_BUS
      selector empties the table (and answers); the bus stays started or not
      as it was, and any other call changes nothing and sends no reply. */
  function ClearFeatureStep(s: SimState, id: int, selectorName: string, targetAddress: int): (r: (SimState, Option<Reply>))
    ensures r.1.Some? <==> targetAddress == 0x7E && selectorName == "I3C_BUS"
    ensures r.1.Some? ==> r.0 == s.(table := []) && r.1.value == ClearFeatureSuccess(id)
    ensures r.1.None? ==> r.0 == s
  {
    if targetAddress == 0x7E && selectorName == "I3C_BUS" then (s.(table := []), Some(ClearFeatureSuccess(id)))
    else (s, None)
  }

  /** `i3cGetTargetDeviceTable`: the number of entries and their device
      information, in table order. */
  function DeviceTableReply(s: SimState, id: int): (r: Reply)
    ensures r.DeviceTable? && r.id == id
    ensures r.numberOfTargets == |s.table| == |r.table|
    ensures forall i :: 0 <= i < |s.table| ==> r.table[i] == s.table[i].info
  {
    DeviceTable(id, |s.table|, seq(|s.table|, i requires 0 <= i < |s.table| => s.table[i].info))
  }

  // ---------------------------------------------------------------- I3C transfers

  /** `i3cWrite`: after the guard, the register address and data are written
      to the addressed target; an index error from a memory target's loops or
      from the sensor propagates (with the cells already written kept), and a
      static address with no target is a key error. */
  ghost function I3cWriteStep(s: SimState, id: int, targetAddress: int, registerAddress: seq<Byte>, data: seq<Byte>)
    : (r: (SimState, Result<Reply>))
    requires Good(s)
    ensures Good(r.0) && r.0.busStarted == s.busStarted && r.0.table == s.table && r.0.i2c == s.i2c
    ensures CheckConditions(id, s.busStarted, s.table, targetAddress).Reject? ==>
              r == (s, Success(CheckConditions(id, s.busStarted, s.table, targetAddress).reply))
  {
    match CheckConditions(id, s.busStarted, s.table, targetAddress)
    case Reject(reply) => (s, Success(reply))
    case Proceed(a) =>
      var buffer := registerAddress + data;
      if a in MemoryAddresses then
        var m := s.mems.At(a);
        (s.(mems := s.mems.With(a, TargetWrite(m, buffer))),
         if TargetWriteRaises(m, buffer) then Failure("IndexError") else Success(TransferSuccess(id, false, [])))
      else if a == SensorAddress then
        var w := SensorWrite(s.sensor, buffer);
        (s.(sensor := w.0), if w.1.Some? then Failure(w.1.value) else Success(TransferSuccess(id, false, [])))
      else (s, Failure("KeyError"))
  }

  /** `i3cRead`: after the guard, a non-empty register address is written to
      the target, then `length` bytes are read from it; an index error from
      the write ends the command before the read. */
  ghost function I3cReadStep(s: SimState, id: int, targetAddress: int, registerAddress: seq<Byte>, length: nat, sample: nat)
    : (r: (SimState, Result<Reply>))
    requires Good(s)
    ensures Good(r.0) && r.0.busStarted == s.busStarted && r.0.table == s.table && r.0.i2c == s.i2c
    ensures CheckConditions(id, s.busStarted, s.table, targetAddress).Reject? ==>
              r == (s, Success(CheckConditions(id, s.busStarted, s.table, targetAddress).reply))
  {
    match CheckConditions(id, s.busStarted, s.table, targetAddress)
    case Reject(reply) => (s, Success(reply))
    case Proceed(a) =>
      if a in MemoryAddresses then
        var m := s.mems.At(a);
        if |registerAddress| > 0 && TargetWriteRaises(m, registerAddress) then
          (s.(mems := s.mems.With(a, TargetWrite(m, registerAddress))), Failure("IndexError"))
        else
          var m1 := if |registerAddress| > 0 then TargetWrite(m, registerAddress) else m;
          var rd := TargetRead(m1, length);
          (s.(mems := s.mems.With(a, rd.0)), Success(TransferSuccess(id, true, rd.1)))
      else if a == SensorAddress then
        var w := if |registerAddress| > 0 then SensorWrite(s.sensor, registerAddress) else (s.sensor, None);
        if w.1.Some? then (s.(sensor := w.0), Failure(w.1.value))
        else
          var rd := SensorRead(w.0, length, sample);
          (s.(sensor := rd.0), if rd.1.Failure? then Failure(rd.1.error) else Success(TransferSuccess(id, true, rd.1.value)))
      else (s, Failure("KeyError"))
  }

  /** Writing a register address and data to a memory target and reading the
      data's length back from the same register address returns the data,
      when the data fits the target's MWL and MRL and no subaddress was latched. */
  lemma I3cWriteReadRoundTrip(s: SimState, id1: int, id2: int, target: int, registerAddress: seq<Byte>,
                              data: seq<Byte>, sample: nat)
    requires Good(s) && CheckConditions(id1, s.busStarted, s.table, target).Proceed?
    requires CheckConditions(id1, s.busStarted, s.table, target).staticAddress in MemoryAddresses
    requires |registerAddress| == 2 && 0 < |data| <= 65534
    requires var m := s.mems.At(CheckConditions(id1, s.busStarted, s.table, target).staticAddress);
             !m.mem.latched && |data| <= m.mwl && |data| <= m.mrl
    ensures var w := I3cWriteStep(s, id1, target, registerAddress, data);
            w.1 == Success(TransferSuccess(id1, false, [])) &&
            I3cReadStep(w.0, id2, target, registerAddress, |data|, sample).1 == Success(TransferSuccess(id2, true, data))
  {
    var a := CheckConditions(id1, s.busStarted, s.table, target).staticAddress;
    var m := s.mems.At(a);
    assert Pow256(2) == 65536;
    var buffer := registerAddress + data;
    assert ClampWrite(buffer, 2, m.mwl) == buffer;
    var w := I3cWriteStep(s, id1, target, registerAddress, data);
    var m1 := TargetWrite(m, buffer);
    WriteLatchReadRoundTrip(2, m.mem, registerAddress, data);
    assert w.0.mems.At(a) == m1;
    assert CheckConditions(id2, w.0.busStarted, w.0.table, target) == Proceed(a);
    assert ClampWrite(registerAddress, 2, m1.mwl) == registerAddress;
    assert ClampRead(|data|, m1.mrl) == |data|;
  }

  // ---------------------------------------------------------------- MRL / MWL

  /** The two target limits the common command codes read and set. */
  datatype Limit = Mrl | Mwl

  function LimitOf(m: I3cMemState, limit: Limit): nat {
    match limit
    case Mrl => m.mrl
    case Mwl => m.mwl
  }

  function WithLimit(m: I3cMemState, limit: Limit, value: nat): (r: I3cMemState)
    ensures LimitOf(r, limit) == value && r.mem == m.mem && r.info == m.info
    ensures limit == Mrl ==> r.mwl == m.mwl
    ensures limit == Mwl ==> r.mrl == m.mrl
  {
    match limit
    case Mrl => m.(mrl := value)
    case Mwl => m.(mwl := value)
  }

  /** The entry each GET command adds to the transfer template. */
  function LimitKey(limit: Limit): string {
    match limit
    case Mrl => "maxReadLength"
    case Mwl => "maxWriteLength"
  }

  /** `i3cGETMRL` / `i3cGETMWL`: the memory target's limit under a two-byte
      data length; the sensor has no limits, so asking it raises an attribute error. */
  function GetLimitStep(s: SimState, id: int, targetAddress: int, limit: Limit): (r: Result<Reply>)
    ensures CheckConditions(id, s.busStarted, s.table, targetAddress).Reject? ==> r == Success(CheckConditions(id, s.busStarted, s.table, targetAddress).reply)
    ensures var g := CheckConditions(id, s.busStarted, s.table, targetAddress);
            g.Proceed? && g.staticAddress in MemoryAddresses ==>
              r == Success(CccReply(id, 2, LimitKey(limit), Num(LimitOf(s.mems.At(g.staticAddress), limit))))
    ensures var g := CheckConditions(id, s.busStarted, s.table, targetAddress);
            g.Proceed? && g.staticAddress !in MemoryAddresses ==>
              r == Failure(if g.staticAddress == SensorAddress then "AttributeError" else "KeyError")
  {
    match CheckConditions(id, s.busStarted, s.table, targetAddress)
    case Reject(reply) => Success(reply)
    case Proceed(a) =>
      if a in MemoryAddresses then Success(CccReply(id, 2, LimitKey(limit), Num(LimitOf(s.mems.At(a), limit))))
      else if a == SensorAddress then Failure("AttributeError")
      else Failure("KeyError")
  }

  /** `i3cDirectSETMRL` / `i3cDirectSETMWL`: sets the addressed memory
      target's limit and nothing else. */
  function DirectSetLimitStep(s: SimState, id: int, targetAddress: int, limit: Limit, value: nat)
    : (r: (SimState, Result<Reply>))
    requires Good(s)
    ensures Good(r.0) && r.0.busStarted == s.busStarted && r.0.table == s.table && r.0.sensor == s.sensor && r.0.i2c == s.i2c
    ensures CheckConditions(id, s.busStarted, s.table, targetAddress).Reject? ==>
              r == (s, Success(CheckConditions(id, s.busStarted, s.table, targetAddress).reply))
    ensures var g := CheckConditions(id, s.busStarted, s.table, targetAddress);
            g.Proceed? && g.staticAddress in MemoryAddresses ==>
              r.0.mems == s.mems.With(g.staticAddress, WithLimit(s.mems.At(g.staticAddress), limit, value)) &&
              r.1 == Success(CccReply(id, 2, "data", Bytes([0, 0])))
    ensures var g := CheckConditions(id, s.busStarted, s.table, targetAddress);
            g.Proceed? && g.staticAddress !in MemoryAddresses ==>
              r == (s, Failure(if g.staticAddress == SensorAddress then "AttributeError" else "KeyError"))
  {
    match CheckConditions(id, s.busStarted, s.table, targetAddress)
    case Reject(reply) => (s, Success(reply))
    case Proceed(a) =>
      if a in MemoryAddresses then
        (s.(mems := s.mems.With(a, WithLimit(s.mems.At(a), limit, value))), Success(CccReply(id, 2, "data", Bytes([0, 0]))))
      else if a == SensorAddress then (s, Failure("AttributeError"))
      else (s, Failure("KeyError"))
  }

  /** Setting a memory target's limit and reading it back reports the value set. */
  lemma {:induction false} SetThenGetLimit(s: SimState, id1: int, id2: int, targetAddress: int, limit: Limit, value: nat)
    requires Good(s)
    requires CheckConditions(id1, s.busStarted, s.table, targetAddress).Proceed?
    requires CheckConditions(id1, s.busStarted, s.table, targetAddress).staticAddress in MemoryAddresses
    ensures GetLimitStep(DirectSetLimitStep(s, id1, targetAddress, limit, value).0, id2, targetAddress, limit) ==
            Success(CccReply(id2, 2, LimitKey(limit), Num(value)))
  {
    var a := CheckConditions(id1, s.busStarted, s.table, targetAddress).staticAddress;
    var t := DirectSetLimitStep(s, id1, targetAddress, limit, value).0;
    assert CheckConditions(id2, t.busStarted, t.table, targetAddress) == Proceed(a);
    assert t.mems.At(a) == WithLimit(s.mems.At(a), limit, value);
  }

  /** `i3cBroadcastSETMRL` / `i3cBroadcastSETMWL`. The guard reads its second
      positional argument, which for these commands is the push-pull rate, as
      the target address. Past the guard every memory target takes the new
      limit, and then the sensor, which has no limit, raises an attribute
      error, so no reply is sent. */
  function BroadcastSetLimitStep(s: SimState, id: int, pushPullRate: int, limit: Limit, value: nat)
    : (r: (SimState, Result<Reply>))
    requires Good(s)
    ensures Good(r.0) && r.0.busStarted == s.busStarted && r.0.table == s.table && r.0.sensor == s.sensor && r.0.i2c == s.i2c
    ensures CheckConditions(id, s.busStarted, s.table, pushPullRate).Reject? ==>
              r == (s, Success(CheckConditions(id, s.busStarted, s.table, pushPullRate).reply))
    ensures CheckConditions(id, s.busStarted, s.table, pushPullRate).Proceed? ==>
              r.1 == Failure("AttributeError") &&
              forall a :: a in MemoryAddresses ==> r.0.mems.At(a) == WithLimit(s.mems.At(a), limit, value)
  {
    match CheckConditions(id, s.busStarted, s.table, pushPullRate)
    case Reject(reply) => (s, Success(reply))
    case Proceed(_) =>
      var m := s.mems;
      (s.(mems := Targets(WithLimit(m.at80, limit, value), WithLimit(m.at81, limit, value), WithLimit(m.at82, limit, value))),
       Failure("AttributeError"))
  }

  // ---------------------------------------------------------------- I2C

  /** `i2cWrite`: the register address (when there is one) followed by the
      data is written to the addressed I2C memory; an index error from the
      memory's loops propagates, and an unknown address is a key error. */
  ghost function I2cWriteStep(s: SimState, id: int, address: int, registerAddress: seq<Byte>, data: seq<Byte>)
    : (r: (SimState, Result<Reply>))
    requires Good(s)
    ensures Good(r.0) && r.0.busStarted == s.busStarted && r.0.table == s.table && r.0.mems == s.mems && r.0.sensor == s.sensor
    ensures address !in MemoryAddresses <==> r == (s, Failure("KeyError"))
    ensures address in MemoryAddresses ==>
              var buffer := if |registerAddress| == 0 then data else registerAddress + data;
              r.0.i2c == s.i2c.With(address, AfterWrite(2, s.i2c.At(address), buffer, false)) &&
              (r.1.Failure? <==> WriteRaises(2, s.i2c.At(address), buffer, false))
  {
    if address !in MemoryAddresses then (s, Failure("KeyError"))
    else
      var buffer := if |registerAddress| == 0 then data else registerAddress + data;
      var m := s.i2c.At(address);
      (s.(i2c := s.i2c.With(address, AfterWrite(2, m, buffer, false))),
       if WriteRaises(2, m, buffer, false) then Failure("IndexError") else Success(I2cWriteDone(id, |data|)))
  }

  /** `i2cReadFrom`: the register address is written (latching it when the
      memory is not latched), then `length` bytes are read; an index error
      from the write ends the command before the read. */
  ghost function I2cReadFromStep(s: SimState, id: int, address: int, registerAddress: seq<Byte>, length: nat)
    : (r: (SimState, Result<Reply>))
    requires Good(s)
    ensures Good(r.0) && r.0.busStarted == s.busStarted && r.0.table == s.table && r.0.mems == s.mems && r.0.sensor == s.sensor
    ensures address !in MemoryAddresses <==> r == (s, Failure("KeyError"))
    ensures address in MemoryAddresses ==>
              (r.1 == Failure("IndexError") <==> WriteRaises(2, s.i2c.At(address), registerAddress, false))
  {
    if address !in MemoryAddresses then (s, Failure("KeyError"))
    else
      var m := AfterWrite(2, s.i2c.At(address), registerAddress, false);
      if WriteRaises(2, s.i2c.At(address), registerAddress, false) then
        (s.(i2c := s.i2c.With(address, m)), Failure("IndexError"))
      else
        (s.(i2c := s.i2c.With(address, m.(latched := false))), Success(I2cReadFromDone(id, length, ReadResult(m, length))))
  }

  /** `i2cRead`: `length` bytes from the addressed I2C memory, which releases
      its latch. */
  ghost function I2cReadStep(s: SimState, id: int, address: int, length: nat): (r: (SimState, Result<Reply>))
    requires Good(s)
    ensures Good(r.0) && r.0.busStarted == s.busStarted && r.0.table == s.table && r.0.mems == s.mems && r.0.sensor == s.sensor
    ensures address !in MemoryAddresses <==> r == (s, Failure("KeyError"))
  {
    if address !in MemoryAddresses then (s, Failure("KeyError"))
    else
      var m := s.i2c.At(address);
      (s.(i2c := s.i2c.With(address, m.(latched := false))), Success(I2cReadDone(id, length, ReadResult(m, length))))
  }

  /** Writing a two-byte register address and data to an I2C memory and then
      reading the data's length from that register address returns the data. */
  lemma I2cWriteReadRoundTrip(s: SimState, id1: int, id2: int, address: int, registerAddress: seq<Byte>, data: seq<Byte>)
    requires Good(s) && address in MemoryAddresses && !s.i2c.At(address).latched
    requires |registerAddress| == 2 && 0 < |data| <= 65534
    ensures var w := I2cWriteStep(s, id1, address, registerAddress, data);
            w.1 == Success(I2cWriteDone(id1, |data|)) &&
            I2cReadFromStep(w.0, id2, address, registerAddress, |data|).1 == Success(I2cReadFromDone(id2, |data|, data))
  {
    assert Pow256(2) == 65536;
    WriteLatchReadRoundTrip(2, s.i2c.At(address), registerAddress, data);
  }

  // ---------------------------------------------------------------- the simulator object

  /** `BinhoSupernovaSimulator`: the bus flag and the target table are fields
      updated in place, and the seven target objects (three I2C memories, three
      I3C memories and the sensor) are owned by it and changed through their
      own methods. Each command is proved to do what its step function above
      says, on the snapshot of the whole simulator. */
  class BinhoSupernovaSimulator {
    var i3cBusStarted: bool
    var i3cTargetTable: seq<TableEntry>
    const i2c80: I2cTargetMemory
    const i2c81: I2cTargetMemory
    const i2c82: I2cTargetMemory
    const i3c80: I3cTargetMemory
    const i3c81: I3cTargetMemory
    const i3c82: I3cTargetMemory
    const sensor: SimulatedP3T1085UK

    /** Every object the simulator owns. */
    ghost function Objects(): set<object> {
      {i2c80, i2c81, i2c82, i3c80, i3c81, i3c82, sensor,
       i2c80.memModule, i2c81.memModule, i2c82.memModule, i3c80.memModule, i3c81.memModule, i3c82.memModule,
       i2c80.memModule.memory, i2c81.memModule.memory, i2c82.memModule.memory,
       i3c80.memModule.memory, i3c81.memModule.memory, i3c82.memModule.memory}
    }

    /** The objects the I3C commands write: the memory targets' modules and
        cells, and the sensor. */
    ghost function I3cWritable(): set<object> {
      {i3c80.memModule, i3c81.memModule, i3c82.memModule,
       i3c80.memModule.memory, i3c81.memModule.memory, i3c82.memModule.memory, sensor}
    }

    ghost function I2cWritable(): set<object> {
      {i2c80.memModule, i2c81.memModule, i2c82.memModule,
       i2c80.memModule.memory, i2c81.memModule.memory, i2c82.memModule.memory}
    }

    /** `i3cTargets[str(a)]` for a memory target. */
    function I3cAt(a: int): (t: I3cTargetMemory)
      requires a in MemoryAddresses
      ensures t == (if a == 80 then i3c80 else if a == 81 then i3c81 else i3c82)
    {
      if a == 80 then i3c80 else if a == 81 then i3c81 else i3c82
    }

    /** `i2cTargets[str(a)]`. */
    function I2cAt(a: int): (t: I2cTargetMemory)
      requires a in MemoryAddresses
      ensures t == (if a == 80 then i2c80 else if a == 81 then i2c81 else i2c82)
    {
      if a == 80 then i2c80 else if a == 81 then i2c81 else i2c82
    }

    /** The I3C memory targets' states, by static address. */
    ghost function I3cStates(): Targets<I3cMemState>
      reads Objects()
    {
      Targets(i3c80.Snapshot(), i3c81.Snapshot(), i3c82.Snapshot())
    }

    /** The I2C memories' states, by address. */
    ghost function I2cStates(): Targets<MemState>
      reads Objects()
    {
      Targets(i2c80.memModule.State(), i2c81.memModule.State(), i2c82.memModule.State())
    }

    ghost function Snapshot(): SimState
      reads this, Objects()
    {
      SimState(i3cBusStarted, i3cTargetTable, I3cStates(), sensor.Snapshot(), I2cStates())
    }

    /** The targets are valid and pairwise separate (no two share a memory
        module or a cell array), and the snapshot is well formed. */
    ghost predicate Valid()
      reads Objects()
    {
      i2c80.Valid() && i2c81.Valid() && i2c82.Valid() &&
      i3c80.Valid() && i3c81.Valid() && i3c82.Valid() && sensor.Valid() &&
      i3c80 != i3c81 && i3c80 != i3c82 && i3c81 != i3c82 &&
      Apart(i2c80.memModule, i2c81.memModule) && Apart(i2c80.memModule, i2c82.memModule) && Apart(i2c80.memModule, i3c80.memModule) &&
      Apart(i2c80.memModule, i3c81.memModule) && Apart(i2c80.memModule, i3c82.memModule) && Apart(i2c81.memModule, i2c82.memModule) &&
      Apart(i2c81.memModule, i3c80.memModule) && Apart(i2c81.memModule, i3c81.memModule) && Apart(i2c81.memModule, i3c82.memModule) &&
      Apart(i2c82.memModule, i3c80.memModule) && Apart(i2c82.memModule, i3c81.memModule) && Apart(i2c82.memModule, i3c82.memModule) &&
      Apart(i3c80.memModule, i3c81.memModule) && Apart(i3c80.memModule, i3c82.memModule) && Apart(i3c81.memModule, i3c82.memModule) &&
      GoodDevices(I3cStates(), sensor.Snapshot(), I2cStates())
    }

    constructor ()
      ensures Valid() && Snapshot() == PowerOn()
    {
      i3cBusStarted := false;
      i3cTargetTable := [];
      i2c80 := new I2cTargetMemory(80);
      i2c81 := new I2cTargetMemory(81);
      i2c82 := new I2cTargetMemory(82);
      i3c80 := new I3cTargetMemory(80);
      i3c81 := new I3cTargetMemory(81);
      i3c82 := new I3cTargetMemory(82);
      sensor := new SimulatedP3T1085UK(SensorAddress);
      new;
      var zero := MemState(seq(65536, _ => 0), 0, false);
      assert i3c80.Snapshot() == I3cMemState(zero, 16, 8, I3cMemoryInfo(80));
      assert i3c81.Snapshot() == I3cMemState(zero, 16, 8, I3cMemoryInfo(81));
      assert i3c82.Snapshot() == I3cMemState(zero, 16, 8, I3cMemoryInfo(82));
      assert Snapshot() == PowerOn();
      assert Good(Snapshot());
    }

    /** `i3cInitBus`: the targets in order (80, 81, 82, then the sensor) take
        dynamic addresses 8, 9, 10, 11 and the table maps each address to the
        target's device information; then the bus is started. */
    method I3cInitBus(id: int) returns (reply: Reply)
      requires Valid()
      modifies this, i3c80, i3c81, i3c82, sensor
      ensures Valid()
      ensures (Snapshot(), reply) == InitBusStep(old(Snapshot()), id)
    {
      ghost var s := Snapshot();
      var k := 0;
      while k < 4
        invariant 0 <= k <= 4 && Valid()
        invariant Snapshot() == InitBusPartial(s, k)
      {
        if k < 3 {
          AssignMemoryTarget(k);
        } else {
          AssignSensor();
        }
        k := k + 1;
      }
      i3cBusStarted := true;
      reply := InitBusSuccess(id);
    }

    /** `i3cClearFeature`. */
    method I3cClearFeature(id: int, selectorName: string, targetAddress: int) returns (reply: Option<Reply>)
      requires Valid()
      modifies this`i3cTargetTable
      ensures Valid()
      ensures (Snapshot(), reply) == ClearFeatureStep(old(Snapshot()), id, selectorName, targetAddress)
    {
      if targetAddress == 0x7E && selectorName == "I3C_BUS" {
        i3cTargetTable := [];
        reply := Some(ClearFeatureSuccess(id));
      } else {
        reply := None;
      }
    }

    /** One turn of `i3cInitBus` for the memory target at 80 + k: give it
        dynamic address 8 + k and record its information under that address. */
    method AssignMemoryTarget(k: nat)
      requires Valid() && k < 3
      modifies this`i3cTargetTable, I3cAt(80 + k)`deviceInfo
      ensures Valid() && Snapshot() == InitBusTurn(old(Snapshot()), k)
    {
      SetMemoryTargetAddress(k);
      var info := I3cAt(80 + k).GetDeviceInfo();
      RecordTarget(8 + k, info);
    }

    /** `i3cTargetTable[address] = info`: only the table changes. */
    method RecordTarget(address: int, info: TargetDeviceInfo)
      requires Valid()
      modifies this`i3cTargetTable
      ensures Valid()
      ensures Snapshot() == old(Snapshot()).(table := Put(old(i3cTargetTable), address, info))
    {
      i3cTargetTable := Put(i3cTargetTable, address, info);
    }

    /** The memory target at 80 + k takes dynamic address 8 + k; nothing else changes. */
    method SetMemoryTargetAddress(k: nat)
      requires Valid() && k < 3
      modifies I3cAt(80 + k)`deviceInfo
      ensures Valid()
      ensures Snapshot() == old(Snapshot()).(mems := old(I3cStates()).With(80 + k, old(I3cStates()).At(80 + k).(info := TurnInfo(old(Snapshot()), k))))
    {
      var t := I3cAt(80 + k);
      ghost var m := old(I3cStates()).At(80 + k);
      t.SetDynamicAddress(8 + k);
      assert t.Snapshot() == m.(info := TurnInfo(old(Snapshot()), k));
      assert I3cStates() == old(I3cStates()).With(80 + k, t.Snapshot());
      assert I2cStates() == old(I2cStates());
    }

    /** The last turn of `i3cInitBus`: the sensor gets dynamic address 11. */
    method AssignSensor()
      requires Valid()
      modifies this`i3cTargetTable, sensor
      ensures Valid() && Snapshot() == InitBusTurn(old(Snapshot()), 3)
    {
      sensor.SetDynamicAddress(11);
      var info := sensor.GetDeviceInfo();
      i3cTargetTable := Put(i3cTargetTable, 11, info);
    }

    /** `i3cGetTargetDeviceTable`: the device information of every table
        entry, collected in table order. */
    method GetTargetDeviceTable(id: int) returns (reply: Reply)
      ensures reply == DeviceTableReply(Snapshot(), id)
    {
      var table: seq<TargetDeviceInfo> := [];
      var i := 0;
      while i < |i3cTargetTable|
        invariant 0 <= i <= |i3cTargetTable| && |table| == i
        invariant forall j :: 0 <= j < i ==> table[j] == i3cTargetTable[j].info
      {
        table := table + [i3cTargetTable[i].info];
        i := i + 1;
      }
      reply := DeviceTable(id, |table|, table);
    }

    /** `i3cWrite`, behind the guard. */
    method I3cWrite(id: int, targetAddress: int, registerAddress: seq<Byte>, data: seq<Byte>) returns (r: Result<Reply>)
      requires Valid()
      modifies I3cWritable()
      ensures Valid()
      ensures (Snapshot(), r) == I3cWriteStep(old(Snapshot()), id, targetAddress, registerAddress, data)
    {
      var g := CheckConditions(id, i3cBusStarted, i3cTargetTable, targetAddress);
      if g.Reject? {
        return Success(g.reply);
      }
      var buffer := registerAddress + data;
      if g.staticAddress in MemoryAddresses {
        var raised := WriteMemoryTarget(g.staticAddress, buffer);
        r := if raised then Failure("IndexError") else Success(TransferSuccess(id, false, []));
      } else if g.staticAddress == SensorAddress {
        var raised := WriteSensor(buffer);
        r := if raised.Some? then Failure(raised.value) else Success(TransferSuccess(id, false, []));
      } else {
        r := Failure("KeyError");
      }
    }

    /** `targets[str(a)].write(buffer)` on a memory target. */
    method WriteMemoryTarget(a: int, buffer: seq<Byte>) returns (raised: bool)
      requires Valid() && a in MemoryAddresses
      modifies I3cAt(a).memModule, I3cAt(a).memModule.memory
      ensures Valid()
      ensures Snapshot() == old(Snapshot()).(mems := old(I3cStates()).With(a, TargetWrite(old(I3cStates()).At(a), buffer)))
      ensures raised == TargetWriteRaises(old(I3cStates()).At(a), buffer)
    {
      var t := I3cAt(a);
      ghost var m := TargetWrite(t.Snapshot(), buffer);
      raised := t.Write(buffer, false);
      assert t.Snapshot() == m;
      assert I3cStates() == old(I3cStates()).With(a, m);
      assert I2cStates() == old(I2cStates());
    }

    /** `targets["83"].write(buffer)`: the sensor's write, which may raise. */
    method WriteSensor(buffer: seq<Byte>) returns (raised: Option<string>)
      requires Valid()
      modifies sensor`pointerRegister, sensor`configurationRegister, sensor`lowTemperatureLimit, sensor`highTemperatureLimit
      ensures Valid()
      ensures (Snapshot().sensor, raised) == SensorWrite(old(Snapshot()).sensor, buffer)
      ensures Snapshot() == old(Snapshot()).(sensor := Snapshot().sensor)
    {
      raised := sensor.Write(buffer);
    }

    /** `i3cRead`, behind the guard: a non-empty register address is written
        first, then `length` bytes are read. */
    method I3cRead(id: int, targetAddress: int, registerAddress: seq<Byte>, length: nat, sample: nat) returns (r: Result<Reply>)
      requires Valid()
      modifies I3cWritable()
      ensures Valid()
      ensures (Snapshot(), r) == I3cReadStep(old(Snapshot()), id, targetAddress, registerAddress, length, sample)
    {
      var g := CheckConditions(id, i3cBusStarted, i3cTargetTable, targetAddress);
      if g.Reject? {
        return Success(g.reply);
      }
      if g.staticAddress in MemoryAddresses {
        if |registerAddress| > 0 {
          var raised := WriteMemoryTarget(g.staticAddress, registerAddress);
          if raised {
            return Failure("IndexError");
          }
        }
        var data := ReadMemoryTarget(g.staticAddress, length);
        r := Success(TransferSuccess(id, true, data));
      } else if g.staticAddress == SensorAddress {
        if |registerAddress| > 0 {
          var raised := WriteSensor(registerAddress);
          if raised.Some? {
            return Failure(raised.value);
          }
        }
        var result := ReadSensor(length, sample);
        r := if result.Failure? then Failure(result.error) else Success(TransferSuccess(id, true, result.value));
      } else {
        r := Failure("KeyError");
      }
    }

    /** `targets[str(a)].read(length)` on a memory target. */
    method ReadMemoryTarget(a: int, length: nat) returns (data: seq<Byte>)
      requires Valid() && a in MemoryAddresses
      modifies I3cAt(a).memModule`subaddressIsSet
      ensures Valid()
      ensures var rd := TargetRead(old(I3cStates()).At(a), length);
              Snapshot() == old(Snapshot()).(mems := old(I3cStates()).With(a, rd.0)) && data == rd.1
    {
      var t := I3cAt(a);
      ghost var m := t.Snapshot();
      data := t.Read(length);
      assert t.Snapshot() == TargetRead(m, length).0;
      assert I3cStates() == old(I3cStates()).With(a, TargetRead(m, length).0);
      assert I2cStates() == old(I2cStates());
    }

    /** `targets["83"].read(length)`: the sensor's read, which may raise. */
    method ReadSensor(length: nat, sample: nat) returns (result: Result<seq<int>>)
      requires Valid()
      modifies sensor`configurationRegister
      ensures Valid()
      ensures (Snapshot().sensor, result) == SensorRead(old(Snapshot()).sensor, length, sample)
      ensures Snapshot() == old(Snapshot()).(sensor := Snapshot().sensor)
    {
      result := sensor.Read(length, sample);
    }

    /** `i3cGETMRL` / `i3cGETMWL`, behind the guard. */
    method GetLimit(id: int, targetAddress: int, limit: Limit) returns (r: Result<Reply>)
      requires Valid()
      ensures r == GetLimitStep(Snapshot(), id, targetAddress, limit)
    {
      var g := CheckConditions(id, i3cBusStarted, i3cTargetTable, targetAddress);
      if g.Reject? {
        return Success(g.reply);
      }
      if g.staticAddress in MemoryAddresses {
        var t := I3cAt(g.staticAddress);
        var value;
        if limit == Mrl {
          value := t.GetMrl();
        } else {
          value := t.GetMwl();
        }
        r := Success(CccReply(id, 2, LimitKey(limit), Num(value)));
      } else if g.staticAddress == SensorAddress {
        r := Failure("AttributeError");
      } else {
        r := Failure("KeyError");
      }
    }

    /** `setMRL(value)` / `setMWL(value)` on the memory target at a. */
    method SetLimit(a: int, limit: Limit, value: nat)
      requires Valid() && a in MemoryAddresses
      modifies I3cAt(a)
      ensures Valid()
      ensures Snapshot() == old(Snapshot()).(mems := old(I3cStates()).With(a, WithLimit(old(I3cStates()).At(a), limit, value)))
    {
      var t := I3cAt(a);
      if limit == Mrl {
        t.SetMrl(value);
      } else {
        t.SetMwl(value);
      }
      assert I3cStates() == old(I3cStates()).With(a, WithLimit(old(I3cStates()).At(a), limit, value));
      assert I2cStates() == old(I2cStates());
    }

    /** `i3cDirectSETMRL` / `i3cDirectSETMWL`, behind the guard. */
    method DirectSetLimit(id: int, targetAddress: int, limit: Limit, value: nat) returns (r: Result<Reply>)
      requires Valid()
      modifies i3c80, i3c81, i3c82
      ensures Valid()
      ensures (Snapshot(), r) == DirectSetLimitStep(old(Snapshot()), id, targetAddress, limit, value)
    {
      var g := CheckConditions(id, i3cBusStarted, i3cTargetTable, targetAddress);
      if g.Reject? {
        return Success(g.reply);
      }
      if g.staticAddress in MemoryAddresses {
        SetLimit(g.staticAddress, limit, value);
        r := Success(CccReply(id, 2, "data", Bytes([0, 0])));
      } else if g.staticAddress == SensorAddress {
        r := Failure("AttributeError");
      } else {
        r := Failure("KeyError");
      }
    }

    /** `i3cBroadcastSETMRL` / `i3cBroadcastSETMWL`: behind the guard (which
        takes the push-pull rate for the target address), every target in
        dictionary order takes the limit, and the sensor, last, has no setter. */
    method BroadcastSetLimit(id: int, pushPullRate: int, limit: Limit, value: nat) returns (r: Result<Reply>)
      requires Valid()
      modifies i3c80, i3c81, i3c82
      ensures Valid()
      ensures (Snapshot(), r) == BroadcastSetLimitStep(old(Snapshot()), id, pushPullRate, limit, value)
    {
      var g := CheckConditions(id, i3cBusStarted, i3cTargetTable, pushPullRate);
      if g.Reject? {
        return Success(g.reply);
      }
      SetLimit(80, limit, value);
      SetLimit(81, limit, value);
      SetLimit(82, limit, value);
      r := Failure("AttributeError");
    }

    /** `i2cTargets[str(address)].write(buffer)`. */
    method WriteI2cTarget(address: int, buffer: seq<Byte>) returns (raised: bool)
      requires Valid() && address in MemoryAddresses
      modifies I2cAt(address).memModule, I2cAt(address).memModule.memory
      ensures Valid()
      ensures Snapshot() == old(Snapshot()).(i2c := old(I2cStates()).With(address, AfterWrite(2, old(I2cStates()).At(address), buffer, false)))
      ensures raised == WriteRaises(2, old(I2cStates()).At(address), buffer, false)
    {
      var t := I2cAt(address);
      ghost var m := AfterWrite(2, t.memModule.State(), buffer, false);
      raised := t.Write(buffer, false);
      assert I2cStates() == old(I2cStates()).With(address, m);
      assert I3cStates() == old(I3cStates());
    }

    /** `i2cTargets[str(address)].read(length)`. */
    method ReadI2cTarget(address: int, length: nat) returns (data: seq<Byte>)
      requires Valid() && address in MemoryAddresses
      modifies I2cAt(address).memModule`subaddressIsSet
      ensures Valid()
      ensures var m := old(I2cStates()).At(address);
              Snapshot() == old(Snapshot()).(i2c := old(I2cStates()).With(address, m.(latched := false))) &&
              data == ReadResult(m, length)
    {
      var t := I2cAt(address);
      ghost var m := t.memModule.State();
      data := t.Read(length);
      assert I2cStates() == old(I2cStates()).With(address, m.(latched := false));
      assert I3cStates() == old(I3cStates());
    }

    /** `i2cWrite`: an unknown address is a key error. */
    method I2cWrite(id: int, address: int, registerAddress: seq<Byte>, data: seq<Byte>) returns (r: Result<Reply>)
      requires Valid()
      modifies I2cWritable()
      ensures Valid()
      ensures (Snapshot(), r) == I2cWriteStep(old(Snapshot()), id, address, registerAddress, data)
    {
      if address !in MemoryAddresses {
        return Failure("KeyError");
      }
      var raised;
      if |registerAddress| == 0 {
        raised := WriteI2cTarget(address, data);
      } else {
        raised := WriteI2cTarget(address, registerAddress + data);
      }
      r := if raised then Failure("IndexError") else Success(I2cWriteDone(id, |data|));
    }

    /** `i2cRead`: the bytes at the latched subaddress, or 0xFF filler. */
    method I2cRead(id: int, address: int, length: nat) returns (r: Result<Reply>)
      requires Valid()
      modifies I2cWritable()
      ensures Valid()
      ensures (Snapshot(), r) == I2cReadStep(old(Snapshot()), id, address, length)
    {
      if address !in MemoryAddresses {
        return Failure("KeyError");
      }
      var data := ReadI2cTarget(address, length);
      r := Success(I2cReadDone(id, length, data));
    }

    /** `i2cReadFrom`: the register address is written, then the data read. */
    method I2cReadFrom(id: int, address: int, registerAddress: seq<Byte>, length: nat) returns (r: Result<Reply>)
      requires Valid()
      modifies I2cWritable()
      ensures Valid()
      ensures (Snapshot(), r) == I2cReadFromStep(old(Snapshot()), id, address, registerAddress, length)
    {
      if address !in MemoryAddresses {
        return Failure("KeyError");
      }
      var raised := WriteI2cTarget(address, registerAddress);
      if raised {
        return Failure("IndexError");
      }
      var data := ReadI2cTarget(address, length);
      r := Success(I2cReadFromDone(id, length, data));
    }
  }
}
