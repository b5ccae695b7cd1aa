# SupernovaController in Dafny

This project models the core of SupernovaController. SupernovaController is a Python blocking layer over the Binho Supernova USB host adapter, and the repository ships simulated hardware that its tests run against. The model covers three groups.

- **Session and response routing** (`session.dfy`, module `Session`).
  - The transfer-id generator.
  - `SupernovaDevice.open`: detecting an open failure and parsing the device-information strings.
  - The transport callback, which appends to the response queue.
  - The per-message routing step: a message is dropped, consumed by the sequencer, or put on the notification queue.
  - `close`.
  - The two queues are sequences. The pull loop is one step function. The controller's "handled" verdict is a parameter.
- **Per-protocol interfaces.**
  - `spi_controller.py` (module `SpiController`): merging optional parameters into six stored fields, the completeness check, reply classification, and the bus voltage, which is committed or cleared.
  - `gpio.py` (module `Gpio`): choosing the voltage command from the hardware-version prefix, and the `configured_pins` map, which changes only on success.
  - `i3c_target.py` (module `I3cTarget`): the notification handler's one-slot wait handle, the four result classifiers, and the key stripping done before a notification is handed out.
  - Every `sync_submit` is a `Submitted<R>` parameter. It holds either the first reply or the exception raised. Every result is an `Outcome`: `Returned(ok, value)` or `BackendError(cause)`.
- **Simulated hardware.**
  - The byte-addressable memory with a latched subaddress and wrap-around (module `SimulatedMemory`).
  - The I3C memory target with MRL/MWL clamping, and the I2C memory (modules `I3cTargetMemories` and `I2cTargetMemories`).
  - The P3T1085UK temperature sensor's register file and bit helpers (module `TemperatureSensor`).
  - The Supernova simulator: the I3C target table, the bus guard, the transfers, the MRL/MWL commands and the I2C commands (module `SupernovaSimulator`).
  - The Nova simulator's pin table, pins, I2C, SPI echo and 1-Wire device (module `NovaSimulator`).

Objects the source updates in place are classes. Their methods are proved against functions on a value snapshot of the state, of the form `(Snapshot(), reply) == Step(old(Snapshot()), ...)`. The properties the source promises are proved as lemmas about those functions: round trips, guards, address assignment and idempotence. The simulated memory's cells are an `array` written by index loops, as in the source. The 1-Wire memory and the Nova pin table are arrays too. Values that the source gets from the outside world are parameters:

- the driver's replies;
- a notification arriving during a wait;
- the sensor's temperature sample.

## Model

| member | source | states |
|---|---|---|
| Session.IdsIncreaseByOne | supernovacontroller/sequential/supernova_device.py:10-19 | the ids of a generator started at `start` go up by exactly one each, so they are strictly increasing and never repeat; a default session's first id is 1 |
| Session.IdGenerator.constructor | supernovacontroller/sequential/supernova_device.py:10-11 | the counter starts at `start` |
| Session.IdGenerator.Next | supernovacontroller/sequential/supernova_device.py:12-14 | the id handed out is one more than the last, and it becomes the last |
| Session.IdGenerator.Take | supernovacontroller/sequential/supernova_device.py:10-14 | n successive ids are exactly `start+1 … start+n` after the previous last id, and the counter advances by n |
| Session.DropTag | supernovacontroller/sequential/supernova_device.py:48-50 | the field is the USB string without its first three characters (a string of three characters or fewer gives the empty string) |
| Session.ProcessDeviceInfo | supernovacontroller/sequential/supernova_device.py:47-56 | parsing succeeds iff there are at least three replies, each with a message; each field is the matching message with its tag dropped; the replies are read in order, and the first one that is missing gives IndexError, or the first one without a message gives KeyError |
| Session.SupernovaDevice.constructor | supernovacontroller/sequential/supernova_device.py:18-29 | the generator starts at `start_id`, both queues are empty, the session is running, and no interface exists yet |
| Session.SupernovaDevice.Open | supernovacontroller/sequential/supernova_device.py:31-58 | an OPEN_CONNECTION_FAIL code raises DeviceOpenError with the driver's message and registers nothing; otherwise the callback is registered, fresh I2C/I3C interfaces are built, and the outcome is the parsed device information or the error raised while getting or parsing it |
| Session.SupernovaDevice.PushResponse | supernovacontroller/sequential/supernova_device.py:60-61 | the callback appends the unchanged event to the response queue and changes nothing else |
| Session.RouteOf | supernovacontroller/sequential/supernova_device.py:71-85 | a missing response is dropped; a handled one goes to the sequencer; an unhandled one goes on the notification queue iff its name is "I3C TRANSFER" |
| Session.SupernovaDevice.ProcessResponse | supernovacontroller/sequential/supernova_device.py:71-85 | every present response is offered to the controller; the notification queue grows by the event exactly when it is routed there |
| Session.ForwardedExactly | supernovacontroller/sequential/supernova_device.py:71-85 | over a run of events, the notification queue holds exactly the events routed to it: an event is forwarded iff some unhandled occurrence of it is named "I3C TRANSFER" |
| Session.ForwardedBounded | supernovacontroller/sequential/supernova_device.py:75-79 | no more events are forwarded than arrive, and when every response is handled nothing is forwarded |
| Session.SupernovaDevice.Pull | supernovacontroller/sequential/supernova_device.py:63-69 | a stopped session does nothing; an empty queue times out with no change; otherwise the queue head is removed and routed as `RouteOf` says |
| Session.SupernovaDevice.Close | supernovacontroller/sequential/supernova_device.py:103-105 | the session is no longer running, so the pull loop stops at its next check |
| SpiController.Merge | supernovacontroller/sequential/spi_controller.py:56-60 | each field is overwritten exactly when its argument is given (the frequency only when it is non-zero); the data width is never touched; complete parameters stay complete |
| SpiController.MergeIdempotent | supernovacontroller/sequential/spi_controller.py:56-60 | storing the same arguments twice is storing them once, and storing no arguments changes nothing |
| SpiController.MergeAllComplete | supernovacontroller/sequential/spi_controller.py:30-60 | from the defaults, any sequence of stores leaves all six fields set and the data width 8 bits, so the incomplete-parameter branches can never be taken |
| SpiController.SpiControllerInterface.constructor | supernovacontroller/sequential/spi_controller.py:30-36 | the defaults are MSB first, mode 0, 8-bit data, chip select 0, active low and 10 MHz; the bus voltage is unset |
| SpiController.SpiControllerInterface.StoreParameters | supernovacontroller/sequential/spi_controller.py:56-60 | the stored parameters become the merge of the old ones with the arguments |
| SpiController.SpiControllerInterface.SetBusVoltage | supernovacontroller/sequential/spi_controller.py:128-148 | an exception is re-raised as BackendError and leaves the voltage alone; a reply named "SET I2C-SPI-UART BUS VOLTAGE" with result 0 returns (True, v) and stores v; any other reply returns (False, "Set bus voltage failed") and clears the voltage |
| SpiController.SpiControllerInterface.InitBus | supernovacontroller/sequential/spi_controller.py:180-199 | the arguments are stored before anything is sent; incomplete parameters fail without a submission; otherwise the outcome is the BackendError, or success iff the reply has the init command's name and is correct |
| SpiController.SpiControllerInterface.SetParameters | supernovacontroller/sequential/spi_controller.py:231-250 | the same shape as InitBus, with the set-parameters command's name and messages |
| SpiController.SpiControllerInterface.GetParameters | supernovacontroller/sequential/spi_controller.py:267 | always succeeds, reporting the six stored fields |
| SpiController.SpiControllerInterface.Transfer | supernovacontroller/sequential/spi_controller.py:288-300 | success iff the reply has the transfer command's name and is correct (USB, manager and driver errors as required); it returns the payload on success and None otherwise |
| Gpio.HardwareVersion | supernovacontroller/sequential/gpio.py:28-37 | the version is the GET USB STRING reply's message; an exception or any other reply is a BackendError |
| Gpio.NewGpioInterface | supernovacontroller/sequential/gpio.py:15-37 | construction succeeds iff the hardware version can be read; the new interface has that version, no configured pins and no bus voltage |
| Gpio.GpioInterface.constructor | supernovacontroller/sequential/gpio.py:17-19 | no pin is configured, the bus voltage is unset, and the version is the one given |
| Gpio.VoltageCommandFor | supernovacontroller/sequential/gpio.py:66-73 | versions starting "HW-B" use the I2C-SPI-UART voltage command, versions starting "HW-C" (and not "HW-B") use the I3C one, and no other version has a command |
| Gpio.Acknowledge | supernovacontroller/sequential/gpio.py:101-105 | a GPIO reply succeeds iff it carries the command's name and USB, manager and driver report no error; an exception is a BackendError |
| Gpio.GpioInterface.SetBusVoltage | supernovacontroller/sequential/gpio.py:64-89 | an unknown version raises before anything is sent; success iff the reply has the chosen command's name and result 0, and then the voltage is stored; on failure it is left unchanged |
| Gpio.GpioInterface.ConfigurePin | supernovacontroller/sequential/gpio.py:120-132 | the pin's functionality is recorded exactly when the command succeeds; the map is otherwise unchanged |
| Gpio.GpioInterface.DigitalWrite | supernovacontroller/sequential/gpio.py:147-156 | (ok, "Success" or the failure message) with ok iff the reply is a correct GPIO DIGITAL WRITE; no state changes |
| Gpio.GpioInterface.DigitalRead | supernovacontroller/sequential/gpio.py:170-181 | a correct GPIO DIGITAL READ returns (True, the logic level), any other reply returns (False, the failure message) |
| Gpio.GpioInterface.SetInterrupt | supernovacontroller/sequential/gpio.py:196-205 | (ok, message) with ok iff the reply is a correct GPIO SET INTERRUPT; no state changes |
| Gpio.GpioInterface.DisableInterrupt | supernovacontroller/sequential/gpio.py:219-228 | (ok, message) with ok iff the reply is a correct GPIO DISABLE INTERRUPT; no state changes |
| I3cTarget.IsTargetNotification | supernovacontroller/sequential/i3c_target.py:73-75 | a message passes the filter iff its name is exactly "I3C TARGET NOTIFICATION"; a message with no name is a KeyError |
| I3cTarget.AfterHandle | supernovacontroller/sequential/i3c_target.py:91-93 | handling stores the message and leaves the handler consistent |
| I3cTarget.WaitSpec | supernovacontroller/sequential/i3c_target.py:48-58 | a wait succeeds iff a notification was handled before it or arrives during it; it returns a message iff it succeeds; `modified` is down afterwards and consistency is kept |
| I3cTarget.EarlyNotificationDelivered | supernovacontroller/sequential/i3c_target.py:48-58 | a notification handled before the wait is returned by it, whatever happens during the wait |
| I3cTarget.EarlyNotificationDeliveredTwice | supernovacontroller/sequential/i3c_target.py:48-58 | because the early path leaves the event set, the next wait returns the same notification again with no new arrival; only the third wait times out and resets the handler |
| I3cTarget.NotificationDuringWaitDeliveredOnce | supernovacontroller/sequential/i3c_target.py:48-58 | a notification arriving during a wait is returned once, and the next wait times out |
| I3cTarget.NotificationHandler.constructor | supernovacontroller/sequential/i3c_target.py:23-26 | the new handler has no message, `modified` down and the event clear, and it subscribes to "I3C TARGET NOTIFICATION" |
| I3cTarget.NotificationHandler.Handle | supernovacontroller/sequential/i3c_target.py:91-93 | the state becomes `AfterHandle` of the old state |
| I3cTarget.NotificationHandler.WaitForNotification | supernovacontroller/sequential/i3c_target.py:48-58 | the result and the new state are exactly what `Wait` gives for the old state and the arrival |
| I3cTarget.TargetInit | supernovacontroller/sequential/i3c_target.py:135-141 | success iff the result is I3C_TARGET_INIT_SUCCESS, with the source's two messages; an exception is a BackendError |
| I3cTarget.SetConfiguration | supernovacontroller/sequential/i3c_target.py:172-178 | success iff the result is I3C_TARGET_SET_CONF_SUCCESS, with the source's two messages |
| I3cTarget.WriteMemory | supernovacontroller/sequential/i3c_target.py:205-211 | success iff the result is I3C_TARGET_WRITE_MEM_SUCCESS; it returns None on success and the reply's error on failure |
| I3cTarget.ReadMemory | supernovacontroller/sequential/i3c_target.py:238-244 | success iff the result is I3C_TARGET_READ_MEM_SUCCESS; it returns the reply's data on success and its error on failure |
| I3cTarget.StripKeys | supernovacontroller/sequential/i3c_target.py:269-270 | exactly the entries other than id, command, name and target_address are kept, with their values |
| I3cTarget.StripKeysIdempotent | supernovacontroller/sequential/i3c_target.py:269-270 | stripping twice is stripping once, and a message with none of those keys is unchanged |
| I3cTarget.TargetInterface.constructor | supernovacontroller/sequential/i3c_target.py:98-102 | a two-byte memory layout and a new handler in its initial state |
| I3cTarget.TargetInterface.WaitForNotification | supernovacontroller/sequential/i3c_target.py:263-273 | a timeout returns (False, the timeout message); otherwise it returns the waited-for notification without its bookkeeping keys; the handler moves as `Wait` says |
| SimulatedMemory.SubaddressToInt | tests/deviceSimulators/targetDevices/simpleSimulatedMemory.py:11-13 | the big-endian value of n bytes is below 256^n |
| SimulatedMemory.SubaddressRoundTrip | tests/deviceSimulators/targetDevices/simpleSimulatedMemory.py:11-13 | the subaddress bytes of any n < 256^len read back as n |
| SimulatedMemory.SliceIndex | tests/deviceSimulators/targetDevices/simpleSimulatedMemory.py:28-30 | a slice bound stands for a position inside the list: a non-negative bound is clipped to the length, a negative one counts from the end and stops at 0 |
| SimulatedMemory.StoreInRange | tests/deviceSimulators/targetDevices/simpleSimulatedMemory.py:26-37 | from a subaddress inside the memory, data no longer than the memory is stored wrapped around without an error |
| SimulatedMemory.StoreRaises | tests/deviceSimulators/targetDevices/simpleSimulatedMemory.py:27-34 | the loops raise IndexError exactly when: from a subaddress s inside the memory, the data is longer than 2·memSize − s, and then every cell holds the data's tail; from a subaddress past the end that the first loop reaches, at once with no cell written; otherwise, when the data is longer than the memory |
| SimulatedMemory.OverlongWriteWrapsOnce | tests/deviceSimulators/targetDevices/simpleSimulatedMemory.py:27-34 | memSize + 1 bytes from cell 0 raise nothing: the last byte overwrites cell 0, and the rest stays |
| SimulatedMemory.WrappedWriteEffect | tests/deviceSimulators/targetDevices/simpleSimulatedMemory.py:26-37 | a data write stores byte i at (subaddress + i) mod memSize and leaves every other cell unchanged |
| SimulatedMemory.WrappedReadEffect | tests/deviceSimulators/targetDevices/simpleSimulatedMemory.py:46-50 | a latched read of n bytes returns the cells at (subaddress + i) mod memSize |
| SimulatedMemory.WrappedRoundTrip | tests/deviceSimulators/targetDevices/simpleSimulatedMemory.py:26-50 | reading back from the same subaddress returns the data written |
| SimulatedMemory.AfterWrite | tests/deviceSimulators/targetDevices/simpleSimulatedMemory.py:15-41 | every write (forced, address-plus-data, data only, or latch only), raising or not, keeps 256^size cells; an unforced write keeps a subaddress inside the memory inside it |
| SimulatedMemory.UnlatchedWriteInRange | tests/deviceSimulators/targetDevices/simpleSimulatedMemory.py:21-38 | an unlatched address-plus-data write with no more data than the memory latches nothing, takes the leading bytes as the subaddress and stores the data wrapped from there |
| SimulatedMemory.WriteRaises | tests/deviceSimulators/targetDevices/simpleSimulatedMemory.py:15-41 | only an unforced write that reaches the data loops can raise, and when it does the subaddress stays latched, since line 38 is never reached |
| SimulatedMemory.ReadResult | tests/deviceSimulators/targetDevices/simpleSimulatedMemory.py:43-52 | an unlatched read returns count bytes 255; a read from a subaddress inside the memory returns at most the requested count, and exactly that many when it fits the memory |
| SimulatedMemory.ReadPastEnd | tests/deviceSimulators/targetDevices/simpleSimulatedMemory.py:46-48 | a read from a forced subaddress s past the end returns the first s + count − memSize cells (all cells at most): longer than asked for when s > memSize |
| SimulatedMemory.WriteLatchReadRoundTrip | tests/deviceSimulators/targetDevices/simpleSimulatedMemory.py:15-52 | write(a ++ d), then write(a), then read(\|d\|) returns d, and neither write raises |
| SimulatedMemory.SimpleMemory.constructor | tests/deviceSimulators/targetDevices/simpleSimulatedMemory.py:4-9 | 256^size zeroed cells, subaddress 0, nothing latched |
| SimulatedMemory.SimpleMemory.Write | tests/deviceSimulators/targetDevices/simpleSimulatedMemory.py:15-41 | the cells, subaddress and latch become `AfterWrite` of the old state, and it reports IndexError exactly when `WriteRaises` holds |
| SimulatedMemory.SimpleMemory.StoreWrapped | tests/deviceSimulators/targetDevices/simpleSimulatedMemory.py:26-37 | the index loops leave the cells, and raise or not, as `Store` says, for any subaddress and any data length |
| SimulatedMemory.SimpleMemory.Read | tests/deviceSimulators/targetDevices/simpleSimulatedMemory.py:43-52 | it returns `ReadResult` of the old state, for any subaddress, and only releases the latch; no cell changes |
| I3cTargetMemories.ClampWrite | tests/deviceSimulators/targetDevices/I3cTargetMemory.py:69-72 | the buffer passed on is a prefix of the original, of length min(\|buffer\|, mwl + 2) |
| I3cTargetMemories.ClampRead | tests/deviceSimulators/targetDevices/I3cTargetMemory.py:74-77 | min(bytesToRead, mrl) bytes are requested |
| I3cTargetMemories.ClampedWriteStores | tests/deviceSimulators/targetDevices/I3cTargetMemory.py:69-72 | an address-plus-data write through the clamp latches the address and stores the first min(data length, mwl) data bytes from there |
| I3cTargetMemories.ClampedWriteKeeps | tests/deviceSimulators/targetDevices/I3cTargetMemory.py:69-72 | cells at mwl or more past the new subaddress are unchanged |
| I3cTargetMemories.TargetWrite | tests/deviceSimulators/targetDevices/I3cTargetMemory.py:69-72 | the target's write is the memory's write of the clamped buffer; limits and device information stay, and a subaddress inside the memory stays inside it |
| I3cTargetMemories.ClampedWriteNeverRaises | tests/deviceSimulators/targetDevices/I3cTargetMemory.py:69-72 | with an MWL at least two below the memory size, a write through the target never raises IndexError |
| I3cTargetMemories.TargetRead | tests/deviceSimulators/targetDevices/I3cTargetMemory.py:74-77 | a read returns at most mrl and at most the requested bytes, and only releases the latch |
| I3cTargetMemories.I3cTargetMemory.constructor | tests/deviceSimulators/targetDevices/I3cTargetMemory.py:5-49 | a zeroed 65536-cell memory with a 2-byte subaddress, MRL 16, MWL 8, and the device information for its static address |
| I3cTargetMemories.I3cTargetMemory.SetDynamicAddress | tests/deviceSimulators/targetDevices/I3cTargetMemory.py:51-52 | the dynamic address is recorded in the device information; the other entries are unchanged |
| I3cTargetMemories.I3cTargetMemory.SetMrl | tests/deviceSimulators/targetDevices/I3cTargetMemory.py:54-55 | only the MRL changes |
| I3cTargetMemories.I3cTargetMemory.GetMrl | tests/deviceSimulators/targetDevices/I3cTargetMemory.py:57-58 | returns the MRL |
| I3cTargetMemories.I3cTargetMemory.SetMwl | tests/deviceSimulators/targetDevices/I3cTargetMemory.py:60-61 | only the MWL changes |
| I3cTargetMemories.I3cTargetMemory.GetMwl | tests/deviceSimulators/targetDevices/I3cTargetMemory.py:63-64 | returns the MWL |
| I3cTargetMemories.I3cTargetMemory.Write | tests/deviceSimulators/targetDevices/I3cTargetMemory.py:69-72 | the memory module takes the clamped buffer with the force flag unchanged, and its IndexError comes back |
| I3cTargetMemories.I3cTargetMemory.Read | tests/deviceSimulators/targetDevices/I3cTargetMemory.py:74-77 | the memory module is read for the clamped count; from a subaddress inside the memory the result is never longer than the MRL |
| I2cTargetMemories.I2cTargetMemory.constructor | tests/deviceSimulators/targetDevices/I2cTargetMemory.py:5-7 | a zeroed 65536-cell memory (2-byte subaddress) and a fixed address |
| I2cTargetMemories.I2cTargetMemory.Write | tests/deviceSimulators/targetDevices/I2cTargetMemory.py:9-10 | the buffer and force flag go to the memory module unchanged, and its IndexError comes back |
| I2cTargetMemories.I2cTargetMemory.Read | tests/deviceSimulators/targetDevices/I2cTargetMemory.py:12-13 | exactly the memory module's result |
| TemperatureSensor.GetBit | tests/deviceSimulators/targetDevices/SimulatedP3T1085UK.py:8-10 | a bit reads as 0 or 1 |
| TemperatureSensor.GetBitIsShiftedMask | tests/deviceSimulators/targetDevices/SimulatedP3T1085UK.py:8-10 | bit `pos` of `num` is `num / 2^pos` mod 2, which is what masking with `1 << pos` and shifting back gives |
| TemperatureSensor.GetBitOfSetBit | tests/deviceSimulators/targetDevices/SimulatedP3T1085UK.py:4-10 | the bit set reads back as the value given (as 0/1) |
| TemperatureSensor.GetBitOfSetOtherBit | tests/deviceSimulators/targetDevices/SimulatedP3T1085UK.py:4-10 | setting one bit leaves every other bit unchanged |
| TemperatureSensor.SetBitIsMask | tests/deviceSimulators/targetDevices/SimulatedP3T1085UK.py:4-6 | setting a bit adds or removes exactly 2^pos, the mask of `1 << pos` |
| TemperatureSensor.SetBitBounded | tests/deviceSimulators/targetDevices/SimulatedP3T1085UK.py:4-6 | setting a bit below the width keeps a number within that width |
| TemperatureSensor.IntListToInt | tests/deviceSimulators/targetDevices/SimulatedP3T1085UK.py:12-13 | two bytes give a 16-bit word whose high byte is the first and low byte the second |
| TemperatureSensor.IntToListInt | tests/deviceSimulators/targetDevices/SimulatedP3T1085UK.py:15-16 | a 16-bit word splits into two bytes that join back to it |
| TemperatureSensor.BinIntToTwosComplementInt | tests/deviceSimulators/targetDevices/SimulatedP3T1085UK.py:18-19 | the result is n mod 2^b: within [0, 2^b) and n itself when n already is |
| TemperatureSensor.TwosComplementIntToBinInt | tests/deviceSimulators/targetDevices/SimulatedP3T1085UK.py:21-24 | for 0 <= n < 2^b the result lies in [-2^(b-1), 2^(b-1)) and is n or n - 2^b |
| TemperatureSensor.TwosComplementRoundTrip | tests/deviceSimulators/targetDevices/SimulatedP3T1085UK.py:18-24 | encoding a signed b-bit value and decoding it gives the value back |
| TemperatureSensor.TemperatureWordRoundTrip | tests/deviceSimulators/targetDevices/SimulatedP3T1085UK.py:26-30 | a 12-bit temperature in sixteenths of a degree, left-aligned in a 16-bit word, is decoded back exactly |
| TemperatureSensor.ConfigAfterReadingEffect | tests/deviceSimulators/targetDevices/SimulatedP3T1085UK.py:146-155 | after a reading, bit 12 says "above the high limit", bit 11 says "below the low limit", every other bit is kept, and the register stays 16-bit |
| TemperatureSensor.RegisterBytes | tests/deviceSimulators/targetDevices/SimulatedP3T1085UK.py:130 | a register read is cut to the requested length, or padded with 0xFF past the two register bytes |
| TemperatureSensor.SensorWrite | tests/deviceSimulators/targetDevices/SimulatedP3T1085UK.py:133-144 | the pointer becomes data[0]; pointers 1-3 with two more bytes set that register to their big-endian value; any other pointer changes no register; empty data, or exactly one byte after pointer 1-3, is an IndexError |
| TemperatureSensor.SensorRead | tests/deviceSimulators/targetDevices/SimulatedP3T1085UK.py:116-131 | pointer 0 returns the sample and updates the limit flags; pointers 1-3 return the register and change nothing; any other pointer is an UnboundLocalError |
| TemperatureSensor.WriteThenReadRegister | tests/deviceSimulators/targetDevices/SimulatedP3T1085UK.py:116-144 | writing a register and reading two bytes returns the bytes written |
| TemperatureSensor.SimulatedP3T1085UK.constructor | tests/deviceSimulators/targetDevices/SimulatedP3T1085UK.py:64-111 | the power-on state: pointer 0, temperature 0, configuration 0x2210, low limit 0xB500, high limit 0x7FF0; dynamic address equal to the static one |
| TemperatureSensor.SimulatedP3T1085UK.ReadTemperature | tests/deviceSimulators/targetDevices/SimulatedP3T1085UK.py:146-155 | returns the sample and sets the two limit flags as `ConfigAfterReading` says |
| TemperatureSensor.SimulatedP3T1085UK.Read | tests/deviceSimulators/targetDevices/SimulatedP3T1085UK.py:116-131 | the result and new state are those of `SensorRead` |
| TemperatureSensor.SimulatedP3T1085UK.Write | tests/deviceSimulators/targetDevices/SimulatedP3T1085UK.py:133-144 | the raised error and new state are those of `SensorWrite` |
| TemperatureSensor.SimulatedP3T1085UK.SetDynamicAddress | tests/deviceSimulators/targetDevices/SimulatedP3T1085UK.py:157-160 | both the field and the device information take the new dynamic address |
| SupernovaSimulator.OpenAsWritten | tests/deviceSimulators/supernova.py:48-62 | opening succeeds iff the path is None or "SupernovaSimulatedPort"; the two messages are as the code returns them |
| SupernovaSimulator.OpenMessagesSwapped | tests/deviceSimulators/supernova.py:53-62 | the successful open reports the address hint and the failed one reports success |
| SupernovaSimulator.Open | tests/deviceSimulators/supernova.py:48-62 | opening succeeds iff the path is None or the simulated port; the success message is given iff it succeeds, the address hint iff it fails |
| SupernovaSimulator.Lookup | tests/deviceSimulators/supernova.py:147-148 | a table lookup finds an entry iff the address is a key |
| SupernovaSimulator.Put | tests/deviceSimulators/supernova.py:201 | storing under a key gives it the new value and leaves every other key alone; a new key goes at the end and an existing one keeps its place |
| SupernovaSimulator.PowerOn | tests/deviceSimulators/supernova.py:22-43 | the constructed simulator has the bus stopped, an empty table and well-formed targets |
| SupernovaSimulator.CheckConditions | tests/deviceSimulators/supernova.py:6-19 | a guarded command proceeds iff the bus is started and the address is in the table; before initialisation the reply is I3C_TRANSFER_FAIL with "Bus was not Initialized" under command 5; an unknown address gets "NACK_ERROR" under command 6 |
| SupernovaSimulator.InitBusTurn | tests/deviceSimulators/supernova.py:199-202 | one loop turn keeps the targets well formed and changes neither the bus flag nor the I2C memories |
| SupernovaSimulator.InitBusPartial | tests/deviceSimulators/supernova.py:199-202 | any number of turns keeps the targets well formed |
| SupernovaSimulator.InitBusStep | tests/deviceSimulators/supernova.py:197-211 | bus initialisation starts the bus and answers with the init-success reply |
| SupernovaSimulator.InitBusAssignsAddresses | tests/deviceSimulators/supernova.py:197-204 | the targets at 80, 81, 82 and the sensor at 83 take dynamic addresses 8, 9, 10, 11, and the table maps each to the target's updated device information |
| SupernovaSimulator.InitBusKeys | tests/deviceSimulators/supernova.py:197-204 | from an empty table the keys are exactly 8, 9, 10, 11, in that order |
| SupernovaSimulator.ClearFeatureStep | tests/deviceSimulators/supernova.py:213-222 | only address 0x7E with selector I3C_BUS empties the table and replies; the bus flag is unchanged; anything else changes nothing and sends nothing |
| SupernovaSimulator.DeviceTableReply | tests/deviceSimulators/supernova.py:224-234 | the number of targets is the table size, and the entries are the device information in table order |
| SupernovaSimulator.I3cWriteStep | tests/deviceSimulators/supernova.py:236-259 | a rejected command changes nothing and sends the guard's reply; a write never touches the table, the bus flag or the I2C memories; a memory target's IndexError is the result, with the cells already written kept |
| SupernovaSimulator.I3cReadStep | tests/deviceSimulators/supernova.py:261-285 | the same guard, and a read never touches the table, the bus flag or the I2C memories; a register write that raises ends the command before the read |
| SupernovaSimulator.I3cWriteReadRoundTrip | tests/deviceSimulators/supernova.py:236-285 | writing a register address and data to a memory target, then reading the data's length from that register address, returns the data, within MWL and MRL |
| SupernovaSimulator.GetLimitStep | tests/deviceSimulators/supernova.py:320-329 | GETMRL/GETMWL report the memory target's limit with data length 2; asking the sensor raises AttributeError |
| SupernovaSimulator.DirectSetLimitStep | tests/deviceSimulators/supernova.py:331-340 | direct SETMRL/SETMWL change only the addressed memory target's limit and reply with data [0, 0] |
| SupernovaSimulator.SetThenGetLimit | tests/deviceSimulators/supernova.py:320-340 | a direct SET of a limit followed by the GET of it reports the value set |
| SupernovaSimulator.BroadcastSetLimitStep | tests/deviceSimulators/supernova.py:342-350 | past the guard (which reads the push-pull rate as the address) every memory target takes the limit, and then the sensor raises AttributeError, so no reply is sent |
| SupernovaSimulator.I2cWriteStep | tests/deviceSimulators/supernova.py:104-116 | an unknown address is a KeyError and changes nothing; otherwise only the addressed I2C memory changes, by `AfterWrite` of the register address and data, and the result is IndexError exactly when that write raises |
| SupernovaSimulator.I2cReadStep | tests/deviceSimulators/supernova.py:121-130 | an unknown address is a KeyError; otherwise no I3C state changes |
| SupernovaSimulator.I2cReadFromStep | tests/deviceSimulators/supernova.py:133-143 | an unknown address is a KeyError; otherwise no I3C state changes, and the result is IndexError exactly when the register write raises |
| SupernovaSimulator.I2cWriteReadRoundTrip | tests/deviceSimulators/supernova.py:104-143 | an I2C write with a two-byte register address, then a read-from of the same address, returns the data |
| SupernovaSimulator.BinhoSupernovaSimulator.constructor | tests/deviceSimulators/supernova.py:22-43 | the snapshot is the power-on state |
| SupernovaSimulator.BinhoSupernovaSimulator.I3cInitBus | tests/deviceSimulators/supernova.py:197-211 | the loop over the four targets leaves exactly the state and reply of `InitBusStep` |
| SupernovaSimulator.BinhoSupernovaSimulator.I3cClearFeature | tests/deviceSimulators/supernova.py:213-222 | state and reply as `ClearFeatureStep` says |
| SupernovaSimulator.BinhoSupernovaSimulator.GetTargetDeviceTable | tests/deviceSimulators/supernova.py:224-234 | the collecting loop builds exactly `DeviceTableReply` |
| SupernovaSimulator.BinhoSupernovaSimulator.I3cWrite | tests/deviceSimulators/supernova.py:236-259 | state and reply as `I3cWriteStep` says |
| SupernovaSimulator.BinhoSupernovaSimulator.I3cRead | tests/deviceSimulators/supernova.py:261-285 | state and reply as `I3cReadStep` says |
| SupernovaSimulator.BinhoSupernovaSimulator.GetLimit | tests/deviceSimulators/supernova.py:320-329 | the reply is `GetLimitStep` of the state |
| SupernovaSimulator.BinhoSupernovaSimulator.DirectSetLimit | tests/deviceSimulators/supernova.py:331-340 | state and reply as `DirectSetLimitStep` says |
| SupernovaSimulator.BinhoSupernovaSimulator.BroadcastSetLimit | tests/deviceSimulators/supernova.py:342-350 | state and result as `BroadcastSetLimitStep` says |
| SupernovaSimulator.BinhoSupernovaSimulator.I2cWrite | tests/deviceSimulators/supernova.py:104-116 | state and reply as `I2cWriteStep` says |
| SupernovaSimulator.BinhoSupernovaSimulator.I2cRead | tests/deviceSimulators/supernova.py:121-130 | state and reply as `I2cReadStep` says |
| SupernovaSimulator.BinhoSupernovaSimulator.I2cReadFrom | tests/deviceSimulators/supernova.py:133-143 | state and reply as `I2cReadFromStep` says |
| NovaSimulator.MarkUnused | tests/deviceSimulators/nova.py:48-51 | a string without the "IO" prefix changes nothing; "IOn" clears only entry n; a missing or out-of-range digit is an IndexError, a non-digit a ValueError |
| NovaSimulator.MarkOwnNameClears | tests/deviceSimulators/nova.py:38-42 | marking "IOi" unused clears entry i and keeps the others |
| NovaSimulator.Gpio.constructor | tests/deviceSimulators/nova.py:45-46 | no pin is in use |
| NovaSimulator.Gpio.MarkPinAsUnused | tests/deviceSimulators/nova.py:48-51 | the table and the error are those of `MarkUnused` |
| NovaSimulator.PinRead | tests/deviceSimulators/nova.py:60-66 | in "DIN" mode a pin reads its number mod 2; in "AIN" mode 3.3 for odd pins and 0 for even ones; otherwise the stored value |
| NovaSimulator.GpioPin.constructor | tests/deviceSimulators/nova.py:54-58 | no mode, stored value "0", no PWM frequency, and the pin number given |
| NovaSimulator.GpioPin.Value | tests/deviceSimulators/nova.py:60-66 | the getter returns `PinRead` and stores it |
| NovaSimulator.GpioPin.SetValue | tests/deviceSimulators/nova.py:68-70 | the setter changes nothing |
| NovaSimulator.I2cWriteStep | tests/deviceSimulators/nova.py:84-86 | an unknown address is a KeyError; otherwise only the addressed memory takes the unforced write, and the error is IndexError exactly when that write raises |
| NovaSimulator.I2cReadStep | tests/deviceSimulators/nova.py:88-89 | an unknown address is a KeyError; otherwise the addressed memory's read, which only releases its latch |
| NovaSimulator.I2cTransferStep | tests/deviceSimulators/nova.py:91-93 | a transfer latches any subaddress, even one past the end, and returns the wrapped read from there; only that memory's subaddress changes |
| NovaSimulator.TransferReadsAtSubaddress | tests/deviceSimulators/nova.py:91-93 | a transfer from a two-byte subaddress returns count cells from it, wrapping at the end, and changes no cell |
| NovaSimulator.I2c.constructor | tests/deviceSimulators/nova.py:73-79 | four zeroed memories at 80, 81, 82 and 83 |
| NovaSimulator.I2c.Scan | tests/deviceSimulators/nova.py:81-82 | the addresses are [80, 81, 82, 83] |
| NovaSimulator.I2c.Write | tests/deviceSimulators/nova.py:84-86 | state and error as `I2cWriteStep` says |
| NovaSimulator.I2c.Read | tests/deviceSimulators/nova.py:88-89 | state and result as `I2cReadStep` says |
| NovaSimulator.I2c.Transfer | tests/deviceSimulators/nova.py:91-93 | state and result as `I2cTransferStep` says |
| NovaSimulator.SpiEcho | tests/deviceSimulators/nova.py:105-112 | exactly bytesToRead bytes: the write buffer's own bytes first and zeros after them |
| NovaSimulator.Spi.constructor | tests/deviceSimulators/nova.py:96-100 | mode 0, 2 MHz, MSB first, 8 bits per transfer |
| NovaSimulator.Spi.Transfer | tests/deviceSimulators/nova.py:105-112 | the copying loop returns `SpiEcho` |
| NovaSimulator.OneWireWrite | tests/deviceSimulators/nova.py:144-146 | cell i takes byte i of the buffer and the rest are unchanged; a buffer longer than the memory fills every cell and then raises IndexError |
| NovaSimulator.OneWireRead | tests/deviceSimulators/nova.py:148-151 | the first bytesToRead cells, or [0] when more are asked for than there are |
| NovaSimulator.OneWireWriteThenRead | tests/deviceSimulators/nova.py:144-151 | reading back as many bytes as were written returns them |
| NovaSimulator.OneWireDevice.constructor | tests/deviceSimulators/nova.py:139-142 | the address given and memSize zeroed cells |
| NovaSimulator.OneWireDevice.Write | tests/deviceSimulators/nova.py:144-146 | the cells and the error are those of `OneWireWrite` |
| NovaSimulator.OneWireDevice.Read | tests/deviceSimulators/nova.py:148-151 | the result is `OneWireRead` of the cells |
| NovaSimulator.OneWire.constructor | tests/deviceSimulators/nova.py:115-119 | channel 0, no pull-ups, and the one 200-byte device with its fixed id |
| NovaSimulator.OneWire.Begin | tests/deviceSimulators/nova.py:121-123 | only the channel and the pull-up flag change |
| NovaSimulator.OneWire.Search | tests/deviceSimulators/nova.py:125-126 | the one device id |
| NovaSimulator.OneWire.Write | tests/deviceSimulators/nova.py:128-129 | the device's write |
| NovaSimulator.OneWire.Read | tests/deviceSimulators/nova.py:131-132 | the device's read |
| NovaSimulator.OneWire.Transfer | tests/deviceSimulators/nova.py:134-136 | the device's write, then its read unless the write raised |
| NovaSimulator.BinhoNovaSimulator.NewGpioPins | tests/deviceSimulators/nova.py:15-21 | pins IO0 to IO4, each with its own number, no mode and stored value "0" |
| NovaSimulator.BinhoNovaSimulator.constructor | tests/deviceSimulators/nova.py:4-25 | five numbered pins, no pin in use, valid I2C memories, and the 1-Wire bus on channel 0 with a zeroed device |
| NovaSimulator.BinhoNovaSimulator.ReleaseAllPins | tests/deviceSimulators/nova.py:31-42 | after "IO0" to "IO4" are marked unused in turn, no pin is in use |
| NovaSimulator.BinhoNovaSimulator.Close | tests/deviceSimulators/nova.py:27-29 | every pin is released |

## Left out

- Threads, queues and blocking are not modelled: the daemon pull thread, `SimpleQueue.get(timeout=1)` and `threading.Event.wait`. The pull loop is one step, `Pull`, and the queues are sequences. A timeout is a parameter: an empty queue, or `arrival == None` in the wait handle.
- `Session.SupernovaDevice.Pull` does not model the pull thread dying. In Python the loop catches only `queue.Empty`. A response without `id` or `name`, or an exception from `handle_response`, ends the daemon thread, and nothing is routed after that. In the model every response has an `id` and a `name`, and the controller's verdict is a boolean that cannot raise.
- The external `TransferController` and the `BinhoSupernova` driver are not part of this model. Their replies are parameters. The controller's verdict on whether it handled a response is a boolean parameter. Matching ids to batches, and `invoke_sync`, are not modelled.
- `Session.SupernovaDevice.Open`: only the first reply of `sync_submit` is modelled, as it is everywhere else. The three version strings are one `Submitted` list.
- `supernovacontroller/sequential/i3c.py` and `i2c.py` are not modelled. The first holds only stubs; the second passes `sync_submit` through unchanged.
- `supernovacontroller/errors/*` holds only exception classes. Each exception is its name as a string.
- The GPIO `wait_for_notification` is not modelled. It reads a field that is never assigned.
- Floating point and randomness are not modelled: `TemperatureGenerator`, `randomTemperature` and `twosComplementToFloat`. The sensor's temperature is a `sample` parameter, compared in exact sixteenths of a degree. Nova's analog 3.3 is the tag `Analog3V3`.
- The other simulator commands are not part of this model: the USB strings, the voltage commands, `i2cSetParameters`, GETPID/GETBCR/GETDCR and `i2cWriteNonStop`. GETPID, GETBCR and GETDCR pass the same bus and address guard as the modelled I3C commands, which can answer "Bus was not Initialized" or a NACK error. They then report the target's PID (as hex strings), BCR and DCR (as a hex string) from its device information. `i2cWriteNonStop` sends no reply at all.
- `SpiController.Merge` treats every enum argument as given. Python tests the argument's truth value, and an `IntEnum` member equal to 0 (for example a mode-0 member) is false there, so the source would keep the old value. The model stores it.
- The reply records keep the fields the model reads. Constant payloads, such as I2C WRITE's zero payload, are left out.
- The simulator's `i3cTargets` (keys 80 to 83) and `i2cTargets` (keys 80 to 82) dictionaries are fixed records, because the source never adds or removes a key. The target table is a sequence of entries with a dictionary's insertion order.
- GETMRL/GETMWL and the SETMRL/SETMWL pairs are one operation each, selected by a `Limit` argument, because their bodies are the same apart from the field.
- MRL and MWL are `nat`. The source stores any Python integer.
- `SupernovaSimulator.BinhoSupernovaSimulator.constructor` states the power-on snapshot but not that the target objects are fresh.
- `NovaSimulator.BinhoNovaSimulator.constructor` states the pins, the pin table, the I2C validity and the 1-Wire state. It does not state the SPI settings or the I2C contents, which its `Spi.constructor` and `I2c.constructor` state.
- `NovaSimulator.MarkUnused` reads a pin character as a pin number for '0' to '9' only. Python's `int` also accepts other Unicode digits.
- Nova's identity strings and flags (`deviceID`, `firmwareVersion` and the like) are not modelled, and neither is `autoCSConfig`, which does nothing. `close` returning `{}` is not modelled.
- Some definitions have no contract of their own and no row. The rows citing the same lines state their properties:
  - `Session.Forwarded`, through `Session.ForwardedExactly` and `Session.ForwardedBounded`;
  - `SpiController.Complete`, `Or` and `FrequencyOr`, through `SpiController.Merge` and `SpiController.MergeAllComplete`;
  - `SpiController.ReplyCorrect`, through the `SpiControllerInterface` rows for `SetBusVoltage`, `InitBus`, `SetParameters` and `Transfer`;
  - `Gpio.ReplyCorrect` and `Gpio.ExpectedName`, through `Gpio.Acknowledge` and the `GpioInterface` rows;
  - `TemperatureSensor.SetBit`, through `GetBitOfSetBit`, `GetBitOfSetOtherBit`, `SetBitIsMask` and `SetBitBounded`;
  - `TemperatureSensor.Sixteenths`, through `TwosComplementIntToBinInt` and `TemperatureWordRoundTrip`;
  - `TemperatureSensor.ConfigAfterReading`, through `ConfigAfterReadingEffect`;
  - `I3cTarget.Wait`, through `WaitSpec` and the three delivery lemmas;
  - `SimulatedMemory.Store`, through `StoreInRange`, `StoreRaises`, `OverlongWriteWrapsOnce` and `SimpleMemory.StoreWrapped`;
  - `I3cTargetMemories.TargetWriteRaises`, through `ClampedWriteNeverRaises` and `I3cTargetMemory.Write`;
  - the two `GetDeviceInfo` getters, which return the stored record and are stated through the constructor and `SetDynamicAddress` rows.
- Parameters the source receives but never reads (transfer modes, rates, the 1-Wire command) are dropped from the signatures.

## Findings

| source | as written | input that shows it | evidently intended | confidence | as-written member | corrected member |
|---|---|---|---|---|---|---|
| tests/deviceSimulators/supernova.py:53-62 | a failed open returns the message "Connection with Supernova device opened successfully.", and a successful one returns "Simulator address should be SupernovaSimulatedPort" | `open(path="COM3")` | the success message on success, and the address hint on failure | not executed | SupernovaSimulator.OpenMessagesSwapped | SupernovaSimulator.Open |
