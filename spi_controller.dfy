/** The blocking SPI controller interface: six communication parameters kept
    on the host, merged with each request's optional arguments, and the
    classification of the device's replies. */
module SpiController {
  import opened Common

  datatype BitOrder = Msb | Lsb
  datatype SpiMode = Mode0 | Mode1 | Mode2 | Mode3
  datatype DataWidth = EightBits | SixteenBits
  datatype ChipSelect = ChipSelect0 | ChipSelect1 | ChipSelect2 | ChipSelect3
  datatype ChipSelectPolarity = ActiveLow | ActiveHigh

  /** The names the device gives its replies to the three SPI commands. */
  const InitName := "SPI CONTROLLER INIT"
  const SetParametersName := "SPI CONTROLLER SET PARAMETERS"
  const TransferName := "SPI CONTROLLER TRANSFER"
  const BusVoltageName := "SET I2C-SPI-UART BUS VOLTAGE"

  /** The six stored parameters; `None` stands for Python's `None`. */
  datatype Parameters = Parameters(
    bitOrder: Option<BitOrder>,
    mode: Option<SpiMode>,
    dataWidth: Option<DataWidth>,
    chipSelect: Option<ChipSelect>,
    chipSelectPol: Option<ChipSelectPolarity>,
    frequency: Option<int>)

  /** The optional arguments of `init_bus` and `set_parameters` (`None` when not given). */
  datatype Request = Request(
    bitOrder: Option<BitOrder>,
    mode: Option<SpiMode>,
    chipSelect: Option<ChipSelect>,
    chipSelectPol: Option<ChipSelectPolarity>,
    frequency: Option<int>)

  /** The parameters of a new interface: MSB first, mode 0, 8-bit data, chip
      select 0, active low, 10 MHz. */
  const Defaults := Parameters(Some(Msb), Some(Mode0), Some(EightBits), Some(ChipSelect0), Some(ActiveLow), Some(10000000))

  /** `__check_data_complete`: no parameter is `None`. */
  predicate Complete(p: Parameters) {
    p.bitOrder.Some? && p.mode.Some? && p.dataWidth.Some? && p.chipSelect.Some? &&
    p.chipSelectPol.Some? && p.frequency.Some?
  }

  /** `arg or current` for an enumeration argument (every member is truthy). */
  function Or<T>(arg: Option<T>, current: Option<T>): Option<T> {
    if arg.Some? then arg else current
  }

  /** `frequency or current`: a frequency of 0 is falsy and keeps the current one. */
  function FrequencyOr(arg: Option<int>, current: Option<int>): Option<int> {
    if arg.Some? && arg.value != 0 then arg else current
  }

  /** `__store_parameters`: a given (truthy) argument replaces its parameter,
      anything else keeps the stored value, and the data width is never touched. */
  function Merge(p: Parameters, req: Request): (r: Parameters)
    ensures r.dataWidth == p.dataWidth
    ensures Complete(p) ==> Complete(r)
    ensures r.bitOrder == (if req.bitOrder.Some? then req.bitOrder else p.bitOrder)
    ensures r.mode == (if req.mode.Some? then req.mode else p.mode)
    ensures r.chipSelect == (if req.chipSelect.Some? then req.chipSelect else p.chipSelect)
    ensures r.chipSelectPol == (if req.chipSelectPol.Some? then req.chipSelectPol else p.chipSelectPol)
    ensures r.frequency == (if req.frequency.Some? && req.frequency.value != 0 then req.frequency else p.frequency)
  {
    Parameters(Or(req.bitOrder, p.bitOrder), Or(req.mode, p.mode), p.dataWidth,
               Or(req.chipSelect, p.chipSelect), Or(req.chipSelectPol, p.chipSelectPol),
               FrequencyOr(req.frequency, p.frequency))
  }

  /** Merging the same request twice is merging it once; an empty request changes nothing. */
  lemma MergeIdempotent(p: Parameters, req: Request)
    ensures Merge(Merge(p, req), req) == Merge(p, req)
    ensures Merge(p, Request(None, None, None, None, None)) == p
  {
  }

  /** The invariant: starting from the defaults, no sequence of requests ever
      leaves a parameter `None`, so the "incomplete parameters" branches are unreachable. */
  function MergeAll(p: Parameters, reqs: seq<Request>): Parameters {
    if reqs == [] then p else Merge(MergeAll(p, reqs[..|reqs| - 1]), reqs[|reqs| - 1])
  }

  lemma {:induction false} MergeAllComplete(reqs: seq<Request>)
    ensures Complete(MergeAll(Defaults, reqs))
    ensures MergeAll(Defaults, reqs).dataWidth == Some(EightBits)
  {
    if reqs != [] {
      MergeAllComplete(reqs[..|reqs| - 1]);
    }
  }

  /** The reply fields the interface reads. */
  datatype SpiReply = SpiReply(name: string, usbError: string, managerError: string, driverError: string, payload: Field)
  datatype VoltageReply = VoltageReply(name: string, result: int)

  /** `__check_if_response_is_correct`. */
  predicate ReplyCorrect(r: SpiReply) {
    r.usbError == "CMD_SUCCESSFUL" &&
    (r.managerError == "SPI_NO_ERROR" || r.managerError == "SPI_ALREADY_INITIALIZED_ERROR") &&
    r.driverError == "SPI_DRIVER_NO_TRANSFER_ERROR"
  }

  /** `SupernovaSPIControllerBlockingInterface`: the parameters and the bus
      voltage are fields updated in place. Each submission's reply (or the
      exception it raised) is a parameter. */
  class SpiControllerInterface {
    var bitOrder: Option<BitOrder>
    var mode: Option<SpiMode>
    var dataWidth: Option<DataWidth>
    var chipSelect: Option<ChipSelect>
    var chipSelectPol: Option<ChipSelectPolarity>
    var frequency: Option<int>
    var busVoltage: Option<int>

    function Stored(): Parameters
      reads this
    {
      Parameters(bitOrder, mode, dataWidth, chipSelect, chipSelectPol, frequency)
    }

    /** No stored parameter is ever `None`. */
    ghost predicate Valid()
      reads this
    {
      Complete(Stored())
    }

    constructor ()
      ensures Valid() && Stored() == Defaults && busVoltage == None
    {
      bitOrder := Some(Msb);
      mode := Some(Mode0);
      dataWidth := Some(EightBits);
      chipSelect := Some(ChipSelect0);
      chipSelectPol := Some(ActiveLow);
      frequency := Some(10000000);
      busVoltage := None;
    }

    method StoreParameters(req: Request)
      modifies this`bitOrder, this`mode, this`chipSelect, this`chipSelectPol, this`frequency
      ensures Stored() == Merge(old(Stored()), req)
    {
      bitOrder := Or(req.bitOrder, bitOrder);
      mode := Or(req.mode, mode);
      chipSelect := Or(req.chipSelect, chipSelect);
      chipSelectPol := Or(req.chipSelectPol, chipSelectPol);
      frequency := FrequencyOr(req.frequency, frequency);
    }

    /** `set_bus_voltage`: a raised submission leaves the voltage alone; a
        reply named "SET I2C-SPI-UART BUS VOLTAGE" with result 0 commits the
        voltage; any other reply clears it. */
    method SetBusVoltage(voltageMv: int, reply: Submitted<VoltageReply>) returns (outcome: Outcome)
      modifies this`busVoltage
      ensures reply.Raised? ==> outcome == BackendError(reply.cause) && busVoltage == old(busVoltage)
      ensures reply.Replied? && reply.reply.name == BusVoltageName && reply.reply.result == 0 ==>
                outcome == Returned(true, Num(voltageMv)) && busVoltage == Some(voltageMv)
      ensures reply.Replied? && !(reply.reply.name == BusVoltageName && reply.reply.result == 0) ==>
                outcome == Returned(false, Text("Set bus voltage failed")) && busVoltage == None
    {
      if reply.Raised? {
        return BackendError(reply.cause);
      }
      var r := reply.reply;
      if r.name == BusVoltageName && r.result == 0 {
        outcome := Returned(true, Num(voltageMv));
        busVoltage := Some(voltageMv);
      } else {
        outcome := Returned(false, Text("Set bus voltage failed"));
        busVoltage := None;
      }
    }

    /** `init_bus`: the request is stored first (and stays stored whatever
        follows); the command is sent with the stored parameters; it succeeds
        iff the reply is named for SPI controller init and is correct. */
    method InitBus(req: Request, reply: Submitted<SpiReply>) returns (outcome: Outcome, sent: Option<Parameters>)
      modifies this`bitOrder, this`mode, this`chipSelect, this`chipSelectPol, this`frequency
      ensures Stored() == Merge(old(Stored()), req)
      ensures old(Valid()) ==> Valid()
      ensures !Complete(Stored()) ==>
                outcome == Returned(false, Text("Init failed, incomplete parameters to initialize bus")) && sent == None
      ensures Complete(Stored()) && reply.Raised? ==>
                outcome == BackendError(reply.cause) && sent == Some(Stored())
      ensures Complete(Stored()) && reply.Replied? ==>
                var ok := reply.reply.name == InitName && ReplyCorrect(reply.reply);
                outcome == Returned(ok, Text(if ok then "Success" else "Init failed, error from the Supernova")) && sent == Some(Stored())
    {
      StoreParameters(req);
      if !Complete(Stored()) {
        return Returned(false, Text("Init failed, incomplete parameters to initialize bus")), None;
      }
      sent := Some(Stored());
      if reply.Raised? {
        return BackendError(reply.cause), sent;
      }
      var ok := reply.reply.name == InitName && ReplyCorrect(reply.reply);
      outcome := Returned(ok, Text(if ok then "Success" else "Init failed, error from the Supernova"));
    }

    /** `set_parameters`: as `init_bus`, with the set-parameters command and messages. */
    method SetParameters(req: Request, reply: Submitted<SpiReply>) returns (outcome: Outcome, sent: Option<Parameters>)
      modifies this`bitOrder, this`mode, this`chipSelect, this`chipSelectPol, this`frequency
      ensures Stored() == Merge(old(Stored()), req)
      ensures old(Valid()) ==> Valid()
      ensures !Complete(Stored()) ==>
                outcome == Returned(false, Text("Set parameters failed, incomplete parameters to do set parameters")) && sent == None
      ensures Complete(Stored()) && reply.Raised? ==>
                outcome == BackendError(reply.cause) && sent == Some(Stored())
      ensures Complete(Stored()) && reply.Replied? ==>
                var ok := reply.reply.name == SetParametersName && ReplyCorrect(reply.reply);
                outcome == Returned(ok, Text(if ok then "Success" else "Set Parameters failed, error from the Supernova")) && sent == Some(Stored())
    {
      StoreParameters(req);
      if !Complete(Stored()) {
        return Returned(false, Text("Set parameters failed, incomplete parameters to do set parameters")), None;
      }
      sent := Some(Stored());
      if reply.Raised? {
        return BackendError(reply.cause), sent;
      }
      var ok := reply.reply.name == SetParametersName && ReplyCorrect(reply.reply);
      outcome := Returned(ok, Text(if ok then "Success" else "Set Parameters failed, error from the Supernova"));
    }

    /** `get_parameters`: always succeeds with the stored parameters. */
    method GetParameters() returns (ok: bool, parameters: Parameters)
      ensures ok && parameters == Stored()
    {
      ok := true;
      parameters := Stored();
    }

    /** `transfer`: the reply's payload when the reply is named for an SPI
        transfer and is correct, `None` otherwise. */
    method Transfer(data: seq<int>, transferLength: int, reply: Submitted<SpiReply>) returns (outcome: Outcome)
      ensures reply.Raised? ==> outcome == BackendError(reply.cause)
      ensures reply.Replied? ==>
                outcome.Returned? && (outcome.ok <==> reply.reply.name == TransferName && ReplyCorrect(reply.reply))
      ensures outcome.Returned? && outcome.ok ==> outcome.value == reply.reply.payload
      ensures outcome.Returned? && !outcome.ok ==> outcome.value == Null
    {
      if reply.Raised? {
        return BackendError(reply.cause);
      }
      var ok := reply.reply.name == TransferName && ReplyCorrect(reply.reply);
      outcome := Returned(ok, if ok then reply.reply.payload else Null);
    }
  }
}
