/** The GPIO interface: the hardware version read when the interface is
    built, the bus-voltage command chosen from it, the map of configured pins,
    and the classification of the device's replies. */
module Gpio {
  import opened Common

  /** A GET USB STRING reply: its name and its `message` entry, when it has one. */
  datatype UsbStringReply = UsbStringReply(name: string, message: Option<string>)

  /** The reply fields the GPIO operations read. */
  datatype GpioReply = GpioReply(name: string, usbError: string, managerError: string, driverError: string, logicLevel: Field)
  datatype VoltageReply = VoltageReply(name: string, result: int)

  /** `__get_hardware_version`: the reply's message, or the `BackendError`
      cause (the submission's exception, or a fixed message when the reply is
      not a GET USB STRING reply with a message). */
  function HardwareVersion(reply: Submitted<UsbStringReply>): (r: Result<string>)
    ensures r.Success? <==> reply.Replied? && reply.reply.name == "GET USB STRING" && reply.reply.message.Some?
    ensures r.Success? ==> r.value == reply.reply.message.value
    ensures reply.Raised? ==> r == Failure(reply.cause)
    ensures reply.Replied? && !r.Success? ==> r == Failure("Unable to retrieve hardware version.")
  {
    match reply
    case Raised(cause) => Failure(cause)
    case Replied(r) =>
      if r.name == "GET USB STRING" && r.message.Some? then Success(r.message.value)
      else Failure("Unable to retrieve hardware version.")
  }

  /** The two driver commands that set a bus voltage. */
  datatype VoltageCommand = SetI2cSpiUartBusVoltage | SetI3cBusVoltage

  /** The voltage command for a hardware version: the I2C-SPI-UART one for
      "HW-B..." boards, the I3C one for "HW-C..." boards, none otherwise. */
  function VoltageCommandFor(hardwareVersion: string): (r: Option<VoltageCommand>)
    ensures r == Some(SetI2cSpiUartBusVoltage) <==> StartsWith(hardwareVersion, "HW-B")
    ensures r == Some(SetI3cBusVoltage) <==>
              !StartsWith(hardwareVersion, "HW-B") && StartsWith(hardwareVersion, "HW-C")
    ensures r == None <==> !StartsWith(hardwareVersion, "HW-B") && !StartsWith(hardwareVersion, "HW-C")
  {
    if StartsWith(hardwareVersion, "HW-B") then Some(SetI2cSpiUartBusVoltage)
    else if StartsWith(hardwareVersion, "HW-C") then Some(SetI3cBusVoltage)
    else None
  }

  /** The name of the reply each voltage command expects. */
  function ExpectedName(command: VoltageCommand): string {
    match command
    case SetI2cSpiUartBusVoltage => "SET I2C-SPI-UART BUS VOLTAGE"
    case SetI3cBusVoltage => "SET I3C BUS VOLTAGE"
  }

  /** `__check_if_response_is_correct`. */
  predicate ReplyCorrect(r: GpioReply) {
    r.usbError == "CMD_SUCCESSFUL" && r.managerError == "GPIO_NO_ERROR" && r.driverError == "GPIO_DRIVER_NO_ERROR"
  }

  /** The `(success, message)` result of a GPIO command that returns no data:
      success iff the reply carries the command's name and is correct. */
  function Acknowledge(reply: Submitted<GpioReply>, expectedName: string, failure: string): (o: Outcome)
    ensures reply.Raised? ==> o == BackendError(reply.cause)
    ensures reply.Replied? ==>
              o.Returned? &&
              (o.ok <==> reply.reply.name == expectedName && ReplyCorrect(reply.reply)) &&
              o.value == Text(if o.ok then "Success" else failure)
  {
    match reply
    case Raised(cause) => BackendError(cause)
    case Replied(r) =>
      var ok := r.name == expectedName && ReplyCorrect(r);
      Returned(ok, Text(if ok then "Success" else failure))
  }

  /** Building the interface: it exists only when the hardware version could be read. */
  method NewGpioInterface(versionReply: Submitted<UsbStringReply>) returns (r: Result<GpioInterface>)
    ensures r.Success? <==> HardwareVersion(versionReply).Success?
    ensures r.Failure? ==> r.error == HardwareVersion(versionReply).error
    ensures r.Success? ==> fresh(r.value) && r.value.hardwareVersion == HardwareVersion(versionReply).value &&
                           r.value.configuredPins == map[] && r.value.busVoltage == None
  {
    match HardwareVersion(versionReply)
    case Failure(cause) =>
      r := Failure(cause);
    case Success(version) =>
      var gpio := new GpioInterface(version);
      r := Success(gpio);
  }

  /** `SupernovaGPIOInterface`: the configured pins (pin number to
      functionality code) and the bus voltage are fields updated in place. */
  class GpioInterface {
    const hardwareVersion: string
    var configuredPins: map<int, int>
    var busVoltage: Option<int>

    constructor (hardwareVersion: string)
      ensures this.hardwareVersion == hardwareVersion && configuredPins == map[] && busVoltage == None
    {
      this.hardwareVersion := hardwareVersion;
      configuredPins := map[];
      busVoltage := None;
    }

    /** `set_bus_voltage`: an unsupported hardware version raises before anything
        is sent; otherwise the version's command is sent, and only a reply with
        that command's name and result 0 commits the voltage. */
    method SetBusVoltage(voltageMv: int, reply: Submitted<VoltageReply>)
      returns (outcome: Outcome, sent: Option<VoltageCommand>)
      modifies this`busVoltage
      ensures sent == VoltageCommandFor(hardwareVersion)
      ensures sent == None ==>
                outcome == BackendError("Unsupported hardware version: " + hardwareVersion) &&
                busVoltage == old(busVoltage)
      ensures sent.Some? && reply.Raised? ==> outcome == BackendError(reply.cause) && busVoltage == old(busVoltage)
      ensures sent.Some? && reply.Replied? && reply.reply.name == ExpectedName(sent.value) && reply.reply.result == 0 ==>
                outcome == Returned(true, Num(voltageMv)) && busVoltage == Some(voltageMv)
      ensures sent.Some? && reply.Replied? && !(reply.reply.name == ExpectedName(sent.value) && reply.reply.result == 0) ==>
                outcome == Returned(false, Text("Set bus voltage failed")) && busVoltage == old(busVoltage)
    {
      sent := VoltageCommandFor(hardwareVersion);
      if sent == None {
        return BackendError("Unsupported hardware version: " + hardwareVersion), sent;
      }
      if reply.Raised? {
        return BackendError(reply.cause), sent;
      }
      if reply.reply.name == ExpectedName(sent.value) && reply.reply.result == 0 {
        busVoltage := Some(voltageMv);
        outcome := Returned(true, Num(voltageMv));
      } else {
        outcome := Returned(false, Text("Set bus voltage failed"));
      }
    }

    /** `configure_pin`: records the pin's functionality only on success. */
    method ConfigurePin(pinNumber: int, functionality: int, reply: Submitted<GpioReply>) returns (outcome: Outcome)
      modifies this`configuredPins
      ensures outcome == Acknowledge(reply, "CONFIGURE GPIO PIN", "Configuration failed, error from the Supernova")
      ensures outcome.Returned? && outcome.ok ==> configuredPins == old(configuredPins)[pinNumber := functionality]
      ensures !(outcome.Returned? && outcome.ok) ==> configuredPins == old(configuredPins)
    {
      outcome := Acknowledge(reply, "CONFIGURE GPIO PIN", "Configuration failed, error from the Supernova");
      if outcome.Returned? && outcome.ok {
        configuredPins := configuredPins[pinNumber := functionality];
      }
    }

    method DigitalWrite(pinNumber: int, logicLevel: int, reply: Submitted<GpioReply>) returns (outcome: Outcome)
      ensures reply.Raised? ==> outcome == BackendError(reply.cause)
      ensures reply.Replied? ==>
                outcome.Returned? &&
                (outcome.ok <==> reply.reply.name == "GPIO DIGITAL WRITE" && ReplyCorrect(reply.reply)) &&
                outcome.value == Text(if outcome.ok then "Success" else "Digital write failed, error from the Supernova")
    {
      outcome := Acknowledge(reply, "GPIO DIGITAL WRITE", "Digital write failed, error from the Supernova");
    }

    /** `digital_read`: the reply's logic level on success, a failure message otherwise. */
    method DigitalRead(pinNumber: int, reply: Submitted<GpioReply>) returns (outcome: Outcome)
      ensures reply.Raised? ==> outcome == BackendError(reply.cause)
      ensures reply.Replied? && reply.reply.name == "GPIO DIGITAL READ" && ReplyCorrect(reply.reply) ==>
                outcome == Returned(true, reply.reply.logicLevel)
      ensures reply.Replied? && !(reply.reply.name == "GPIO DIGITAL READ" && ReplyCorrect(reply.reply)) ==>
                outcome == Returned(false, Text("Digital read failed, error from the Supernova"))
    {
      if reply.Raised? {
        return BackendError(reply.cause);
      }
      if reply.reply.name == "GPIO DIGITAL READ" && ReplyCorrect(reply.reply) {
        outcome := Returned(true, reply.reply.logicLevel);
      } else {
        outcome := Returned(false, Text("Digital read failed, error from the Supernova"));
      }
    }

    method SetInterrupt(pinNumber: int, trigger: int, reply: Submitted<GpioReply>) returns (outcome: Outcome)
      ensures reply.Raised? ==> outcome == BackendError(reply.cause)
      ensures reply.Replied? ==>
                outcome.Returned? &&
                (outcome.ok <==> reply.reply.name == "GPIO SET INTERRUPT" && ReplyCorrect(reply.reply)) &&
                outcome.value == Text(if outcome.ok then "Success" else "Set interrupt failed, error from the Supernova")
    {
      outcome := Acknowledge(reply, "GPIO SET INTERRUPT", "Set interrupt failed, error from the Supernova");
    }

    method DisableInterrupt(pinNumber: int, reply: Submitted<GpioReply>) returns (outcome: Outcome)
      ensures reply.Raised? ==> outcome == BackendError(reply.cause)
      ensures reply.Replied? ==>
                outcome.Returned? &&
                (outcome.ok <==> reply.reply.name == "GPIO DISABLE INTERRUPT" && ReplyCorrect(reply.reply)) &&
                outcome.value == Text(if outcome.ok then "Success" else "Disable interrupt failed, error from the Supernova")
    {
      outcome := Acknowledge(reply, "GPIO DISABLE INTERRUPT", "Disable interrupt failed, error from the Supernova");
    }
  }
}
