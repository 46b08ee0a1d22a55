/**
 * The five handlers of the `fabric` command group. Each one takes the
 * request record the option parser filled in, sends one request to the
 * switch and relays the switch's status as its own exit code; `portcfg_show`
 * also prints the configuration it read back.
 */
module Fabric {
  import opened Labels
  import opened Choices

  /** The value the parser leaves in `portcfg_show`'s port id when the option is absent. */
  const UNSET: int := -1

  /** A value held in an 8-bit unsigned field of a request. */
  type Byte = x: int | 0 <= x < 256

  /** Host reference and endpoint function of `gfms_bind`. */
  datatype BindRequest = BindRequest(hostSwIdx: int, hostPhysPortId: int, hostLogPortId: int, pdfid: int)

  /** Host reference of `gfms_unbind`; the switch finds the function bound there. */
  datatype UnbindRequest = UnbindRequest(hostSwIdx: int, hostPhysPortId: int, hostLogPortId: int)

  /** Link control command of `port_control`. */
  datatype ControlRequest = ControlRequest(controlType: Byte, physPortId: Byte, hotResetFlag: Byte)

  /** A port's configuration as sent to or reported by the switch. */
  datatype PortConfig = PortConfig(portType: nat, clockSource: nat, clockMode: nat, hvdInst: nat)

  /** Target port and configuration of `portcfg_set`. */
  datatype ConfigSetRequest = ConfigSetRequest(physPortId: Byte, config: PortConfig)

  /** Target port of `portcfg_show`; UNSET when the option was not given. */
  datatype ShowRequest = ShowRequest(physPortId: int)

  /** One request sent to the switch, one constructor per library entry point. */
  datatype Call =
    | GfmsBind(bind: BindRequest)
    | GfmsUnbind(unbind: UnbindRequest)
    | PortControl(controlType: Byte, physPortId: Byte, hotResetFlag: Byte)
    | PortConfigSet(setPort: Byte, config: PortConfig)
    | PortConfigGet(getPort: nat)

  /** What the switch answers: a status (0 is success) and, for a get, the port's configuration. */
  datatype Reply = Reply(status: int, info: PortConfig)

  /** A printed value: a label or a decimal number. */
  datatype Value = Text(text: string) | Number(n: nat)

  /** What a handler writes to the terminal. */
  datatype Output =
    | Field(name: string, value: Value)  // one "Name: value" line of a report
    | DeviceError(op: string)            // the library's error message, tagged with the operation
    | Usage                              // the option usage text

  /**
   * One invocation's environment. The switch is opaque: `device` gives its
   * reply to a request as a function of everything sent to it before, so no
   * property of the hardware (idempotent reads, set/get agreement) is
   * assumed. `sent` records the requests in order and `console` the
   * terminal; the handlers keep no state of their own.
   */
  class Session {
    const device: (seq<Call>, Call) -> Reply
    var sent: seq<Call>
    var console: seq<Output>

    constructor (device: (seq<Call>, Call) -> Reply)
      ensures this.device == device && sent == [] && console == []
    {
      this.device := device;
      sent := [];
      console := [];
    }

    /** Sends one request and returns the switch's reply. */
    method Submit(c: Call) returns (reply: Reply)
      modifies this
      ensures sent == old(sent) + [c] && console == old(console)
      ensures reply == device(old(sent), c)
    {
      reply := device(sent, c);
      sent := sent + [c];
    }

    /** Writes one item to the terminal. */
    method Emit(o: Output)
      modifies this
      ensures console == old(console) + [o] && sent == old(sent)
    {
      console := console + [o];
    }
  }

  /** What a relaying handler prints for the status it relays. */
  function ErrorReport(op: string, status: int): seq<Output>
  {
    if status == 0 then [] else [DeviceError(op)]
  }

  /** The four lines `portcfg_show` prints for a configuration the switch reported. */
  function ShowLines(info: PortConfig): (lines: seq<Output>)
  {
    [ Field("Port Type", Text(PortTypeLabel(info.portType))),
      Field("Clock Source", Number(info.clockSource)),
      Field("Clock Mode", Text(ClockModeLabel(info.clockMode))),
      Field("Hvd Instance", Number(info.hvdInst)) ]
  }

  /** The configuration as the report shows it: both enumerations clamped. */
  function Displayed(info: PortConfig): (shown: PortConfig)
    ensures shown.portType < |PORT_TYPE_STRS| && shown.clockMode < |CLOCK_MODE_STRS|
    ensures shown.clockSource == info.clockSource && shown.hvdInst == info.hvdInst
  {
    PortConfig(PortTypeIndex(info.portType), info.clockSource, ClockModeIndex(info.clockMode), info.hvdInst)
  }

  /**
   * The report is four lines in the order Port Type, Clock Source, Clock
   * Mode, Hvd Instance; the clock source and domain index appear verbatim
   * and the two enumerations by their labels.
   */
  lemma ShowLinesShape(info: PortConfig)
    ensures |ShowLines(info)| == 4
    ensures forall k :: 0 <= k < 4 ==> ShowLines(info)[k].Field?
    ensures [ShowLines(info)[0].name, ShowLines(info)[1].name, ShowLines(info)[2].name, ShowLines(info)[3].name]
         == ["Port Type", "Clock Source", "Clock Mode", "Hvd Instance"]
    ensures ShowLines(info)[1].value == Number(info.clockSource)
    ensures ShowLines(info)[3].value == Number(info.hvdInst)
    ensures ShowLines(info)[0].value.Text? && ShowLines(info)[0].value.text in PORT_TYPE_STRS
    ensures ShowLines(info)[2].value.Text? && ShowLines(info)[2].value.text in CLOCK_MODE_STRS
  {
  }

  /**
   * The report loses nothing but the clamp: two reported configurations
   * print the same four lines exactly when they agree once clamped.
   */
  lemma ShowLinesExact(a: PortConfig, b: PortConfig)
    ensures ShowLines(a) == ShowLines(b) <==> Displayed(a) == Displayed(b)
  {
  }

  /** `gfms_bind`: one bind request, its status relayed unchanged. */
  method GfmsBindCmd(s: Session, req: BindRequest) returns (ret: int)
    modifies s
    ensures s.sent == old(s.sent) + [GfmsBind(req)]
    ensures ret == s.device(old(s.sent), GfmsBind(req)).status
    ensures s.console == old(s.console) + ErrorReport("gfms_bind", ret)
  {
    var reply := s.Submit(GfmsBind(req));
    ret := reply.status;
    if ret != 0 {
      s.Emit(DeviceError("gfms_bind"));
      return ret;
    }
    return 0;
  }

  /** `gfms_unbind`: one unbind request, its status relayed unchanged. */
  method GfmsUnbindCmd(s: Session, req: UnbindRequest) returns (ret: int)
    modifies s
    ensures s.sent == old(s.sent) + [GfmsUnbind(req)]
    ensures ret == s.device(old(s.sent), GfmsUnbind(req)).status
    ensures s.console == old(s.console) + ErrorReport("gfms_unbind", ret)
  {
    var reply := s.Submit(GfmsUnbind(req));
    ret := reply.status;
    if ret != 0 {
      s.Emit(DeviceError("gfms_unbind"));
      return ret;
    }
    return 0;
  }

  /**
   * `port_control`: the parsed control type, port and hot reset flag go to
   * the switch unchanged in one request, whose status is relayed.
   */
  method PortControlCmd(s: Session, req: ControlRequest) returns (ret: int)
    requires req.controlType in Codes(CONTROL_TYPE_CHOICES)
    requires req.hotResetFlag in Codes(HOT_RESET_FLAG_CHOICES)
    modifies s
    ensures s.sent == old(s.sent) + [PortControl(req.controlType, req.physPortId, req.hotResetFlag)]
    ensures s.sent[|s.sent| - 1].controlType <= 3 && s.sent[|s.sent| - 1].hotResetFlag <= 1
    ensures ret == s.device(old(s.sent), PortControl(req.controlType, req.physPortId, req.hotResetFlag)).status
    ensures s.console == old(s.console) + ErrorReport("port_control", ret)
  {
    var reply := s.Submit(PortControl(req.controlType, req.physPortId, req.hotResetFlag));
    ret := reply.status;
    if ret != 0 {
      s.Emit(DeviceError("port_control"));
      return ret;
    }
    return 0;
  }

  /**
   * `portcfg_set`: the whole configuration goes to the switch in one
   * request, whose status is relayed; since the port type came from its
   * choice set, the switch is never asked to make a port a Fabric Link.
   */
  method PortcfgSetCmd(s: Session, req: ConfigSetRequest) returns (ret: int)
    requires req.config.portType in Codes(PORT_TYPE_CHOICES)
    requires req.config.clockMode in Codes(CLOCK_MODE_CHOICES)
    modifies s
    ensures s.sent == old(s.sent) + [PortConfigSet(req.physPortId, req.config)]
    ensures s.sent[|s.sent| - 1].config.portType != PORT_TYPE_FABRIC_LINK
    ensures s.sent[|s.sent| - 1].config.clockMode < CLOCK_INVALID
    ensures ret == s.device(old(s.sent), PortConfigSet(req.physPortId, req.config)).status
    ensures s.console == old(s.console) + ErrorReport("port_config", ret)
  {
    var reply := s.Submit(PortConfigSet(req.physPortId, req.config));
    ret := reply.status;
    if ret != 0 {
      s.Emit(DeviceError("port_config"));
      return ret;
    }
    return 0;
  }

  /**
   * `portcfg_show`: without a port id it prints the usage and exits 1
   * without contacting the switch; otherwise it sends one get request,
   * relays a failing status, and on success prints the four report lines
   * of the configuration the switch returned.
   */
  method PortcfgShowCmd(s: Session, req: ShowRequest) returns (ret: int)
    requires req.physPortId == UNSET || req.physPortId >= 0
    modifies s
    ensures req.physPortId == UNSET ==>
      ret == 1 && s.sent == old(s.sent) && s.console == old(s.console) + [Usage]
    ensures req.physPortId != UNSET ==>
      var reply := s.device(old(s.sent), PortConfigGet(req.physPortId));
      && s.sent == old(s.sent) + [PortConfigGet(req.physPortId)]
      && ret == reply.status
      && s.console == old(s.console) + (if ret == 0 then ShowLines(reply.info) else ErrorReport("port_info", ret))
  {
    if req.physPortId == UNSET {
      s.Emit(Usage);
      return 1;
    }

    var reply := s.Submit(PortConfigGet(req.physPortId));
    ret := reply.status;
    if ret != 0 {
      s.Emit(DeviceError("port_info"));
      return ret;
    }
    var info := reply.info;

    var portType := info.portType;
    if portType >= PORT_TYPE_INVALID {
      portType := PORT_TYPE_INVALID;
    }
    s.Emit(Field("Port Type", Text(PORT_TYPE_STRS[portType])));
    s.Emit(Field("Clock Source", Number(info.clockSource)));

    var clockMode := info.clockMode;
    if clockMode >= CLOCK_INVALID {
      clockMode := CLOCK_INVALID;
    }
    s.Emit(Field("Clock Mode", Text(CLOCK_MODE_STRS[clockMode])));
    s.Emit(Field("Hvd Instance", Number(info.hvdInst)));

    return 0;
  }
}
