/**
 * The device side, supplied by the Shelly device library: devices, their
 * switch, cover and input components, the events those components emit and
 * the commands the plugin sends them. The library is an external
 * collaborator; these classes hold the properties the plugin reads and record
 * the subscriptions and commands it makes.
 */
module Device {
  import opened Common

  /** The events a component emits: `change:<property>` and, for inputs, push events. */
  datatype Event =
    | ChangeOutput | ChangeApower | ChangeVoltage | ChangeCurrent | ChangeAenergy
    | ChangeState | ChangeCurrentPos | ChangeTargetPos
    | SinglePush | DoublePush | LongPush

  /**
   * A subscription made with `component.on(event, handler, context)`. The
   * context is the subscribing ability, and each ability has one handler per
   * event, so event and context identify the subscription as `off` sees it.
   */
  datatype Listener = Listener(event: Event, context: object)

  /** The subscriptions `context` holds for each of `events`. */
  function ListenersOf(events: set<Event>, context: object): (r: set<Listener>)
    ensures forall e :: Listener(e, context) in r <==> e in events
    ensures forall l | l in r :: l.context == context
  {
    set e | e in events :: Listener(e, context)
  }

  /** A command sent to a component (`set(on)` or `goToPosition(pos)`). */
  datatype Command = SetOutput(on: bool) | GoToPosition(pos: int)

  /** How the device answers a command: the returned promise resolves or rejects. */
  datatype Reply = Resolved | Rejected

  /**
   * A switch, cover or input component. Each kind uses its own subset of the
   * properties; a property the device does not report is None.
   */
  class Component {
    /** The key of the component's options in the device configuration (e.g. `switch:0`). */
    const key: string
    const id: nat
    // switch
    var output: bool
    // switch and cover power readings
    var apower: Option<real>
    var voltage: Option<real>
    var current: Option<real>
    /** `aenergy.total`, in watt-hours; None when `aenergy` is undefined. */
    var aenergyTotal: Option<real>
    // cover
    var coverState: string
    var currentPos: Option<int>
    var targetPos: Option<int>
    /** Whether the cover has been calibrated. */
    var posControl: bool
    // input
    var inputState: Option<bool>
    /** `config?.type` of an input. */
    const inputType: Option<string>

    var listeners: set<Listener>
    var commands: seq<Command>

    constructor (key: string, id: nat, inputType: Option<string>)
      ensures this.key == key && this.id == id && this.inputType == inputType
      ensures listeners == {} && commands == []
    {
      this.key, this.id, this.inputType := key, id, inputType;
      output := false;
      apower, voltage, current, aenergyTotal := None, None, None, None;
      coverState, currentPos, targetPos, posControl := "stopped", None, None, false;
      inputState := None;
      listeners, commands := {}, [];
    }

    /** `on(event, handler, context)`. */
    method On(e: Event, context: object)
      modifies this`listeners
      ensures listeners == old(listeners) + {Listener(e, context)}
    {
      listeners := listeners + {Listener(e, context)};
    }

    /** `off(event, handler, context)` for each of `events`. */
    method Off(events: set<Event>, context: object)
      modifies this`listeners
      ensures listeners == old(listeners) - ListenersOf(events, context)
    {
      listeners := listeners - ListenersOf(events, context);
    }

    /** Sends a command; the reply arrives separately. */
    method Send(cmd: Command)
      modifies this`commands
      ensures commands == old(commands) + [cmd]
    {
      commands := commands + [cmd];
    }
  }

  /** The events of a device's RPC handler. */
  datatype RpcEvent = Connect | Disconnect | Request

  datatype RpcListener = RpcListener(event: RpcEvent, context: object)

  /** The device metadata the AccessoryInformation service shows. */
  datatype DeviceInfo = DeviceInfo(modelName: string, macAddress: string, firmwareVersion: Option<string>)

  /** A Shelly device and its components. */
  class Device {
    const id: string
    const model: string
    const modelName: string
    const macAddress: string
    /** `firmware.version`. */
    const firmwareVersion: Option<string>
    /** The device profile (`'cover'` or `'switch'` on two-channel devices). */
    const profile: Option<string>
    /** `rpcHandler.protocol`. */
    const protocol: string
    /** The hostname of a WebSocket RPC handler. */
    const hostname: Option<string>
    const switches: seq<Component>
    const covers: seq<Component>
    const inputs: seq<Component>
    /** `rpcHandler.connected`. */
    var connected: bool
    var rpcListeners: set<RpcListener>

    constructor (id: string, model: string, modelName: string, macAddress: string,
                 firmwareVersion: Option<string>, profile: Option<string>,
                 protocol: string, hostname: Option<string>,
                 switches: seq<Component>, covers: seq<Component>, inputs: seq<Component>,
                 connected: bool)
      ensures this.id == id && this.model == model && this.modelName == modelName
      ensures this.macAddress == macAddress && this.firmwareVersion == firmwareVersion
      ensures this.profile == profile && this.protocol == protocol && this.hostname == hostname
      ensures this.switches == switches && this.covers == covers && this.inputs == inputs
      ensures this.connected == connected && rpcListeners == {}
    {
      this.id, this.model, this.modelName, this.macAddress := id, model, modelName, macAddress;
      this.firmwareVersion, this.profile := firmwareVersion, profile;
      this.protocol, this.hostname := protocol, hostname;
      this.switches, this.covers, this.inputs := switches, covers, inputs;
      this.connected := connected;
      rpcListeners := {};
    }

    function Info(): DeviceInfo
    {
      DeviceInfo(modelName, macAddress, firmwareVersion)
    }

    /** All components of the device. */
    function Components(): set<Component>
    {
      set c | c in switches + covers + inputs
    }
  }
}
