/**
 * The Homebridge platform `HegelH590Platform`, without HomeKit: its
 * configuration defaults, the choice of command for a power value or an input
 * identifier, and the optimistic ("last command wins") state `isOn` and
 * `activeInput`, which changes only once the command has been sent.
 *
 * The outcome of `client.send` is a parameter (`sendOk`): whether the promise
 * the connection manager returned resolved or rejected.
 */
module Platform {
  import opened Wrappers

  /** HomeKit's values of the Active characteristic. */
  const ACTIVE: int := 1
  const INACTIVE: int := 0

  const DefaultName := "Hegel H590"
  const DefaultPowerOn := "-p.1"
  const DefaultPowerOff := "-p.0"
  const DefaultOptical3 := "-i.10"
  const DefaultUsb := "-i.11"
  const DefaultPort := 50001
  const DefaultTimeoutMs := 1500
  const MissingHost := "Missing \"host\" in config for HegelH590IP."

  datatype Input = Usb | Optical3

  /** The platform's configuration as Homebridge hands it over; `None` is an absent (or null) field. */
  datatype Config = Config(
    name: Option<string>,
    host: Option<string>,
    port: Option<int>,
    timeoutMs: Option<int>,
    debug: Option<bool>,
    powerOnCommand: Option<string>,
    powerOffCommand: Option<string>,
    inputUsbCommand: Option<string>,
    inputOptical3Command: Option<string>)

  /** What the constructor keeps, and the options it passes to the connection manager. */
  datatype Settings = Settings(
    name: string,
    host: string,
    port: int,
    timeoutMs: int,
    debug: bool,
    cmdPowerOn: string,
    cmdPowerOff: string,
    cmdUsb: string,
    cmdOpt3: string)

  /** `v` is what `o ?? d` gives: the supplied value whenever there is one, even an empty string or zero. */
  predicate Defaulted<T(==)>(o: Option<T>, d: T, v: T) {
    (o.Some? ==> v == o.value) && (o.None? ==> v == d)
  }

  /** The constructor's checks and defaults; a missing or empty host throws. */
  function Configure(config: Option<Config>): (r: Result<Settings, string>)
    ensures r.Failure? <==> config.None? || config.value.host.None? || config.value.host.value == ""
    ensures r.Failure? ==> r.error == MissingHost
    ensures r.Success? ==>
      var c, st := config.value, r.value;
      && st.host == c.host.value
      && Defaulted(c.name, DefaultName, st.name)
      && Defaulted(c.powerOnCommand, DefaultPowerOn, st.cmdPowerOn)
      && Defaulted(c.powerOffCommand, DefaultPowerOff, st.cmdPowerOff)
      && Defaulted(c.inputOptical3Command, DefaultOptical3, st.cmdOpt3)
      && Defaulted(c.inputUsbCommand, DefaultUsb, st.cmdUsb)
      && Defaulted(c.port, DefaultPort, st.port)
      && Defaulted(c.timeoutMs, DefaultTimeoutMs, st.timeoutMs)
      && Defaulted(c.debug, false, st.debug)
  {
    if config.None? || config.value.host.None? || config.value.host.value == "" then
      Failure(MissingHost)
    else
      var c := config.value;
      Success(Settings(
        name := c.name.GetOr(DefaultName),
        host := c.host.value,
        port := c.port.GetOr(DefaultPort),
        timeoutMs := c.timeoutMs.GetOr(DefaultTimeoutMs),
        debug := c.debug.GetOr(false),
        cmdPowerOn := c.powerOnCommand.GetOr(DefaultPowerOn),
        cmdPowerOff := c.powerOffCommand.GetOr(DefaultPowerOff),
        cmdUsb := c.inputUsbCommand.GetOr(DefaultUsb),
        cmdOpt3 := c.inputOptical3Command.GetOr(DefaultOptical3)))
  }

  /** A configuration with only a host gets every default. */
  lemma HostOnlyGetsDefaults(host: string)
    requires host != ""
    ensures Configure(Some(Config(None, Some(host), None, None, None, None, None, None, None)))
         == Success(Settings(DefaultName, host, 50001, 1500, false, "-p.1", "-p.0", "-i.11", "-i.10"))
  {
  }

  /** The input an ActiveIdentifier value selects; other identifiers select nothing. */
  function InputForIdentifier(id: int): (r: Option<Input>)
    ensures r == Some(Optical3) <==> id == 1
    ensures r == Some(Usb) <==> id == 2
    ensures r.None? <==> id != 1 && id != 2
  {
    if id == 1 then Some(Optical3) else if id == 2 then Some(Usb) else None
  }

  /** The identifier the ActiveIdentifier getter and setter report for an input. */
  function IdentifierOf(input: Input): (r: int)
    ensures InputForIdentifier(r) == Some(input)
  {
    if input.Optical3? then 1 else 2
  }

  /** The identifier shown once at startup, with the mapping as written there (USB as 1). */
  function StartupIdentifierOf(input: Input): (r: int)
    ensures r == 1 <==> input == Usb
    ensures r == 2 <==> input == Optical3
  {
    if input.Usb? then 1 else 2
  }

  function Other(input: Input): Input {
    if input.Usb? then Optical3 else Usb
  }

  /** An identifier the setter accepts is the one the getter reports for the input it selects. */
  lemma IdentifierRoundTrip(id: int, input: Input)
    ensures InputForIdentifier(id) == Some(input) <==> IdentifierOf(input) == id
  {
  }

  /** The startup identifier, read with the getter's mapping, names the other input. */
  lemma StartupIdentifierNamesOtherInput(input: Input)
    ensures InputForIdentifier(StartupIdentifierOf(input)) == Some(Other(input))
    ensures StartupIdentifierOf(input) != IdentifierOf(input)
  {
  }

  /** The platform's optimistic state and the commands it has handed to the client, oldest first. */
  class H590Platform {
    const settings: Settings
    var isOn: bool
    var activeInput: Input
    var sent: seq<string>

    /** Construction from checked settings; nothing is sent to the device at startup. */
    constructor (settings: Settings)
      ensures this.settings == settings
      ensures !isOn && activeInput == Optical3 && sent == []
    {
      this.settings := settings;
      isOn := false;
      activeInput := Optical3;
      sent := [];
    }

    /** The Active getter. */
    function ActiveValue(): (r: int)
      reads this
      ensures r == ACTIVE <==> isOn
      ensures r == INACTIVE <==> !isOn
    {
      if isOn then ACTIVE else INACTIVE
    }

    /** The ActiveIdentifier getter. */
    function ActiveIdentifierValue(): (r: int)
      reads this
      ensures r == 1 <==> activeInput == Optical3
      ensures InputForIdentifier(r) == Some(activeInput)
    {
      IdentifierOf(activeInput)
    }

    /** The ActiveIdentifier value pushed to HomeKit once at startup, as written. */
    function StartupIdentifier(): (r: int)
      reads this
      ensures r == 1 <==> activeInput == Usb
      ensures r == 2 <==> activeInput == Optical3
      ensures r != ActiveIdentifierValue()
    {
      StartupIdentifierOf(activeInput)
    }

    /** `sendPower` up to its await: the power command for `on` goes to the client. */
    method SendPower(on: bool)
      modifies this`sent
      ensures sent == old(sent) + [if on then settings.cmdPowerOn else settings.cmdPowerOff]
    {
      sent := sent + [if on then settings.cmdPowerOn else settings.cmdPowerOff];
    }

    /** The Active setter up to its await: ON is requested iff the value is ACTIVE, and its command is sent. */
    method BeginSetActive(value: int) returns (wantOn: bool)
      modifies this`sent
      ensures wantOn <==> value == ACTIVE
      ensures sent == old(sent) + [if wantOn then settings.cmdPowerOn else settings.cmdPowerOff]
    {
      wantOn := value == ACTIVE;
      SendPower(wantOn);
    }

    /**
     * The Active setter once its send has settled: `isOn` takes the request
     * only if the send resolved; a rejected send makes the handler throw.
     */
    method FinishSetActive(wantOn: bool, sendOk: bool) returns (ok: bool)
      modifies this`isOn
      ensures isOn == if sendOk then wantOn else old(isOn)
      ensures ok == sendOk
    {
      ok := sendOk;
      if ok {
        isOn := wantOn;
      }
    }

    /** The Active setter when nothing else runs while its send is pending. */
    method SetActive(value: int, sendOk: bool) returns (ok: bool)
      modifies this
      ensures sent == old(sent) + [if value == ACTIVE then settings.cmdPowerOn else settings.cmdPowerOff]
      ensures isOn == if sendOk then value == ACTIVE else old(isOn)
      ensures activeInput == old(activeInput)
      ensures ok == sendOk
    {
      var wantOn := BeginSetActive(value);
      ok := FinishSetActive(wantOn, sendOk);
    }

    /** `sendInput` up to its await: the command for `input` goes to the client. */
    method BeginSendInput(input: Input)
      modifies this`sent
      ensures sent == old(sent) + [if input.Usb? then settings.cmdUsb else settings.cmdOpt3]
    {
      sent := sent + [if input.Usb? then settings.cmdUsb else settings.cmdOpt3];
    }

    /** `sendInput` once its send has settled: the input is recorded only if the send resolved. */
    method FinishSendInput(input: Input, sendOk: bool) returns (ok: bool)
      modifies this`activeInput
      ensures activeInput == if sendOk then input else old(activeInput)
      ensures ok == sendOk
    {
      ok := sendOk;
      if ok {
        activeInput := input;
      }
    }

    /** `sendInput` when nothing else runs while its send is pending. */
    method SendInput(input: Input, sendOk: bool) returns (ok: bool)
      modifies this
      ensures sent == old(sent) + [if input.Usb? then settings.cmdUsb else settings.cmdOpt3]
      ensures activeInput == if sendOk then input else old(activeInput)
      ensures isOn == old(isOn)
      ensures ok == sendOk
    {
      BeginSendInput(input);
      ok := FinishSendInput(input, sendOk);
    }

    /**
     * The ActiveIdentifier setter up to its await. Identifier 1 sends the
     * OPTICAL3 command and 2 the USB command, and the handler then waits
     * (`pending`). Any other identifier sends nothing, and the handler goes
     * straight on to push the getter's identifier (`shown`).
     */
    method BeginSetActiveIdentifier(value: int) returns (pending: Option<Input>, shown: Option<int>)
      modifies this`sent
      ensures pending == InputForIdentifier(value)
      ensures pending.Some? ==> sent == old(sent) + [if pending.value.Usb? then settings.cmdUsb else settings.cmdOpt3]
      ensures pending.Some? ==> shown == None
      ensures pending.None? ==> sent == old(sent) && shown == Some(ActiveIdentifierValue())
    {
      pending := InputForIdentifier(value);
      if pending.Some? {
        BeginSendInput(pending.value);
        shown := None;
      } else {
        shown := Some(IdentifierOf(activeInput));
      }
    }

    /**
     * The ActiveIdentifier setter once the send for `input` has settled: the
     * input is recorded and the getter's identifier pushed iff the send
     * resolved; a rejected send makes the handler throw before the push.
     */
    method FinishSetActiveIdentifier(input: Input, sendOk: bool) returns (shown: Option<int>)
      modifies this`activeInput
      ensures activeInput == if sendOk then input else old(activeInput)
      ensures shown.Some? <==> sendOk
      ensures shown.Some? ==> shown.value == ActiveIdentifierValue()
    {
      var ok := FinishSendInput(input, sendOk);
      shown := if ok then Some(IdentifierOf(activeInput)) else None;
    }

    /** The ActiveIdentifier setter when nothing else runs while its send is pending. */
    method SetActiveIdentifier(value: int, sendOk: bool) returns (shown: Option<int>)
      modifies this
      ensures value == 1 ==> sent == old(sent) + [settings.cmdOpt3]
      ensures value == 2 ==> sent == old(sent) + [settings.cmdUsb]
      ensures value != 1 && value != 2 ==> sent == old(sent) && activeInput == old(activeInput)
      ensures (value == 1 || value == 2) && sendOk ==> InputForIdentifier(value) == Some(activeInput)
      ensures (value == 1 || value == 2) && !sendOk ==> activeInput == old(activeInput)
      ensures shown.Some? <==> (value != 1 && value != 2) || sendOk
      ensures shown.Some? ==> shown.value == ActiveIdentifierValue()
      ensures isOn == old(isOn)
    {
      var pending;
      pending, shown := BeginSetActiveIdentifier(value);
      if pending.Some? {
        shown := FinishSetActiveIdentifier(pending.value, sendOk);
      }
    }
  }

  /**
   * Two Active setters whose sends resolve in the reverse order of the calls:
   * the client is asked for ON and then OFF, yet the platform ends up on.
   */
  method PowerSettersResolveOutOfOrder(settings: Settings) returns (p: H590Platform)
    ensures p.sent == [settings.cmdPowerOn, settings.cmdPowerOff]
    ensures p.isOn
  {
    p := new H590Platform(settings);
    var first := p.BeginSetActive(ACTIVE);
    var second := p.BeginSetActive(INACTIVE);
    var secondOk := p.FinishSetActive(second, true);
    var firstOk := p.FinishSetActive(first, true);
  }
}
