/**
  The GPIO driver for KL25 devices: a fixed pool of four pin slots handed out
  by a monotonic cursor, parameter validation before any slot is claimed, and
  the vendor SDK calls that configure, read and write a claimed pin.

  The vendor SDK (clock gating, GPIO and PORT registers) is outside the model:
  every call the driver makes into it is appended to a ghost log, and the value
  a read returns is a parameter.
 */
module Kl25Gpio {
  import opened Common

  /** DRIVER_GPIO_PIN_AMOUNT: how many pins the pool can hand out. */
  const PinAmount: nat := 4
  /** Entries of the GPIO base-pointer table (GPIOA to GPIOE). */
  const GpioCount: nat := 5
  /** myDriverPin_31: the highest pin number of a port. */
  const MaxPin: nat := 31

  // Raw codes of the public enumerations (a C enum may hold any other value).
  const DirInpt: uint32 := 0
  const DirOutp: uint32 := 1
  const PullNo: uint32 := 0
  const PullUp: uint32 := 1
  const PullDw: uint32 := 2
  const LvlLo: uint32 := 0
  const LvlHi: uint32 := 1

  /** myGpioPars_t: what the caller asks for. */
  datatype GpioPars = GpioPars(port: uint8, pin: uint8, direction: uint32, pull: uint32)

  /** A GPIO peripheral base pointer: NULL in a slot never written, else the base of a port. */
  datatype GpioBase = NullGpio | Gpio(port: nat)

  /** myGpioPinStruct_t: one slot of the pool. */
  datatype PinSlot = PinSlot(gpio: GpioBase, pin: uint32)

  // The vendor configuration values the driver passes.
  datatype PinDirection = DigitalInput | DigitalOutput
  datatype PortPull = PortPullDisable | PortPullDown | PortPullUp
  datatype SlewRate = FastSlewRate | SlowSlewRate
  datatype PassiveFilter = PassiveFilterDisable | PassiveFilterEnable
  datatype DriveStrength = LowDriveStrength | HighDriveStrength
  datatype PinMux = PinDisabledOrAnalog | MuxAsGpio

  /** gpio_pin_config_t */
  datatype GpioPinConfig = GpioPinConfig(pinDirection: PinDirection, outputLogic: uint8)

  /** port_pin_config_t, without the open-drain field the driver never sets. */
  datatype PortPinConfig = PortPinConfig(
    pullSelect: PortPull,
    slewRate: SlewRate,
    passiveFilterEnable: PassiveFilter,
    driveStrength: DriveStrength,
    mux: PinMux)

  /** One call into the vendor SDK. Ports, PORT bases and clock gates are named by port index. */
  datatype VendorCall =
    | ClockEnable(port: nat)
    | PinInit(gpio: GpioBase, pin: uint32, gpioConfig: GpioPinConfig)
    | SetPinConfig(port: nat, pin: uint32, portConfig: PortPinConfig)
    | ReadPinInput(gpio: GpioBase, pin: uint32)
    | WritePinOutput(gpio: GpioBase, pin: uint32, output: uint8)

  /** parsAreValid: every field lies in its enumeration's range; the pull is checked even for outputs. */
  function ParsAreValid(pars: GpioPars): (valid: bool)
    ensures valid <==>
      && pars.port < GpioCount && pars.pin <= MaxPin
      && pars.direction in {DirInpt, DirOutp}
      && pars.pull in {PullNo, PullUp, PullDw}
  {
    pars.port < GpioCount && pars.pin <= MaxPin && pars.direction <= DirOutp && pars.pull <= PullDw
  }

  /** The GPIO configuration Init passes: input only for the Inpt code, output logic 0. */
  function GpioConfigFor(direction: uint32): (cfg: GpioPinConfig)
    ensures cfg.outputLogic == 0
    ensures cfg.pinDirection == DigitalInput <==> direction == DirInpt
  {
    GpioPinConfig(if direction == DirInpt then DigitalInput else DigitalOutput, 0)
  }

  /**
    The PORT configuration Init passes. A pull resistor is selected only for an
    input pin that asked for one; every output pin gets no pull.
   */
  function PortConfigFor(direction: uint32, pull: uint32): (cfg: PortPinConfig)
    ensures cfg.pullSelect == PortPullDown <==> direction == DirInpt && pull == PullDw
    ensures cfg.pullSelect == PortPullUp <==> direction == DirInpt && pull == PullUp
    ensures direction != DirInpt ==> cfg.pullSelect == PortPullDisable
    ensures cfg.slewRate == SlowSlewRate && cfg.passiveFilterEnable == PassiveFilterDisable
    ensures cfg.driveStrength == LowDriveStrength && cfg.mux == MuxAsGpio
  {
    var pullSelect :=
      if direction == DirInpt then
        (if pull == PullDw then PortPullDown else if pull == PullUp then PortPullUp else PortPullDisable)
      else PortPullDisable;
    PortPinConfig(pullSelect, SlowSlewRate, PassiveFilterDisable, LowDriveStrength, MuxAsGpio)
  }

  /** The vendor calls a successful Init makes, in order. */
  function InitCalls(pars: GpioPars): seq<VendorCall>
  {
    [ ClockEnable(pars.port),
      PinInit(Gpio(pars.port), pars.pin, GpioConfigFor(pars.direction)),
      SetPinConfig(pars.port, pars.pin, PortConfigFor(pars.direction, pars.pull)) ]
  }

  /** The level Get reports for a value read from the input register. */
  function LevelOf(value: uint32): (lvl: uint32)
    ensures lvl == LvlHi <==> value != 0
    ensures lvl == LvlLo <==> value == 0
  {
    if value != 0 then LvlHi else LvlLo
  }

  /** The output bit Set writes for a requested level: 0 for Lo, 1 for every other code. */
  function OutputFor(lvl: uint32): (output: uint8)
    ensures output == 0 <==> lvl == LvlLo
    ensures output == 1 <==> lvl != LvlLo
  {
    if lvl == LvlLo then 0 else 1
  }

  /** On a pin whose input reads back its output, Get after Set(lvl) reports lvl (any non-Lo code as Hi). */
  lemma SetThenGetReadsBack(lvl: uint32)
    ensures LevelOf(OutputFor(lvl)) == (if lvl == LvlLo then LvlLo else LvlHi)
  {
  }

  /** The driver's module state: the slot array, the cursor and the log of vendor calls. */
  class GpioDriver {
    /** myGpio_Struct: the storage every handle points into. */
    const slots: array<PinSlot>
    /** myGpio_NextPin: the next slot to claim. */
    var nextPin: uint32
    /** Every vendor SDK call made so far, oldest first. */
    ghost var calls: seq<VendorCall>

    ghost predicate Valid()
      reads this
    {
      slots.Length == PinAmount && nextPin <= PinAmount
    }

    /** The zero-initialised static state. */
    constructor ()
      ensures Valid() && fresh(slots)
      ensures nextPin == 0 && calls == []
      ensures forall i :: 0 <= i < PinAmount ==> slots[i] == PinSlot(NullGpio, 0)
    {
      slots := new PinSlot[PinAmount](_ => PinSlot(NullGpio, 0));
      nextPin := 0;
      calls := [];
    }

    /**
      myGpio_Init. `pinPresent` says whether the out-pointer is non-NULL and
      `pars` is NULL when None. The result `handle` is what gets written through
      the out-pointer: Some(i) for the address of slot i, None when nothing is written.
     */
    method Init(pinPresent: bool, pars: Option<GpioPars>) returns (result: Ret, handle: Option<nat>)
      requires Valid()
      modifies this, slots
      ensures Valid()
      ensures result == OK <==>
        pinPresent && pars.Some? && ParsAreValid(pars.value) && old(nextPin) < PinAmount
      ensures handle.Some? <==> result == OK
      ensures result == OK ==>
        && handle == Some(old(nextPin) as nat)
        && nextPin == old(nextPin) + 1
        && slots[old(nextPin)] == PinSlot(Gpio(pars.value.port), pars.value.pin)
        && (forall i :: 0 <= i < PinAmount && i != old(nextPin) as nat ==> slots[i] == old(slots[i]))
        && calls == old(calls) + InitCalls(pars.value)
      ensures result == Fail ==>
        nextPin == old(nextPin) && slots[..] == old(slots[..]) && calls == old(calls)
    {
      result := Fail;
      handle := None;
      if pinPresent && pars.Some? {
        var p := pars.value;
        if ParsAreValid(p) {
          var thisGpio := nextPin;
          nextPin := nextPin + 1;
          if thisGpio >= PinAmount as uint32 {
            nextPin := nextPin - 1;
          } else {
            var strc := PinSlot(Gpio(p.port), p.pin);
            slots[thisGpio] := strc;
            calls := calls + [ClockEnable(p.port)];
            calls := calls + [PinInit(strc.gpio, strc.pin, GpioConfigFor(p.direction))];
            calls := calls + [SetPinConfig(p.port, strc.pin, PortConfigFor(p.direction, p.pull))];
            handle := Some(thisGpio as nat);
            result := OK;
          }
        }
      }
    }

    /**
      myGpio_Get. `input` is what GPIO_ReadPinInput returns for this call.
      A NULL handle reads nothing and reports Lo.
     */
    method Get(pin: Option<nat>, input: uint32) returns (lvl: uint32)
      requires Valid()
      requires pin.Some? ==> pin.value < PinAmount
      modifies this
      ensures Valid() && nextPin == old(nextPin)
      ensures pin.None? ==> lvl == LvlLo && calls == old(calls)
      ensures pin.Some? ==>
        && lvl == LevelOf(input)
        && calls == old(calls) + [ReadPinInput(slots[pin.value].gpio, slots[pin.value].pin)]
    {
      lvl := LvlLo;
      if pin.Some? {
        var strc := slots[pin.value];
        calls := calls + [ReadPinInput(strc.gpio, strc.pin)];
        lvl := LevelOf(input);
      }
    }

    /** myGpio_Set. A NULL handle writes nothing and fails. */
    method Set(pin: Option<nat>, lvl: uint32) returns (result: Ret)
      requires Valid()
      requires pin.Some? ==> pin.value < PinAmount
      modifies this
      ensures Valid() && nextPin == old(nextPin)
      ensures pin.None? ==> result == Fail && calls == old(calls)
      ensures pin.Some? ==>
        && result == OK
        && calls == old(calls) + [WritePinOutput(slots[pin.value].gpio, slots[pin.value].pin, OutputFor(lvl))]
    {
      result := Fail;
      if pin.Some? {
        var strc := slots[pin.value];
        calls := calls + [WritePinOutput(strc.gpio, strc.pin, OutputFor(lvl))];
        result := OK;
      }
    }

    /** myGpio_Reset (test builds only): rewinds the cursor; the slots keep their contents. */
    method Reset()
      requires Valid()
      modifies this
      ensures Valid()
      ensures nextPin == 0 && calls == old(calls)
    {
      nextPin := 0;
    }
  }

  /**
    Four Inits with distinct valid parameters claim slots 0 to 3 in order; a
    fifth, otherwise valid, fails, writes no handle and makes no vendor call:
    `logs` holds the call log before and after that fifth Init.
   */
  method FillPool() returns (results: seq<Ret>, handles: seq<Option<nat>>, ghost logs: seq<seq<VendorCall>>)
    ensures results == [OK, OK, OK, OK, Fail]
    ensures handles == [Some(0), Some(1), Some(2), Some(3), None]
    ensures |logs| == 2 && |logs[0]| == 4 * |InitCalls(GpioPars(0, 0, DirInpt, PullNo))|
    ensures logs[1] == logs[0]
  {
    var d := new GpioDriver();
    var r0, h0 := d.Init(true, Some(GpioPars(0, 0, DirInpt, PullNo)));
    var r1, h1 := d.Init(true, Some(GpioPars(1, 5, DirInpt, PullUp)));
    var r2, h2 := d.Init(true, Some(GpioPars(2, 18, DirOutp, PullNo)));
    var r3, h3 := d.Init(true, Some(GpioPars(3, 31, DirInpt, PullDw)));
    ghost var before := d.calls;
    var r4, h4 := d.Init(true, Some(GpioPars(4, 1, DirOutp, PullNo)));
    results, handles := [r0, r1, r2, r3, r4], [h0, h1, h2, h3, h4];
    logs := [before, d.calls];
  }

  /** Set then Get on a pin whose input register reads back the bit just written. */
  method Loopback(lvl: uint32) returns (got: uint32)
    ensures got == (if lvl == LvlLo then LvlLo else LvlHi)
  {
    var d := new GpioDriver();
    var r, h := d.Init(true, Some(GpioPars(2, 7, DirOutp, PullNo)));
    var s := d.Set(h, lvl);
    assert d.calls[|d.calls| - 1] == WritePinOutput(Gpio(2), 7, OutputFor(lvl));
    got := d.Get(h, OutputFor(lvl));
  }
}
