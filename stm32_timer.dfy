/**
  The Timer driver for STM32F10x devices: a pool of two timer instances (TIM3,
  TIM4) handed out by a monotonic cursor, the longest period the 16-bit counter
  can reach at the fixed prescaler, the millisecond-to-reload conversion done in
  32-bit unsigned arithmetic, and the dispatch of a period-elapsed interrupt to
  the callback stored for that instance.

  The HAL is outside the model: every call the driver makes into it is appended
  to a ghost log, and what the HAL returns (the bus clock frequency, the status
  of HAL_TIM_Base_Init and HAL_TIM_Base_Start_IT) is a parameter.
 */
module Stm32Timer {
  import opened Common

  /** myTimer_TIM_Count: how many timer instances the pool can hand out. */
  const TimCount: nat := 2
  /** DRIVER_TIMER_PRESCALER */
  const Prescaler: nat := 1024
  /** 0x10000: the number of ticks of a 16-bit counter. */
  const CounterSpan: nat := 0x10000
  /** 0x10000 * 1024 * 1000, the dividend of the maximum-period computation. */
  const MaxMsDividend: nat := 67108864000
  /** myTimerMode_Periodic, the only mode Init accepts. */
  const ModePeriodic: uint32 := 0

  // Values of the HAL constants Init writes into a handle.
  const TimCounterModeUp: uint32 := 1
  const TimAutoReloadPreloadEnable: uint32 := 7

  /** myTimerPars_t */
  datatype TimerPars = TimerPars(mode: uint32)

  /** The register base a handle's Instance points to; NoTim is the NULL of a handle never set up. */
  datatype TimInstance = NoTim | TIM3 | TIM4

  datatype Irq = Tim3Irq | Tim4Irq

  /** HAL_StatusTypeDef */
  datatype HalStatus = HalOk | HalError | HalBusy | HalTimeout

  /** A user callback, identified by the function it points to. */
  datatype Callback = Callback(id: nat)

  /** TIM_Base_InitTypeDef */
  datatype TimBaseInit = TimBaseInit(
    prescaler: uint32,
    counterMode: uint32,
    period: uint32,
    clockDivision: uint32,
    repetitionCounter: uint32,
    autoReloadPreload: uint32)

  /** TIM_HandleTypeDef: the HAL handle whose address identifies an instance to the interrupt path. */
  class TimHandle {
    var instance: TimInstance
    var init: TimBaseInit

    constructor ()
      ensures instance == NoTim && init == TimBaseInit(0, 0, 0, 0, 0, 0)
    {
      instance := NoTim;
      init := TimBaseInit(0, 0, 0, 0, 0, 0);
    }
  }

  /** myTimerStruct_t: a pool slot, holding a pointer to its HAL handle and the user callback. */
  datatype TimerSlot = TimerSlot(handle: TimHandle?, cbk: Option<Callback>)

  /** One call into the HAL. */
  datatype VendorCall =
    | GetPclk1Freq
    | RccClockEnable(tim: TimInstance)
    | NvicSetPriority(irq: Irq, preemptPriority: nat, subPriority: nat)
    | NvicEnableIrq(irq: Irq)
    | BaseStopIt(stopped: TimHandle)
    | BaseInit(initialised: TimHandle)
    | BaseStartIt(started: TimHandle)

  /** myTimer_TIMs: the peripheral of pool index i. */
  function InstanceOf(i: nat): (tim: TimInstance)
    ensures tim != NoTim
    ensures tim == TIM3 <==> i == 0
  {
    if i == 0 then TIM3 else TIM4
  }

  /** myTimer_IRQs: the interrupt line of pool index i. */
  function IrqOf(i: nat): (irq: Irq)
    ensures irq == Tim3Irq <==> InstanceOf(i) == TIM3
    ensures irq == Tim4Irq <==> InstanceOf(i) == TIM4
  {
    if i == 0 then Tim3Irq else Tim4Irq
  }

  /** The HAL calls a successful Init of pool index i makes, in order. */
  function InitCalls(i: nat): seq<VendorCall>
  {
    [GetPclk1Freq, RccClockEnable(InstanceOf(i)), NvicSetPriority(IrqOf(i), 15, 0), NvicEnableIrq(IrqOf(i))]
  }

  /** The HAL calls Start makes on a handle; the timer is started only after a successful init. */
  function StartCalls(h: TimHandle, initStatus: HalStatus): seq<VendorCall>
  {
    [BaseStopIt(h), BaseInit(h)] + if initStatus == HalOk then [BaseStartIt(h)] else []
  }

  /** myTimer_MaxMs: 0x10000 * 1024 * 1000 / freq, computed in 64 bits, then truncated to 32 bits. */
  function MaxMs(freq: uint32): (maxMs: uint32)
    requires freq != 0
    ensures maxMs == MaxMsDividend / freq <==> MaxMsDividend / freq < Uint32Modulus
  {
    Wrap32(MaxMsDividend / freq)
  }

  /** The tick count Start computes: (0x10000 * period) wraps in 32 bits before the division. */
  function Counter(period: uint32, maxMs: uint32): (counter: uint32)
    requires maxMs != 0
    ensures period < CounterSpan ==> counter == CounterSpan * period / maxMs
  {
    Wrap32(CounterSpan * period) / maxMs
  }

  /** The reload value Start stores in Init.Period: counter - 1, wrapping in 32 bits. */
  function ReloadValue(period: uint32, maxMs: uint32): (reload: uint32)
    requires maxMs != 0
    ensures Counter(period, maxMs) >= 1 ==> reload + 1 == Counter(period, maxMs)
    ensures Counter(period, maxMs) == 0 ==> reload == 0xFFFF_FFFF
  {
    Wrap32(Counter(period, maxMs) - 1)
  }

  /** a / b < c whenever a < c * b. */
  lemma QuotientBelow(a: nat, b: nat, c: nat)
    requires b > 0 && a < c * b
    ensures a / b < c
  {
  }

  /** a / b <= c whenever a <= c * b. */
  lemma QuotientAtMost(a: nat, b: nat, c: nat)
    requires b > 0 && a <= c * b
    ensures a / b <= c
  {
    QuotientBelow(a, b, c + 1);
  }

  /** For a bus clock of 16 Hz or more the 64-bit quotient fits 32 bits, so MaxMs is exact. */
  lemma MaxMsExact(freq: uint32)
    requires freq >= 16
    ensures MaxMs(freq) == MaxMsDividend / freq
    ensures MaxMs(freq) >= 15
  {
    var q := MaxMsDividend / freq;
    QuotientAtMost(MaxMsDividend, freq, 4194304000);
    assert q < Uint32Modulus;
    assert q >= 15 by {
      assert q * freq + MaxMsDividend % freq == MaxMsDividend;
    }
  }

  /** Below 16 Hz the 64-bit quotient exceeds 32 bits and the stored MaxMs is not the true maximum. */
  lemma MaxMsTruncatedBelow16Hz(freq: uint32)
    requires 0 < freq < 16
    ensures MaxMs(freq) != MaxMsDividend / freq
  {
    var q := MaxMsDividend / freq;
    assert q >= Uint32Modulus by {
      assert q * freq + MaxMsDividend % freq == MaxMsDividend;
    }
  }

  /** MaxMs is never zero for a nonzero clock, so Start's division is always defined. */
  lemma MaxMsPositive(freq: uint32)
    requires freq != 0
    ensures MaxMs(freq) > 0
  {
    if freq >= 16 {
      MaxMsExact(freq);
    } else if freq == 1 {
      assert MaxMs(1) == 2684354560;
    } else if freq == 2 {
      assert MaxMs(2) == 3489660928;
    } else if freq == 3 {
      assert MaxMs(3) == 894784853;
    } else if freq == 4 {
      assert MaxMs(4) == 3892314112;
    } else if freq == 5 {
      assert MaxMs(5) == 536870912;
    } else if freq == 6 {
      assert MaxMs(6) == 2594876074;
    } else if freq == 7 {
      assert MaxMs(7) == 997045979;
    } else if freq == 8 {
      assert MaxMs(8) == 4093640704;
    } else if freq == 9 {
      assert MaxMs(9) == 3161573148;
    } else if freq == 10 {
      assert MaxMs(10) == 2415919104;
    } else if freq == 11 {
      assert MaxMs(11) == 1805838522;
    } else if freq == 12 {
      assert MaxMs(12) == 1297438037;
    } else if freq == 13 {
      assert MaxMs(13) == 867253011;
    } else if freq == 14 {
      assert MaxMs(14) == 498522989;
    } else {
      assert MaxMs(15) == 178956970;
    }
  }

  /** The 1 MHz bus clock of the unit tests gives a maximum period of 67108 ms. */
  lemma MaxMsAtOneMegahertz()
    ensures MaxMs(1000000) == 67108
  {
  }

  /**
    When the period is below the maximum and 0x10000 * period does not wrap,
    the counter is below 0x10000; if it is at least 1 the reload value fits the
    16-bit auto-reload register and is exactly the tick count minus one.
   */
  lemma ReloadFits16Bits(period: uint32, maxMs: uint32)
    requires 0 < period < maxMs && period < CounterSpan
    ensures Counter(period, maxMs) == CounterSpan * period / maxMs < CounterSpan
    ensures Counter(period, maxMs) >= 1 ==>
      ReloadValue(period, maxMs) <= 0xFFFF && ReloadValue(period, maxMs) + 1 == Counter(period, maxMs)
  {
    assert Wrap32(CounterSpan * period) == CounterSpan * period;
    QuotientBelow(CounterSpan * period, maxMs, CounterSpan);
  }

  /** The reload value is 0xFFFFFFFF exactly when the counter is 0. */
  lemma ReloadWrapsIffCounterZero(period: uint32, maxMs: uint32)
    requires maxMs != 0
    ensures ReloadValue(period, maxMs) == 0xFFFF_FFFF <==> Counter(period, maxMs) == 0
  {
  }

  /**
    At 1 MHz the period 65536 passes the `period < MaxMs` check, yet
    0x10000 * 65536 wraps to 0, the counter is 0 and the reload wraps to 0xFFFFFFFF.
   */
  lemma ReloadOverflowAt65536()
    ensures 65536 < MaxMs(1000000)
    ensures Counter(65536, MaxMs(1000000)) == 0
    ensures ReloadValue(65536, MaxMs(1000000)) == 0xFFFF_FFFF
  {
    MaxMsAtOneMegahertz();
  }

  /** At 1 MHz a 1 ms period is shorter than one tick: the counter is 0 and the reload wraps to 0xFFFFFFFF. */
  lemma ReloadUnderflowAtOneMs()
    ensures Counter(1, MaxMs(1000000)) == 0
    ensures ReloadValue(1, MaxMs(1000000)) == 0xFFFF_FFFF
  {
    MaxMsAtOneMegahertz();
  }

  /**
    The reload value the conversion is meant to produce: the tick count computed
    without wrap-around, at least one tick, minus one.
   */
  function IntendedReload(period: uint32, maxMs: uint32): (r: nat)
    requires 0 < maxMs && period < maxMs
    ensures r <= 0xFFFF
    ensures r + 1 == if CounterSpan * period / maxMs == 0 then 1 else CounterSpan * period / maxMs
  {
    QuotientBelow(CounterSpan * period, maxMs, CounterSpan);
    var ticks := CounterSpan * period / maxMs;
    if ticks == 0 then 0 else ticks - 1
  }

  /** Where neither wrap-around occurs, the code's reload value is the intended one. */
  lemma ReloadAgreesWithIntended(period: uint32, maxMs: uint32)
    requires 0 < period < maxMs && period < CounterSpan
    requires CounterSpan * period >= maxMs
    ensures ReloadValue(period, maxMs) == IntendedReload(period, maxMs)
  {
    ReloadFits16Bits(period, maxMs);
    assert CounterSpan * period / maxMs >= 1 by {
      var q := CounterSpan * period / maxMs;
      assert q * maxMs + (CounterSpan * period) % maxMs == CounterSpan * period;
      if q == 0 {
        assert false;
      }
    }
  }

  /** The intended reload of the two failing inputs above: 63999 for 65536 ms and 0 for 1 ms at 1 MHz. */
  lemma IntendedReloadAtFailingInputs()
    ensures IntendedReload(65536, MaxMs(1000000)) == 63999
    ensures IntendedReload(1, MaxMs(1000000)) == 0
  {
    MaxMsAtOneMegahertz();
  }

  /** The driver's module state: handle and slot arrays, cursor, maximum period and the HAL call log. */
  class TimerDriver {
    /** myTimer_handle: the HAL handles, whose addresses the interrupt path compares. */
    const handles: array<TimHandle>
    /** myTimer_Struct: the storage every timer handle points into. */
    const slots: array<TimerSlot>
    /** myTimer_NextTIM: the next instance to claim. */
    var nextTim: uint32
    /** myTimer_MaxMs: the longest period, shared by all instances. */
    var maxMs: uint32
    /** Every HAL call made so far, oldest first. */
    ghost var calls: seq<VendorCall>

    ghost predicate Valid()
      reads this, handles, slots
    {
      && handles.Length == TimCount && slots.Length == TimCount
      && handles[0] != handles[1]
      && nextTim <= TimCount
      && (forall i :: 0 <= i < TimCount ==> slots[i].handle == null || slots[i].handle == handles[i])
      && (forall i :: 0 <= i < TimCount ==> slots[i].handle != null ==> maxMs != 0)
    }

    /** The zero-initialised static state. */
    constructor ()
      ensures Valid() && fresh(handles) && fresh(slots) && fresh(handles[0]) && fresh(handles[1])
      ensures nextTim == 0 && maxMs == 0 && calls == []
      ensures forall i :: 0 <= i < TimCount ==> slots[i] == TimerSlot(null, None)
      ensures forall i :: 0 <= i < TimCount ==>
        handles[i].instance == NoTim && handles[i].init == TimBaseInit(0, 0, 0, 0, 0, 0)
    {
      var h0 := new TimHandle();
      var h1 := new TimHandle();
      handles := new TimHandle[] [h0, h1];
      slots := new TimerSlot[TimCount](_ => TimerSlot(null, None));
      nextTim := 0;
      maxMs := 0;
      calls := [];
    }

    /**
      myTimer_Init. `timerPresent` says whether the out-pointer is non-NULL and
      `pars` is NULL when None; `freq` is what HAL_RCC_GetPCLK1Freq returns.
      The result `timer` is what gets written through the out-pointer: Some(i)
      for the address of slot i, None when nothing is written.
     */
    method Init(timerPresent: bool, pars: Option<TimerPars>, freq: uint32) returns (result: Ret, timer: Option<nat>)
      requires Valid()
      requires timerPresent && pars.Some? && pars.value.mode == ModePeriodic && nextTim < TimCount ==> freq != 0
      modifies this, slots, handles[..]
      ensures Valid()
      ensures result == OK <==>
        timerPresent && pars.Some? && pars.value.mode == ModePeriodic && old(nextTim) < TimCount
      ensures timer.Some? <==> result == OK
      ensures result == OK ==>
        var i := old(nextTim) as nat;
        && timer == Some(i)
        && nextTim == old(nextTim) + 1
        && slots[i] == TimerSlot(handles[i], None)
        && (forall j :: 0 <= j < TimCount && j != i ==> slots[j] == old(slots[j]))
        && maxMs == MaxMs(freq)
        && handles[i].instance == InstanceOf(i)
        && handles[i].init == old(handles[i].init).(
             prescaler := Prescaler, counterMode := TimCounterModeUp, clockDivision := 0,
             repetitionCounter := 0, autoReloadPreload := TimAutoReloadPreloadEnable)
        && (forall j :: 0 <= j < TimCount && j != i ==>
              handles[j].instance == old(handles[j].instance) && handles[j].init == old(handles[j].init))
        && calls == old(calls) + InitCalls(i)
      ensures result == Fail ==>
        && nextTim == old(nextTim) && maxMs == old(maxMs)
        && slots[..] == old(slots[..]) && calls == old(calls)
        && (forall j :: 0 <= j < TimCount ==>
              handles[j].instance == old(handles[j].instance) && handles[j].init == old(handles[j].init))
    {
      result := Fail;
      timer := None;
      if timerPresent && pars.Some? {
        if pars.value.mode == ModePeriodic {
          var thisTim := nextTim;
          nextTim := nextTim + 1;
          if thisTim >= TimCount as uint32 {
            nextTim := nextTim - 1;
          } else {
            var handle := handles[thisTim];
            calls := calls + [GetPclk1Freq];
            slots[thisTim] := TimerSlot(handle, None);
            MaxMsPositive(freq);
            maxMs := MaxMs(freq);
            handle.instance := InstanceOf(thisTim);
            handle.init := handle.init.(
              counterMode := TimCounterModeUp, prescaler := Prescaler, clockDivision := 0,
              repetitionCounter := 0, autoReloadPreload := TimAutoReloadPreloadEnable);
            calls := calls + [RccClockEnable(InstanceOf(thisTim))];
            calls := calls + [NvicSetPriority(IrqOf(thisTim), 15, 0)];
            calls := calls + [NvicEnableIrq(IrqOf(thisTim))];
            timer := Some(thisTim as nat);
            result := OK;
          }
        }
      }
    }

    /**
      myTimer_Start. `initStatus` and `startStatus` are what HAL_TIM_Base_Init
      and HAL_TIM_Base_Start_IT return. The callback and the reload value are
      stored before the HAL is called, so they stay updated when the HAL fails.
     */
    method Start(timer: Option<nat>, period: uint32, cbk: Option<Callback>, initStatus: HalStatus, startStatus: HalStatus)
      returns (result: Ret)
      requires Valid()
      requires timer.Some? ==> timer.value < TimCount && slots[timer.value].handle != null
      modifies this, slots, handles[..]
      ensures Valid()
      ensures nextTim == old(nextTim) && maxMs == old(maxMs)
      ensures forall j :: 0 <= j < TimCount ==> handles[j].instance == old(handles[j].instance)
      ensures !(timer.Some? && period != 0 && cbk.Some?) ==>
        && result == Fail
        && slots[..] == old(slots[..]) && calls == old(calls)
        && (forall j :: 0 <= j < TimCount ==> handles[j].init == old(handles[j].init))
      ensures timer.Some? && period != 0 && cbk.Some? ==>
        var i := timer.value;
        && slots[i] == old(slots[i]).(cbk := cbk)
        && (forall j :: 0 <= j < TimCount && j != i ==> slots[j] == old(slots[j]))
        && handles[i].init == old(handles[i].init).(period := ReloadValue(period, maxMs))
        && (forall j :: 0 <= j < TimCount && j != i ==> handles[j].init == old(handles[j].init))
        && calls == old(calls) + StartCalls(handles[i], initStatus)
        && (result == OK <==> initStatus == HalOk && startStatus == HalOk)
    {
      result := Fail;
      if timer.Some? && period != 0 && cbk.Some? {
        var strc := slots[timer.value];
        var handle := strc.handle;
        slots[timer.value] := strc.(cbk := cbk);
        var counter := Counter(period, maxMs);
        handle.init := handle.init.(period := Wrap32(counter as int - 1));
        calls := calls + [BaseStopIt(handle)];
        var status := initStatus;
        calls := calls + [BaseInit(handle)];
        if status == HalOk {
          status := startStatus;
          calls := calls + [BaseStartIt(handle)];
          if status == HalOk { result := OK; }
        }
      }
    }

    /**
      HAL_TIM_PeriodElapsedCallback: a linear scan for the slot whose HAL handle
      is `htim`. `found` is the flag the code asserts on; `invoked` is the
      callback it calls, None when it calls none, so at most one is called.
     */
    method PeriodElapsed(htim: TimHandle?) returns (found: bool, invoked: Option<Callback>)
      requires Valid()
      ensures found <==> exists i :: 0 <= i < TimCount && handles[i] == htim
      ensures forall i :: 0 <= i < TimCount && handles[i] == htim ==> invoked == slots[i].cbk
      ensures !found ==> invoked == None
    {
      found := false;
      invoked := None;
      var thisTim := 0;
      while thisTim < TimCount
        invariant 0 <= thisTim <= TimCount
        invariant !found && invoked == None
        invariant forall j :: 0 <= j < thisTim ==> handles[j] != htim
      {
        if handles[thisTim] == htim {
          var cbk := slots[thisTim].cbk;
          found := true;
          if cbk.Some? { invoked := cbk; }
          break;
        }
        thisTim := thisTim + 1;
      }
    }

    /** myTimer_Reset (test builds only): rewinds the cursor; callbacks and MaxMs are kept. */
    method Reset()
      requires Valid()
      modifies this
      ensures Valid()
      ensures nextTim == 0 && maxMs == old(maxMs) && calls == old(calls)
    {
      nextTim := 0;
    }
  }

  /** Periodic Inits claim TIM3, then TIM4; the third fails and writes no handle. */
  method ClaimBothTimers() returns (results: seq<Ret>, timers: seq<Option<nat>>, instances: seq<TimInstance>)
    ensures results == [OK, OK, Fail]
    ensures timers == [Some(0), Some(1), None]
    ensures instances == [TIM3, TIM4]
  {
    var d := new TimerDriver();
    var pars := Some(TimerPars(ModePeriodic));
    var r0, t0 := d.Init(true, pars, 1000000);
    var r1, t1 := d.Init(true, pars, 1000000);
    var r2, t2 := d.Init(true, pars, 1000000);
    results, timers := [r0, r1, r2], [t0, t1, t2];
    instances := [d.handles[0].instance, d.handles[1].instance];
  }

  /**
    At 1 MHz, Start with 200 ms stores reload 194 and succeeds; the interrupt of
    that timer's handle calls its callback, the never-claimed TIM4 calls nothing,
    and a handle the driver does not own is not found.
   */
  method StartThenInterrupt(cb: Callback) returns (started: Ret, reload: uint32, own: Option<Callback>,
                                                   unclaimed: Option<Callback>, foreignFound: bool)
    ensures started == OK && reload == 194
    ensures own == Some(cb) && unclaimed == None && !foreignFound
  {
    var d := new TimerDriver();
    var r, t := d.Init(true, Some(TimerPars(ModePeriodic)), 1000000);
    MaxMsAtOneMegahertz();
    started := d.Start(t, 200, Some(cb), HalOk, HalOk);
    assert d.calls[|d.calls| - 1] == BaseStartIt(d.handles[0]);
    reload := d.handles[0].init.period;
    var found;
    found, own := d.PeriodElapsed(d.handles[0]);
    found, unclaimed := d.PeriodElapsed(d.handles[1]);
    var other := new TimHandle();
    var ignored;
    foreignFound, ignored := d.PeriodElapsed(other);
  }
}
