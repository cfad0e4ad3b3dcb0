/** The sampling engine as a value: its fields, one pure function per handler of the
    JSN_SR04_Gen3 state machine, and a run over a trace of events (loop() ticks,
    peripheral interrupts, DMA writes, calls from the application). The class in
    module Sampler is proved to follow these functions one call at a time; the
    lemmas here state what the source promises over one or many steps. */
module SamplerModel {
  import opened OneBits
  import opened Results

  datatype Option<T> = None | Some(value: T)

  /** unsigned long / system_tick_t on the target: 32 bits. */
  type u32 = x: int | 0 <= x < 0x1_0000_0000

  /** pin_t (uint16_t). */
  type Pin = x: int | 0 <= x < 0x1_0000

  /** Device OS's marker for "no pin". */
  const PIN_INVALID: Pin := 0xff

  /** Field initialisers of the engine. */
  const DefaultLeadingOverhead: nat := 152
  const DefaultSafetyTimeoutMs: u32 := 30
  const DefaultMaxLengthM: real := 2.0

  /** millis() - sampleTime in unsigned 32-bit arithmetic. */
  function Elapsed(now: u32, since: u32): (d: u32)
    ensures (d + since) % 0x1_0000_0000 == now
    ensures since <= now ==> d == now - since
  {
    (now - since) % 0x1_0000_0000
  }

  /** Which of idleState, startState and sampleState stateHandler points to. */
  datatype Handler = IdleState | StartState | SampleState

  /** The calls the engine makes into the nrfx I2S driver, in order. */
  datatype I2sCall = Init | Start(words: nat) | Stop | Uninit

  /** What the with... setters configure, and the two tuned constants. */
  datatype Config = Config(
    trigPin: Pin, echoPin: Pin, unusedPin1: Pin, unusedPin2: Pin,
    maxLengthM: real,
    hasCallback: bool,
    samplePeriodic: u32,
    leadingOverhead: nat,
    safetyTimeoutMs: u32)

  /** The engine's whole state. rx and tx are None while the buffer pointers are null.
      buffersRequested is the file-static counter the data handler bumps.
      history lists every result setResult recorded, delivered every value handed to the
      callback, i2s every driver call. */
  datatype Engine = Engine(
    cfg: Config,
    numSamples: nat,
    rx: Option<seq<u16>>,
    tx: Option<seq<u16>>,
    isIdle: bool,
    lastResult: DistanceResult,
    sampleTime: u32,
    handler: Handler,
    buffersRequested: nat,
    history: seq<DistanceResult>,
    delivered: seq<DistanceResult>,
    i2s: seq<I2sCall>)

  /** A freshly constructed engine: no pins, no buffers, idle, the default result. */
  function Initial(): (r: Engine)
    ensures !PinsValid(r.cfg) && r.isIdle && r.handler == IdleState
    ensures r.rx.None? && r.tx.None? && r.numSamples == 0 && r.history == []
    ensures r.lastResult == DistanceResult(Error, 0.0)
  {
    Engine(
      Config(PIN_INVALID, PIN_INVALID, PIN_INVALID, PIN_INVALID, DefaultMaxLengthM, false, 0,
             DefaultLeadingOverhead, DefaultSafetyTimeoutMs),
      0, None, None, true, DefaultResult, 0, IdleState, 0, [], [], [])
  }

  predicate PinsValid(c: Config)
  {
    c.trigPin != PIN_INVALID && c.echoPin != PIN_INVALID &&
    c.unusedPin1 != PIN_INVALID && c.unusedPin2 != PIN_INVALID
  }

  /** The double that setup computes for numSamples: the leading overhead plus
      4 * floor(maxLengthM * 48). A negative range lowers it, and below -38/48 m (with the
      default overhead of 152) it drops under zero. */
  function RawSampleCount(c: Config): int
  {
    c.leadingOverhead + (c.maxLengthM * 48.0).Floor * 4
  }

  /** Whether that double converts to size_t: converting a negative value is undefined. */
  predicate SampleCountDefined(c: Config)
  {
    RawSampleCount(c) >= 0
  }

  /** numSamples as setup computes it. */
  function SampleCount(c: Config): (n: nat)
    requires SampleCountDefined(c)
    ensures n % 4 == c.leadingOverhead % 4
    ensures c.maxLengthM >= 0.0 ==> n >= c.leadingOverhead
  {
    RawSampleCount(c)
  }

  /** setup() is defined unless it reaches the sizing step with a count below zero. */
  predicate SetupDefined(e: Engine)
  {
    PinsValid(e.cfg) && e.isIdle ==> SampleCountDefined(e.cfg)
  }

  function Zeros(n: nat): (z: seq<u16>)
    ensures |z| == n && forall i :: 0 <= i < n ==> z[i] == 0
  {
    seq(n, i => 0)
  }

  /** setup(): fails without effect on an invalid pin or when not idle; otherwise
      recomputes numSamples and allocates each buffer that is still null. */
  function Setup(e: Engine): (r: (Engine, bool))
    requires SetupDefined(e)
    ensures r.1 <==> PinsValid(e.cfg) && e.isIdle
    ensures !r.1 ==> r.0 == e
  {
    if !PinsValid(e.cfg) || !e.isIdle then (e, false)
    else
      var n := SampleCount(e.cfg);
      (e.(numSamples := n,
          rx := if e.rx.None? then Some(Zeros(n)) else e.rx,
          tx := if e.tx.None? then Some(Zeros(n)) else e.tx),
       true)
  }

  /** What setup promises. It succeeds exactly when all four pins are set and the engine is
      idle, and a failure changes nothing. On success numSamples is the leading overhead plus
      4 * floor(maxLengthM * 48), a multiple of 4 whenever the overhead is; a buffer that
      already exists is kept as it is (even when it is now shorter than numSamples) and a
      missing one is allocated with numSamples words. Nothing else changes. */
  lemma SetupEffects(e: Engine)
    requires SetupDefined(e)
    ensures var (r, ok) := Setup(e);
      && (ok <==> PinsValid(e.cfg) && e.isIdle)
      && (!ok ==> r == e)
      && (ok ==> r.numSamples == e.cfg.leadingOverhead + 4 * (e.cfg.maxLengthM * 48.0).Floor)
      && (ok && e.cfg.leadingOverhead % 4 == 0 ==> r.numSamples % 4 == 0)
      && (e.rx.Some? ==> r.rx == e.rx)
      && (e.tx.Some? ==> r.tx == e.tx)
      && (ok ==> r.rx.Some? && r.tx.Some?)
      && (ok && e.rx.None? ==> |r.rx.value| == r.numSamples)
      && (ok && e.tx.None? ==> |r.tx.value| == r.numSamples)
      && r == e.(numSamples := r.numSamples, rx := r.rx, tx := r.tx)
  {
  }

  /** sampleOnce(): starts a cycle when idle, otherwise fails without effect. */
  function SampleOnce(e: Engine): (r: (Engine, bool))
    ensures r.1 <==> e.isIdle
    ensures r.1 ==> r.0 == e.(handler := StartState, isIdle := false)
    ensures !r.1 ==> r.0 == e
  {
    if e.isIdle then (e.(handler := StartState, isIdle := false), true) else (e, false)
  }

  /** setResult(): records the result and hands it to the callback, if one is registered. */
  function SetResult(e: Engine, status: Status, distanceM: real): (r: Engine)
    ensures r.lastResult == DistanceResult(status, distanceM)
    ensures r.history == e.history + [r.lastResult]
    ensures r.delivered == if e.cfg.hasCallback then e.delivered + [r.lastResult] else e.delivered
    ensures r == e.(lastResult := r.lastResult, history := r.history, delivered := r.delivered)
  {
    var res := DistanceResult(status, distanceM);
    e.(lastResult := res, history := e.history + [res],
       delivered := if e.cfg.hasCallback then e.delivered + [res] else e.delivered)
  }

  /** idleState(): periodic sampling starts a cycle once samplePeriodic ms have passed since
      the last cycle started. */
  function IdleStep(e: Engine, now: u32): (r: Engine)
    ensures (e.cfg.samplePeriodic != 0 && Elapsed(now, e.sampleTime) >= e.cfg.samplePeriodic)
            ==> r == e.(handler := StartState, isIdle := false)
    ensures !(e.cfg.samplePeriodic != 0 && Elapsed(now, e.sampleTime) >= e.cfg.samplePeriodic)
            ==> r == e
  {
    if e.cfg.samplePeriodic != 0 && Elapsed(now, e.sampleTime) >= e.cfg.samplePeriodic
    then e.(handler := StartState, isIdle := false)
    else e
  }

  /** The buffers exist and hold numSamples words, and tx has a word 0. */
  predicate Ready(e: Engine)
  {
    e.rx.Some? && e.tx.Some? && e.numSamples <= |e.rx.value| && e.numSamples <= |e.tx.value| &&
    1 <= |e.tx.value|
  }

  /** rx after startState: the first n words cleared, the rest as they were. */
  function ClearedRx(rx: seq<u16>, n: nat): seq<u16>
  {
    seq(|rx|, i requires 0 <= i < |rx| => if i < n then 0 else rx[i])
  }

  /** tx after startState: one all-ones word (the 16 us trigger pulse), then zeros up to n. */
  function TriggerTx(tx: seq<u16>, n: nat): seq<u16>
  {
    seq(|tx|, i requires 0 <= i < |tx| => if i == 0 then 0xffff else if i < n then 0 else tx[i])
  }

  /** startState(): initialise the peripheral, prepare the buffers, start the transfer of
      numSamples / 2 32-bit words. A failure records ERROR and leaves the handler alone. */
  function StartStep(e: Engine, now: u32, initOk: bool, startOk: bool): (r: Engine)
    requires initOk ==> Ready(e)
    ensures r.handler == (if initOk && startOk then SampleState else e.handler)
    ensures r.cfg == e.cfg && r.numSamples == e.numSamples && r.isIdle == e.isIdle
  {
    var e1 := e.(i2s := e.i2s + [Init]);
    if !initOk then SetResult(e1, Error, 0.0)
    else Launched(e1, now, startOk)
  }

  /** The rest of startState after a successful init: prepare and start the transfer; a
      failed start records ERROR and keeps the handler. */
  function Launched(e: Engine, now: u32, startOk: bool): (r: Engine)
    requires Ready(e)
    ensures r.handler == (if startOk then SampleState else e.handler)
    ensures r.cfg == e.cfg && r.numSamples == e.numSamples && r.isIdle == e.isIdle
  {
    var e2 := Armed(e);
    if !startOk then SetResult(e2, Error, 0.0)
    else e2.(handler := SampleState, sampleTime := now)
  }

  /** The part of startState between a successful init and the start of the transfer:
      the counter reset, the buffers prepared and the transfer of numSamples / 2 words
      requested. */
  function Armed(e: Engine): (r: Engine)
    requires Ready(e)
    ensures Ready(r) && r.cfg == e.cfg && r.handler == e.handler && r.history == e.history
  {
    e.(buffersRequested := 0,
       rx := Some(ClearedRx(e.rx.value, e.numSamples)),
       tx := Some(TriggerTx(e.tx.value, e.numSamples)),
       i2s := e.i2s + [Start(e.numSamples / 2)])
  }

  /** What startState leaves behind. After a successful init the counter is 0, the first
      numSamples words of rx are 0, tx holds the trigger word 0xffff followed by zeros, and a
      transfer of numSamples / 2 words was started; after a successful start too, the handler
      is the sample state and sampleTime is now. An init failure touches neither the counter
      nor the buffers; any failure records ERROR, keeps sampleTime and keeps the handler, so
      the start state runs again on the next tick. */
  lemma StartStepEffects(e: Engine, now: u32, initOk: bool, startOk: bool)
    requires initOk ==> Ready(e)
    ensures var r := StartStep(e, now, initOk, startOk);
      && (!initOk ==> r == SetResult(e.(i2s := e.i2s + [Init]), Error, 0.0))
      && (!initOk ==> r.buffersRequested == e.buffersRequested && r.rx == e.rx && r.tx == e.tx)
      && (initOk && !startOk ==> r == SetResult(Armed(e.(i2s := e.i2s + [Init])), Error, 0.0))
      && r.handler == (if initOk && startOk then SampleState else e.handler)
      && r.isIdle == e.isIdle && r.numSamples == e.numSamples && r.cfg == e.cfg
      && (initOk ==> r.buffersRequested == 0)
      && (initOk ==> r.i2s == e.i2s + [Init, Start(e.numSamples / 2)])
      && (initOk ==> r.rx.Some? && |r.rx.value| == |e.rx.value|)
      && (initOk ==> r.tx.Some? && |r.tx.value| == |e.tx.value|)
      && (initOk ==> forall i :: 0 <= i < e.numSamples ==> r.rx.value[i] == 0)
      && (initOk ==> r.tx.value[0] == 0xffff)
      && (initOk ==> forall i :: 0 < i < e.numSamples ==> r.tx.value[i] == 0)
      && (initOk ==> forall i :: e.numSamples <= i < |e.rx.value| ==> r.rx.value[i] == e.rx.value[i])
      && (initOk ==> forall i :: e.numSamples <= i < |e.tx.value| && 0 < i ==> r.tx.value[i] == e.tx.value[i])
      && (initOk && startOk ==> r.sampleTime == now && r.history == e.history && r.lastResult == e.lastResult)
      && (!(initOk && startOk) ==> r.sampleTime == e.sampleTime && r.lastResult == DistanceResult(Error, 0.0))
  {
  }

  /** sampleState() reads the rx buffer only once two buffers were requested. */
  predicate SampleDefined(e: Engine)
  {
    e.buffersRequested >= 2 ==> e.rx.Some? && e.numSamples <= |e.rx.value|
  }

  /** The echo pulse width in microseconds: the set bits of the first numSamples rx words. */
  function PulseWidthUs(e: Engine): (us: nat)
    requires e.rx.Some? && e.numSamples <= |e.rx.value|
    ensures us <= 16 * e.numSamples
  {
    PopSumBound(e.rx.value[..e.numSamples]);
    PopSum(e.rx.value[..e.numSamples])
  }

  /** sampleState(): wait while fewer than two buffers were requested and the safety timeout
      has not passed; then uninitialise the peripheral and record ERROR, or SUCCESS with the
      measured distance and a return to the idle handler. */
  function SampleStep(e: Engine, now: u32): (r: Engine)
    requires SampleDefined(e)
    ensures r.cfg == e.cfg && r.numSamples == e.numSamples
    ensures r.isIdle == e.isIdle && r.buffersRequested == e.buffersRequested
  {
    if e.buffersRequested < 2 && Elapsed(now, e.sampleTime) < e.cfg.safetyTimeoutMs then e
    else
      var e1 := e.(i2s := e.i2s + [Uninit]);
      if e.buffersRequested < 2 then SetResult(e1, Error, 0.0)
      else SetResult(e1, Success, DistanceM(PulseWidthUs(e))).(handler := IdleState)
  }

  /** What sampleState leaves behind. While fewer than two buffers were requested and the
      timeout has not passed, nothing changes. Past the timeout with fewer than two, ERROR is
      recorded and the handler stays the sample state, so every later tick records ERROR
      again. With two or more, SUCCESS is recorded with the set-bit count of the first
      numSamples rx words (at most 16 per word) converted to metres, and the handler returns
      to idle. isIdle and the counter never change here. */
  lemma SampleStepEffects(e: Engine, now: u32)
    requires SampleDefined(e)
    ensures var r := SampleStep(e, now);
      && (e.buffersRequested < 2 && Elapsed(now, e.sampleTime) < e.cfg.safetyTimeoutMs ==> r == e)
      && (e.buffersRequested < 2 && Elapsed(now, e.sampleTime) >= e.cfg.safetyTimeoutMs ==>
            r == SetResult(e.(i2s := e.i2s + [Uninit]), Error, 0.0) && r.handler == e.handler)
      && (e.buffersRequested >= 2 ==>
            && r.lastResult == DistanceResult(Success, DistanceM(PopSum(e.rx.value[..e.numSamples])))
            && 0.0 <= r.lastResult.distanceM <= DistanceM(16 * e.numSamples)
            && r.handler == IdleState
            && r == SetResult(e.(i2s := e.i2s + [Uninit]), Success, r.lastResult.distanceM).(handler := IdleState))
      && r.isIdle == e.isIdle && r.buffersRequested == e.buffersRequested
  {
    if e.buffersRequested >= 2 {
      DistanceMonotone(PulseWidthUs(e), 16 * e.numSamples);
    }
  }

  /** When the handler that loop() dispatches to is defined on this state. */
  predicate LoopDefined(e: Engine, initOk: bool)
  {
    match e.handler
    case IdleState => true
    case StartState => initOk ==> Ready(e)
    case SampleState => SampleDefined(e)
  }

  /** loop(): run the current handler. now is millis(); initOk and startOk are the outcomes
      of nrfx_i2s_init and nrfx_i2s_start should the start handler run. */
  function Loop(e: Engine, now: u32, initOk: bool, startOk: bool): (r: Engine)
    requires LoopDefined(e, initOk)
    ensures r.cfg == e.cfg && r.numSamples == e.numSamples
  {
    match e.handler
    case IdleState => IdleStep(e, now)
    case StartState => StartStep(e, now, initOk, startOk)
    case SampleState => SampleStep(e, now)
  }

  /** A tick only ever lowers the buffer counter (startState resets it), clears isIdle only
      when the idle handler starts a cycle, and never touches the configuration or the
      sample count. */
  lemma LoopEffects(e: Engine, now: u32, initOk: bool, startOk: bool)
    requires LoopDefined(e, initOk)
    ensures var r := Loop(e, now, initOk, startOk);
      && r.buffersRequested <= e.buffersRequested
      && r.isIdle == (e.isIdle && !(e.handler == IdleState && r.handler == StartState))
      && r.numSamples == e.numSamples && r.cfg == e.cfg
  {
    match e.handler
    case IdleState =>
    case StartState => StartStepEffects(e, now, initOk, startOk);
    case SampleState => SampleStepEffects(e, now);
  }

  /** _dataHandler(): a NEXT_BUFFERS_NEEDED notification bumps the counter and, from the
      second one on, stops the transfer. Any other status changes nothing. */
  function DataHandler(e: Engine, nextBuffersNeeded: bool): (r: Engine)
    ensures r.buffersRequested == e.buffersRequested + (if nextBuffersNeeded then 1 else 0)
    ensures r.i2s == if nextBuffersNeeded && r.buffersRequested >= 2 then e.i2s + [Stop] else e.i2s
    ensures r == e.(buffersRequested := r.buffersRequested, i2s := r.i2s)
  {
    if nextBuffersNeeded then
      var count := e.buffersRequested + 1;
      e.(buffersRequested := count, i2s := if count >= 2 then e.i2s + [Stop] else e.i2s)
    else e
  }

  /** The I2S peripheral writes captured words into the start of the rx buffer. */
  function Receive(e: Engine, data: seq<u16>): (r: Engine)
    requires e.rx.Some? && |data| <= |e.rx.value|
    ensures r.rx.Some? && |r.rx.value| == |e.rx.value| && r.rx.value[..|data|] == data
    ensures r == e.(rx := r.rx)
  {
    e.(rx := Some(data + e.rx.value[|data|..]))
  }

  /** Everything that can happen to the engine. */
  datatype Event =
    | Tick(now: u32, initOk: bool, startOk: bool)
    | BufferEvent(nextBuffersNeeded: bool)
    | Dma(data: seq<u16>)
    | CallSetup
    | CallSampleOnce
    | WithTrigPin(trigPin: Pin)
    | WithEchoPin(echoPin: Pin)
    | WithUnusedPins(unusedPin1: Pin, unusedPin2: Pin)
    | WithMaxLengthMeters(maxLengthM: real)
    | WithCallback(registered: bool)
    | WithSamplePeriodicMs(periodMs: u32)
    /** The public setResult(), called by the application. */
    | CallSetResult(status: Status, distanceM: real)

  /** One event; None where the source's behaviour is undefined (a null or too short buffer
      dereferenced, a negative length converted to size_t). */
  function Step(e: Engine, ev: Event): Option<Engine>
  {
    match ev
    case Tick(now, initOk, startOk) =>
      if LoopDefined(e, initOk) then Some(Loop(e, now, initOk, startOk)) else None
    case BufferEvent(b) => Some(DataHandler(e, b))
    case Dma(data) => if e.rx.Some? && |data| <= |e.rx.value| then Some(Receive(e, data)) else None
    case CallSetup => if SetupDefined(e) then Some(Setup(e).0) else None
    case CallSampleOnce => Some(SampleOnce(e).0)
    case WithTrigPin(p) => Some(e.(cfg := e.cfg.(trigPin := p)))
    case WithEchoPin(p) => Some(e.(cfg := e.cfg.(echoPin := p)))
    case WithUnusedPins(p1, p2) => Some(e.(cfg := e.cfg.(unusedPin1 := p1, unusedPin2 := p2)))
    case WithMaxLengthMeters(m) => Some(e.(cfg := e.cfg.(maxLengthM := m)))
    case WithCallback(b) => Some(e.(cfg := e.cfg.(hasCallback := b)))
    case WithSamplePeriodicMs(ms) => Some(e.(cfg := e.cfg.(samplePeriodic := ms)))
    case CallSetResult(st, d) => Some(SetResult(e, st, d))
  }

  /** The events applied in order; None once one of them is undefined. */
  function Run(e: Engine, evs: seq<Event>): Option<Engine>
    decreases |evs|
  {
    if evs == [] then Some(e)
    else match Step(e, evs[0])
      case None => None
      case Some(e1) => Run(e1, evs[1..])
  }

  /** The most recent of a list of results, or the default one. */
  function Latest(h: seq<DistanceResult>): DistanceResult
  {
    if h == [] then DefaultResult else h[|h| - 1]
  }

  /** What holds of every engine reachable from Initial(). */
  ghost predicate Inv(e: Engine)
  {
    && (e.handler != IdleState ==> !e.isIdle)
    && (e.handler == SampleState ==> Ready(e))
    && e.lastResult == Latest(e.history)
  }

  /** Every recorded result is one the engine itself produces: SUCCESS or ERROR. */
  ghost predicate EngineStatuses(h: seq<DistanceResult>)
  {
    forall i :: 0 <= i < |h| ==> h[i].status == Success || h[i].status == Error
  }

  /** The application records no result other than SUCCESS or ERROR through setResult(). */
  ghost predicate NoForeignStatus(evs: seq<Event>)
  {
    forall i :: 0 <= i < |evs| && evs[i].CallSetResult? ==>
      evs[i].status == Success || evs[i].status == Error
  }

  lemma InitialInv()
    ensures Inv(Initial()) && EngineStatuses(Initial().history)
  {
  }

  /** A tick keeps the invariant and records only SUCCESS or ERROR. */
  lemma LoopInv(e: Engine, now: u32, initOk: bool, startOk: bool)
    requires Inv(e) && LoopDefined(e, initOk)
    ensures Inv(Loop(e, now, initOk, startOk))
    ensures EngineStatuses(e.history) ==> EngineStatuses(Loop(e, now, initOk, startOk).history)
  {
    match e.handler
    case IdleState =>
    case StartState => StartStepEffects(e, now, initOk, startOk);
    case SampleState => SampleStepEffects(e, now);
  }

  /** Every defined event keeps the invariant; only an application call of setResult() can
      record a status other than SUCCESS or ERROR. */
  lemma StepInv(e: Engine, ev: Event)
    requires Inv(e)
    ensures Step(e, ev).Some? ==> Inv(Step(e, ev).value)
    ensures Step(e, ev).Some? && EngineStatuses(e.history) && NoForeignStatus([ev]) ==>
      EngineStatuses(Step(e, ev).value.history)
  {
    match ev
    case Tick(now, initOk, startOk) =>
      if LoopDefined(e, initOk) {
        LoopInv(e, now, initOk, startOk);
      }
    case CallSetup =>
      if SetupDefined(e) {
        SetupEffects(e);
      }
    case CallSetResult(st, d) =>
      assert NoForeignStatus([ev]) ==> [ev][0].status == Success || [ev][0].status == Error;
    case _ =>
  }

  /** Following a trace keeps the invariant, and keeps the history to SUCCESS and ERROR
      unless the application records something else. */
  lemma {:induction false} RunInv(e: Engine, evs: seq<Event>)
    requires Inv(e)
    ensures Run(e, evs).Some? ==> Inv(Run(e, evs).value)
    ensures Run(e, evs).Some? && EngineStatuses(e.history) && NoForeignStatus(evs) ==>
      EngineStatuses(Run(e, evs).value.history)
    decreases |evs|
  {
    if evs != [] {
      StepInv(e, evs[0]);
      if NoForeignStatus(evs) {
        assert NoForeignStatus([evs[0]]) by {
          assert [evs[0]][0] == evs[0];
        }
        assert NoForeignStatus(evs[1..]) by {
          forall i | 0 <= i < |evs[1..]| ensures evs[1..][i] == evs[i + 1] { }
        }
      }
      if Step(e, evs[0]).Some? {
        RunInv(Step(e, evs[0]).value, evs[1..]);
      }
    }
  }

  /** On every trace from a fresh engine, getLastResult() is the latest recorded result or,
      before any, the default ERROR. Unless the application itself records another status
      through setResult(), that result is SUCCESS or ERROR, never TOO_MANY_RETRIES or BUSY. */
  lemma StoredResults(evs: seq<Event>)
    ensures Run(Initial(), evs).Some? ==>
      var e := Run(Initial(), evs).value;
      && e.lastResult == Latest(e.history)
      && (e.history == [] ==> e.lastResult == DistanceResult(Error, 0.0))
      && (NoForeignStatus(evs) ==> e.lastResult.status == Success || e.lastResult.status == Error)
  {
    InitialInv();
    RunInv(Initial(), evs);
  }

  /** An application call of setResult() is what getLastResult() returns next, whatever the
      status: BUSY included. */
  lemma ForeignStatusStored(e: Engine, st: Status, d: real)
    ensures Step(e, CallSetResult(st, d)).Some?
    ensures Latest(Step(e, CallSetResult(st, d)).value.history) == DistanceResult(st, d)
  {
  }

  /** One event never sets isIdle back to true. */
  lemma StepKeepsBusy(e: Engine, ev: Event)
    requires !e.isIdle && Step(e, ev).Some?
    ensures !Step(e, ev).value.isIdle
  {
    match ev
    case Tick(now, initOk, startOk) => LoopEffects(e, now, initOk, startOk);
    case CallSetup => SetupEffects(e);
    case _ =>
  }

  /** Once isIdle is cleared (by sampleOnce or periodic sampling) it stays cleared: nothing
      in the engine sets it back. */
  lemma {:induction false} IdleFlagNeverRestored(e: Engine, evs: seq<Event>)
    requires !e.isIdle
    ensures Run(e, evs).Some? ==> !Run(e, evs).value.isIdle
    decreases |evs|
  {
    if evs != [] && Step(e, evs[0]).Some? {
      StepKeepsBusy(e, evs[0]);
      IdleFlagNeverRestored(Step(e, evs[0]).value, evs[1..]);
    }
  }

  /** Hence after the first cycle has been started, setup() and sampleOnce() fail forever,
      while the state machine itself keeps running. */
  lemma LockedAfterFirstCycle(e: Engine, evs: seq<Event>)
    requires !e.isIdle
    ensures Run(e, evs).Some? ==>
      var e1 := Run(e, evs).value;
      SetupDefined(e1) && Setup(e1) == (e1, false) && SampleOnce(e1) == (e1, false)
  {
    IdleFlagNeverRestored(e, evs);
  }

  /** A fresh engine cannot be set up: all four pins start as PIN_INVALID. */
  lemma InitialSetupFails()
    ensures !PinsValid(Initial().cfg)
    ensures Setup(Initial()) == (Initial(), false)
  {
  }

  /** With the default 2.0 m range and 152-sample overhead, setup sizes the buffers to
      152 + 96 * 4 == 536 words. */
  lemma DefaultSizing(e: Engine)
    requires e.cfg.maxLengthM == DefaultMaxLengthM && e.cfg.leadingOverhead == DefaultLeadingOverhead
    requires PinsValid(e.cfg) && e.isIdle
    ensures SetupDefined(e) && Setup(e).1 && Setup(e).0.numSamples == 536
  {
    assert (2.0 * 48.0).Floor == 96;
  }

  /** A negative range is stored like any other and still sizes the buffers while the count
      stays non-negative: -0.5 m gives 152 - 4 * 24 == 56 words. */
  lemma NegativeRangeSizing(e: Engine)
    requires e.cfg.maxLengthM == -0.5 && e.cfg.leadingOverhead == DefaultLeadingOverhead
    requires PinsValid(e.cfg) && e.isIdle
    ensures SetupDefined(e) && Setup(e).1 && Setup(e).0.numSamples == 56
  {
    assert (-0.5 * 48.0).Floor == -24;
  }

  /** With the default overhead, the count converts to size_t exactly for ranges of at least
      -38/48 m. */
  lemma SizingDefinedRange(c: Config)
    requires c.leadingOverhead == DefaultLeadingOverhead
    ensures SampleCountDefined(c) <==> c.maxLengthM * 48.0 >= -38.0
  {
  }

  /** A second setup with the same configuration succeeds again and reallocates nothing. */
  lemma SetupIdempotent(e: Engine)
    requires SetupDefined(e) && Setup(e).1
    ensures Setup(Setup(e).0) == Setup(e)
  {
  }

  /** Ticks whose clock reading is at least timeoutMs past t. */
  predicate TimedOutTicks(evs: seq<Event>, t: u32, timeoutMs: u32)
  {
    forall i :: 0 <= i < |evs| ==> evs[i].Tick? && Elapsed(evs[i].now, t) >= timeoutMs
  }

  function Repeat(r: DistanceResult, n: nat): (s: seq<DistanceResult>)
    ensures |s| == n && forall i :: 0 <= i < n ==> s[i] == r
  {
    seq(n, i => r)
  }

  /** After a timeout the sample handler stays in place: each further tick past the
      timeout records ERROR once more and uninitialises the peripheral once more. */
  lemma {:induction false} TimeoutRepeats(e: Engine, evs: seq<Event>)
    requires e.handler == SampleState && e.buffersRequested < 2
    requires TimedOutTicks(evs, e.sampleTime, e.cfg.safetyTimeoutMs)
    ensures Run(e, evs).Some?
    ensures var e1 := Run(e, evs).value;
      && e1.handler == SampleState
      && e1.history == e.history + Repeat(DistanceResult(Error, 0.0), |evs|)
      && e1.delivered == e.delivered + (if e.cfg.hasCallback then Repeat(DistanceResult(Error, 0.0), |evs|) else [])
      && e1.i2s == e.i2s + seq(|evs|, i => Uninit)
      && (evs != [] ==> e1.lastResult == DistanceResult(Error, 0.0))
    decreases |evs|
  {
    if evs != [] {
      SampleStepEffects(e, evs[0].now);
      var e1 := Step(e, evs[0]).value;
      assert e1 == SetResult(e.(i2s := e.i2s + [Uninit]), Error, 0.0);
      assert TimedOutTicks(evs[1..], e1.sampleTime, e1.cfg.safetyTimeoutMs) by {
        forall i | 0 <= i < |evs[1..]| ensures evs[1..][i] == evs[i + 1] { }
      }
      TimeoutRepeats(e1, evs[1..]);
      var err := DistanceResult(Error, 0.0);
      assert [err] + Repeat(err, |evs| - 1) == Repeat(err, |evs|);
      assert [Uninit] + seq(|evs| - 1, i => Uninit) == seq(|evs|, i => Uninit);
    }
  }

  /** A complete on-demand measurement: sampleOnce, a tick that starts the peripheral, the
      captured words arriving, two buffer notifications, and a tick that evaluates them.
      The engine records and delivers exactly one SUCCESS whose distance is the set-bit
      count of the captured words converted to metres, and returns to the idle handler. */
  lemma OneShotCycle(e: Engine, t0: u32, data: seq<u16>, t1: u32)
    requires e.isIdle && e.handler == IdleState && Ready(e) && |data| == e.numSamples
    ensures var evs := [CallSampleOnce, Tick(t0, true, true), Dma(data),
                        BufferEvent(true), BufferEvent(true), Tick(t1, true, true)];
      Run(e, evs).Some? &&
      var e1 := Run(e, evs).value;
      var res := DistanceResult(Success, DistanceM(PopSum(data)));
      && e1.lastResult == res
      && e1.history == e.history + [res]
      && e1.delivered == e.delivered + (if e.cfg.hasCallback then [res] else [])
      && e1.handler == IdleState && !e1.isIdle && e1.sampleTime == t0
      && e1.i2s == e.i2s + [Init, Start(e.numSamples / 2), Stop, Uninit]
  {
    var evs := [CallSampleOnce, Tick(t0, true, true), Dma(data),
                BufferEvent(true), BufferEvent(true), Tick(t1, true, true)];
    var s1 := SampleOnce(e).0;
    var s2 := StartStep(s1, t0, true, true);
    var s3 := Receive(s2, data);
    var s4 := DataHandler(s3, true);
    var s5 := DataHandler(s4, true);
    var s6 := SampleStep(s5, t1);
    StartStepEffects(s1, t0, true, true);
    SampleStepEffects(s5, t1);
    assert s5.rx.value[..s5.numSamples] == data;
    assert Run(s5, evs[5..]) == Some(s6);
    assert Run(s4, evs[4..]) == Some(s6);
    assert Run(s3, evs[3..]) == Some(s6);
    assert Run(s2, evs[2..]) == Some(s6);
    assert Run(s1, evs[1..]) == Some(s6);
    assert Run(e, evs) == Some(s6);
  }

  /** Periodic sampling keeps working after the first cycle: once the period has passed
      since the last start, the idle handler starts the next cycle although isIdle is false. */
  lemma PeriodicRestarts(e: Engine, now: u32, initOk: bool, startOk: bool)
    requires e.handler == IdleState && e.cfg.samplePeriodic != 0
    requires Elapsed(now, e.sampleTime) >= e.cfg.samplePeriodic
    ensures Loop(e, now, initOk, startOk).handler == StartState
    ensures !Loop(e, now, initOk, startOk).isIdle
  {
  }
}
