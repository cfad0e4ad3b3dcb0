/** The JSN_SR04_Gen3 engine as a class: the fields of the C++ object, its setters, setup,
    sampleOnce, loop and the three state handlers, and the I2S data handler as an event
    method. Each method is proved to change the abstract state Abs() exactly as the
    corresponding function of SamplerModel does. */
module Sampler {
  import opened OneBits
  import opened Results
  import opened SamplerModel

  class JsnSr04Gen3 {
    var trigPin: Pin
    var echoPin: Pin
    var unusedPin1: Pin
    var unusedPin2: Pin
    var maxLengthM: real
    /** Whether a callback is registered (a non-null std::function). */
    var hasCallback: bool
    var numSamples: nat
    var rxBuffer: array?<u16>
    var txBuffer: array?<u16>
    var isIdle: bool
    var lastResult: DistanceResult
    var samplePeriodic: u32
    var leadingOverhead: nat
    var safetyTimeoutMs: u32
    var sampleTime: u32
    var stateHandler: Handler
    /** The file-static _buffersRequested; one engine drives the one I2S peripheral. */
    var buffersRequested: nat

    /** Every result setResult recorded, every value the callback received, and every call
        into the I2S driver, in order. */
    ghost var history: seq<DistanceResult>
    ghost var delivered: seq<DistanceResult>
    ghost var i2sCalls: seq<I2sCall>

    /** The state as a SamplerModel.Engine value. */
    ghost function Abs(): Engine
      reads this, rxBuffer, txBuffer
    {
      Engine(
        Config(trigPin, echoPin, unusedPin1, unusedPin2, maxLengthM, hasCallback, samplePeriodic,
               leadingOverhead, safetyTimeoutMs),
        numSamples,
        if rxBuffer == null then None else Some(rxBuffer[..]),
        if txBuffer == null then None else Some(txBuffer[..]),
        isIdle, lastResult, sampleTime, stateHandler, buffersRequested,
        history, delivered, i2sCalls)
    }

    /** The two buffers are separate arrays. This is all the methods need. The invariant of
        the reachable states, SamplerModel.Inv(Abs()), follows for every call sequence from
        the constructor, because each method changes Abs() as one SamplerModel event does and
        SamplerModel.StepInv and RunInv show that every event keeps Inv. */
    ghost predicate Valid()
      reads this
    {
      rxBuffer != null && txBuffer != null ==> rxBuffer != txBuffer
    }

    /** The field initialisers of the class. */
    constructor ()
      ensures Valid() && Abs() == Initial()
      ensures isIdle && stateHandler == IdleState
      ensures numSamples == 0 && rxBuffer == null && txBuffer == null && samplePeriodic == 0
      ensures lastResult == DistanceResult(Error, 0.0)
      ensures leadingOverhead == 152 && safetyTimeoutMs == 30 && maxLengthM == 2.0
    {
      trigPin, echoPin, unusedPin1, unusedPin2 := PIN_INVALID, PIN_INVALID, PIN_INVALID, PIN_INVALID;
      maxLengthM := DefaultMaxLengthM;
      hasCallback := false;
      numSamples := 0;
      rxBuffer, txBuffer := null, null;
      isIdle := true;
      lastResult := DefaultResult;
      samplePeriodic := 0;
      leadingOverhead := DefaultLeadingOverhead;
      safetyTimeoutMs := DefaultSafetyTimeoutMs;
      sampleTime := 0;
      stateHandler := IdleState;
      buffersRequested := 0;
      history, delivered, i2sCalls := [], [], [];
    }

    method WithTrigPin(p: Pin) returns (self: JsnSr04Gen3)
      requires Valid()
      modifies this`trigPin
      ensures self == this && Valid()
      ensures Abs() == old(Abs()).(cfg := old(Abs()).cfg.(trigPin := p))
    {
      trigPin := p;
      return this;
    }

    method WithEchoPin(p: Pin) returns (self: JsnSr04Gen3)
      requires Valid()
      modifies this`echoPin
      ensures self == this && Valid()
      ensures Abs() == old(Abs()).(cfg := old(Abs()).cfg.(echoPin := p))
    {
      echoPin := p;
      return this;
    }

    method WithUnusedPins(p1: Pin, p2: Pin) returns (self: JsnSr04Gen3)
      requires Valid()
      modifies this`unusedPin1, this`unusedPin2
      ensures self == this && Valid()
      ensures Abs() == old(Abs()).(cfg := old(Abs()).cfg.(unusedPin1 := p1, unusedPin2 := p2))
    {
      unusedPin1 := p1;
      unusedPin2 := p2;
      return this;
    }

    /** Any range is stored, a negative one included; setup decides what it means. */
    method WithMaxLengthMeters(m: real) returns (self: JsnSr04Gen3)
      requires Valid()
      modifies this`maxLengthM
      ensures self == this && Valid()
      ensures Abs() == old(Abs()).(cfg := old(Abs()).cfg.(maxLengthM := m))
    {
      maxLengthM := m;
      return this;
    }

    method WithCallback(registered: bool) returns (self: JsnSr04Gen3)
      requires Valid()
      modifies this`hasCallback
      ensures self == this && Valid()
      ensures Abs() == old(Abs()).(cfg := old(Abs()).cfg.(hasCallback := registered))
    {
      hasCallback := registered;
      return this;
    }

    /** withSamplePeriodic(std::chrono::milliseconds): the 64-bit tick count is narrowed to
        unsigned long, keeping its low 32 bits. */
    method WithSamplePeriodic(periodCount: int) returns (self: JsnSr04Gen3)
      requires Valid()
      modifies this`samplePeriodic
      ensures self == this && Valid()
      ensures Abs() == old(Abs()).(cfg := old(Abs()).cfg.(samplePeriodic := periodCount % 0x1_0000_0000))
    {
      samplePeriodic := periodCount % 0x1_0000_0000;
      return this;
    }

    method WithSamplePeriodicMs(periodMs: u32) returns (self: JsnSr04Gen3)
      requires Valid()
      modifies this`samplePeriodic
      ensures self == this && Valid()
      ensures Abs() == old(Abs()).(cfg := old(Abs()).cfg.(samplePeriodic := periodMs))
    {
      samplePeriodic := periodMs;
      return this;
    }

    /** getLastResult(): in every reachable state (SamplerModel.StoredResults), the latest
        recorded result, or the default ERROR result before any. */
    function GetLastResult(): (r: DistanceResult)
      reads this, rxBuffer, txBuffer
      ensures Inv(Abs()) ==> r == Latest(history)
      ensures Inv(Abs()) && history == [] ==> r == DistanceResult(Error, 0.0)
      ensures Inv(Abs()) && EngineStatuses(history) ==> r.status == Success || r.status == Error
    {
      lastResult
    }

    method Setup() returns (ok: bool)
      requires Valid() && SetupDefined(Abs())
      modifies this`numSamples, this`rxBuffer, this`txBuffer
      ensures Valid()
      ensures (Abs(), ok) == SamplerModel.Setup(old(Abs()))
      ensures old(rxBuffer) != null ==> rxBuffer == old(rxBuffer)
      ensures old(txBuffer) != null ==> txBuffer == old(txBuffer)
      ensures old(rxBuffer) == null && rxBuffer != null ==> fresh(rxBuffer)
      ensures old(txBuffer) == null && txBuffer != null ==> fresh(txBuffer)
    {
      if trigPin == PIN_INVALID || echoPin == PIN_INVALID || unusedPin1 == PIN_INVALID || unusedPin2 == PIN_INVALID {
        return false;
      }
      if !isIdle {
        return false;
      }
      numSamples := leadingOverhead;
      numSamples := numSamples + (maxLengthM * 48.0).Floor * 4;
      if rxBuffer == null {
        rxBuffer := new u16[numSamples](_ => 0);
        assert rxBuffer[..] == Zeros(numSamples);
      }
      if txBuffer == null {
        txBuffer := new u16[numSamples](_ => 0);
        assert txBuffer[..] == Zeros(numSamples);
      }
      // The pinMode and digitalWrite calls that follow are not modelled.
      return true;
    }

    method SampleOnce() returns (ok: bool)
      requires Valid()
      modifies this`stateHandler, this`isIdle
      ensures Valid()
      ensures (Abs(), ok) == SamplerModel.SampleOnce(old(Abs()))
    {
      if isIdle {
        stateHandler := StartState;
        isIdle := false;
        return true;
      } else {
        return false;
      }
    }

    /** loop(): dispatch to the current handler. */
    method Loop(now: u32, initOk: bool, startOk: bool)
      requires Valid() && LoopDefined(Abs(), initOk)
      modifies this, rxBuffer, txBuffer
      ensures Valid() && rxBuffer == old(rxBuffer) && txBuffer == old(txBuffer)
      ensures Abs() == SamplerModel.Loop(old(Abs()), now, initOk, startOk)
    {
      match stateHandler
      case IdleState => IdleStateStep(now);
      case StartState => StartStateStep(now, initOk, startOk);
      case SampleState => SampleStateStep(now);
    }

    method SetResult(status: Status, distanceM: real)
      modifies this`lastResult, this`history, this`delivered
      ensures Abs() == SamplerModel.SetResult(old(Abs()), status, distanceM)
    {
      lastResult := DistanceResult(status, distanceM);
      history := history + [lastResult];
      if hasCallback {
        delivered := delivered + [lastResult];
      }
    }

    method IdleStateStep(now: u32)
      modifies this`stateHandler, this`isIdle
      ensures rxBuffer == old(rxBuffer) && txBuffer == old(txBuffer)
      ensures Abs() == IdleStep(old(Abs()), now)
    {
      if samplePeriodic != 0 {
        if Elapsed(now, sampleTime) >= samplePeriodic {
          stateHandler := StartState;
          isIdle := false;
        }
      }
    }

    method StartStateStep(now: u32, initOk: bool, startOk: bool)
      requires rxBuffer != null && txBuffer != null ==> rxBuffer != txBuffer
      requires initOk ==> Ready(Abs())
      modifies this, rxBuffer, txBuffer
      ensures rxBuffer == old(rxBuffer) && txBuffer == old(txBuffer)
      ensures Abs() == StartStep(old(Abs()), now, initOk, startOk)
    {
      // The driver configuration and pin mapping are not modelled; only the outcome of
      // nrfx_i2s_init is.
      i2sCalls := i2sCalls + [Init];
      if !initOk {
        SetResult(Error, 0.0);
        return;
      }
      Launch(now, startOk);
    }

    /** After a successful init: prepare the buffers, start the transfer, and either record
        the start failure or move on to the sample state. */
    method Launch(now: u32, startOk: bool)
      requires rxBuffer != null && txBuffer != null && rxBuffer != txBuffer
      requires Ready(Abs())
      modifies this, rxBuffer, txBuffer
      ensures rxBuffer == old(rxBuffer) && txBuffer == old(txBuffer)
      ensures Abs() == Launched(old(Abs()), now, startOk)
    {
      Arm();
      if !startOk {
        SetResult(Error, 0.0);
        return;
      }
      stateHandler := SampleState;
      sampleTime := now;
    }

    /** Reset the counter, prepare both buffers and request the transfer. */
    method Arm()
      requires rxBuffer != null && txBuffer != null && rxBuffer != txBuffer
      requires Ready(Abs())
      modifies this, rxBuffer, txBuffer
      ensures rxBuffer == old(rxBuffer) && txBuffer == old(txBuffer)
      ensures Abs() == Armed(old(Abs()))
    {
      var rx, tx := rxBuffer, txBuffer;
      buffersRequested := 0;
      PrepareBuffers(rx, tx, numSamples);
      i2sCalls := i2sCalls + [Start(numSamples / 2)];
    }

    method SampleStateStep(now: u32)
      requires SampleDefined(Abs())
      modifies this`i2sCalls, this`lastResult, this`history, this`delivered, this`stateHandler
      ensures rxBuffer == old(rxBuffer) && txBuffer == old(txBuffer)
      ensures Abs() == SampleStep(old(Abs()), now)
    {
      if buffersRequested < 2 && Elapsed(now, sampleTime) < safetyTimeoutMs {
        return;
      }
      // nrfx_i2s_uninit; the defensive digitalWrite(trigPin, LOW) is not modelled.
      i2sCalls := i2sCalls + [Uninit];
      if buffersRequested < 2 {
        SetResult(Error, 0.0);
        return;
      }
      var pulseUs := SumOneBits(rxBuffer, numSamples);
      var distanceM := DistanceM(pulseUs);
      SetResult(Success, distanceM);
      stateHandler := IdleState;
    }

    /** _dataHandler, run as one indivisible event between two loop() calls. */
    method DataHandler(nextBuffersNeeded: bool)
      requires Valid()
      modifies this`buffersRequested, this`i2sCalls
      ensures Valid()
      ensures Abs() == SamplerModel.DataHandler(old(Abs()), nextBuffersNeeded)
    {
      if nextBuffersNeeded {
        buffersRequested := buffersRequested + 1;
        if buffersRequested >= 2 {
          i2sCalls := i2sCalls + [Stop];   // nrfx_i2s_stop
        }
      }
    }

    /** The peripheral's DMA writing captured words into the rx buffer. */
    method Receive(data: seq<u16>)
      requires Valid() && rxBuffer != null && |data| <= rxBuffer.Length
      modifies rxBuffer
      ensures Valid()
      ensures Abs() == SamplerModel.Receive(old(Abs()), data)
    {
      forall i | 0 <= i < |data| {
        rxBuffer[i] := data[i];
      }
      assert rxBuffer[..] == data + old(rxBuffer[..])[|data|..];
      assert txBuffer != null ==> txBuffer[..] == old(txBuffer[..]);
    }
  }

  /** The buffer preparation of startState: clear the first n words of both buffers, then
      put the all-ones trigger word at the head of tx. */
  method PrepareBuffers(rx: array<u16>, tx: array<u16>, n: nat)
    requires rx != tx && n <= rx.Length && n <= tx.Length && 1 <= tx.Length
    modifies rx, tx
    ensures rx[..] == ClearedRx(old(rx[..]), n)
    ensures tx[..] == TriggerTx(old(tx[..]), n)
  {
    var ii := 0;
    while ii < n
      invariant 0 <= ii <= n
      invariant forall i :: 0 <= i < rx.Length ==> rx[i] == if i < ii then 0 else old(rx[i])
      invariant forall i :: 0 <= i < tx.Length ==> tx[i] == if i < ii then 0 else old(tx[i])
    {
      rx[ii] := 0;
      tx[ii] := 0;
      ii := ii + 1;
    }
    tx[0] := 0xffff;
    assert rx[..] == ClearedRx(old(rx[..]), n);
    assert tx[..] == TriggerTx(old(tx[..]), n);
  }

  /** An on-demand measurement driven through the object: sampleOnce(), a loop() that starts
      the peripheral, the captured words, two interrupts and a loop() that evaluates them.
      getLastResult() is then SUCCESS with the distance of the captured words' set bits. */
  method MeasureOnce(s: JsnSr04Gen3, t0: u32, data: seq<u16>, t1: u32) returns (r: DistanceResult)
    requires s.Valid() && s.isIdle && s.stateHandler == IdleState
    requires Ready(s.Abs()) && |data| == s.numSamples
    modifies s, s.rxBuffer, s.txBuffer
    ensures r == DistanceResult(Success, DistanceM(PopSum(data)))
    ensures s.history == old(s.history) + [r] && s.stateHandler == IdleState && !s.isIdle
  {
    var ok := s.SampleOnce();
    ghost var e1 := s.Abs();
    StartStepEffects(e1, t0, true, true);
    s.Loop(t0, true, true);
    s.Receive(data);
    s.DataHandler(true);
    s.DataHandler(true);
    ghost var e5 := s.Abs();
    assert e5.rx.value[..e5.numSamples] == data;
    SampleStepEffects(e5, t1);
    s.Loop(t1, true, true);
    r := s.GetLastResult();
  }
}
