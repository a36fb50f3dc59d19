/**
 * The sampler scheduler: opens and closes capture windows under a per-window
 * budget and a process-wide guard, and periodically hands the sampler's
 * profile to the recorder.
 *
 * The clock is the `now` parameter (nanoseconds since the epoch) of each
 * operation; the sampler's outcomes (start and stop succeed or fail, the
 * profile it builds) are parameters too.  Every call into the sampler is
 * logged in `samplerCalls` and every profile handed to the recorder in
 * `recorded`.
 */
module SamplerScheduler {
  import opened Wrappers
  import opened Profiles

  datatype SamplerConfig = SamplerConfig(
    logPrefix: string,
    reportOnly: bool,          // never open capture windows, only report
    maxProfileDuration: int,   // seconds of capture allowed per report window
    maxSpanDuration: int,      // seconds one capture window may last
    maxSpanCount: int,
    samplingInterval: int,     // seconds between window attempts
    reportInterval: int)       // seconds between reports

  const NanosPerSecond := 1_000_000_000

  /** A timer: first firing after `initialDelay` seconds, then every `interval` seconds (0 fires once). */
  datatype Timer = Timer(initialDelay: int, interval: int, stopped: bool)

  /** The timer after Stop, which is harmless on a stopped timer. */
  function StopTimer(t: Option<Timer>): Option<Timer> {
    match t
    case None => None
    case Some(timer) => Some(timer.(stopped := true))
  }

  /** The calls the scheduler makes into its sampler. */
  datatype SamplerCall = ResetCall | StartCall | StopCall | BuildCall(duration: int, timespan: int)

  /** The profile with the agent's process id when the agent knows one. */
  function WithProcessID(p: Profile, externalPID: string): Profile {
    if externalPID != "" then p.(processID := externalPID) else p
  }

  /**
   * The process-wide guard over the capture facility.  `holder` records,
   * for the proof, which scheduler's capture window holds it.
   */
  class Flag {
    var isSet: bool
    ghost var holder: object?

    ghost predicate Valid()
      reads this
    {
      isSet <==> holder != null
    }

    constructor ()
      ensures Valid() && !isSet
    {
      isSet := false;
      holder := null;
    }

    /** Sets the flag if it was unset; reports whether this call set it. */
    method SetIfUnset(ghost who: object) returns (ok: bool)
      requires Valid()
      modifies this
      ensures Valid() && isSet
      ensures ok == !old(isSet)
      ensures !ok ==> unchanged(this)
      ensures ok ==> holder == who
    {
      ok := !isSet;
      if ok {
        isSet := true;
        holder := who;
      }
    }

    method Unset()
      modifies this
      ensures Valid() && !isSet
    {
      isSet := false;
      holder := null;
    }
  }

  class Scheduler {
    const config: SamplerConfig
    const active: Flag
    var started: bool
    var samplerTimer: Option<Timer>
    var reportTimer: Option<Timer>
    var samplerTimeout: Option<Timer>
    var profileStart: int       // seconds
    var samplingDuration: int   // nanoseconds
    var samplerStart: int       // nanoseconds
    var samplerCalls: seq<SamplerCall>
    var recorded: seq<Profile>

    /** This scheduler's capture window is open: it holds the process-wide guard. */
    ghost predicate WindowOpen()
      reads this, active
    {
      active.isSet && active.holder == this
    }

    /** The capture time already spent exceeds the window's budget. */
    ghost predicate OverBudget()
      reads this
    {
      samplingDuration > config.maxProfileDuration * NanosPerSecond
    }

    constructor (config: SamplerConfig, active: Flag)
      ensures this.config == config && this.active == active
      ensures !started && samplerTimer == None && reportTimer == None && samplerTimeout == None
      ensures profileStart == 0 && samplingDuration == 0 && samplerStart == 0
      ensures samplerCalls == [] && recorded == []
    {
      this.config := config;
      this.active := active;
      started := false;
      samplerTimer, reportTimer, samplerTimeout := None, None, None;
      profileStart, samplingDuration, samplerStart := 0, 0, 0;
      samplerCalls, recorded := [], [];
    }

    /** Starts a new report window: clears the sampler and the capture time spent. */
    method Reset(now: int)
      modifies this
      ensures samplerCalls == old(samplerCalls) + [ResetCall]
      ensures profileStart == now / NanosPerSecond && samplingDuration == 0
      ensures started == old(started) && samplerStart == old(samplerStart) && recorded == old(recorded)
      ensures samplerTimer == old(samplerTimer) && reportTimer == old(reportTimer)
      ensures samplerTimeout == old(samplerTimeout)
    {
      samplerCalls := samplerCalls + [ResetCall];
      profileStart := now / NanosPerSecond;
      samplingDuration := 0;
    }

    /**
     * Starts the scheduler once: resets, arms the sampling timer (unless only
     * reporting) and the report timer.  A second start changes nothing.
     */
    method Start(now: int)
      modifies this
      ensures old(started) ==> unchanged(this)
      ensures !old(started) ==>
        && started
        && samplerCalls == old(samplerCalls) + [ResetCall]
        && profileStart == now / NanosPerSecond && samplingDuration == 0
        && samplerTimer == (if config.reportOnly then old(samplerTimer) else Some(Timer(0, config.samplingInterval, false)))
        && reportTimer == Some(Timer(0, config.reportInterval, false))
        && samplerTimeout == old(samplerTimeout) && samplerStart == old(samplerStart) && recorded == old(recorded)
    {
      if started {
        return;
      }
      started := true;
      Reset(now);
      if !config.reportOnly {
        samplerTimer := Some(Timer(0, config.samplingInterval, false));
      }
      reportTimer := Some(Timer(0, config.reportInterval, false));
    }

    /**
     * Stops the scheduler once: cancels both timers.  An open capture window
     * and its timeout are left alone.  Stopping a stopped scheduler changes nothing.
     */
    method Stop()
      modifies this
      ensures !old(started) ==> unchanged(this)
      ensures old(started) ==>
        && !started
        && samplerTimer == StopTimer(old(samplerTimer)) && reportTimer == StopTimer(old(reportTimer))
        && samplerTimeout == old(samplerTimeout)
        && profileStart == old(profileStart) && samplingDuration == old(samplingDuration)
        && samplerStart == old(samplerStart)
        && samplerCalls == old(samplerCalls) && recorded == old(recorded)
    {
      if !started {
        return;
      }
      started := false;
      samplerTimer := StopTimer(samplerTimer);
      reportTimer := StopTimer(reportTimer);
    }

    /**
     * Tries to open a capture window.  Refused, with no effect, when the
     * scheduler is stopped, the budget is spent or another window holds the
     * guard.  Otherwise the sampler is started: on failure the guard is
     * released; on success the window is open, its start time recorded and a
     * timeout armed that closes it after maxSpanDuration seconds.
     */
    method StartProfiling(now: int, startOk: bool) returns (ok: bool)
      requires active.Valid()
      modifies this, active
      ensures active.Valid()
      ensures !old(started) || old(OverBudget()) || old(active.isSet) ==>
        !ok && unchanged(this) && unchanged(active)
      ensures old(started) && !old(OverBudget()) && !old(active.isSet) ==>
        && ok == startOk
        && samplerCalls == old(samplerCalls) + [StartCall]
        && (ok ==> WindowOpen() && samplerStart == now
                   && samplerTimeout == Some(Timer(config.maxSpanDuration, 0, false)))
        && (!ok ==> !active.isSet && samplerStart == old(samplerStart) && samplerTimeout == old(samplerTimeout))
        && started && profileStart == old(profileStart) && samplingDuration == old(samplingDuration)
        && samplerTimer == old(samplerTimer) && reportTimer == old(reportTimer) && recorded == old(recorded)
    {
      if !started {
        return false;
      }
      if samplingDuration > config.maxProfileDuration * NanosPerSecond {
        return false;
      }
      var acquired := active.SetIfUnset(this);
      if !acquired {
        return false;
      }
      samplerCalls := samplerCalls + [StartCall];
      if !startOk {
        active.Unset();
        return false;
      }
      samplerStart := now;
      samplerTimeout := Some(Timer(config.maxSpanDuration, 0, false));
      return true;
    }

    /**
     * Stops the sampler: cancels the pending timeout and, when the sampler
     * stops without error, adds the window's elapsed time to the capture time spent.
     */
    method StopSampler(now: int, stopOk: bool)
      modifies this
      ensures samplerTimeout == StopTimer(old(samplerTimeout))
      ensures samplerCalls == old(samplerCalls) + [StopCall]
      ensures samplingDuration == if stopOk then old(samplingDuration) + (now - old(samplerStart)) else old(samplingDuration)
      ensures stopOk && now >= old(samplerStart) ==> samplingDuration >= old(samplingDuration)
      ensures started == old(started) && profileStart == old(profileStart) && samplerStart == old(samplerStart)
      ensures samplerTimer == old(samplerTimer) && reportTimer == old(reportTimer) && recorded == old(recorded)
    {
      samplerTimeout := StopTimer(samplerTimeout);
      samplerCalls := samplerCalls + [StopCall];
      if !stopOk {
        return;
      }
      samplingDuration := samplingDuration + (now - samplerStart);
    }

    /**
     * The timeout's firing: stops the sampler and releases the guard, whatever
     * the stop's outcome.  The timeout is armed only once this scheduler holds
     * the guard, so it fires while the window is open.
     */
    method OnSamplerTimeout(now: int, stopOk: bool)
      requires WindowOpen()
      modifies this, active
      ensures active.Valid() && !active.isSet
      ensures samplerTimeout == StopTimer(old(samplerTimeout))
      ensures samplerCalls == old(samplerCalls) + [StopCall]
      ensures samplingDuration == if stopOk then old(samplingDuration) + (now - old(samplerStart)) else old(samplingDuration)
      ensures started == old(started) && profileStart == old(profileStart) && samplerStart == old(samplerStart)
      ensures samplerTimer == old(samplerTimer) && reportTimer == old(reportTimer) && recorded == old(recorded)
    {
      StopSampler(now, stopOk);
      active.Unset();
    }

    /**
     * Reports the window.  Nothing happens when the scheduler is stopped, or
     * when it samples and no capture time was spent.  Otherwise the sampler
     * builds a profile from the capture time spent and the window's timespan;
     * when that fails the window is kept for the next report; when it
     * succeeds a profile with roots is recorded exactly once (an empty one
     * never) and the window is reset.
     */
    method Report(now: int, outcome: Result<Profile, string>, externalPID: string)
      modifies this
      ensures !old(started) || (!config.reportOnly && old(samplingDuration) == 0) ==> unchanged(this)
      ensures old(started) && (config.reportOnly || old(samplingDuration) != 0) ==>
        && var timespan := now / NanosPerSecond - old(profileStart);
        && started
        && samplerTimer == old(samplerTimer) && reportTimer == old(reportTimer)
        && samplerTimeout == old(samplerTimeout) && samplerStart == old(samplerStart)
        && (outcome.Failure? ==>
              && samplerCalls == old(samplerCalls) + [BuildCall(old(samplingDuration), timespan)]
              && recorded == old(recorded)
              && samplingDuration == old(samplingDuration) && profileStart == old(profileStart))
        && (outcome.Success? ==>
              && samplerCalls == old(samplerCalls) + [BuildCall(old(samplingDuration), timespan), ResetCall]
              && recorded == old(recorded) +
                   (if |outcome.value.roots| == 0 then [] else [WithProcessID(outcome.value, externalPID)])
              && samplingDuration == 0 && profileStart == now / NanosPerSecond)
    {
      if !started {
        return;
      }
      var profileTimespan := now / NanosPerSecond - profileStart;
      if !config.reportOnly && samplingDuration == 0 {
        return;
      }
      samplerCalls := samplerCalls + [BuildCall(samplingDuration, profileTimespan)];
      match outcome {
        case Failure(_) =>
          return;
        case Success(profile) =>
          if |profile.roots| != 0 {
            recorded := recorded + [WithProcessID(profile, externalPID)];
          }
      }
      Reset(now);
    }
  }

  /**
   * While one scheduler's window is open, another scheduler sharing the guard
   * is refused whatever the time and the sampler's outcome, and the open
   * window stays open.
   */
  method GuardExcludes(a: Scheduler, b: Scheduler, now: int, startOk: bool) returns (ok: bool)
    requires a != b && a.active == b.active && a.active.Valid() && a.WindowOpen()
    modifies b, b.active
    ensures !ok && a.WindowOpen()
    ensures unchanged(b)
  {
    ok := b.StartProfiling(now, startOk);
  }

  /**
   * Two schedulers sharing the guard: while the first's window is open the
   * second cannot open one; once the timeout has closed it, the second can.
   */
  method SharedGuardScenario() returns (first: bool, second: bool, afterTimeout: bool)
    ensures first && !second && afterTimeout
  {
    var guard := new Flag();
    var config := SamplerConfig("", false, 300, 10, 0, 60, 60);
    var heap := new Scheduler(config, guard);
    var cpu := new Scheduler(config, guard);
    heap.Start(0);
    cpu.Start(0);
    first := heap.StartProfiling(5 * NanosPerSecond, true);
    second := cpu.StartProfiling(6 * NanosPerSecond, true);
    heap.OnSamplerTimeout(15 * NanosPerSecond, true);
    afterTimeout := cpu.StartProfiling(20 * NanosPerSecond, true);
  }

  /**
   * One report window: the first report finds no capture time and builds
   * nothing; a window opened at 5s closes by its timeout at 15s; the report
   * at 60s builds from 10s of capture over a 60s timespan, records the
   * profile and resets.
   */
  method ReportWindowScenario(p: Profile) returns (calls: seq<SamplerCall>, recorded: seq<Profile>, spentAfter: int)
    requires |p.roots| > 0
    ensures calls == [ResetCall, StartCall, StopCall, BuildCall(10 * NanosPerSecond, 60), ResetCall]
    ensures recorded == [p.(processID := "4711")]
    ensures spentAfter == 0
  {
    var guard := new Flag();
    var s := new Scheduler(SamplerConfig("", false, 300, 10, 0, 60, 60), guard);
    s.Start(0);
    s.Report(0, Success(p), "");
    var ok := s.StartProfiling(5 * NanosPerSecond, true);
    s.OnSamplerTimeout(15 * NanosPerSecond, true);
    s.Report(60 * NanosPerSecond, Success(p), "4711");
    calls, recorded, spentAfter := s.samplerCalls, s.recorded, s.samplingDuration;
  }

  /** Once the budget is spent, windows are refused until the report resets it. */
  method BudgetScenario(p: Profile) returns (admitted: bool, refused: bool, reopened: bool)
    requires |p.roots| > 0
    ensures admitted && !refused && reopened
  {
    var guard := new Flag();
    var s := new Scheduler(SamplerConfig("", false, 0, 10, 0, 60, 60), guard);
    s.Start(0);
    admitted := s.StartProfiling(0, true);
    s.OnSamplerTimeout(10 * NanosPerSecond, true);
    refused := s.StartProfiling(11 * NanosPerSecond, true);
    s.Report(60 * NanosPerSecond, Success(p), "");
    reopened := s.StartProfiling(61 * NanosPerSecond, true);
  }
}
