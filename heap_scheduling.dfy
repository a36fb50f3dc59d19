/**
 * The scheduler driving the heap-allocation sampler: the sampler's hooks
 * decide the outcomes the scheduler's methods take as parameters.
 */
module HeapScheduling {
  import opened Wrappers
  import opened CallSites
  import opened Profiles
  import opened SamplerScheduler
  import AllocationSampler

  /**
   * Starting the heap sampler never fails, so a window opens exactly when
   * the scheduler is started, within its budget and the guard is free.
   */
  method StartHeapProfiling(s: Scheduler, now: int) returns (ok: bool)
    requires s.active.Valid()
    modifies s, s.active
    ensures s.active.Valid()
    ensures ok <==> old(s.started) && !old(s.OverBudget()) && !old(s.active.isSet)
    ensures ok ==> s.WindowOpen() && s.samplerStart == now && s.samplerCalls == old(s.samplerCalls) + [StartCall]
  {
    var err := AllocationSampler.StartSampler();
    ok := s.StartProfiling(now, err == None);
  }

  /**
   * Stopping the heap sampler never fails, so the timeout adds the whole
   * window, from its start to now, to the capture time spent.
   */
  method HeapSamplerTimeout(s: Scheduler, now: int)
    requires s.WindowOpen()
    modifies s, s.active
    ensures !s.active.isSet
    ensures s.samplingDuration == old(s.samplingDuration) + (now - old(s.samplerStart))
    ensures s.samplerCalls == old(s.samplerCalls) + [StopCall]
  {
    var err := AllocationSampler.StopSampler();
    s.OnSamplerTimeout(now, err == None);
  }

  /** A list holding exactly the frames of a set is empty exactly when the set is. */
  lemma NoRootFramesNoRoots(roots: seq<Frame>, frames: set<Frame>)
    requires forall f :: f in roots <==> f in frames
    ensures roots == [] <==> frames == {}
  {
    if roots != [] {
      assert roots[0] in frames;
    }
    if frames != {} {
      var f :| f in frames;
      assert f in roots;
    }
  }

  /**
   * A report of the heap scheduler: the sampler builds the profile from the
   * snapshot read.  When the report goes ahead, a snapshot with both
   * measurements and at least one root is recorded once, carrying the
   * capture time spent, the window's timespan and the snapshot's call graph
   * below the top node, and the window is reset; a failed read or a snapshot
   * without the measurements records nothing and keeps the window.
   */
  method HeapReport(s: Scheduler, now: int, read: AllocationSampler.HeapRead, filter: AllocationSampler.SensorFilter,
                    localPID: string, externalPID: string)
    requires read.Read? ==> AllocationSampler.WellFormed(read.profile)
    modifies s
    ensures !old(s.started) || (!s.config.reportOnly && old(s.samplingDuration) == 0) ==> unchanged(s)
    ensures old(s.started) && (s.config.reportOnly || old(s.samplingDuration) != 0) ==>
      && (read.Read? && AllocationSampler.HasMeasurements(read.profile.sampleTypes) ==>
            && s.samplingDuration == 0
            && var graph := AllocationSampler.AllocationGraph(read.profile, filter);
            && (RootFrames(graph) != {} ==>
                  && |s.recorded| == |old(s.recorded)| + 1
                  && var p := s.recorded[|s.recorded| - 1];
                  && p.duration == old(s.samplingDuration)
                  && p.timespan == now / NanosPerSecond - old(s.profileStart)
                  && p.callGraph == graph - {[]}
                  && p.processID == (if externalPID != "" then externalPID else localPID))
            && (RootFrames(graph) == {} ==> s.recorded == old(s.recorded)))
      && (!read.Read? || !AllocationSampler.HasMeasurements(read.profile.sampleTypes) ==>
            s.recorded == old(s.recorded) && s.samplingDuration == old(s.samplingDuration))
  {
    var r := AllocationSampler.BuildProfile(read, filter, s.samplingDuration, now / NanosPerSecond - s.profileStart, localPID);
    if r.Success? {
      NoRootFramesNoRoots(r.value.roots, RootFrames(AllocationSampler.AllocationGraph(read.profile, filter)));
    }
    s.Report(now, r, externalPID);
  }
}
