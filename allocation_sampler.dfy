/**
 * The heap-allocation sampler: turns one heap snapshot into a call graph
 * weighted by in-use space and in-use object count.
 */
module AllocationSampler {
  import opened Wrappers
  import opened CallSites
  import opened Profiles

  /** One sample type of the snapshot, e.g. ("inuse_space", "bytes"). */
  datatype ValueType = ValueType(typeName: string, unit: string)

  /** A stack sample: one value per sample type; locations innermost first. */
  datatype Sample = Sample(values: seq<int>, locations: seq<Frame>)

  datatype HeapProfile = HeapProfile(sampleTypes: seq<ValueType>, samples: seq<Sample>)

  /** What the snapshot's validity check guarantees: every sample has one value per sample type. */
  ghost predicate WellFormed(p: HeapProfile) {
    forall s :: s in p.samples ==> |s.values| == |p.sampleTypes|
  }

  /**
   * Whether frames of the agent itself are kept, and the two tests that
   * recognise them (a whole stack, and a frame by its file name).
   */
  datatype SensorFilter = SensorFilter(
    includeSensorFrames: bool,
    isSensorStack: Sample -> bool,
    isSensorFrame: string -> bool)

  const InuseSpace := "inuse_space"
  const InuseObjects := "inuse_objects"
  const RuntimeGoexit := "runtime.goexit"
  const UnrecognizedProfileData := "unrecognized profile data"
  const NoProfileReturned := "no profile returned"

  // ---------------------------------------------------------------------
  // The sampler's capture hooks: a heap snapshot needs no capture window.

  method StartSampler() returns (err: Option<string>)
    ensures err == None
  {
    err := None;
  }

  method StopSampler() returns (err: Option<string>)
    ensures err == None
  {
    err := None;
  }

  // ---------------------------------------------------------------------
  // Specification of the aggregation

  /** The index of the first sample type called `name`, or -1 when there is none. */
  function FirstTypeIndex(types: seq<ValueType>, name: string): (r: int)
    ensures -1 <= r < |types|
    ensures r == -1 <==> forall j :: 0 <= j < |types| ==> types[j].typeName != name
    ensures r >= 0 ==> types[r].typeName == name && forall j :: 0 <= j < r ==> types[j].typeName != name
  {
    if types == [] then -1
    else if types[0].typeName == name then 0
    else
      var r := FirstTypeIndex(types[1..], name);
      if r == -1 then -1 else r + 1
  }

  /** Both measurements the call graph needs are present. */
  predicate HasMeasurements(types: seq<ValueType>) {
    FirstTypeIndex(types, InuseSpace) != -1 && FirstTypeIndex(types, InuseObjects) != -1
  }

  /** A frame that adds no node: an agent frame (when those are excluded) or the goroutine bootstrap frame. */
  predicate Skipped(f: Frame, filter: SensorFilter) {
    (!filter.includeSensorFrames && filter.isSensorFrame(f.fileName)) || f.funcName == RuntimeGoexit
  }

  /** The frames that survive, outermost first: `locations` is innermost first and is read from its end. */
  function SurvivingPath(locations: seq<Frame>, filter: SensorFilter): (p: Path)
    ensures |p| <= |locations|
    ensures forall f :: f in p ==> f in locations && !Skipped(f, filter)
  {
    if locations == [] then []
    else SurvivingPath(locations[1..], filter) + (if Skipped(locations[0], filter) then [] else [locations[0]])
  }

  /** The frames of a stack that are not skipped, in the stack's own order (innermost first). */
  function Kept(locations: seq<Frame>, filter: SensorFilter): (k: seq<Frame>)
    ensures forall f :: f in k <==> f in locations && !Skipped(f, filter)
  {
    if locations == [] then []
    else (if Skipped(locations[0], filter) then [] else [locations[0]]) + Kept(locations[1..], filter)
  }

  /** A sequence read from its end. */
  function Reverse<T>(s: seq<T>): (r: seq<T>)
    ensures |r| == |s| && forall i :: 0 <= i < |s| ==> r[i] == s[|s| - 1 - i]
  {
    if s == [] then [] else Reverse(s[1..]) + [s[0]]
  }

  /** Both measurement indices are readable in every sample. */
  ghost predicate Readable(samples: seq<Sample>, space: int, objects: int) {
    0 <= space && 0 <= objects && forall s :: s in samples ==> space < |s.values| && objects < |s.values|
  }

  /** A sample that contributes: not an agent stack (when those are excluded) and with non-zero in-use space. */
  predicate Accepted(s: Sample, space: int, filter: SensorFilter)
    requires 0 <= space < |s.values|
  {
    !(!filter.includeSensorFrames && filter.isSensorStack(s)) && s.values[space] != 0
  }

  function SampleWeight(s: Sample, space: int, objects: int): Weight
    requires 0 <= space < |s.values| && 0 <= objects < |s.values|
  {
    Weight(s.values[space], s.values[objects])
  }

  /** The tree after one sample: descend along its surviving path and add its weight to the final node. */
  function Step(nodes: map<Path, Weight>, s: Sample, space: int, objects: int, filter: SensorFilter): (r: map<Path, Weight>)
    requires IsTree(nodes) && 0 <= space < |s.values| && 0 <= objects < |s.values|
    ensures IsTree(r)
  {
    if !Accepted(s, space, filter) then nodes
    else
      var p := SurvivingPath(s.locations, filter);
      var grown := AddPath(nodes, p);
      grown[p := grown[p].Plus(SampleWeight(s, space, objects))]
  }

  /** The tree after the first `k` samples, in order. */
  function Aggregate(nodes: map<Path, Weight>, samples: seq<Sample>, k: nat, space: int, objects: int, filter: SensorFilter): (r: map<Path, Weight>)
    requires IsTree(nodes) && Readable(samples, space, objects) && k <= |samples|
    ensures IsTree(r)
  {
    if k == 0 then nodes
    else Step(Aggregate(nodes, samples, k - 1, space, objects, filter), samples[k - 1], space, objects, filter)
  }

  /** The call graph of a snapshot that has both measurements, grown from a lone top node. */
  function AllocationGraph(p: HeapProfile, filter: SensorFilter): (r: map<Path, Weight>)
    requires WellFormed(p) && HasMeasurements(p.sampleTypes)
    ensures IsTree(r)
  {
    Aggregate(map[[] := Zero], p.samples, |p.samples|, FirstTypeIndex(p.sampleTypes, InuseSpace),
              FirstTypeIndex(p.sampleTypes, InuseObjects), filter)
  }

  // ---------------------------------------------------------------------
  // The aggregation and the profile builder

  /** Scans the sample types for the first one called `name`. */
  method FindSampleType(types: seq<ValueType>, name: string) returns (index: int)
    ensures index == FirstTypeIndex(types, name)
  {
    index := -1;
    var i := 0;
    while i < |types|
      invariant 0 <= i <= |types|
      invariant forall j :: 0 <= j < i ==> types[j].typeName != name
    {
      if types[i].typeName == name {
        return i;
      }
      i := i + 1;
    }
  }

  /**
   * Walks the locations of `s` from the outermost to the innermost, descending
   * with find-or-add past every frame that is not skipped; returns the final node.
   */
  method Descend(top: CallGraph, s: Sample, filter: SensorFilter) returns (current: Path)
    requires top.Valid()
    modifies top
    ensures top.Valid() && current == SurvivingPath(s.locations, filter)
    ensures top.nodes == AddPath(old(top.nodes), current)
  {
    ghost var before := top.nodes;
    current := [];
    var i := |s.locations|;
    while i > 0
      invariant 0 <= i <= |s.locations|
      invariant top.Valid() && current in top.nodes
      invariant current == SurvivingPath(s.locations[i..], filter)
      invariant top.nodes == AddPath(before, current)
    {
      i := i - 1;
      var l := s.locations[i];
      assert s.locations[i..][1..] == s.locations[i + 1..];
      if Skipped(l, filter) {
        continue;
      }
      assert (current + [l])[..|current|] == current;
      current := top.FindOrAddChild(current, l);
    }
    assert s.locations[0..] == s.locations;
  }

  /** Adds one sample into the tree: skipped or zero-valued samples change nothing. */
  method AddSample(top: CallGraph, s: Sample, space: int, objects: int, filter: SensorFilter)
    requires top.Valid() && 0 <= space < |s.values| && 0 <= objects < |s.values|
    modifies top
    ensures top.Valid() && top.nodes == Step(old(top.nodes), s, space, objects, filter)
  {
    if !Accepted(s, space, filter) {
      return;
    }
    var current := Descend(top, s, filter);
    top.Increment(current, SampleWeight(s, space, objects));
  }

  /** Builds the call graph of one heap snapshot. */
  method CreateAllocationCallGraph(p: HeapProfile, filter: SensorFilter) returns (r: Result<CallGraph, string>)
    requires WellFormed(p)
    ensures r.Failure? <==> !HasMeasurements(p.sampleTypes)
    ensures r.Failure? ==> r.error == UnrecognizedProfileData
    ensures r.Success? ==> fresh(r.value) && r.value.Valid() && r.value.nodes == AllocationGraph(p, filter)
  {
    var space := FindSampleType(p.sampleTypes, InuseSpace);
    var objects := FindSampleType(p.sampleTypes, InuseObjects);
    if space == -1 || objects == -1 {
      return Failure(UnrecognizedProfileData);
    }
    assert Readable(p.samples, space, objects);
    var top := AggregateSamples(p.samples, space, objects, filter);
    return Success(top);
  }

  /** The loop over the samples: grows a fresh top node by every sample in turn. */
  method AggregateSamples(samples: seq<Sample>, space: int, objects: int, filter: SensorFilter) returns (top: CallGraph)
    requires Readable(samples, space, objects)
    ensures fresh(top) && top.Valid()
    ensures top.nodes == Aggregate(map[[] := Zero], samples, |samples|, space, objects, filter)
  {
    top := new CallGraph();
    var n := 0;
    while n < |samples|
      invariant 0 <= n <= |samples|
      invariant fresh(top) && top.Valid()
      invariant top.nodes == Aggregate(map[[] := Zero], samples, n, space, objects, filter)
    {
      assert samples[n] in samples;
      AddSample(top, samples[n], space, objects, filter);
      n := n + 1;
    }
  }

  /** Collects the keys of the top node's children, each once, in an unspecified order. */
  method CollectRoots(graph: map<Path, Weight>) returns (roots: seq<Frame>)
    ensures forall f :: f in roots <==> f in RootFrames(graph)
    ensures forall i, j :: 0 <= i < j < |roots| ==> roots[i] != roots[j]
  {
    roots := [];
    var pending := RootFrames(graph);
    while pending != {}
      invariant forall f :: f in roots || f in pending <==> f in RootFrames(graph)
      invariant forall f :: f in pending ==> f !in roots
      invariant forall i, j :: 0 <= i < j < |roots| ==> roots[i] != roots[j]
      decreases pending
    {
      var f :| f in pending;
      roots := roots + [f];
      pending := pending - {f};
    }
  }

  /** The outcome of reading the runtime's heap snapshot. */
  datatype HeapRead = ReadFailed(message: string) | NoProfile | Read(profile: HeapProfile)

  /**
   * Builds the memory-allocation profile of one reporting window: its roots
   * are the children of the call graph's top node, in an unspecified order.
   */
  method BuildProfile(read: HeapRead, filter: SensorFilter, duration: int, timespan: int, localPID: string)
    returns (r: Result<Profile, string>)
    requires read.Read? ==> WellFormed(read.profile)
    ensures read.ReadFailed? ==> r == Failure(read.message)
    ensures read.NoProfile? ==> r == Failure(NoProfileReturned)
    ensures read.Read? ==> (r.Failure? <==> !HasMeasurements(read.profile.sampleTypes))
    ensures read.Read? && r.Failure? ==> r.error == UnrecognizedProfileData
    ensures r.Success? ==>
      && read.Read?
      && var graph := AllocationGraph(read.profile, filter);
      && r.value == Profile(CategoryMemory, TypeMemoryAllocation, UnitByte, r.value.roots,
                            graph - {[]}, duration, timespan, localPID)
      && (forall f :: f in r.value.roots <==> f in RootFrames(graph))
      && (forall i, j :: 0 <= i < j < |r.value.roots| ==> r.value.roots[i] != r.value.roots[j])
  {
    if read.ReadFailed? {
      return Failure(read.message);
    }
    if read.NoProfile? {
      return Failure(NoProfileReturned);
    }
    var top := CreateAllocationCallGraph(read.profile, filter);
    if top.Failure? {
      return Failure(top.error);
    }
    var graph := top.value.nodes;
    var roots := CollectRoots(graph);
    return Success(Profile(CategoryMemory, TypeMemoryAllocation, UnitByte, roots,
                           graph - {[]}, duration, timespan, localPID));
  }

  // ---------------------------------------------------------------------
  // Properties of the aggregation

  /** The summed weight of the accepted samples among the first `k`. */
  function AcceptedWeight(samples: seq<Sample>, k: nat, space: int, objects: int, filter: SensorFilter): Weight
    requires Readable(samples, space, objects) && k <= |samples|
  {
    if k == 0 then Zero
    else
      var s := samples[k - 1];
      AcceptedWeight(samples, k - 1, space, objects, filter).Plus(
        if Accepted(s, space, filter) then SampleWeight(s, space, objects) else Zero)
  }

  /** The weight a sample leaves on the top node: all of it when it is accepted and every frame is skipped. */
  function TopShare(s: Sample, space: int, objects: int, filter: SensorFilter): Weight
    requires 0 <= space < |s.values| && 0 <= objects < |s.values|
  {
    if Accepted(s, space, filter) && SurvivingPath(s.locations, filter) == [] then SampleWeight(s, space, objects) else Zero
  }

  /** The summed weight of the accepted samples among the first `k` whose every frame is skipped. */
  function TopWeight(samples: seq<Sample>, k: nat, space: int, objects: int, filter: SensorFilter): Weight
    requires Readable(samples, space, objects) && k <= |samples|
  {
    if k == 0 then Zero
    else
      var s := samples[k - 1];
      TopWeight(samples, k - 1, space, objects, filter).Plus(TopShare(s, space, objects, filter))
  }

  /** The root a sample adds: the outermost surviving frame of an accepted sample, when it has one. */
  function RootShare(s: Sample, space: int, objects: int, filter: SensorFilter): set<Frame>
    requires 0 <= space < |s.values| && 0 <= objects < |s.values|
  {
    var p := SurvivingPath(s.locations, filter);
    if Accepted(s, space, filter) && p != [] then {p[0]} else {}
  }

  /** The outermost surviving frames of the accepted samples among the first `k`. */
  function AcceptedRoots(samples: seq<Sample>, k: nat, space: int, objects: int, filter: SensorFilter): set<Frame>
    requires Readable(samples, space, objects) && k <= |samples|
  {
    if k == 0 then {}
    else
      AcceptedRoots(samples, k - 1, space, objects, filter) + RootShare(samples[k - 1], space, objects, filter)
  }

  /**
   * With no frame skipped, the path lists the locations from the last one
   * down to the first: the outermost frame becomes the shallowest node.
   */
  lemma {:induction false} SurvivingPathReversed(locations: seq<Frame>, filter: SensorFilter)
    requires forall f :: f in locations ==> !Skipped(f, filter)
    ensures var p := SurvivingPath(locations, filter);
      |p| == |locations| && forall k :: 0 <= k < |p| ==> p[k] == locations[|locations| - 1 - k]
  {
    if locations != [] {
      SurvivingPathReversed(locations[1..], filter);
    }
  }

  /**
   * The path is exactly the stack's surviving frames read from the
   * outermost one inwards: nothing but skipped frames is dropped, and the
   * order is reversed.
   */
  lemma {:induction false} SurvivingPathIsReversedKept(locations: seq<Frame>, filter: SensorFilter)
    ensures SurvivingPath(locations, filter) == Reverse(Kept(locations, filter))
  {
    if locations != [] {
      SurvivingPathIsReversedKept(locations[1..], filter);
      var x := if Skipped(locations[0], filter) then [] else [locations[0]];
      var rest := Kept(locations[1..], filter);
      if x == [] {
        assert x + rest == rest;
      } else {
        assert (x + rest)[1..] == rest;
      }
    }
  }

  /**
   * An accepted sample adds its weight to the final node of its path and to
   * no other: every other old node keeps its weight and every node it adds
   * has zero weight.
   */
  lemma StepChangesOnlyFinalNode(nodes: map<Path, Weight>, s: Sample, space: int, objects: int, filter: SensorFilter)
    requires IsTree(nodes) && 0 <= space < |s.values| && 0 <= objects < |s.values|
    requires Accepted(s, space, filter)
    ensures var p := SurvivingPath(s.locations, filter);
      var r := Step(nodes, s, space, objects, filter);
      && p in r
      && r[p] == (if p in nodes then nodes[p] else Zero).Plus(SampleWeight(s, space, objects))
      && (forall q :: q in nodes && q != p ==> q in r && r[q] == nodes[q])
      && (forall q :: q in r && q !in nodes && q != p ==> r[q] == Zero)
  {
  }

  /**
   * Two accepted samples with the same surviving frames end on the same node,
   * which then holds both weights; the second sample adds no node.
   */
  lemma SamePathMerges(nodes: map<Path, Weight>, s1: Sample, s2: Sample, space: int, objects: int, filter: SensorFilter)
    requires IsTree(nodes) && Readable([s1, s2], space, objects)
    requires Accepted(s1, space, filter) && Accepted(s2, space, filter)
    requires SurvivingPath(s1.locations, filter) == SurvivingPath(s2.locations, filter)
    ensures var p := SurvivingPath(s1.locations, filter);
      var once := Step(nodes, s1, space, objects, filter);
      var twice := Step(once, s2, space, objects, filter);
      && twice.Keys == once.Keys
      && twice[p] == (if p in nodes then nodes[p] else Zero).Plus(SampleWeight(s1, space, objects)).Plus(SampleWeight(s2, space, objects))
  {
    assert s1 in [s1, s2] && s2 in [s1, s2];
    var p := SurvivingPath(s1.locations, filter);
    var once := Step(nodes, s1, space, objects, filter);
    assert once[p] == (if p in nodes then nodes[p] else Zero).Plus(SampleWeight(s1, space, objects)) by {
      StepChangesOnlyFinalNode(nodes, s1, space, objects, filter);
    }
    assert AddPath(once, p) == once by {
      AddPathPresent(once, p);
    }
  }

  /** One step adds exactly the sample's weight to the tree's total when it is accepted, and nothing otherwise. */
  lemma StepWeight(nodes: map<Path, Weight>, s: Sample, space: int, objects: int, filter: SensorFilter)
    requires IsTree(nodes) && 0 <= space < |s.values| && 0 <= objects < |s.values|
    ensures TotalWeight(Step(nodes, s, space, objects, filter))
         == TotalWeight(nodes).Plus(if Accepted(s, space, filter) then SampleWeight(s, space, objects) else Zero)
  {
    if Accepted(s, space, filter) {
      var p := SurvivingPath(s.locations, filter);
      TotalWeightAddPath(nodes, p);
      TotalWeightIncrement(AddPath(nodes, p), p, SampleWeight(s, space, objects));
    }
  }

  /**
   * Conservation: the weights summed over every node of the tree grow by
   * exactly the summed weights (space and object count) of the accepted samples.
   */
  lemma {:induction false} AggregateWeight(nodes: map<Path, Weight>, samples: seq<Sample>, k: nat, space: int, objects: int, filter: SensorFilter)
    requires IsTree(nodes) && Readable(samples, space, objects) && k <= |samples|
    ensures TotalWeight(Aggregate(nodes, samples, k, space, objects, filter))
         == TotalWeight(nodes).Plus(AcceptedWeight(samples, k, space, objects, filter))
  {
    if k > 0 {
      AggregateWeight(nodes, samples, k - 1, space, objects, filter);
      assert samples[k - 1] in samples;
      StepWeight(Aggregate(nodes, samples, k - 1, space, objects, filter), samples[k - 1], space, objects, filter);
    }
  }

  /** The top node collects exactly the weight of the accepted samples whose every frame was skipped. */
  lemma {:induction false} AggregateTopWeight(nodes: map<Path, Weight>, samples: seq<Sample>, k: nat, space: int, objects: int, filter: SensorFilter)
    requires IsTree(nodes) && Readable(samples, space, objects) && k <= |samples|
    ensures Aggregate(nodes, samples, k, space, objects, filter)[[]]
         == nodes[[]].Plus(TopWeight(samples, k, space, objects, filter))
  {
    if k > 0 {
      AggregateTopWeight(nodes, samples, k - 1, space, objects, filter);
      var s := samples[k - 1];
      assert s in samples;
      StepTop(Aggregate(nodes, samples, k - 1, space, objects, filter), s, space, objects, filter);
      PlusAssociative(nodes[[]], TopWeight(samples, k - 1, space, objects, filter), TopShare(s, space, objects, filter));
    }
  }


  /** One step adds the sample's weight to the top node exactly when it is accepted and every frame is skipped. */
  lemma StepTop(nodes: map<Path, Weight>, s: Sample, space: int, objects: int, filter: SensorFilter)
    requires IsTree(nodes) && 0 <= space < |s.values| && 0 <= objects < |s.values|
    ensures Step(nodes, s, space, objects, filter)[[]]
         == nodes[[]].Plus(if Accepted(s, space, filter) && SurvivingPath(s.locations, filter) == []
                           then SampleWeight(s, space, objects) else Zero)
  {
    if Accepted(s, space, filter) {
      var p := SurvivingPath(s.locations, filter);
      assert AddPath(nodes, p)[[]] == nodes[[]];
    }
  }

  /** The top node's children are the outermost surviving frames of the accepted samples. */
  lemma AggregateRoots(nodes: map<Path, Weight>, samples: seq<Sample>, k: nat, space: int, objects: int, filter: SensorFilter)
    requires IsTree(nodes) && Readable(samples, space, objects) && k <= |samples|
    ensures RootFrames(Aggregate(nodes, samples, k, space, objects, filter))
         == RootFrames(nodes) + AcceptedRoots(samples, k, space, objects, filter)
  {
    var j := 0;
    while j < k
      invariant j <= k
      invariant RootFrames(Aggregate(nodes, samples, j, space, objects, filter))
             == RootFrames(nodes) + AcceptedRoots(samples, j, space, objects, filter)
    {
      AggregateRootsStep(nodes, samples, j, space, objects, filter);
      j := j + 1;
    }
  }

  lemma AggregateRootsStep(nodes: map<Path, Weight>, samples: seq<Sample>, j: nat, space: int, objects: int, filter: SensorFilter)
    requires IsTree(nodes) && Readable(samples, space, objects) && j < |samples|
    requires RootFrames(Aggregate(nodes, samples, j, space, objects, filter))
          == RootFrames(nodes) + AcceptedRoots(samples, j, space, objects, filter)
    ensures RootFrames(Aggregate(nodes, samples, j + 1, space, objects, filter))
         == RootFrames(nodes) + AcceptedRoots(samples, j + 1, space, objects, filter)
  {
    var s := samples[j];
    assert s in samples;
    var before := Aggregate(nodes, samples, j, space, objects, filter);
    StepRoots(before, s, space, objects, filter);
    UnionGrows(RootFrames(Step(before, s, space, objects, filter)), RootFrames(before),
               RootFrames(nodes), AcceptedRoots(samples, j, space, objects, filter), RootShare(s, space, objects, filter));
  }

  lemma UnionGrows<T>(after: set<T>, before: set<T>, base: set<T>, earlier: set<T>, added: set<T>)
    requires after == before + added && before == base + earlier
    ensures after == base + (earlier + added)
  {
  }

  /** One sample adds to the top node's children exactly the outermost surviving frame of an accepted sample. */
  lemma StepRoots(nodes: map<Path, Weight>, s: Sample, space: int, objects: int, filter: SensorFilter)
    requires IsTree(nodes) && 0 <= space < |s.values| && 0 <= objects < |s.values|
    ensures RootFrames(Step(nodes, s, space, objects, filter)) == RootFrames(nodes) + RootShare(s, space, objects, filter)
  {
    if Accepted(s, space, filter) {
      var p := SurvivingPath(s.locations, filter);
      var after := Step(nodes, s, space, objects, filter);
      forall f | f in RootFrames(after)
        ensures f in RootFrames(nodes) || (p != [] && f == p[0])
      {
        var q :| q in after && |q| == 1 && q[0] == f;
        if q !in nodes {
          assert q == p[..1];
        }
      }
      if p != [] {
        assert p[..1] in after && p[..1][0] == p[0];
      }
      forall f | f in RootFrames(nodes) ensures f in RootFrames(after) {
        var q :| q in nodes && |q| == 1 && q[0] == f;
        assert q in after;
      }
    }
  }


  /**
   * The call graph of a snapshot weighs what its accepted samples weigh; its
   * top node holds the accepted samples whose every frame was skipped, so the
   * nodes a profile keeps (all but the top) weigh only the rest.
   */
  lemma AllocationGraphWeight(p: HeapProfile, filter: SensorFilter)
    requires WellFormed(p) && HasMeasurements(p.sampleTypes)
    ensures var space := FirstTypeIndex(p.sampleTypes, InuseSpace);
      var objects := FirstTypeIndex(p.sampleTypes, InuseObjects);
      var graph := AllocationGraph(p, filter);
      && Readable(p.samples, space, objects)
      && TotalWeight(graph) == AcceptedWeight(p.samples, |p.samples|, space, objects, filter)
      && graph[[]] == TopWeight(p.samples, |p.samples|, space, objects, filter)
      && TotalWeight(graph - {[]}).Plus(graph[[]]) == TotalWeight(graph)
  {
    var space := FirstTypeIndex(p.sampleTypes, InuseSpace);
    var objects := FirstTypeIndex(p.sampleTypes, InuseObjects);
    assert Readable(p.samples, space, objects);
    AggregateFromTop(p.samples, space, objects, filter);
  }

  /** The weights of a tree grown from a lone top node, for AllocationGraphWeight. */
  lemma AggregateFromTop(samples: seq<Sample>, space: int, objects: int, filter: SensorFilter)
    requires Readable(samples, space, objects)
    ensures var graph := Aggregate(map[[] := Zero], samples, |samples|, space, objects, filter);
      && TotalWeight(graph) == AcceptedWeight(samples, |samples|, space, objects, filter)
      && graph[[]] == TopWeight(samples, |samples|, space, objects, filter)
      && TotalWeight(graph - {[]}).Plus(graph[[]]) == TotalWeight(graph)
  {
    var top := map[[] := Zero];
    var graph := Aggregate(top, samples, |samples|, space, objects, filter);
    var accepted := AcceptedWeight(samples, |samples|, space, objects, filter);
    assert TotalWeight(graph) == accepted by {
      TotalWeightSingle([], Zero);
      AggregateWeight(top, samples, |samples|, space, objects, filter);
      assert Zero.Plus(accepted) == accepted;
    }
    assert graph[[]] == TopWeight(samples, |samples|, space, objects, filter) by {
      AggregateTopWeight(top, samples, |samples|, space, objects, filter);
    }
    assert TotalWeight(graph - {[]}).Plus(graph[[]]) == TotalWeight(graph) by {
      TotalWeightRemove(graph, []);
      var rest, topWeight := TotalWeight(graph - {[]}), graph[[]];
      assert rest.Plus(topWeight) == topWeight.Plus(rest);
    }
  }

  /** The roots of a snapshot's call graph are the outermost surviving frames of its accepted samples. */
  lemma AllocationGraphRoots(p: HeapProfile, filter: SensorFilter)
    requires WellFormed(p) && HasMeasurements(p.sampleTypes)
    ensures var space := FirstTypeIndex(p.sampleTypes, InuseSpace);
      var objects := FirstTypeIndex(p.sampleTypes, InuseObjects);
      && Readable(p.samples, space, objects)
      && RootFrames(AllocationGraph(p, filter)) == AcceptedRoots(p.samples, |p.samples|, space, objects, filter)
  {
    var space := FirstTypeIndex(p.sampleTypes, InuseSpace);
    var objects := FirstTypeIndex(p.sampleTypes, InuseObjects);
    var top := map[[] := Zero];
    assert RootFrames(top) == {};
    AggregateRoots(top, p.samples, |p.samples|, space, objects, filter);
  }

  /** Samples none of which is accepted leave the tree unchanged. */
  lemma {:induction false} NothingAcceptedUnchanged(nodes: map<Path, Weight>, samples: seq<Sample>, k: nat, space: int, objects: int, filter: SensorFilter)
    requires IsTree(nodes) && Readable(samples, space, objects) && k <= |samples|
    requires forall i :: 0 <= i < k ==> !Accepted(samples[i], space, filter)
    ensures Aggregate(nodes, samples, k, space, objects, filter) == nodes
  {
    if k > 0 {
      NothingAcceptedUnchanged(nodes, samples, k - 1, space, objects, filter);
    }
  }
}
