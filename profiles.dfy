/** The finished result of one reporting window, as handed to the recorder. */
module Profiles {
  import opened CallSites

  datatype Category = CategoryMemory
  datatype ProfileType = TypeMemoryAllocation
  datatype Unit = UnitByte

  /**
   * `roots` are the keys of the top node's children, in the order they were
   * collected; `callGraph` holds every node below the top node (the subtrees
   * the roots lead to).  `duration` is the accumulated capture time in
   * nanoseconds, `timespan` the window's length in seconds.
   */
  datatype Profile = Profile(
    category: Category,
    profileType: ProfileType,
    unit: Unit,
    roots: seq<Frame>,
    callGraph: map<Path, Weight>,
    duration: int,
    timespan: int,
    processID: string)
}
