/**
 * The driver registry: a fixed array of five descriptor slots filled in
 * installation order, iterated in slot order, and the boot-time
 * initialisation that runs each driver's init and then its post-init
 * callback, halting the kernel at the first failure.
 *
 * Drivers and callbacks are foreign code: a driver is known by its name, a
 * callback by its own name, and whether a call succeeds is an input.
 */
module Driver {

  datatype Option<+T> = None | Some(value: T)

  /** MAX_DRIVERS */
  const MAX_DRIVERS: nat := 5

  /** DeviceDriverDescriptor: the driver and its optional post-init callback. */
  datatype DeviceDriverDescriptor = DeviceDriverDescriptor(driver: string, postInitCallback: Option<string>)

  /** The values of the occupied slots, in slot order (filter_map over the slots). */
  function SomeValues(slots: seq<Option<DeviceDriverDescriptor>>): seq<DeviceDriverDescriptor>
  {
    if slots == [] then []
    else
      var last := slots[|slots| - 1];
      SomeValues(slots[..|slots| - 1]) + (if last.Some? then [last.value] else [])
  }

  /**
   * Slots whose first |installed| entries hold the installed descriptors and
   * whose remaining entries are empty yield exactly the installed
   * descriptors, in installation order.
   */
  lemma {:induction false} SomeValuesOfFilledPrefix(slots: seq<Option<DeviceDriverDescriptor>>, installed: seq<DeviceDriverDescriptor>)
    requires |installed| <= |slots|
    requires forall k :: 0 <= k < |installed| ==> slots[k] == Some(installed[k])
    requires forall k :: |installed| <= k < |slots| ==> slots[k] == None
    ensures SomeValues(slots) == installed
    decreases |slots|
  {
    if slots == [] {
    } else if |installed| == |slots| {
      var n := |slots| - 1;
      SomeValuesOfFilledPrefix(slots[..n], installed[..n]);
      assert installed == installed[..n] + [installed[n]];
    } else {
      SomeValuesOfFilledPrefix(slots[..|slots| - 1], installed);
    }
  }

  /** What initialisation does, in order. */
  datatype InitStep = Init(driver: string) | PostInit(driver: string)

  /** How initialisation ends: all drivers up, or a panic naming the driver and the stage that failed. */
  datatype InitOutcome = Completed | InitFailed(driver: string) | PostInitFailed(driver: string)

  /**
   * The steps one driver's initialisation takes: init, then the post-init
   * callback if it has one and init succeeded.
   */
  function DriverSteps(d: DeviceDriverDescriptor, initOk: string -> bool): seq<InitStep>
  {
    [Init(d.driver)] + (if initOk(d.driver) && d.postInitCallback.Some? then [PostInit(d.driver)] else [])
  }

  /** The outcome of one driver's initialisation. */
  function DriverOutcome(d: DeviceDriverDescriptor, initOk: string -> bool, postInitOk: string -> bool): InitOutcome
  {
    if !initOk(d.driver) then InitFailed(d.driver)
    else if d.postInitCallback.Some? && !postInitOk(d.postInitCallback.value) then PostInitFailed(d.driver)
    else Completed
  }

  /** The steps of every driver in `ds`, in order. */
  function AllSteps(ds: seq<DeviceDriverDescriptor>, initOk: string -> bool): seq<InitStep>
  {
    if ds == [] then [] else AllSteps(ds[..|ds| - 1], initOk) + DriverSteps(ds[|ds| - 1], initOk)
  }

  /**
   * Initialisation of `ds` in order: each driver runs while the previous ones
   * completed; the first failure panics, so nothing after it runs.
   */
  function Run(ds: seq<DeviceDriverDescriptor>, initOk: string -> bool, postInitOk: string -> bool): (r: (seq<InitStep>, InitOutcome))
    ensures r.0 <= AllSteps(ds, initOk)
    ensures r.1 == Completed ==> r.0 == AllSteps(ds, initOk)
    ensures r.1 != Completed ==> exists k :: 0 <= k < |ds| && r.1 == DriverOutcome(ds[k], initOk, postInitOk)
  {
    if ds == [] then ([], Completed)
    else
      var (steps, outcome) := Run(ds[..|ds| - 1], initOk, postInitOk);
      var d := ds[|ds| - 1];
      if outcome != Completed then (steps, outcome)
      else (steps + DriverSteps(d, initOk), DriverOutcome(d, initOk, postInitOk))
  }

  /**
   * Initialisation completes exactly when every driver's init and post-init
   * callback succeed, and then it has run every driver's steps in order.
   */
  lemma {:induction false} RunCompletesIff(ds: seq<DeviceDriverDescriptor>, initOk: string -> bool, postInitOk: string -> bool)
    ensures Run(ds, initOk, postInitOk).1 == Completed <==>
      forall k :: 0 <= k < |ds| ==> DriverOutcome(ds[k], initOk, postInitOk) == Completed
    ensures Run(ds, initOk, postInitOk).1 == Completed ==> Run(ds, initOk, postInitOk).0 == AllSteps(ds, initOk)
  {
    if ds != [] {
      var n := |ds| - 1;
      RunCompletesIff(ds[..n], initOk, postInitOk);
      assert forall k :: 0 <= k < n ==> ds[..n][k] == ds[k];
    }
  }

  /**
   * A panic stops initialisation at the first driver that fails: the drivers
   * before it ran in full, the failing one ran up to its failing step, and
   * no later driver ran at all.
   */
  lemma RunStopsAtFirstFailure(ds: seq<DeviceDriverDescriptor>, initOk: string -> bool, postInitOk: string -> bool, k: nat)
    requires k < |ds|
    requires forall i :: 0 <= i < k ==> DriverOutcome(ds[i], initOk, postInitOk) == Completed
    requires DriverOutcome(ds[k], initOk, postInitOk) != Completed
    ensures Run(ds, initOk, postInitOk) == (AllSteps(ds[..k + 1], initOk), DriverOutcome(ds[k], initOk, postInitOk))
  {
    var before := ds[..k];
    assert forall i :: 0 <= i < k ==> before[i] == ds[i];
    RunCompletesIff(before, initOk, postInitOk);
    RunExtend(ds, initOk, postInitOk, k);
    assert ds[..k + 1][..k] == before;
    assert AllSteps(ds[..k + 1], initOk) == AllSteps(before, initOk) + DriverSteps(ds[k], initOk);
    RunFailureSticks(ds, initOk, postInitOk, k + 1);
  }

  /** The drivers named by the Init steps, in order. */
  function InitOrder(steps: seq<InitStep>): seq<string>
  {
    if steps == [] then []
    else InitOrder(steps[..|steps| - 1]) + (if steps[|steps| - 1].Init? then [steps[|steps| - 1].driver] else [])
  }

  lemma {:induction false} InitOrderAppend(a: seq<InitStep>, b: seq<InitStep>)
    ensures InitOrder(a + b) == InitOrder(a) + InitOrder(b)
    decreases |b|
  {
    if b == [] {
      assert a + b == a;
    } else {
      var n := |b| - 1;
      assert (a + b)[..|a + b| - 1] == a + b[..n];
      assert (a + b)[|a + b| - 1] == b[n];
      InitOrderAppend(a, b[..n]);
    }
  }

  function Names(ds: seq<DeviceDriverDescriptor>): seq<string>
  {
    if ds == [] then [] else Names(ds[..|ds| - 1]) + [ds[|ds| - 1].driver]
  }

  /** Every driver's init runs once, in installation order. */
  lemma {:induction false} InitsInInstallationOrder(ds: seq<DeviceDriverDescriptor>, initOk: string -> bool)
    ensures InitOrder(AllSteps(ds, initOk)) == Names(ds)
  {
    if ds != [] {
      var n := |ds| - 1;
      InitsInInstallationOrder(ds[..n], initOk);
      InitOrderAppend(AllSteps(ds[..n], initOk), DriverSteps(ds[n], initOk));
      var d := ds[n];
      var post: seq<InitStep> := if initOk(d.driver) && d.postInitCallback.Some? then [PostInit(d.driver)] else [];
      InitOrderAppend([Init(d.driver)], post);
      assert InitOrder([Init(d.driver)]) == [d.driver] by {
        assert [Init(d.driver)][..0] == [];
      }
      if post != [] {
        assert InitOrder(post) == [] by {
          assert post[..0] == [];
        }
      }
    }
  }

  /**
   * DriverManager with its DriverManagerInner state: the slot array and the
   * next free index. `installed` is the history of installed descriptors.
   */
  class DriverManager {
    var nextIndex: nat
    const descriptors: array<Option<DeviceDriverDescriptor>>
    ghost var installed: seq<DeviceDriverDescriptor>

    /** Slots [0, nextIndex) hold the installed descriptors in order, the rest are empty. */
    ghost predicate Valid()
      reads this, descriptors
    {
      && descriptors.Length == MAX_DRIVERS
      && nextIndex <= MAX_DRIVERS
      && |installed| == nextIndex
      && (forall k :: 0 <= k < nextIndex ==> descriptors[k] == Some(installed[k]))
      && (forall k :: nextIndex <= k < MAX_DRIVERS ==> descriptors[k] == None)
    }

    /** new: no driver installed, every slot empty. */
    constructor ()
      ensures Valid()
      ensures nextIndex == 0 && installed == []
      ensures fresh(descriptors)
    {
      nextIndex := 0;
      descriptors := new Option<DeviceDriverDescriptor>[MAX_DRIVERS](_ => None);
      installed := [];
    }

    /**
     * install: stores the descriptor in the next free slot and advances the
     * index; every other slot is unchanged. Installing a sixth driver panics,
     * so callers must stay below MAX_DRIVERS.
     */
    method Install(d: DeviceDriverDescriptor)
      requires Valid()
      requires nextIndex < MAX_DRIVERS
      modifies this, descriptors
      ensures Valid()
      ensures nextIndex == old(nextIndex) + 1
      ensures descriptors[old(nextIndex)] == Some(d)
      ensures forall k :: 0 <= k < descriptors.Length && k != old(nextIndex) ==> descriptors[k] == old(descriptors[k])
      ensures installed == old(installed) + [d]
    {
      descriptors[nextIndex] := Some(d);
      installed := installed + [d];
      nextIndex := nextIndex + 1;
    }

    /**
     * for_each_descriptor: the descriptors of the occupied slots in slot
     * order, which is installation order.
     */
    method ForEachDescriptor() returns (visited: seq<DeviceDriverDescriptor>)
      requires Valid()
      ensures visited == SomeValues(descriptors[..])
      ensures visited == installed
    {
      visited := [];
      var k := 0;
      while k < descriptors.Length
        invariant 0 <= k <= descriptors.Length
        invariant visited == SomeValues(descriptors[..k])
      {
        assert descriptors[..k + 1][..k] == descriptors[..k];
        if descriptors[k].Some? {
          visited := visited + [descriptors[k].value];
        }
        k := k + 1;
      }
      assert descriptors[..k] == descriptors[..];
      SomeValuesOfFilledPrefix(descriptors[..], installed);
    }

    /**
     * initialize: for each installed driver in order, init and then its
     * post-init callback; the first failure panics and ends the sequence.
     * When every driver came up, each one's name is logged, in order.
     */
    method Initialize(initOk: string -> bool, postInitOk: string -> bool)
      returns (steps: seq<InitStep>, outcome: InitOutcome, logged: seq<string>)
      requires Valid()
      ensures (steps, outcome) == Run(installed, initOk, postInitOk)
      ensures outcome == Completed ==> logged == Names(installed)
      ensures outcome != Completed ==> logged == []
    {
      var ds := ForEachDescriptor();
      steps, outcome := InitializeAll(ds, initOk, postInitOk);
      logged := [];
      if outcome == Completed {
        logged := LogNames(ds);
      }
    }
  }

  /**
   * The first pass of initialize: each driver's init, then its post-init
   * callback, in order; the first failure panics and ends the pass.
   */
  method InitializeAll(ds: seq<DeviceDriverDescriptor>, initOk: string -> bool, postInitOk: string -> bool)
    returns (steps: seq<InitStep>, outcome: InitOutcome)
    ensures (steps, outcome) == Run(ds, initOk, postInitOk)
  {
    steps, outcome := [], Completed;
    var k := 0;
    while k < |ds|
      invariant 0 <= k <= |ds|
      invariant (steps, outcome) == Run(ds[..k], initOk, postInitOk)
      invariant outcome == Completed
    {
      var d := ds[k];
      ghost var before := steps;
      RunExtend(ds, initOk, postInitOk, k);
      steps := steps + [Init(d.driver)];
      if !initOk(d.driver) {
        outcome := InitFailed(d.driver);
        assert steps == before + DriverSteps(d, initOk);
        RunFailureSticks(ds, initOk, postInitOk, k + 1);
        return;
      }
      if d.postInitCallback.Some? {
        steps := steps + [PostInit(d.driver)];
        assert steps == before + DriverSteps(d, initOk);
        if !postInitOk(d.postInitCallback.value) {
          outcome := PostInitFailed(d.driver);
          RunFailureSticks(ds, initOk, postInitOk, k + 1);
          return;
        }
      } else {
        assert steps == before + DriverSteps(d, initOk);
      }
      k := k + 1;
    }
    assert ds[..k] == ds;
  }

  /** The second pass of initialize: one log line per driver name, in order. */
  method LogNames(ds: seq<DeviceDriverDescriptor>) returns (logged: seq<string>)
    ensures logged == Names(ds)
  {
    logged := [];
    var k := 0;
    while k < |ds|
      invariant 0 <= k <= |ds|
      invariant logged == Names(ds[..k])
    {
      assert ds[..k + 1][..k] == ds[..k];
      logged := logged + [ds[k].driver];
      k := k + 1;
    }
    assert ds[..k] == ds;
  }

  /** While every driver so far has completed, the next one runs in full. */
  lemma RunExtend(ds: seq<DeviceDriverDescriptor>, initOk: string -> bool, postInitOk: string -> bool, k: nat)
    requires k < |ds|
    requires Run(ds[..k], initOk, postInitOk).1 == Completed
    ensures Run(ds[..k + 1], initOk, postInitOk) ==
      (Run(ds[..k], initOk, postInitOk).0 + DriverSteps(ds[k], initOk), DriverOutcome(ds[k], initOk, postInitOk))
  {
    assert ds[..k + 1][..k] == ds[..k];
  }

  /** Once a prefix of the drivers has failed, running more of them changes nothing. */
  lemma {:induction false} RunFailureSticks(ds: seq<DeviceDriverDescriptor>, initOk: string -> bool, postInitOk: string -> bool, n: nat)
    requires n <= |ds|
    requires Run(ds[..n], initOk, postInitOk).1 != Completed
    ensures Run(ds, initOk, postInitOk) == Run(ds[..n], initOk, postInitOk)
    decreases |ds| - n
  {
    if n == |ds| {
      assert ds[..n] == ds;
    } else {
      assert ds[..n + 1][..n] == ds[..n];
      RunFailureSticks(ds, initOk, postInitOk, n + 1);
    }
  }
}
