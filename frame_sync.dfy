/**
 * The per-frame synchronisation protocol as a pure state machine.
 *
 * Every consumer type asks the system for the current frame time once per frame. The
 * system keeps the list of consumers already served in this frame; the simulation
 * advances only when that list is empty or already holds the caller (which means a new
 * frame has begun), so many consumers pulling in one frame cause a single advance and all
 * see the same time. `T` stands for the consumer's identity.
 */
module FrameSync {

  /** The size of the range of a 32-bit unsigned integer. */
  const UintRange: int := 0x1_0000_0000

  /** Conversion of a millisecond count to the unsigned 32-bit return type. */
  function ToUint(x: int): (r: int)
    ensures 0 <= r < UintRange
    ensures 0 <= x < UintRange ==> r == x
  {
    x % UintRange
  }

  /** The synchroniser's part of the system state. */
  datatype Clock<T> = Clock(running: bool, initialized: bool, timeInt: int, syncList: seq<T>)

  /** A call by `p` starts a new frame: the system is live and either nobody has been
      served yet or `p` has been served already. */
  predicate Advances<T(==)>(c: Clock<T>, p: T)
  {
    c.running && c.initialized && (c.syncList == [] || p in c.syncList)
  }

  /** The state after systemSync(p) and its return value, when the wall clock plus the
      configured start offset reads `now` milliseconds. */
  function Sync<T(==)>(c: Clock<T>, p: T, now: int): (r: (Clock<T>, int))
    ensures !c.running || !c.initialized ==> r == (c, 0)
    ensures c.running && c.initialized ==>
      r.0.running && r.0.initialized && r.1 == ToUint(r.0.timeInt) && p in r.0.syncList
    ensures Advances(c, p) ==> r.0.timeInt == now && r.0.syncList == [p]
    ensures c.running && c.initialized && !Advances(c, p) ==>
      r.0.timeInt == c.timeInt && r.0.syncList == c.syncList + [p]
  {
    if !c.running || !c.initialized then (c, 0)
    else
      var started := if Advances(c, p) then c.(timeInt := now, syncList := []) else c;
      var after := started.(syncList := started.syncList + [p]);
      (after, ToUint(after.timeInt))
  }

  /** Calls by `ps`, in turn, with the clock reading `nows`: the final state, what each
      call returned, and how many calls advanced the simulation. */
  function Run<T(==)>(c: Clock<T>, ps: seq<T>, nows: seq<int>): (Clock<T>, seq<int>, nat)
    requires |ps| == |nows|
    decreases |ps|
  {
    if ps == [] then (c, [], 0)
    else
      var n := |ps| - 1;
      var before := Run(c, ps[..n], nows[..n]);
      var step := Sync(before.0, ps[n], nows[n]);
      (step.0, before.1 + [step.1], before.2 + if Advances(before.0, ps[n]) then 1 else 0)
  }

  /** No consumer appears twice. */
  predicate Distinct<T(==)>(ps: seq<T>)
  {
    forall i, j :: 0 <= i < j < |ps| ==> ps[i] != ps[j]
  }

  /** The state `Run` reaches when `ps` have been served in one frame that began at `now`. */
  ghost predicate ServedInOneFrame<T>(c: Clock<T>, ps: seq<T>, now: int, r: (Clock<T>, seq<int>, nat))
  {
    && c.running && c.initialized
    && r.2 == 1
    && |r.1| == |ps|
    && (forall i :: 0 <= i < |r.1| ==> r.1[i] == ToUint(now))
    && r.0 == Clock(c.running, c.initialized, now, ps)
  }

  /** One frame: distinct consumers each pull once, the first of them starting the frame.
      The simulation advances exactly once, every caller sees the time of that advance,
      the served list ends up holding exactly these consumers, and the next call by any
      of them starts the following frame. */
  lemma {:induction false} OneAdvancePerFrame<T>(c: Clock<T>, ps: seq<T>, nows: seq<int>)
    requires |ps| == |nows| && 0 < |ps|
    requires Distinct(ps)
    requires Advances(c, ps[0])
    ensures ServedInOneFrame(c, ps, nows[0], Run(c, ps, nows))
    ensures forall i :: 0 <= i < |ps| ==> Advances(Run(c, ps, nows).0, ps[i])
    decreases |ps|
  {
    var n := |ps| - 1;
    if n == 0 {
      FirstCallerStartsFrame(c, ps, nows);
    } else {
      DistinctPrefix(ps, n);
      assert nows[..n][0] == nows[0];
      OneAdvancePerFrame(c, ps[..n], nows[..n]);
      LaterCallerJoinsFrame(c, ps, nows);
    }
    ServedCallersAdvanceNext(c, ps, nows[0], Run(c, ps, nows));
  }

  /** The caller that starts a frame is served alone in it. */
  lemma FirstCallerStartsFrame<T>(c: Clock<T>, ps: seq<T>, nows: seq<int>)
    requires |ps| == |nows| == 1
    requires Advances(c, ps[0])
    ensures ServedInOneFrame(c, ps, nows[0], Run(c, ps, nows))
  {
    assert Run(c, ps[..0], nows[..0]) == (c, [], 0);
    assert ps == [ps[0]];
  }

  /** Without repeats, a prefix has no repeats and does not hold the element after it. */
  lemma DistinctPrefix<T>(ps: seq<T>, n: nat)
    requires Distinct(ps) && n < |ps|
    ensures Distinct(ps[..n])
    ensures ps[n] !in ps[..n]
  {
    var pre := ps[..n];
    forall i, j | 0 <= i < j < |pre| ensures pre[i] != pre[j] {
      assert pre[i] == ps[i] && pre[j] == ps[j];
    }
    forall i | 0 <= i < |pre| ensures pre[i] != ps[n] {
      assert pre[i] == ps[i];
    }
  }

  /** Once `ps` have been served, a further call by any of them starts a new frame. */
  lemma ServedCallersAdvanceNext<T>(c: Clock<T>, ps: seq<T>, now: int, r: (Clock<T>, seq<int>, nat))
    requires ServedInOneFrame(c, ps, now, r)
    ensures forall i :: 0 <= i < |ps| ==> Advances(r.0, ps[i])
  {
    assert r.0.syncList == ps;
    forall i | 0 <= i < |ps|
      ensures Advances(r.0, ps[i])
    {
      assert ps[i] in r.0.syncList;
    }
  }

  /** A consumer not yet served in the current frame only joins it. */
  lemma LaterCallerJoinsFrame<T>(c: Clock<T>, ps: seq<T>, nows: seq<int>)
    requires |ps| == |nows| && 1 < |ps|
    requires ServedInOneFrame(c, ps[..|ps| - 1], nows[0], Run(c, ps[..|ps| - 1], nows[..|ps| - 1]))
    requires ps[|ps| - 1] !in ps[..|ps| - 1]
    ensures ServedInOneFrame(c, ps, nows[0], Run(c, ps, nows))
  {
    var n := |ps| - 1;
    var before := Run(c, ps[..n], nows[..n]);
    var last := Sync(before.0, ps[n], nows[n]);
    assert !Advances(before.0, ps[n]);
    assert Run(c, ps, nows) == (last.0, before.1 + [last.1], before.2);
    assert ps[..n] + [ps[n]] == ps;
  }

  /** A stopped or uninitialised system is inert: every call returns 0 and nothing
      changes, however many consumers call and whatever the clock reads. */
  lemma {:induction false} InertWhenStopped<T>(c: Clock<T>, ps: seq<T>, nows: seq<int>)
    requires |ps| == |nows|
    requires !c.running || !c.initialized
    ensures Run(c, ps, nows).0 == c
    ensures Run(c, ps, nows).2 == 0
    ensures |Run(c, ps, nows).1| == |ps|
    ensures forall i :: 0 <= i < |ps| ==> Run(c, ps, nows).1[i] == 0
    decreases |ps|
  {
    if ps != [] {
      var n := |ps| - 1;
      InertWhenStopped(c, ps[..n], nows[..n]);
    }
  }
}
