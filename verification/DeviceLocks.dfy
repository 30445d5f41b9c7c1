/**
 vllm_omni/engine/stage_init_utils.py, acquire_device_locks and release_device_locks:
 processes that lock their devices one by one, in sorted order, around initialization.
 */
module DeviceLocks {
  import opened Common

  type Pid = nat
  type Device = int

  // ---- Which devices to lock ----

  predicate Sorted(s: seq<int>) {
    forall i, j :: 0 <= i < j < |s| ==> s[i] <= s[j]
  }

  function Inserted(s: seq<int>, x: int): seq<int> {
    if s == [] then [x] else if x <= s[0] then [x] + s else [s[0]] + Inserted(s[1..], x)
  }

  function SortedCopy(s: seq<int>): seq<int> {
    if s == [] then [] else Inserted(SortedCopy(s[1..]), s[0])
  }

  lemma {:induction false} InsertedHolds(s: seq<int>, x: int)
    ensures multiset(Inserted(s, x)) == multiset(s) + multiset{x}
    ensures forall y :: y in Inserted(s, x) ==> y == x || y in s
    decreases |s|
  {
    if s != [] {
      assert s == [s[0]] + s[1..];
      InsertedHolds(s[1..], x);
    }
  }

  ghost predicate Below(h: int, s: seq<int>) {
    forall y :: y in s ==> h <= y
  }

  lemma SortedCons(h: int, s: seq<int>)
    requires Sorted(s) && Below(h, s)
    ensures Sorted([h] + s)
  {
    var r := [h] + s;
    forall i, j | 0 <= i < j < |r| ensures r[i] <= r[j] {
      assert r[j] == s[j - 1] && r[j] in s;
      if i > 0 { assert r[i] == s[i - 1]; }
    }
  }

  lemma SortedUncons(s: seq<int>)
    requires Sorted(s) && s != []
    ensures Sorted(s[1..]) && Below(s[0], s[1..]) && Below(s[0], s)
  {
  }

  lemma {:induction false} InsertedIsSorted(s: seq<int>, x: int)
    requires Sorted(s)
    ensures Sorted(Inserted(s, x))
    decreases |s|
  {
    if s == [] {
      SortedCons(x, []);
    } else {
      SortedUncons(s);
      hide Sorted;
      if x <= s[0] {
        SortedCons(x, s);
      } else {
        InsertedIsSorted(s[1..], x);
        InsertedHolds(s[1..], x);
        SortedCons(s[0], Inserted(s[1..], x));
      }
    }
  }

  lemma {:induction false} SortedCopyIsSorted(s: seq<int>)
    ensures Sorted(SortedCopy(s)) && multiset(SortedCopy(s)) == multiset(s)
    decreases |s|
  {
    if s != [] {
      assert s == [s[0]] + s[1..];
      SortedCopyIsSorted(s[1..]);
      InsertedIsSorted(SortedCopy(s[1..]), s[0]);
      InsertedHolds(SortedCopy(s[1..]), s[0]);
    }
  }

  /** The devices a stage locks: the first it can see, sorted; None where the source raises
      because there are too few. */
  function DevicesToLock(visible: seq<Device>, deviceCount: nat, needed: nat): Option<seq<Device>> {
    var physical := if visible != [] then visible else seq(deviceCount, i => i);
    if |physical| < needed then None else Some(SortedCopy(physical[..needed]))
  }

  /** The source raises exactly if fewer devices are there than needed; else the first ones
      visible, or with no list of visible ones the first ones at all, are locked, each once, in
      ascending order. */
  lemma DevicesAreTheFirst(visible: seq<Device>, deviceCount: nat, needed: nat)
    ensures var d := DevicesToLock(visible, deviceCount, needed);
            && (d.None? <==> needed > if visible == [] then deviceCount else |visible|)
            && (d.Some? ==>
                  Sorted(d.value)
                  && multiset(d.value) == multiset(if visible == [] then seq(needed, i => i) else visible[..needed]))
  {
    var physical := if visible != [] then visible else seq(deviceCount, i => i);
    if needed <= |physical| {
      SortedCopyIsSorted(physical[..needed]);
      if visible == [] { assert physical[..needed] == seq(needed, i => i); }
    }
  }

  ghost predicate Increasing(s: seq<int>) {
    forall i, j :: 0 <= i < j < |s| ==> s[i] < s[j]
  }

  /** Visible devices without repetition are locked in strictly increasing order. */
  lemma DistinctDevicesIncrease(visible: seq<Device>, deviceCount: nat, needed: nat)
    requires NoDuplicates(visible)
    ensures var d := DevicesToLock(visible, deviceCount, needed); d.Some? ==> Increasing(d.value)
  {
    var physical := if visible != [] then visible else seq(deviceCount, i => i);
    if needed <= |physical| {
      var chosen := physical[..needed];
      var s := SortedCopy(chosen);
      SortedCopyIsSorted(chosen);
      forall i, j | 0 <= i < j < |s| ensures s[i] != s[j] {
        DistinctMultiset(chosen, s[i]);
        if s[i] == s[j] {
          TwiceInMultiset(s, i, j);
          assert false;
        }
      }
    }
  }

  lemma {:induction false} DistinctMultiset(s: seq<int>, x: int)
    requires NoDuplicates(s)
    ensures multiset(s)[x] <= 1
    decreases |s|
  {
    if s != [] {
      assert s == [s[0]] + s[1..];
      DistinctMultiset(s[1..], x);
      if x == s[0] { assert x !in s[1..]; }
    }
  }

  lemma TwiceInMultiset(s: seq<int>, i: nat, j: nat)
    requires i < j < |s| && s[i] == s[j]
    ensures multiset(s)[s[i]] >= 2
  {
    assert s == s[..j] + s[j..];
    assert s[..j][i] == s[i] && s[j..][0] == s[j];
    assert s[i] in multiset(s[..j]) && s[i] in multiset(s[j..]);
  }

  // ---- The system ----

  datatype Phase = Acquiring | Initializing | Finished

  /** `held` are the positions in `devices` the process has a locked descriptor for. */
  datatype Process = Process(devices: seq<Device>, next: nat, held: set<nat>, phase: Phase)

  /** A file lock belongs to a descriptor, here a process and a position. */
  datatype System = System(procs: map<Pid, Process>, locks: map<Device, (Pid, nat)>)

  datatype Step = TryLock(pid: Pid) | GiveUp(pid: Pid) | Release(pid: Pid)

  predicate Enabled(s: System, step: Step) {
    step.pid in s.procs &&
    var p := s.procs[step.pid];
    match step
    case TryLock(_) => p.phase.Acquiring? && p.next < |p.devices|
    case GiveUp(_) => p.phase.Acquiring? && p.next < |p.devices|
    case Release(_) => p.phase.Initializing?
  }

  function Advance(p: Process): Process {
    p.(next := p.next + 1, phase := if p.next + 1 >= |p.devices| then Initializing else Acquiring)
  }

  /** A lock attempt fails without waiting when any descriptor has the lock, one of the same
      process included.  Giving up, on a timeout or an error, goes on without the lock. */
  function Next(s: System, step: Step): System
    requires Enabled(s, step)
  {
    var pid := step.pid;
    var p := s.procs[pid];
    match step
    case TryLock(_) =>
      var d := p.devices[p.next];
      if d in s.locks then s
      else System(s.procs[pid := Advance(p).(held := p.held + {p.next})], s.locks[d := (pid, p.next)])
    case GiveUp(_) => s.(procs := s.procs[pid := Advance(p)])
    case Release(_) =>
      System(s.procs[pid := p.(phase := Finished, held := {})],
             map d | d in s.locks && s.locks[d].0 != pid :: s.locks[d])
  }

  /** Giving up takes no lock and goes on to the next device, and after the last one to
      initialization. */
  lemma GivingUpGoesOn(s: System, pid: Pid)
    requires Enabled(s, GiveUp(pid))
    ensures var n, p := Next(s, GiveUp(pid)), s.procs[pid];
            && n.locks == s.locks && n.procs.Keys == s.procs.Keys
            && (forall other :: other in s.procs && other != pid ==> n.procs[other] == s.procs[other])
            && n.procs[pid] == Process(p.devices, p.next + 1, p.held,
                                       if p.next + 1 < |p.devices| then Acquiring else Initializing)
  {
  }

  ghost predicate ProcessValid(s: System, pid: Pid) {
    pid in s.procs &&
    var p := s.procs[pid];
    && p.next <= |p.devices|
    && (p.phase.Acquiring? <==> p.next < |p.devices|)
    && (forall i :: i in p.held ==> HoldsAt(s, pid, i))
  }

  ghost predicate HoldsAt(s: System, pid: Pid, i: nat) {
    pid in s.procs && i < s.procs[pid].next <= |s.procs[pid].devices| && !s.procs[pid].phase.Finished? &&
    var d := s.procs[pid].devices[i]; d in s.locks && s.locks[d] == (pid, i)
  }

  ghost predicate LockValid(s: System, d: Device) {
    d in s.locks &&
    var (pid, i) := s.locks[d];
    pid in s.procs && i in s.procs[pid].held && i < |s.procs[pid].devices| && s.procs[pid].devices[i] == d
  }

  /** The table and the processes agree on who holds what. */
  ghost predicate Inv(s: System) {
    && (forall pid :: pid in s.procs ==> ProcessValid(s, pid))
    && (forall d :: d in s.locks ==> LockValid(s, d))
  }

  function Starting(devices: seq<Device>): Process {
    Process(devices, 0, {}, if devices == [] then Initializing else Acquiring)
  }

  ghost predicate Initial(s: System) {
    s.locks == map[] && forall pid :: pid in s.procs ==> s.procs[pid] == Starting(s.procs[pid].devices)
  }

  lemma InitialInv(s: System)
    requires Initial(s)
    ensures Inv(s)
  {
  }

  lemma StepKeepsInv(s: System, step: Step)
    requires Inv(s) && Enabled(s, step)
    ensures Inv(Next(s, step))
  {
    var n := Next(s, step);
    forall pid | pid in n.procs ensures ProcessValid(n, pid) {
      assert ProcessValid(s, pid) && ProcessValid(s, step.pid);
      forall i | i in n.procs[pid].held ensures HoldsAt(n, pid, i) {
        if pid != step.pid || i in s.procs[pid].held { assert HoldsAt(s, pid, i); }
      }
    }
    forall d | d in n.locks ensures LockValid(n, d) {
      if d in s.locks { assert LockValid(s, d); }
    }
  }

  // ---- What the locks give ----

  /** No device is held by two processes, nor twice by one. */
  lemma MutualExclusion(s: System, p: Pid, i: nat, q: Pid, j: nat)
    requires Inv(s) && p in s.procs && q in s.procs && i in s.procs[p].held && j in s.procs[q].held
    requires s.procs[p].devices[i] == s.procs[q].devices[j]
    ensures p == q && i == j
  {
    assert ProcessValid(s, p) && ProcessValid(s, q);
    assert HoldsAt(s, p, i) && HoldsAt(s, q, j);
  }

  /** Only its own release ends a hold. */
  lemma HoldersKeepTheirLocks(s: System, step: Step, p: Pid, i: nat)
    requires Inv(s) && Enabled(s, step) && p in s.procs && i in s.procs[p].held
    ensures i in Next(s, step).procs[p].held <==> step != Release(p)
    ensures step != Release(p) ==> HoldsAt(Next(s, step), p, i)
  {
    StepKeepsInv(s, step);
    assert ProcessValid(s, p);
    assert ProcessValid(Next(s, step), p);
  }

  /** A process that never gave up holds every device it passed. */
  ghost predicate Patient(s: System, pid: Pid) {
    && pid in s.procs
    && (s.procs[pid].phase.Finished? || forall i :: 0 <= i < s.procs[pid].next ==> i in s.procs[pid].held)
  }

  lemma PatienceLasts(s: System, step: Step, pid: Pid)
    requires Inv(s) && Enabled(s, step) && Patient(s, pid) && step != GiveUp(pid)
    ensures Patient(Next(s, step), pid)
  {
  }

  /** Two processes initializing at once, neither having given up, have no device in
      common. */
  lemma InitializationIsExclusive(s: System, p: Pid, q: Pid, i: nat, j: nat)
    requires Inv(s) && Patient(s, p) && Patient(s, q) && p != q
    requires s.procs[p].phase.Initializing? && s.procs[q].phase.Initializing?
    requires i < |s.procs[p].devices| && j < |s.procs[q].devices|
    ensures s.procs[p].devices[i] != s.procs[q].devices[j]
  {
    assert ProcessValid(s, p) && ProcessValid(s, q);
    if s.procs[p].devices[i] == s.procs[q].devices[j] {
      MutualExclusion(s, p, i, q, j);
    }
  }

  // ---- No deadlock ----

  ghost predicate CanMove(s: System, pid: Pid) {
    pid in s.procs &&
    var p := s.procs[pid];
    p.phase.Initializing? || (p.phase.Acquiring? && p.next < |p.devices| && p.devices[p.next] !in s.locks)
  }

  ghost predicate Waiting(s: System, pid: Pid) {
    pid in s.procs && s.procs[pid].phase.Acquiring? && !CanMove(s, pid)
  }

  /** Whoever a waiting process waits for is itself waiting, for a later device, or can move. */
  lemma BlockedByLater(s: System, pid: Pid) returns (holder: Pid)
    requires Inv(s) && Waiting(s, pid)
    requires forall p :: p in s.procs ==> Increasing(s.procs[p].devices)
    ensures holder in s.procs
    ensures CanMove(s, holder) ||
            (&& Waiting(s, holder)
             && s.procs[holder].next < |s.procs[holder].devices| && s.procs[pid].next < |s.procs[pid].devices|
             && s.procs[holder].devices[s.procs[holder].next] > s.procs[pid].devices[s.procs[pid].next])
  {
    assert ProcessValid(s, pid);
    var d := s.procs[pid].devices[s.procs[pid].next];
    assert LockValid(s, d);
    holder := s.locks[d].0;
    assert ProcessValid(s, holder) && HoldsAt(s, holder, s.locks[d].1);
  }

  /** The processes waiting for a device beyond d. */
  ghost function WaitingBeyond(s: System, d: Device): set<Pid> {
    set pid | pid in s.procs && Waiting(s, pid) && s.procs[pid].next < |s.procs[pid].devices|
              && s.procs[pid].devices[s.procs[pid].next] > d
  }

  /** Following who waits for whom ends at a process that can move. */
  lemma {:induction false} SomeoneCanMove(s: System, pid: Pid) returns (mover: Pid)
    requires Inv(s) && Waiting(s, pid)
    requires forall p :: p in s.procs ==> Increasing(s.procs[p].devices)
    ensures CanMove(s, mover)
    decreases |WaitingBeyond(s, s.procs[pid].devices[s.procs[pid].next])|
  {
    assert ProcessValid(s, pid);
    var d := s.procs[pid].devices[s.procs[pid].next];
    var holder := BlockedByLater(s, pid);
    if CanMove(s, holder) {
      mover := holder;
    } else {
      var e := s.procs[holder].devices[s.procs[holder].next];
      assert holder in WaitingBeyond(s, d) && holder !in WaitingBeyond(s, e);
      ProperSubset(WaitingBeyond(s, e), WaitingBeyond(s, d), holder);
      mover := SomeoneCanMove(s, holder);
    }
  }

  lemma ProperSubset<T>(a: set<T>, b: set<T>, x: T)
    requires a <= b && x in b && x !in a
    ensures |a| < |b|
  {
    var c := b - {x};
    assert a <= c;
    SubsetSize(a, c);
  }

  lemma {:induction false} SubsetSize<T>(a: set<T>, b: set<T>)
    requires a <= b
    ensures |a| <= |b|
    decreases |a|
  {
    if a != {} {
      var x :| x in a;
      SubsetSize(a - {x}, b - {x});
    }
  }

  /** However many processes lock whatever increasing lists of devices: as long as one is
      not finished, one can move, with nobody timing out. */
  lemma NoDeadlock(s: System)
    requires Inv(s)
    requires forall p :: p in s.procs ==> Increasing(s.procs[p].devices)
    requires exists p :: p in s.procs && !s.procs[p].phase.Finished?
    ensures exists p :: CanMove(s, p)
  {
    var p :| p in s.procs && !s.procs[p].phase.Finished?;
    assert ProcessValid(s, p);
    if !CanMove(s, p) {
      var mover := SomeoneCanMove(s, p);
      assert CanMove(s, mover);
    }
  }

  function Remaining(p: Process): nat {
    if p.phase.Finished? then 0 else 1 + if p.next <= |p.devices| then |p.devices| - p.next else 0
  }

  /** And a move brings its process nearer to the end and no other further from it. */
  lemma MovesAreProgress(s: System, pid: Pid, other: Pid)
    requires Inv(s) && CanMove(s, pid) && other in s.procs
    ensures var step := if s.procs[pid].phase.Initializing? then Release(pid) else TryLock(pid);
            && Enabled(s, step)
            && var n := Next(s, step);
               && Remaining(n.procs[other]) == Remaining(s.procs[other])
                    - (if other != pid then 0
                       else if s.procs[pid].phase.Initializing? then Remaining(s.procs[pid]) else 1)
               && Remaining(n.procs[pid]) < Remaining(s.procs[pid])
  {
    assert ProcessValid(s, pid);
  }

  // ---- Every run ----

  ghost predicate Runs(first: System, steps: seq<Step>, last: System)
    decreases |steps|
  {
    if steps == [] then last == first
    else Enabled(first, steps[0]) && Runs(Next(first, steps[0]), steps[1..], last)
  }

  lemma StepKeepsDevices(s: System, step: Step, pid: Pid)
    requires Enabled(s, step)
    ensures Next(s, step).procs.Keys == s.procs.Keys
    ensures pid in s.procs ==> Next(s, step).procs[pid].devices == s.procs[pid].devices
  {
  }

  lemma {:induction false} RunKeepsInv(first: System, steps: seq<Step>, last: System, pid: Pid)
    requires Inv(first) && Runs(first, steps, last) && pid in first.procs
    ensures Inv(last) && last.procs.Keys == first.procs.Keys
    ensures last.procs[pid].devices == first.procs[pid].devices
    ensures Patient(first, pid) && GiveUp(pid) !in steps ==> Patient(last, pid)
    decreases |steps|
  {
    if steps != [] {
      assert steps == [steps[0]] + steps[1..];
      StepKeepsInv(first, steps[0]);
      StepKeepsDevices(first, steps[0], pid);
      if Patient(first, pid) && steps[0] != GiveUp(pid) { PatienceLasts(first, steps[0], pid); }
      RunKeepsInv(Next(first, steps[0]), steps[1..], last, pid);
    }
  }

  /** In every state that processes with strictly increasing lists can reach: someone can
      move unless all are finished, and two processes that initialize without either having
      given up share no device. */
  lemma EveryReachableSystemIsSafe(first: System, steps: seq<Step>, last: System, p: Pid, q: Pid, i: nat, j: nat)
    requires Initial(first) && Runs(first, steps, last)
    requires forall r :: r in first.procs ==> Increasing(first.procs[r].devices)
    requires p in first.procs && q in first.procs && p != q
    ensures last.procs.Keys == first.procs.Keys
    ensures (exists r :: r in last.procs && !last.procs[r].phase.Finished?) ==> exists r :: CanMove(last, r)
    ensures GiveUp(p) !in steps && GiveUp(q) !in steps
            && last.procs[p].phase.Initializing? && last.procs[q].phase.Initializing?
            && i < |last.procs[p].devices| && j < |last.procs[q].devices|
            ==> last.procs[p].devices[i] != last.procs[q].devices[j]
  {
    InitialInv(first);
    RunKeepsInv(first, steps, last, p);
    RunKeepsInv(first, steps, last, q);
    forall r | r in last.procs ensures Increasing(last.procs[r].devices) { RunKeepsInv(first, steps, last, r); }
    if exists r :: r in last.procs && !last.procs[r].phase.Finished? { NoDeadlock(last); }
    if GiveUp(p) !in steps && GiveUp(q) !in steps
       && last.procs[p].phase.Initializing? && last.procs[q].phase.Initializing?
       && i < |last.procs[p].devices| && j < |last.procs[q].devices| {
      InitializationIsExclusive(last, p, q, i, j);
    }
  }

  // ---- A device named twice ----

  /** A process that never gives up never gets past the second of two equal devices: its own
      first descriptor has the lock. */
  lemma TwiceNamedNeverPasses(s: System, step: Step, pid: Pid, i: nat, j: nat)
    requires Inv(s) && Enabled(s, step) && Patient(s, pid) && step != GiveUp(pid)
    requires i < j < |s.procs[pid].devices| && s.procs[pid].devices[i] == s.procs[pid].devices[j]
    requires !s.procs[pid].phase.Finished? && s.procs[pid].next <= j
    ensures !Next(s, step).procs[pid].phase.Finished? && Next(s, step).procs[pid].next <= j
  {
    assert ProcessValid(s, pid);
    if s.procs[pid].next == j { assert HoldsAt(s, pid, i); }
  }

  /** The same over any run in which it never gives up. */
  lemma {:induction false} TwiceNamedNeverFinishes(first: System, steps: seq<Step>, last: System, pid: Pid, i: nat,
                                                   j: nat)
    requires Inv(first) && Runs(first, steps, last) && Patient(first, pid) && GiveUp(pid) !in steps
    requires i < j < |first.procs[pid].devices| && first.procs[pid].devices[i] == first.procs[pid].devices[j]
    requires !first.procs[pid].phase.Finished? && first.procs[pid].next <= j
    ensures pid in last.procs && !last.procs[pid].phase.Finished? && last.procs[pid].next <= j
    decreases |steps|
  {
    if steps != [] {
      assert steps == [steps[0]] + steps[1..];
      StepKeepsInv(first, steps[0]);
      StepKeepsDevices(first, steps[0], pid);
      PatienceLasts(first, steps[0], pid);
      TwiceNamedNeverPasses(first, steps[0], pid, i, j);
      hide Inv, Next, Enabled, Patient;
      TwiceNamedNeverFinishes(Next(first, steps[0]), steps[1..], last, pid, i, j);
    }
  }

  // ---- One process's loop ----

  /** What one try at a lock file gives; a busy try may find the waiting time over. */
  datatype Attempt = Granted | Busy(expired: bool) | OsError

  /** The tries at the lock file of each device. */
  type Attempts = (nat, nat) -> Attempt

  /** Waiting ends: after so many tries the time is over. */
  ghost predicate EndsWaiting(attempts: Attempts, patience: nat) {
    forall i, k :: k >= patience ==> attempts(i, k) != Busy(false)
  }

  /** The try that decides about the i-th device, from the k-th on. */
  ghost function Decisive(attempts: Attempts, patience: nat, i: nat, k: nat): Attempt
    requires EndsWaiting(attempts, patience)
    decreases if k < patience then patience - k else 0
  {
    if attempts(i, k) == Busy(false) then Decisive(attempts, patience, i, k + 1) else attempts(i, k)
  }

  /** `acquire_device_locks`: the positions of the devices locked, in order; a device whose
      lock timed out or failed is left out and the loop goes on. */
  method AcquireDeviceLocks(devices: seq<Device>, attempts: Attempts, ghost patience: nat) returns (lockFds: seq<nat>)
    requires EndsWaiting(attempts, patience)
    ensures forall i :: i in lockFds <==> 0 <= i < |devices| && Decisive(attempts, patience, i, 0).Granted?
    ensures forall i, j :: 0 <= i < j < |lockFds| ==> lockFds[i] < lockFds[j]
  {
    lockFds := [];
    for i := 0 to |devices|
      invariant forall j :: j in lockFds <==> 0 <= j < i && Decisive(attempts, patience, j, 0).Granted?
      invariant forall j, m :: 0 <= j < m < |lockFds| ==> lockFds[j] < lockFds[m]
    {
      var lockAcquired, k := false, 0;
      ghost var before := lockFds;
      assert forall j :: 0 <= j < |before| ==> before[j] in before;
      while !lockAcquired
        invariant lockFds == if lockAcquired then before + [i] else before
        invariant Decisive(attempts, patience, i, 0)
                  == if lockAcquired then Granted else Decisive(attempts, patience, i, k)
        decreases !lockAcquired, if k < patience then patience - k else 0
      {
        match attempts(i, k) {
          case Granted =>
            lockAcquired := true;
            lockFds := lockFds + [i];
          case Busy(expired) =>
            if expired { break; }
            k := k + 1;
          case OsError =>
            break;
        }
      }
    }
  }
}
