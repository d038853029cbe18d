/** The re-entrant zone lock of the protocol store: `#currentZone`,
    `#currentZoneDepth` and `#zoneQueue`, as steps of any interleaving of
    `withZone` calls. */
module ZoneLock {
  import opened Options

  type JobId = nat

  /** A zone is an object compared by identity (`uid`); the flags say which
      kinds of change may stay pending until the zone is left. */
  datatype Zone = Zone(uid: nat, keepsKyber: bool, keepsPreKeys: bool,
                       keepsSenderKeys: bool, keepsSessions: bool, keepsUnprocessed: bool)

  datatype Waiter = Waiter(zone: Zone, job: JobId)

  /** `inside` records the `withZone` calls that have entered and not left. */
  datatype Lock = Lock(current: Option<Zone>, depth: nat, queue: seq<Waiter>, inside: map<JobId, Zone>)

  const UNLOCKED := Lock(None, 0, [], map[])

  datatype LockEvent = Call(job: JobId, zone: Zone) | Leave(leaver: JobId)

  // ------------------------------------------------------------- the steps

  function Enter(l: Lock, w: Waiter): Lock {
    l.(depth := l.depth + 1,
       current := if l.depth + 1 == 1 then Some(w.zone) else l.current,
       inside := l.inside[w.job := w.zone])
  }

  /** The head of `withZone`: enter, or wait behind a different zone. */
  function CallZone(l: Lock, w: Waiter): Lock {
    if l.current.Some? && l.current.value != w.zone then l.(queue := l.queue + [w])
    else Enter(l, w)
  }

  /** How many waiters from the front share the head's zone. */
  function LeadingRun(q: seq<Waiter>): (m: nat)
    ensures m <= |q|
    ensures q != [] ==> 0 < m
    ensures forall k :: 0 <= k < m ==> q[k].zone == q[0].zone
    ensures m < |q| ==> q[m].zone != q[0].zone
  {
    if |q| <= 1 then |q|
    else if q[1].zone != q[0].zone then 1
    else 1 + LeadingRun(q[1..])
  }

  /** The callbacks run one after another; each goes through `withZone` again. */
  function CallAll(l: Lock, ws: seq<Waiter>): Lock
    decreases |ws|
  {
    if ws == [] then l else CallAll(CallZone(l, ws[0]), ws[1..])
  }

  function LeaveZone(l: Lock, job: JobId): Lock
    requires 0 < l.depth
  {
    var out := l.(depth := l.depth - 1, inside := l.inside - {job});
    if out.depth != 0 then out
    else
      var m := LeadingRun(out.queue);
      CallAll(out.(current := None, queue := out.queue[m..]), out.queue[..m])
  }

  predicate Fresh(l: Lock, job: JobId) {
    job !in l.inside && forall k :: 0 <= k < |l.queue| ==> l.queue[k].job != job
  }

  predicate CanStep(l: Lock, e: LockEvent) {
    match e
    case Call(job, _) => Fresh(l, job)
    case Leave(job) => job in l.inside && 0 < l.depth
  }

  function Step(l: Lock, e: LockEvent): Lock
    requires CanStep(l, e)
  {
    match e
    case Call(job, zone) => CallZone(l, Waiter(zone, job))
    case Leave(job) => LeaveZone(l, job)
  }

  /** A release: the last call inside leaves and the zone changes hands. */
  predicate IsRelease(l: Lock, e: LockEvent) { e.Leave? && l.depth == 1 }

  predicate IsRun(l: Lock, es: seq<LockEvent>)
    decreases |es|
  {
    es == [] || (CanStep(l, es[0]) && IsRun(Step(l, es[0]), es[1..]))
  }

  function Run(l: Lock, es: seq<LockEvent>): Lock
    requires IsRun(l, es)
    decreases |es|
  {
    if es == [] then l else Run(Step(l, es[0]), es[1..])
  }

  function Releases(l: Lock, es: seq<LockEvent>): nat
    requires IsRun(l, es)
    decreases |es|
  {
    if es == [] then 0
    else (if IsRelease(l, es[0]) then 1 else 0) + Releases(Step(l, es[0]), es[1..])
  }

  // --------------------------------------------------------- the invariant

  ghost predicate DistinctJobs(q: seq<Waiter>) {
    forall i, j :: 0 <= i < j < |q| ==> q[i].job != q[j].job
  }

  /** Mutual exclusion and hand-over, in one predicate. */
  ghost predicate Inv(l: Lock) {
    && l.depth == |l.inside|
    && (l.current.None? <==> l.depth == 0)
    && (l.current.None? ==> l.queue == [])
    && (forall j :: j in l.inside ==> l.current == Some(l.inside[j]))
    && (l.queue != [] ==> l.current != Some(l.queue[0].zone))
    && DistinctJobs(l.queue)
    && (forall k :: 0 <= k < |l.queue| ==> l.queue[k].job !in l.inside)
  }

  function Jobs(ws: seq<Waiter>): set<JobId> {
    if ws == [] then {} else {ws[0].job} + Jobs(ws[1..])
  }

  lemma {:induction false} JobsHasAll(ws: seq<Waiter>, k: nat)
    requires k < |ws|
    ensures ws[k].job in Jobs(ws)
  {
    if k > 0 { JobsHasAll(ws[1..], k - 1); }
  }

  lemma {:induction false} JobsHasOnly(ws: seq<Waiter>, j: JobId)
    requires j in Jobs(ws)
    ensures exists k :: 0 <= k < |ws| && ws[k].job == j
  {
    if j != ws[0].job {
      JobsHasOnly(ws[1..], j);
      var k :| 0 <= k < |ws[1..]| && ws[1..][k].job == j;
      assert ws[k + 1].job == j;
    }
  }

  /** What holds while the drained callbacks are being run: everyone inside is
      in zone `z`, and so is every waiter `ws` still to be called. */
  ghost predicate Draining(l: Lock, ws: seq<Waiter>, z: Zone) {
    && l.depth == |l.inside|
    && (l.current == if l.depth == 0 then None else Some(z))
    && (forall j :: j in l.inside ==> l.inside[j] == z)
    && DistinctJobs(ws)
    && (forall k :: 0 <= k < |ws| ==> ws[k].zone == z && ws[k].job !in l.inside)
  }

  lemma {:induction false} CallAllEnters(l: Lock, ws: seq<Waiter>, z: Zone)
    requires Draining(l, ws, z)
    ensures var l' := CallAll(l, ws);
            && Draining(l', [], z) && l'.queue == l.queue && l'.depth == l.depth + |ws|
            && l'.inside.Keys == l.inside.Keys + Jobs(ws)
    decreases |ws|
  {
    if ws != [] {
      var next := CallZone(l, ws[0]);
      assert next.inside.Keys == l.inside.Keys + {ws[0].job};
      assert |next.inside.Keys| == |l.inside.Keys| + 1;
      assert Draining(next, ws[1..], z);
      CallAllEnters(next, ws[1..], z);
    }
  }

  /** Those still queued are none of those just let in. */
  lemma RestStaysOut(q: seq<Waiter>, m: nat, k: nat)
    requires DistinctJobs(q) && m <= |q| && k < |q| - m
    ensures q[m..][k].job !in Jobs(q[..m])
  {
    assert q[m..][k] == q[m + k];
    if q[m + k].job in Jobs(q[..m]) { JobsHasOnly(q[..m], q[m + k].job); }
  }

  /** Releasing hands the zone to the whole leading run of the queue at once. */
  lemma ReleaseHandsOver(l: Lock, job: JobId)
    requires Inv(l) && job in l.inside && l.depth == 1
    ensures var m := LeadingRun(l.queue); var l' := LeaveZone(l, job);
            && l'.queue == l.queue[m..]
            && l'.inside.Keys == Jobs(l.queue[..m])
            && l'.current == (if l.queue == [] then None else Some(l.queue[0].zone))
            && Inv(l')
  {
    var m := LeadingRun(l.queue);
    var ws := l.queue[..m];
    var out := Lock(None, 0, l.queue[m..], l.inside - {job});
    assert |l.inside.Keys - {job}| == 0;
    assert out.inside == map[];
    if l.queue != [] {
      var z := l.queue[0].zone;
      assert Draining(out, ws, z);
      CallAllEnters(out, ws, z);
      forall k | 0 <= k < |l.queue[m..]| ensures l.queue[m..][k].job !in Jobs(ws) { RestStaysOut(l.queue, m, k); }
    }
  }

  lemma CallKeepsInv(l: Lock, w: Waiter)
    requires Inv(l) && Fresh(l, w.job)
    ensures Inv(CallZone(l, w))
  {
    if !(l.current.Some? && l.current.value != w.zone) {
      assert l.inside[w.job := w.zone].Keys == l.inside.Keys + {w.job};
    }
  }

  lemma LeaveKeepsInv(l: Lock, job: JobId)
    requires Inv(l) && job in l.inside
    ensures Inv(LeaveZone(l, job))
  {
    assert |l.inside.Keys - {job}| == |l.inside| - 1;
    assert (l.inside - {job}).Keys == l.inside.Keys - {job};
    if l.depth == 1 { ReleaseHandsOver(l, job); }
  }

  lemma StepKeepsInv(l: Lock, e: LockEvent)
    requires Inv(l) && CanStep(l, e)
    ensures Inv(Step(l, e))
  {
    match e {
      case Call(job, zone) => CallKeepsInv(l, Waiter(zone, job));
      case Leave(job) => LeaveKeepsInv(l, job);
    }
  }

  lemma {:induction false} RunKeepsLock(l: Lock, es: seq<LockEvent>)
    requires Inv(l) && IsRun(l, es)
    ensures Inv(Run(l, es))
    decreases |es|
  {
    if es != [] {
      StepKeepsInv(l, es[0]);
      RunKeepsLock(Step(l, es[0]), es[1..]);
    }
  }

  /** In every interleaving of calls: two zones are never inside together, the
      depth counts the calls inside, an unlocked store has nobody waiting, and
      whoever is first in the queue waits for another zone. */
  lemma MutualExclusion(es: seq<LockEvent>)
    requires IsRun(UNLOCKED, es)
    ensures var l := Run(UNLOCKED, es);
            && (forall i, j :: i in l.inside && j in l.inside ==> l.inside[i] == l.inside[j])
            && (forall i :: i in l.inside ==> l.current == Some(l.inside[i]))
            && l.depth == |l.inside|
            && (l.current.None? <==> l.depth == 0)
            && (l.depth == 0 ==> l.queue == [])
            && (l.queue != [] ==> l.current.Some? && l.queue[0].zone != l.current.value)
  {
    RunKeepsLock(UNLOCKED, es);
  }

  /** A call enters at once if no zone is held, or its own is; otherwise it is
      queued last, and nothing else changes. A call that leaves while others are
      inside changes nothing for them. */
  lemma CallsAndLeaves(l: Lock, job: JobId, zone: Zone)
    requires Inv(l)
    ensures Fresh(l, job) ==>
              var l' := Step(l, Call(job, zone));
              if l.depth == 0 || l.current == Some(zone) then
                && l'.current == Some(zone) && l'.depth == l.depth + 1 && l'.queue == l.queue
                && l'.inside == l.inside[job := zone]
              else
                && l'.current == l.current && l'.depth == l.depth && l'.inside == l.inside
                && l'.queue == l.queue + [Waiter(zone, job)]
    ensures job in l.inside && l.depth > 1 ==>
              var l' := Step(l, Leave(job));
              && l'.current == l.current && l'.depth == l.depth - 1 && l'.queue == l.queue
              && l'.inside == l.inside - {job}
  {
  }

  // -------------------------------------------------------- bounded waiting

  /** How many maximal same-zone runs stand ahead of the run of waiter `i`. */
  function RunsAhead(q: seq<Waiter>, i: nat): nat
    requires i < |q|
  {
    if i == 0 then 0
    else RunsAhead(q, i - 1) + if q[i].zone != q[i - 1].zone then 1 else 0
  }

  lemma {:induction false} RunsAheadOfPrefix(q: seq<Waiter>, w: Waiter, i: nat)
    requires i < |q|
    ensures RunsAhead(q + [w], i) == RunsAhead(q, i)
  {
    if i > 0 { RunsAheadOfPrefix(q, w, i - 1); }
  }

  lemma {:induction false} RunsAheadAfterDrain(q: seq<Waiter>, i: nat)
    requires i < |q|
    ensures var m := LeadingRun(q);
            if i < m then RunsAhead(q, i) == 0
            else RunsAhead(q, i) == 1 + RunsAhead(q[m..], i - m)
  {
    var m := LeadingRun(q);
    if i > 0 {
      RunsAheadAfterDrain(q, i - 1);
      if i > m { assert q[m..][i - m] == q[i] && q[m..][i - m - 1] == q[i - 1]; }
    }
  }

  /** Bounded waiting. The waiter at index `i` with `r` runs ahead of its own
      stays queued, exactly `r - n` runs from the front, through the first
      `n <= r` releases, whatever else is called, queued or left meanwhile... */
  lemma {:induction false} StaysQueued(l: Lock, es: seq<LockEvent>, i: nat) returns (i': nat)
    requires Inv(l) && IsRun(l, es) && i < |l.queue|
    requires Releases(l, es) <= RunsAhead(l.queue, i)
    ensures var q := Run(l, es).queue;
            && i' < |q| && q[i'] == l.queue[i]
            && RunsAhead(q, i') == RunsAhead(l.queue, i) - Releases(l, es)
    decreases |es|
  {
    if es == [] { return i; }
    var l1 := Step(l, es[0]);
    StepKeepsInv(l, es[0]);
    if IsRelease(l, es[0]) {
      RunsAheadAfterDrain(l.queue, i);
      ReleaseHandsOver(l, es[0].leaver);
      i' := StaysQueued(l1, es[1..], i - LeadingRun(l.queue));
    } else {
      if es[0].Call? && l1.queue != l.queue {
        RunsAheadOfPrefix(l.queue, Waiter(es[0].zone, es[0].job), i);
      }
      i' := StaysQueued(l1, es[1..], i);
    }
  }

  lemma {:induction false} RunAppend(l: Lock, es: seq<LockEvent>, e: LockEvent)
    requires IsRun(l, es) && CanStep(Run(l, es), e)
    ensures IsRun(l, es + [e])
    ensures Run(l, es + [e]) == Step(Run(l, es), e)
    ensures Releases(l, es + [e]) == Releases(l, es) + if IsRelease(Run(l, es), e) then 1 else 0
    decreases |es|
  {
    if es == [] {
      assert es + [e] == [e];
    } else {
      assert (es + [e])[1..] == es[1..] + [e];
      RunAppend(Step(l, es[0]), es[1..], e);
    }
  }

  /** ... and the (r+1)-th release enters it. */
  lemma EntersAtItsTurn(l: Lock, es: seq<LockEvent>, e: LockEvent, i: nat)
    requires Inv(l) && IsRun(l, es) && i < |l.queue|
    requires Releases(l, es) == RunsAhead(l.queue, i)
    requires CanStep(Run(l, es), e) && IsRelease(Run(l, es), e)
    ensures IsRun(l, es + [e]) && Releases(l, es + [e]) == RunsAhead(l.queue, i) + 1
    ensures l.queue[i].job in Run(l, es + [e]).inside
  {
    var i' := StaysQueued(l, es, i);
    var l1 := Run(l, es);
    RunKeepsLock(l, es);
    RunAppend(l, es, e);
    RunsAheadAfterDrain(l1.queue, i');
    ReleaseHandsOver(l1, e.leaver);
    JobsHasAll(l1.queue[..LeadingRun(l1.queue)], i');
  }

  /** A call that never leaves keeps its zone locked: no queued job of another
      zone is entered in any continuation. */
  lemma {:induction false} NeverLeavingBlocks(l: Lock, es: seq<LockEvent>, stuck: JobId)
    requires Inv(l) && IsRun(l, es) && stuck in l.inside
    requires forall k :: 0 <= k < |es| ==> es[k] != Leave(stuck)
    ensures Run(l, es).current == l.current && Releases(l, es) == 0
    ensures l.queue <= Run(l, es).queue
    decreases |es|
  {
    if es != [] {
      var l1 := Step(l, es[0]);
      StepKeepsInv(l, es[0]);
      if es[0].Leave? {
        assert {es[0].leaver, stuck} <= l.inside.Keys;
        assert |{es[0].leaver, stuck}| == 2;
        SubsetSize({es[0].leaver, stuck}, l.inside.Keys);
      }
      NeverLeavingBlocks(l1, es[1..], stuck);
    }
  }

  lemma OnlyOneInside(l: Lock, i: JobId, j: JobId)
    requires Inv(l) && l.depth == 1 && i in l.inside && j in l.inside
    ensures i == j
  {
    if i != j {
      assert |{i, j}| == 2;
      SubsetSize({i, j}, l.inside.Keys);
    }
  }

  lemma {:induction false} SubsetSize<T>(a: set<T>, b: set<T>)
    requires a <= b
    ensures |a| <= |b|
  {
    if a != {} {
      var x :| x in a;
      SubsetSize(a - {x}, b - {x});
    }
  }
}
