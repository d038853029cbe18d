/** The shared send chain: any number of processes load one state file, send,
    and save it back, with no lock; and `chain_report`, which reads their logs
    and says whether the chain stayed coherent. */
module ChainReport {
  import opened Options

  type Proc = nat
  type Digest = nat

  datatype Entry =
    | Loaded(who: Proc, digest: Digest, fromBundle: bool)
    | Advanced(who: Proc, digest: Digest)
    | SaveFailed(who: Proc)

  // ----------------------------------------------------------------- the report

  /** What the loops of the report have gathered. */
  datatype Report = Report(bundleLoads: nat, saveFailures: nat, loads: map<Digest, nat>, repeats: set<Digest>,
                           saved: set<Digest>, gaps: seq<Digest>, firstLoad: bool)

  const EMPTY := Report(0, 0, map[], {}, {}, [], true)

  function Read(r: Report, e: Entry): Report {
    match e
    case SaveFailed(_) => r.(saveFailures := r.saveFailures + 1)
    case Advanced(_, d) => r.(saved := r.saved + {d})
    case Loaded(_, d, fromBundle) =>
      Report(if fromBundle then r.bundleLoads + 1 else r.bundleLoads, r.saveFailures,
             r.loads[d := 1 + if d in r.loads then r.loads[d] else 0],
             if d in r.loads then r.repeats + {d} else r.repeats,
             r.saved,
             if !fromBundle && !r.firstLoad && d !in r.saved then r.gaps + [d] else r.gaps,
             false)
  }

  function ReadAll(log: seq<Entry>): Report {
    if log == [] then EMPTY else Read(ReadAll(log[..|log| - 1]), log[|log| - 1])
  }

  predicate Coherent(r: Report) { r.saveFailures == 0 && r.bundleLoads <= 1 && r.repeats == {} && r.gaps == [] }

  // -------------------------------------------------------- what the report says

  /** In the first `n` entries: no save failed. */
  ghost predicate NoFailure(log: seq<Entry>, n: nat)
    requires n <= |log|
  {
    forall i :: 0 <= i < n ==> !log[i].SaveFailed?
  }

  /** No two loads fell back to the bundle. */
  ghost predicate OneFallback(log: seq<Entry>, n: nat)
    requires n <= |log|
  {
    forall i, j :: 0 <= i < j < n && log[i].Loaded? && log[j].Loaded? ==> !(log[i].fromBundle && log[j].fromBundle)
  }

  /** No two loads were of the same state. */
  ghost predicate NoRace(log: seq<Entry>, n: nat)
    requires n <= |log|
  {
    forall i, j :: 0 <= i < j < n && log[i].Loaded? && log[j].Loaded? ==> log[i].digest != log[j].digest
  }

  ghost predicate SavedBefore(log: seq<Entry>, i: nat, d: Digest)
    requires i <= |log|
  {
    exists k :: 0 <= k < i && log[k].Advanced? && log[k].digest == d
  }

  ghost predicate LoadedBefore(log: seq<Entry>, i: nat)
    requires i <= |log|
  {
    exists k :: 0 <= k < i && log[k].Loaded?
  }

  /** Every load of the file, but for the very first load, was of a state that
      an earlier entry saved. */
  ghost predicate NoGap(log: seq<Entry>, n: nat)
    requires n <= |log|
  {
    forall i :: 0 <= i < n && log[i].Loaded? && !log[i].fromBundle && LoadedBefore(log, i) ==>
      SavedBefore(log, i, log[i].digest)
  }

  /** What the loops have gathered from the first `n` entries. */
  ghost predicate Gathered(log: seq<Entry>, n: nat, r: Report)
    requires n <= |log|
  {
    && (r.saveFailures == 0 <==> NoFailure(log, n))
    && (r.bundleLoads == 0 <==> forall i :: 0 <= i < n && log[i].Loaded? ==> !log[i].fromBundle)
    && (r.bundleLoads <= 1 <==> OneFallback(log, n))
    && (forall d :: d in r.loads <==> exists i :: 0 <= i < n && log[i].Loaded? && log[i].digest == d)
    && (r.repeats == {} <==> NoRace(log, n))
    && (forall d :: d in r.saved <==> SavedBefore(log, n, d))
    && (r.firstLoad <==> !LoadedBefore(log, n))
    && (r.gaps == [] <==> NoGap(log, n))
  }

  lemma GatherFailures(log: seq<Entry>, n: nat, r: Report)
    requires n < |log| && Gathered(log, n, r)
    ensures var r' := Read(r, log[n]);
            && (r'.saveFailures == 0 <==> NoFailure(log, n + 1))
            && (r'.bundleLoads == 0 <==> forall i :: 0 <= i < n + 1 && log[i].Loaded? ==> !log[i].fromBundle)
            && (r'.bundleLoads <= 1 <==> OneFallback(log, n + 1))
  {
    var r' := Read(r, log[n]);
    assert NoFailure(log, n + 1) <==> NoFailure(log, n) && !log[n].SaveFailed?;
    if log[n].Loaded? && log[n].fromBundle && r.bundleLoads > 0 {
      var i :| 0 <= i < n && log[i].Loaded? && log[i].fromBundle;
    }
    if OneFallback(log, n + 1) { assert OneFallback(log, n); }
  }

  lemma GatherLoads(log: seq<Entry>, n: nat, r: Report)
    requires n < |log| && Gathered(log, n, r)
    ensures var r' := Read(r, log[n]);
            && (forall d :: d in r'.loads <==> exists i :: 0 <= i < n + 1 && log[i].Loaded? && log[i].digest == d)
            && (r'.repeats == {} <==> NoRace(log, n + 1))
  {
    var r' := Read(r, log[n]);
    forall d ensures d in r'.loads <==> exists i :: 0 <= i < n + 1 && log[i].Loaded? && log[i].digest == d {
      if log[n].Loaded? && log[n].digest == d { assert d in r'.loads; }
      else if exists i :: 0 <= i < n + 1 && log[i].Loaded? && log[i].digest == d {
        var i :| 0 <= i < n + 1 && log[i].Loaded? && log[i].digest == d;
        assert i < n;
      }
    }
    if NoRace(log, n + 1) { assert NoRace(log, n); }
    if log[n].Loaded? && log[n].digest in r.loads {
      var i :| 0 <= i < n && log[i].Loaded? && log[i].digest == log[n].digest;
      assert log[n].digest in r'.repeats;
    }
  }

  lemma GatherSaves(log: seq<Entry>, n: nat, r: Report)
    requires n < |log| && Gathered(log, n, r)
    ensures var r' := Read(r, log[n]);
            && (forall d :: d in r'.saved <==> SavedBefore(log, n + 1, d))
            && (r'.firstLoad <==> !LoadedBefore(log, n + 1))
            && (r'.gaps == [] <==> NoGap(log, n + 1))
  {
    var r' := Read(r, log[n]);
    forall d ensures d in r'.saved <==> SavedBefore(log, n + 1, d) {
      if SavedBefore(log, n, d) { assert d in r.saved; }
      if SavedBefore(log, n + 1, d) {
        var k :| 0 <= k < n + 1 && log[k].Advanced? && log[k].digest == d;
        if k < n { assert SavedBefore(log, n, d); }
      }
    }
    if LoadedBefore(log, n + 1) && !log[n].Loaded? { assert LoadedBefore(log, n); }
    if LoadedBefore(log, n) { assert LoadedBefore(log, n + 1); }
    if log[n].Loaded? { assert LoadedBefore(log, n + 1); }
    if NoGap(log, n + 1) { assert NoGap(log, n); }
  }

  lemma GatherOne(log: seq<Entry>, n: nat, r: Report, r': Report)
    requires n < |log| && Gathered(log, n, r) && r' == Read(r, log[n])
    ensures Gathered(log, n + 1, r')
  {
    GatherFailures(log, n, r);
    GatherLoads(log, n, r);
    GatherSaves(log, n, r);
  }

  lemma {:induction false} ReadGathers(log: seq<Entry>, n: nat)
    requires n <= |log|
    ensures Gathered(log, n, ReadAll(log[..n]))
    decreases n
  {
    if n > 0 {
      ReadGathers(log, n - 1);
      assert log[..n][..n - 1] == log[..n - 1] && log[..n][n - 1] == log[n - 1];
      GatherOne(log, n - 1, ReadAll(log[..n - 1]), ReadAll(log[..n]));
    }
  }

  /** The verdict, over the entries of any log: coherent exactly if no save
      failed, at most one load fell back to the bundle, no state was loaded
      twice, and every load of the file but the first was of a state saved
      before. */
  lemma CoherentExactlyWhen(log: seq<Entry>)
    ensures Coherent(ReadAll(log)) <==>
            NoFailure(log, |log|) && OneFallback(log, |log|) && NoRace(log, |log|) && NoGap(log, |log|)
  {
    ReadGathers(log, |log|);
    assert log[..|log|] == log;
  }

  // ------------------------------------------------------------------- the world

  /** The file, who has loaded and not yet saved, whether the file's content
      came from a writer that does not log, and the digests ever in use. */
  datatype World = World(file: Option<Digest>, bundle: Digest, open: set<Proc>, foreign: bool, used: set<Digest>)

  datatype Action =
    | Load(p: Proc)
    | Save(p: Proc, digest: Digest)
    | FailToSave(p: Proc)
    | WriteUnlogged(digest: Digest)

  predicate CanStep(w: World, a: Action) {
    match a
    case Load(_) => true
    case Save(p, d) => p in w.open && d !in w.used
    case FailToSave(p) => p in w.open
    case WriteUnlogged(d) => d !in w.used
  }

  function Step(w: World, a: Action): World {
    match a
    case Load(p) => w.(open := w.open + {p})
    case Save(p, d) => w.(file := Some(d), open := w.open - {p}, foreign := false, used := w.used + {d})
    case FailToSave(p) => w.(open := w.open - {p})
    case WriteUnlogged(d) => w.(file := Some(d), foreign := true, used := w.used + {d})
  }

  function Logged(w: World, a: Action): seq<Entry> {
    match a
    case Load(p) => [if w.file.Some? then Loaded(p, w.file.value, false) else Loaded(p, w.bundle, true)]
    case Save(p, d) => [Advanced(p, d)]
    case FailToSave(p) => [SaveFailed(p)]
    case WriteUnlogged(_) => []
  }

  predicate IsRun(w: World, acts: seq<Action>)
    decreases |acts|
  {
    acts == [] || (CanStep(w, acts[0]) && IsRun(Step(w, acts[0]), acts[1..]))
  }

  function Log(w: World, acts: seq<Action>): seq<Entry>
    decreases |acts|
  {
    if acts == [] then [] else Logged(w, acts[0]) + Log(Step(w, acts[0]), acts[1..])
  }

  /** Nothing goes wrong at this step: a load finds nobody's turn open and, but
      for the very first load, no state of an unlogged writer; no save fails. */
  predicate Orderly(w: World, a: Action, anyLoad: bool) {
    match a
    case Load(_) => w.open == {} && !(anyLoad && w.foreign)
    case FailToSave(_) => false
    case _ => true
  }

  predicate OrderlyRun(w: World, acts: seq<Action>, anyLoad: bool)
    decreases |acts|
  {
    acts == [] || (Orderly(w, acts[0], anyLoad) && OrderlyRun(Step(w, acts[0]), acts[1..], anyLoad || acts[0].Load?))
  }

  ghost predicate Initial(w: World) {
    && w.open == {} && !w.foreign && w.bundle in w.used
    && (w.file.Some? ==> w.file.value in w.used)
  }

  // --------------------------------------------------------- report against world

  function ReadMore(r: Report, log: seq<Entry>): Report
    decreases |log|
  {
    if log == [] then r else ReadMore(Read(r, log[0]), log[1..])
  }

  lemma {:induction false} ReadMoreAppend(r: Report, a: seq<Entry>, b: seq<Entry>)
    ensures ReadMore(r, a + b) == ReadMore(ReadMore(r, a), b)
    decreases |a|
  {
    if a == [] {
      assert a + b == b;
    } else {
      assert (a + b)[1..] == a[1..] + b;
      ReadMoreAppend(Read(r, a[0]), a[1..], b);
    }
  }

  /** Trouble once reported is never taken back. */
  lemma {:induction false} TroubleStays(r: Report, log: seq<Entry>)
    requires !Coherent(r)
    ensures !Coherent(ReadMore(r, log))
    decreases |log|
  {
    if log != [] { TroubleStays(Read(r, log[0]), log[1..]); }
  }

  /** While all has gone well, the file holds a state that nobody has loaded
      unless a turn is open, and one that a logged save produced unless an
      unlogged writer did. */
  ghost predicate InStep(w: World, r: Report) {
    && Coherent(r) && w.bundle in w.used
    && r.loads.Keys <= w.used && r.saved <= w.used
    && (w.file.Some? ==> w.file.value in w.used)
    && (r.firstLoad <==> r.loads == map[])
    && (r.firstLoad ==> w.open == {} && r.bundleLoads == 0)
    && (w.open == {} ==> match w.file
                         case None => r.firstLoad
                         case Some(d) => d !in r.loads)
    && (w.open != {} ==> match w.file
                         case None => w.bundle in r.loads
                         case Some(d) => d in r.loads || w.foreign)
    && (w.foreign ==> w.file.Some? && w.file.value !in r.saved)
    && (forall p, q :: p in w.open && q in w.open ==> p == q)
    && (!r.firstLoad && w.open == {} && !w.foreign ==> w.file.Some? && w.file.value in r.saved)
  }

  lemma StepInStep(w: World, r: Report, a: Action)
    requires InStep(w, r) && CanStep(w, a)
    ensures var r' := ReadMore(r, Logged(w, a));
            && (Orderly(w, a, !r.firstLoad) <==> Coherent(r'))
            && (Coherent(r') ==> InStep(Step(w, a), r'))
            && r'.firstLoad == (r.firstLoad && !a.Load?)
  {
    var log := Logged(w, a);
    if !a.WriteUnlogged? {
      assert log[1..] == [];
      assert ReadMore(r, log) == Read(r, log[0]);
    }
  }

  lemma {:induction false} ReportMatchesWorld(w: World, acts: seq<Action>, r: Report)
    requires InStep(w, r) && IsRun(w, acts)
    ensures Coherent(ReadMore(r, Log(w, acts))) <==> OrderlyRun(w, acts, !r.firstLoad)
    decreases |acts|
  {
    if acts != [] {
      var now, later := Logged(w, acts[0]), Log(Step(w, acts[0]), acts[1..]);
      ReadMoreAppend(r, now, later);
      StepInStep(w, r, acts[0]);
      var r' := ReadMore(r, now);
      if Coherent(r') {
        ReportMatchesWorld(Step(w, acts[0]), acts[1..], r');
      } else {
        TroubleStays(r', later);
      }
    }
  }

  lemma {:induction false} ReadAllIsReadMore(log: seq<Entry>)
    ensures ReadAll(log) == ReadMore(EMPTY, log)
  {
    if log != [] {
      var front, last := log[..|log| - 1], log[|log| - 1];
      ReadAllIsReadMore(front);
      assert front + [last] == log && [last][1..] == [];
      ReadMoreAppend(EMPTY, front, [last]);
    }
  }

  /** For any number of processes and any interleaving: the report finds no
      race, gap, failed save or repeated fallback if and only if no load fell
      inside an open turn, no save was lost, and no unlogged writer's state
      was loaded after the first load. */
  lemma ReportIsExact(w: World, acts: seq<Action>)
    requires Initial(w) && IsRun(w, acts)
    ensures Coherent(ReadAll(Log(w, acts))) <==> OrderlyRun(w, acts, false)
  {
    ReadAllIsReadMore(Log(w, acts));
    ReportMatchesWorld(w, acts, EMPTY);
  }

  // ------------------------------------------------------------------- four runs

  /** What a load of this world logs. */
  function LoadEntry(w: World, p: Proc): Entry {
    match w.file
    case Some(d) => Loaded(p, d, false)
    case None => Loaded(p, w.bundle, true)
  }

  lemma OneMore(w: World, a: Action, acts: seq<Action>, anyLoad: bool)
    ensures IsRun(w, [a] + acts) <==> CanStep(w, a) && IsRun(Step(w, a), acts)
    ensures Log(w, [a] + acts) == Logged(w, a) + Log(Step(w, a), acts)
    ensures OrderlyRun(w, [a] + acts, anyLoad) <==>
            Orderly(w, a, anyLoad) && OrderlyRun(Step(w, a), acts, anyLoad || a.Load?)
  {
    assert ([a] + acts)[1..] == acts;
  }

  /** Two turns in order: each process loads what the one before saved. */
  lemma TurnsInOrder(w: World, p: Proc, q: Proc, d: Digest)
    requires Initial(w) && d !in w.used
    ensures var acts := [Load(p)] + ([Save(p, d)] + ([Load(q)] + []));
            && IsRun(w, acts) && OrderlyRun(w, acts, false)
            && Log(w, acts) == [LoadEntry(w, p), Advanced(p, d), Loaded(q, d, false)]
  {
    var w1 := Step(w, Load(p));
    var w2 := Step(w1, Save(p, d));
    assert w2.open == {};
    OneMore(w2, Load(q), [], true);
    OneMore(w1, Save(p, d), [Load(q)] + [], true);
    OneMore(w, Load(p), [Save(p, d)] + ([Load(q)] + []), false);
  }

  /** A load inside another's turn gets the same state again. */
  lemma LoadsInOneTurn(w: World, p: Proc, q: Proc)
    requires Initial(w)
    ensures var acts := [Load(p)] + ([Load(q)] + []);
            IsRun(w, acts) && !OrderlyRun(w, acts, false) && Log(w, acts) == [LoadEntry(w, p), LoadEntry(w, q)]
  {
    var w1 := Step(w, Load(p));
    assert p in w1.open;
    OneMore(w1, Load(q), [], true);
    OneMore(w, Load(p), [Load(q)] + [], false);
  }

  /** A failed save ends the turn, and the next one starts from the same state. */
  lemma LoadAfterFailure(w: World, p: Proc, q: Proc)
    requires Initial(w)
    ensures var acts := [Load(p)] + ([FailToSave(p)] + ([Load(q)] + []));
            && IsRun(w, acts) && !OrderlyRun(w, acts, false)
            && Log(w, acts) == [LoadEntry(w, p), SaveFailed(p), LoadEntry(w, q)]
            && Step(Step(w, Load(p)), FailToSave(p)) == w
  {
    var w1 := Step(w, Load(p));
    assert w.open + {p} - {p} == {};
    OneMore(w, Load(q), [], true);
    OneMore(w1, FailToSave(p), [Load(q)] + [], true);
    OneMore(w, Load(p), [FailToSave(p)] + ([Load(q)] + []), false);
  }

  /** The state of a writer that does not log is loaded like any other. */
  lemma LoadOfUnlogged(w: World, p: Proc, q: Proc, d: Digest, d': Digest)
    requires Initial(w) && d !in w.used && d' !in w.used && d != d'
    ensures var acts := [Load(p)] + ([Save(p, d)] + ([WriteUnlogged(d')] + ([Load(q)] + [])));
            && IsRun(w, acts) && !OrderlyRun(w, acts, false)
            && Log(w, acts) == [LoadEntry(w, p), Advanced(p, d), Loaded(q, d', false)]
  {
    var w1 := Step(w, Load(p));
    var w2 := Step(w1, Save(p, d));
    var w3 := Step(w2, WriteUnlogged(d'));
    OneMore(w3, Load(q), [], true);
    OneMore(w2, WriteUnlogged(d'), [Load(q)] + [], true);
    OneMore(w1, Save(p, d), [WriteUnlogged(d')] + ([Load(q)] + []), true);
    OneMore(w, Load(p), [Save(p, d)] + ([WriteUnlogged(d')] + ([Load(q)] + [])), false);
  }

  // --------------------------------------------------------------------- the loops

  /** The two loops of `chain_report`, over the merged and sorted log. */
  method Analyse(log: seq<Entry>) returns (coherent: bool, gaps: seq<Digest>, repeats: set<Digest>)
    ensures coherent <==> Coherent(ReadAll(log))
    ensures gaps == ReadAll(log).gaps && repeats == ReadAll(log).repeats
  {
    var bundleLoads, saveFailures := 0, 0;
    var loads: map<Digest, nat> := map[];
    repeats := {};
    var i := 0;
    while i < |log|
      invariant 0 <= i <= |log|
      invariant var r := ReadAll(log[..i]);
                bundleLoads == r.bundleLoads && saveFailures == r.saveFailures && loads == r.loads
                  && repeats == r.repeats
    {
      assert log[..i + 1][..i] == log[..i];
      match log[i] {
        case SaveFailed(_) => saveFailures := saveFailures + 1;
        case Advanced(_, _) =>
        case Loaded(_, d, fromBundle) =>
          if fromBundle { bundleLoads := bundleLoads + 1; }
          if d in loads { repeats := repeats + {d}; }
          loads := loads[d := 1 + if d in loads then loads[d] else 0];
      }
      i := i + 1;
    }
    assert log[..i] == log;
    var saved: set<Digest> := {};
    gaps := [];
    var firstLoad := true;
    i := 0;
    while i < |log|
      invariant 0 <= i <= |log|
      invariant var r := ReadAll(log[..i]); saved == r.saved && gaps == r.gaps && firstLoad == r.firstLoad
    {
      assert log[..i + 1][..i] == log[..i];
      match log[i] {
        case SaveFailed(_) =>
        case Advanced(_, d) => saved := saved + {d};
        case Loaded(_, d, fromBundle) =>
          if !fromBundle && !firstLoad && d !in saved { gaps := gaps + [d]; }
          firstLoad := false;
      }
      i := i + 1;
    }
    assert log[..i] == log;
    coherent := !(saveFailures > 0 || bundleLoads > 1 || repeats != {} || |gaps| > 0);
  }
}
