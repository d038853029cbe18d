/** The retry side of `ChallengeHandler`: which conversations wait for a
    challenge, when their queues are started, and what a spell offline does.
    Persisting is taken as atomic with the change that it records. */
module ChallengeQueue {
  import opened Options

  type ConvId = string

  /** `retryAt` is undefined, or 0, while the user has yet to solve a captcha. */
  datatype Challenge = Challenge(retryAt: Option<nat>)

  datatype Waiting = Waiting(registered: map<ConvId, Challenge>, timers: map<ConvId, nat>, pendingStarts: set<ConvId>,
                             online: bool, rateLimitRetryAt: Option<nat>, started: seq<ConvId>)

  const NOBODY := Waiting(map[], map[], {}, false, None, [])

  datatype Event =
    | Register(c: ConvId, challenge: Challenge, now: nat)
    | Unregister(c: ConvId)
    | TimerFires(c: ConvId, now: nat)
    | ForceWaitOnAll(retryAt: nat)
    | GoOffline
    | GoOnline(now: nat)
    | Solved

  predicate Truthy(t: Option<nat>) { t.Some? && t.value != 0 }

  predicate ShouldStart(ch: Challenge, now: nat) { Truthy(ch.retryAt) && ch.retryAt.value <= now }

  function Unregistered(w: Waiting, c: ConvId): Waiting {
    w.(registered := w.registered - {c}, pendingStarts := w.pendingStarts - {c}, timers := w.timers - {c})
  }

  /** `#startQueue`. */
  function StartQueue(w: Waiting, c: ConvId): Waiting {
    if !w.online then w.(pendingStarts := w.pendingStarts + {c})
    else Unregistered(w, c).(started := w.started + [c])
  }

  /** `#startAllQueues` over the conversations it has collected. */
  function StartQueues(w: Waiting, cs: seq<ConvId>): Waiting
    decreases |cs|
  {
    if cs == [] then w else StartQueues(StartQueue(w, cs[0]), cs[1..])
  }

  /** Some order of the registered conversations that are to be started. */
  ghost predicate Collects(w: Waiting, cs: seq<ConvId>, force: bool, now: nat) {
    && (forall i, j :: 0 <= i < j < |cs| ==> cs[i] != cs[j])
    && (forall c :: c in cs <==> c in w.registered && (force || ShouldStart(w.registered[c], now)))
  }

  function Registered(w: Waiting, c: ConvId, ch: Challenge, now: nat): Waiting {
    if c in w.registered then w
    else
      var w' := w.(registered := w.registered[c := ch]);
      if ShouldStart(ch, now) then StartQueue(w', c)
      else if Truthy(w.rateLimitRetryAt) then w'.(timers := w'.timers[c := w.rateLimitRetryAt.value])
      else if Truthy(ch.retryAt) then w'.(timers := w'.timers[c := ch.retryAt.value])
      else w'
  }

  function ForcedToWait(w: Waiting, retryAt: nat): Waiting {
    w.(rateLimitRetryAt := Some(retryAt),
       registered := map c | c in w.registered :: w.registered[c].(retryAt := Some(retryAt)),
       timers := map c | c in w.timers.Keys + w.registered.Keys :: if c in w.registered then retryAt else w.timers[c])
  }

  ghost predicate Next(w: Waiting, e: Event, w': Waiting) {
    match e
    case Register(c, ch, now) => w' == Registered(w, c, ch, now)
    case Unregister(c) => w' == Unregistered(w, c)
    case TimerFires(c, now) =>
      && c in w.timers && w.timers[c] <= now
      && w' == StartQueue(w.(timers := w.timers - {c}, rateLimitRetryAt := None), c)
    case ForceWaitOnAll(retryAt) => w' == ForcedToWait(w, retryAt)
    case GoOffline => w' == w.(online := false)
    case GoOnline(now) =>
      var w1 := w.(online := true, pendingStarts := {});
      exists cs :: Collects(w1, cs, false, now) && w' == StartQueues(w1, cs)
    case Solved => exists cs :: Collects(w, cs, true, 0) && w' == StartQueues(w, cs)
  }

  /** A run: the states passed through, one more than the events. */
  ghost predicate IsRun(ws: seq<Waiting>, es: seq<Event>) {
    && |ws| == |es| + 1
    && forall i :: 0 <= i < |es| ==> Next(ws[i], es[i], ws[i + 1])
  }

  // ----------------------------------------------------------------- the invariant

  /** Timers and held-back starts belong to registered conversations. */
  predicate Inv(w: Waiting) {
    w.timers.Keys <= w.registered.Keys && w.pendingStarts <= w.registered.Keys
  }

  lemma {:induction false} StartQueuesEffect(w: Waiting, cs: seq<ConvId>)
    requires Inv(w) && (forall c :: c in cs ==> c in w.registered)
    requires forall i, j :: 0 <= i < j < |cs| ==> cs[i] != cs[j]
    ensures var w' := StartQueues(w, cs);
            && Inv(w') && w'.online == w.online
            && (w.online ==> w'.started == w.started + cs && w'.registered == w.registered - (set c | c in cs)
                             && w'.timers == w.timers - (set c | c in cs)
                                && w'.pendingStarts == w.pendingStarts - (set c | c in cs))
            && (!w.online ==> w'.started == w.started && w'.registered == w.registered)
    decreases |cs|
  {
    if cs != [] {
      var w1 := StartQueue(w, cs[0]);
      assert forall i :: 0 <= i < |cs[1..]| ==> cs[1..][i] == cs[i + 1];
      StartQueuesEffect(w1, cs[1..]);
      assert (set c | c in cs) == {cs[0]} + (set c | c in cs[1..]);
      assert w.started + cs == (w.started + [cs[0]]) + cs[1..];
    }
  }

  lemma StepKeepsInv(w: Waiting, e: Event, w': Waiting)
    requires Inv(w) && Next(w, e, w')
    ensures Inv(w')
    ensures w'.started != w.started ==> w'.online
    ensures w.started <= w'.started
  {
    match e {
      case GoOnline(now) =>
        var w1 := w.(online := true, pendingStarts := {});
        var cs :| Collects(w1, cs, false, now) && w' == StartQueues(w1, cs);
        StartQueuesEffect(w1, cs);
      case Solved =>
        var cs :| Collects(w, cs, true, 0) && w' == StartQueues(w, cs);
        StartQueuesEffect(w, cs);
      case _ =>
    }
  }

  /** In every run, timers and pending starts refer only to registered
      conversations, and no queue is started by a step that ends offline. */
  lemma {:induction false} EveryRunIsSafe(ws: seq<Waiting>, es: seq<Event>, k: nat)
    requires IsRun(ws, es) && Inv(ws[0]) && k <= |es|
    ensures Inv(ws[k])
    ensures k > 0 && ws[k].started != ws[k - 1].started ==> ws[k].online
  {
    if k > 0 {
      EveryRunIsSafe(ws, es, k - 1);
      StepKeepsInv(ws[k - 1], es[k - 1], ws[k]);
    }
  }

  // ---------------------------------------------------------------- conservation

  function Count(cs: seq<ConvId>, c: ConvId): nat {
    if cs == [] then 0 else (if cs[|cs| - 1] == c then 1 else 0) + Count(cs[..|cs| - 1], c)
  }

  lemma {:induction false} CountAppend(a: seq<ConvId>, b: seq<ConvId>, c: ConvId)
    ensures Count(a + b, c) == Count(a, c) + Count(b, c)
    decreases |b|
  {
    if b == [] {
      assert a + b == a;
    } else {
      assert (a + b)[..|a + b| - 1] == a + b[..|b| - 1];
      CountAppend(a, b[..|b| - 1], c);
    }
  }

  lemma {:induction false} CountOnce(cs: seq<ConvId>, c: ConvId)
    requires forall i, j :: 0 <= i < j < |cs| ==> cs[i] != cs[j]
    ensures Count(cs, c) == if c in cs then 1 else 0
  {
    if cs != [] {
      var rest := cs[..|cs| - 1];
      CountOnce(rest, c);
      assert c in cs <==> c in rest || c == cs[|cs| - 1];
    }
  }

  function One(b: bool): nat { if b then 1 else 0 }

  /** Registrations of `c` that took effect, and withdrawals by others. */
  ghost function Registrations(ws: seq<Waiting>, es: seq<Event>, c: ConvId, k: nat): nat
    requires |ws| == |es| + 1 && k <= |es|
  {
    if k == 0 then 0
    else Registrations(ws, es, c, k - 1) + One(es[k - 1].Register? && es[k - 1].c == c && c !in ws[k - 1].registered)
  }

  ghost function Withdrawals(ws: seq<Waiting>, es: seq<Event>, c: ConvId, k: nat): nat
    requires |ws| == |es| + 1 && k <= |es|
  {
    if k == 0 then 0
    else Withdrawals(ws, es, c, k - 1) + One(es[k - 1] == Unregister(c) && c in ws[k - 1].registered)
  }

  lemma StartQueueBalance(w: Waiting, d: ConvId, c: ConvId)
    requires d in w.registered
    ensures var w' := StartQueue(w, d);
            Count(w'.started, c) + One(c in w'.registered) == Count(w.started, c) + One(c in w.registered)
  {
    if w.online {
      CountAppend(w.started, [d], c);
      CountOnce([d], c);
    }
  }

  lemma StepBalance(w: Waiting, e: Event, w': Waiting, c: ConvId)
    requires Inv(w) && Next(w, e, w')
    ensures Count(w'.started, c) + One(c in w'.registered) + One(e == Unregister(c) && c in w.registered)
            == Count(w.started, c) + One(c in w.registered) + One(e.Register? && e.c == c && c !in w.registered)
  {
    match e {
      case Register(d, ch, now) =>
        if d !in w.registered && ShouldStart(ch, now) {
          StartQueueBalance(w.(registered := w.registered[d := ch]), d, c);
        }
      case TimerFires(d, _) => StartQueueBalance(w.(timers := w.timers - {d}, rateLimitRetryAt := None), d, c);
      case GoOnline(now) =>
        var w1 := w.(online := true, pendingStarts := {});
        var cs :| Collects(w1, cs, false, now) && w' == StartQueues(w1, cs);
        StartQueuesBalance(w1, cs, c);
      case Solved =>
        var cs :| Collects(w, cs, true, 0) && w' == StartQueues(w, cs);
        StartQueuesBalance(w, cs, c);
      case _ =>
    }
  }

  lemma StartQueuesBalance(w: Waiting, cs: seq<ConvId>, c: ConvId)
    requires Inv(w) && (forall d :: d in cs ==> d in w.registered)
    requires forall i, j :: 0 <= i < j < |cs| ==> cs[i] != cs[j]
    ensures var w' := StartQueues(w, cs);
            Count(w'.started, c) + One(c in w'.registered) == Count(w.started, c) + One(c in w.registered)
  {
    StartQueuesEffect(w, cs);
    CountAppend(w.started, cs, c);
    CountOnce(cs, c);
  }

  /** Every registration is accounted for: it was started once, it was
      withdrawn, or it is still registered. So none is started twice. */
  lemma {:induction false} RegistrationsAreConserved(ws: seq<Waiting>, es: seq<Event>, c: ConvId, k: nat)
    requires IsRun(ws, es) && ws[0] == NOBODY && k <= |es|
    ensures Registrations(ws, es, c, k)
            == Count(ws[k].started, c) + Withdrawals(ws, es, c, k) + One(c in ws[k].registered)
  {
    if k > 0 {
      RegistrationsAreConserved(ws, es, c, k - 1);
      EveryRunIsSafe(ws, es, k - 1);
      StepBalance(ws[k - 1], es[k - 1], ws[k], c);
    }
  }

  // ------------------------------------------------------------- back online

  /** After coming online at `now` no registered challenge has a `retryAt` that
      is set and past, and the queues started are exactly those that had one. */
  lemma OnlineStartsWhatMatured(w: Waiting, now: nat, w': Waiting)
    requires Inv(w) && Next(w, GoOnline(now), w')
    ensures w.started <= w'.started && w'.online
    ensures forall c, t :: c in w'.registered && w'.registered[c].retryAt == Some(t) ==> t == 0 || now < t
    ensures forall c :: c in w'.started[|w.started|..] <==>
              c in w.registered && w.registered[c].retryAt.Some? && 0 < w.registered[c].retryAt.value <= now
    ensures forall c :: c in w.registered ==>
              (c !in w'.registered <==> w.registered[c].retryAt.Some? && 0 < w.registered[c].retryAt.value <= now)
  {
    var w1 := w.(online := true, pendingStarts := {});
    var cs :| Collects(w1, cs, false, now) && w' == StartQueues(w1, cs);
    StartQueuesEffect(w1, cs);
    assert w'.started[|w.started|..] == cs;
  }

  /** A start held back while offline is made on coming online if and only if
      the challenge's own `retryAt` is set and past; the set of pending starts
      is only counted. Otherwise the conversation is left registered with no
      timer and no pending start: nothing will start it by itself. */
  lemma PendingStartIsMadeIffMatured(w: Waiting, now: nat, w': Waiting, c: ConvId)
    requires Inv(w) && Next(w, GoOnline(now), w') && c in w.pendingStarts && c !in w.timers
    ensures var at := w.registered[c].retryAt;
            var matured := at.Some? && 0 < at.value <= now;
            && w.started <= w'.started && (c in w'.started[|w.started|..] <==> matured)
            && (!matured ==> c in w'.registered && c !in w'.timers && c !in w'.pendingStarts)
  {
    OnlineStartsWhatMatured(w, now, w');
    var w1 := w.(online := true, pendingStarts := {});
    var cs :| Collects(w1, cs, false, now) && w' == StartQueues(w1, cs);
    StartQueuesEffect(w1, cs);
  }

  /** A registration at `now` starts the queue if and only if it is new, we are
      online and its `retryAt` is set and past; past and offline, the start is
      held back; otherwise a timer is set for the rate limit if there is one,
      else for its own `retryAt`, and for nothing if that is not set. */
  lemma RegisterStartsExactlyWhen(w: Waiting, c: ConvId, at: Option<nat>, now: nat, w': Waiting)
    requires c !in w.registered && Inv(w) && Next(w, Register(c, Challenge(at), now), w')
    ensures var matured := at.Some? && 0 < at.value <= now;
            && (w'.started == if matured && w.online then w.started + [c] else w.started)
            && (c in w'.registered <==> !(matured && w.online))
            && (c in w'.pendingStarts <==> matured && !w.online)
            && (c in w'.timers <==> !matured && ((w.rateLimitRetryAt.Some? && w.rateLimitRetryAt.value != 0)
                                                 || (at.Some? && at.value != 0)))
            && (c in w'.timers ==> w'.timers[c] == if w.rateLimitRetryAt.Some? && w.rateLimitRetryAt.value != 0
                                                   then w.rateLimitRetryAt.value else at.value)
  {
  }

  /** A second registration changes nothing. */
  lemma RegisterOnce(w: Waiting, c: ConvId, ch: Challenge, now: nat, w': Waiting)
    requires c in w.registered && Next(w, Register(c, ch, now), w')
    ensures w' == w
  {
  }

  /** A solved captcha starts every registered queue when we are online, and
      holds every start back when we are not. */
  lemma SolvedStartsAll(w: Waiting, w': Waiting)
    requires Inv(w) && Next(w, Solved, w')
    ensures w.online ==>
              w.started <= w'.started && w'.registered == map[] && w'.timers == map[] && w'.pendingStarts == {}
    ensures w.online ==> forall c :: c in w'.started[|w.started|..] <==> c in w.registered
    ensures !w.online ==> w'.started == w.started && w'.registered == w.registered
                          && w'.pendingStarts == w.registered.Keys
  {
    var cs :| Collects(w, cs, true, 0) && w' == StartQueues(w, cs);
    StartQueuesEffect(w, cs);
    if w.online {
      assert w'.started[|w.started|..] == cs;
      assert w'.registered.Keys == {};
    } else {
      HeldBack(w, cs);
    }
  }

  lemma {:induction false} HeldBack(w: Waiting, cs: seq<ConvId>)
    requires !w.online
    ensures StartQueues(w, cs).pendingStarts == w.pendingStarts + (set c | c in cs)
    decreases |cs|
  {
    if cs != [] {
      HeldBack(StartQueue(w, cs[0]), cs[1..]);
      assert (set c | c in cs) == {cs[0]} + (set c | c in cs[1..]);
    }
  }

  /** Being forced to wait gives every registered challenge the time named, and a
      timer for it, and starts nothing. */
  lemma ForcedWaitHolds(w: Waiting, at: nat, w': Waiting)
    requires Inv(w) && Next(w, ForceWaitOnAll(at), w')
    ensures w'.started == w.started && w'.registered.Keys == w.registered.Keys == w'.timers.Keys
    ensures forall c :: c in w'.registered ==> w'.registered[c].retryAt == Some(at) && w'.timers[c] == at
    ensures w'.rateLimitRetryAt == Some(at)
  {
  }

  /** Over every run: no queue is started by a registration or by coming online
      before its `retryAt`, nor by a timer before the time it was set for. */
  lemma NothingStartsEarly(ws: seq<Waiting>, es: seq<Event>, k: nat, c: ConvId)
    requires IsRun(ws, es) && Inv(ws[0]) && k < |es| && !es[k].Solved?
    requires Count(ws[k + 1].started, c) > Count(ws[k].started, c)
    ensures match es[k]
            case Register(d, ch, now) => d == c && ch.retryAt.Some? && 0 < ch.retryAt.value <= now
            case GoOnline(now) =>
              c in ws[k].registered && ws[k].registered[c].retryAt.Some?
              && 0 < ws[k].registered[c].retryAt.value <= now
            case TimerFires(d, now) => d == c && c in ws[k].timers && ws[k].timers[c] <= now
            case _ => false
  {
    EveryRunIsSafe(ws, es, k);
    var w, w' := ws[k], ws[k + 1];
    match es[k] {
      case Register(d, ch, now) => RegisterStartedIt(w, d, ch, now, w', c);
      case TimerFires(d, now) => TimerStartedIt(w, d, now, w', c);
      case GoOnline(now) => OnlineStartedIt(w, now, w', c);
      case _ =>
    }
  }

  lemma RegisterStartedIt(w: Waiting, d: ConvId, ch: Challenge, now: nat, w': Waiting, c: ConvId)
    requires Next(w, Register(d, ch, now), w') && Count(w'.started, c) > Count(w.started, c)
    ensures d == c && ch.retryAt.Some? && 0 < ch.retryAt.value <= now
  {
    OneStarted(w.started, d, c);
  }

  lemma TimerStartedIt(w: Waiting, d: ConvId, now: nat, w': Waiting, c: ConvId)
    requires Next(w, TimerFires(d, now), w') && Count(w'.started, c) > Count(w.started, c)
    ensures d == c && c in w.timers && w.timers[c] <= now
  {
    OneStarted(w.started, d, c);
  }

  lemma OneStarted(started: seq<ConvId>, d: ConvId, c: ConvId)
    ensures Count(started + [d], c) == Count(started, c) + One(d == c)
  {
    CountAppend(started, [d], c);
    CountOnce([d], c);
  }

  lemma OnlineStartedIt(w: Waiting, now: nat, w': Waiting, c: ConvId)
    requires Inv(w) && Next(w, GoOnline(now), w') && Count(w'.started, c) > Count(w.started, c)
    ensures c in w.registered && w.registered[c].retryAt.Some? && 0 < w.registered[c].retryAt.value <= now
  {
    OnlineStartsWhatMatured(w, now, w');
    var added := w'.started[|w.started|..];
    assert w'.started == w.started + added;
    CountAppend(w.started, added, c);
    if c !in added { CountNone(added, c); }
  }

  lemma {:induction false} CountNone(cs: seq<ConvId>, c: ConvId)
    requires c !in cs
    ensures Count(cs, c) == 0
  {
    if cs != [] { CountNone(cs[..|cs| - 1], c); }
  }

  /** That state is reached by a challenge without `retryAt` registered under
      a rate limit, whose timer fires while offline. */
  lemma StrandedConversationIsReachable(c: ConvId, limit: nat, now: nat)
    requires 0 < limit <= now
    ensures exists ws: seq<Waiting> ::
              && IsRun(ws,
                       [ForceWaitOnAll(limit), Register(c, Challenge(None), now), TimerFires(c, now), GoOnline(now)])
              && ws[0] == NOBODY && c in ws[4].registered && ws[4].online
              && c !in ws[4].timers && c !in ws[4].pendingStarts && c !in ws[4].started
  {
    var w1 := ForcedToWait(NOBODY, limit);
    assert w1 == NOBODY.(rateLimitRetryAt := Some(limit));
    var w2 := Registered(w1, c, Challenge(None), now);
    var w3 := w2.(timers := map[], rateLimitRetryAt := None, pendingStarts := {c});
    assert w2.timers - {c} == map[];
    var w4 := w3.(online := true, pendingStarts := {});
    assert Collects(w4, [], false, now);
    assert w4 == StartQueues(w4, []);
    var ws := [NOBODY, w1, w2, w3, w4];
    assert IsRun(ws, [ForceWaitOnAll(limit), Register(c, Challenge(None), now), TimerFires(c, now), GoOnline(now)]);
  }
}
