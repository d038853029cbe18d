/** The captcha side of `ChallengeHandler`: any number of overlapping `#solve`
    calls, each asking the user, then maybe sending one response. A call is
    known by the sequence number of its request. */
module ChallengeSolves {
  import opened Options

  datatype Stage = Asking | Resumed(captcha: string) | Sending(sent: string)

  /** `calls` are the `#solve` calls in progress; `handlers` the open requests. */
  datatype Solver = Solver(solving: int, token: Option<string>, nextSeq: nat, handlers: set<nat>,
                           calls: map<nat, Stage>)

  const IDLE := Solver(0, None, 0, {}, map[])

  datatype Event =
    | Solve(token: string)                 // `#solve` up to its first await
    | RequestOnly                          // `requestCaptcha` from elsewhere
    | Respond(request: nat, captcha: string)   // `onResponse`
    | Resume(request: nat)                     // the call goes on after its captcha
    | SendSettles(request: nat)                // the server answered or failed

  datatype Observed = Started(token: string) | Sent(token: string)

  predicate CanStep(s: Solver, e: Event) {
    match e
    case Resume(n) => n in s.calls && s.calls[n].Resumed?
    case SendSettles(n) => n in s.calls && s.calls[n].Sending?
    case _ => true
  }

  function Step(s: Solver, e: Event): Solver
    requires CanStep(s, e)
  {
    match e
    case Solve(t) =>
      Solver(s.solving + 1, Some(t), s.nextSeq + 1, s.handlers + {s.nextSeq}, s.calls[s.nextSeq := Asking])
    case RequestOnly => s.(nextSeq := s.nextSeq + 1, handlers := s.handlers + {s.nextSeq})
    case Respond(n, captcha) =>
      if n !in s.handlers then s
      else if n !in s.calls then s.(handlers := s.handlers - {n})
      else s.(handlers := s.handlers - {n}, calls := s.calls[n := Resumed(captcha)])
    case Resume(n) =>
      if s.token.None? then s.(solving := s.solving - 1, calls := s.calls - {n})
      else s.(token := None, calls := s.calls[n := Sending(s.token.value)])
    case SendSettles(n) => s.(solving := s.solving - 1, calls := s.calls - {n})
  }

  /** What the outside sees of a step. */
  function Emits(s: Solver, e: Event): seq<Observed> {
    match e
    case Solve(t) => [Started(t)]
    case Resume(n) => if s.token.Some? then [Sent(s.token.value)] else []
    case _ => []
  }

  function Resolves(s: Solver, e: Event): seq<nat> {
    if e.Respond? && e.request in s.handlers then [e.request] else []
  }

  predicate IsRun(s: Solver, es: seq<Event>)
    decreases |es|
  {
    es == [] || (CanStep(s, es[0]) && IsRun(Step(s, es[0]), es[1..]))
  }

  function Run(s: Solver, es: seq<Event>): Solver
    requires IsRun(s, es)
    decreases |es|
  {
    if es == [] then s else Run(Step(s, es[0]), es[1..])
  }

  function Seen(s: Solver, es: seq<Event>): seq<Observed>
    requires IsRun(s, es)
    decreases |es|
  {
    if es == [] then [] else Emits(s, es[0]) + Seen(Step(s, es[0]), es[1..])
  }

  function Resolved(s: Solver, es: seq<Event>): seq<nat>
    requires IsRun(s, es)
    decreases |es|
  {
    if es == [] then [] else Resolves(s, es[0]) + Resolved(Step(s, es[0]), es[1..])
  }

  ghost predicate Inv(s: Solver) {
    && s.solving == |s.calls|
    && (forall n :: n in s.handlers ==> n < s.nextSeq)
    && (forall n :: n in s.calls ==> n < s.nextSeq)
    && (forall n :: n in s.calls ==> (s.calls[n].Asking? <==> n in s.handlers))
  }

  lemma CallEnds(s: Solver, n: nat)
    requires Inv(s) && n in s.calls && !s.calls[n].Asking?
    ensures Inv(s.(solving := s.solving - 1, calls := s.calls - {n}))
  {
    assert n in s.calls.Keys && (s.calls - {n}).Keys == s.calls.Keys - {n};
  }

  lemma CallMoves(s: Solver, n: nat, stage: Stage, handlers: set<nat>)
    requires Inv(s) && n in s.calls && !stage.Asking? && handlers == s.handlers - {n}
    ensures Inv(s.(calls := s.calls[n := stage], handlers := handlers))
  {
    assert s.calls[n := stage].Keys == s.calls.Keys;
  }

  lemma CallStarts(s: Solver, token: string)
    requires Inv(s)
    ensures Inv(Step(s, Solve(token)))
  {
    assert s.nextSeq !in s.calls;
    assert s.calls[s.nextSeq := Asking].Keys == s.calls.Keys + {s.nextSeq};
  }

  lemma StepKeepsInv(s: Solver, e: Event)
    requires Inv(s) && CanStep(s, e)
    ensures Inv(Step(s, e))
  {
    match e {
      case Solve(t) => CallStarts(s, t);
      case RequestOnly =>
      case Respond(n, c) => if n in s.calls { CallMoves(s, n, Resumed(c), s.handlers - {n}); }
      case Resume(n) =>
        assert n !in s.handlers;
        if s.token.None? { CallEnds(s, n); }
        else {
          assert s.handlers - {n} == s.handlers;
          CallMoves(s.(token := None), n, Sending(s.token.value), s.handlers);
        }
      case SendSettles(n) => CallEnds(s, n);
    }
  }

  /** The counter is the number of calls in progress, in every interleaving. */
  lemma {:induction false} CountsCallsInProgress(s: Solver, es: seq<Event>)
    requires Inv(s) && IsRun(s, es)
    ensures Inv(Run(s, es)) && Run(s, es).solving == |Run(s, es).calls|
    decreases |es|
  {
    if es != [] {
      StepKeepsInv(s, es[0]);
      CountsCallsInProgress(Step(s, es[0]), es[1..]);
    }
  }

  /** The token in hand is the last thing seen, if that was a start. */
  function TokenAfter(last: Option<Observed>): Option<string> {
    if last.Some? && last.value.Started? then Some(last.value.token) else None
  }

  ghost predicate EachSendFollowsItsStart(os: seq<Observed>) {
    forall i :: 0 <= i < |os| && os[i].Sent? ==> i > 0 && os[i - 1] == Started(os[i].token)
  }

  function Last(os: seq<Observed>): Option<Observed> { if os == [] then None else Some(os[|os| - 1]) }

  lemma {:induction false} SendsFollow(s: Solver, es: seq<Event>, past: seq<Observed>)
    requires IsRun(s, es) && s.token == TokenAfter(Last(past)) && EachSendFollowsItsStart(past)
    ensures EachSendFollowsItsStart(past + Seen(s, es))
    decreases |es|
  {
    if es == [] {
      assert past + [] == past;
    } else {
      var now := past + Emits(s, es[0]);
      SendsFollow(Step(s, es[0]), es[1..], now);
      assert past + Seen(s, es) == now + Seen(Step(s, es[0]), es[1..]);
    }
  }

  /** Whatever the overlap, each response sent carries the token of the latest
      solve, and no other response was sent since that solve started. */
  lemma SentTokenIsTheLatest(es: seq<Event>)
    requires IsRun(IDLE, es)
    ensures EachSendFollowsItsStart(Seen(IDLE, es))
  {
    SendsFollow(IDLE, es, []);
    assert [] + Seen(IDLE, es) == Seen(IDLE, es);
  }

  lemma {:induction false} ResolvedWereOpen(s: Solver, es: seq<Event>, n: nat)
    requires Inv(s) && IsRun(s, es) && n in Resolved(s, es)
    ensures n in s.handlers || n >= s.nextSeq
    decreases |es|
  {
    if es != [] && n !in Resolves(s, es[0]) {
      StepKeepsInv(s, es[0]);
      ResolvedWereOpen(Step(s, es[0]), es[1..], n);
    }
  }

  /** Each request is resolved at most once, however many responses arrive. */
  lemma {:induction false} ResolvedAtMostOnce(s: Solver, es: seq<Event>)
    requires Inv(s) && IsRun(s, es)
    ensures forall i, j :: 0 <= i < j < |Resolved(s, es)| ==> Resolved(s, es)[i] != Resolved(s, es)[j]
    decreases |es|
  {
    if es != [] {
      var s' := Step(s, es[0]);
      StepKeepsInv(s, es[0]);
      ResolvedAtMostOnce(s', es[1..]);
      var rest := Resolved(s', es[1..]);
      if es[0].Respond? && es[0].request in s.handlers {
        if es[0].request in rest { ResolvedWereOpen(s', es[1..], es[0].request); }
        assert Resolved(s, es) == [es[0].request] + rest;
      } else {
        assert Resolved(s, es) == [] + rest == rest;
      }
    }
  }
}
