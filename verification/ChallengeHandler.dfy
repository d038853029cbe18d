/** `ChallengeHandler` as an object: counters, token, maps and sets are fields
    that every method updates. The two abstract states are the ones that
    ChallengeSolves and ChallengeQueue reason about. */
module ChallengeHandlerClass {
  import opened Options
  import Solves = ChallengeSolves
  import Queue = ChallengeQueue

  /** The two maps while the conversations in `todo` are still to be rescheduled. */
  function RegisteredAfter(was: map<Queue.ConvId, Queue.Challenge>, todo: set<Queue.ConvId>,
                           retryAt: nat): map<Queue.ConvId, Queue.Challenge> {
    map c | c in was :: if c in todo then was[c] else was[c].(retryAt := Some(retryAt))
  }

  function TimersAfter(ids: set<Queue.ConvId>, timers: map<Queue.ConvId, nat>, todo: set<Queue.ConvId>,
                       retryAt: nat): map<Queue.ConvId, nat> {
    map c | c in timers.Keys + (ids - todo) :: if c in ids && c !in todo then retryAt else timers[c]
  }

  lemma OneMoreRegistered(was: map<Queue.ConvId, Queue.Challenge>, todo: set<Queue.ConvId>, retryAt: nat,
                          c: Queue.ConvId)
    requires c in todo && todo <= was.Keys
    ensures var r := RegisteredAfter(was, todo, retryAt);
            r[c := r[c].(retryAt := Some(retryAt))] == RegisteredAfter(was, todo - {c}, retryAt)
  {
  }

  lemma OneMoreTimer(ids: set<Queue.ConvId>, timers: map<Queue.ConvId, nat>, todo: set<Queue.ConvId>, retryAt: nat,
                     c: Queue.ConvId)
    requires c in todo && todo <= ids
    ensures TimersAfter(ids, timers, todo, retryAt)[c := retryAt] == TimersAfter(ids, timers, todo - {c}, retryAt)
  {
  }

  lemma NoneDoneYet(was: map<Queue.ConvId, Queue.Challenge>, timers: map<Queue.ConvId, nat>, retryAt: nat)
    ensures RegisteredAfter(was, was.Keys, retryAt) == was
    ensures TimersAfter(was.Keys, timers, was.Keys, retryAt) == timers
  {
    assert timers.Keys + (was.Keys - was.Keys) == timers.Keys;
  }

  lemma AllDone(w: Queue.Waiting, retryAt: nat)
    ensures RegisteredAfter(w.registered, {}, retryAt) == Queue.ForcedToWait(w, retryAt).registered
    ensures TimersAfter(w.registered.Keys, w.timers, {}, retryAt) == Queue.ForcedToWait(w, retryAt).timers
  {
  }

  /** The loop of `forceWaitOnAll`: every registered conversation, one after
      another, gets the new `retryAt` and a new timer. */
  method RescheduleAll(was: map<Queue.ConvId, Queue.Challenge>, timers: map<Queue.ConvId, nat>, retryAt: nat)
    returns (registered: map<Queue.ConvId, Queue.Challenge>, timers': map<Queue.ConvId, nat>)
    ensures registered == RegisteredAfter(was, {}, retryAt)
    ensures timers' == TimersAfter(was.Keys, timers, {}, retryAt)
  {
    registered, timers' := was, timers;
    var todo := was.Keys;
    NoneDoneYet(was, timers, retryAt);
    while todo != {}
      invariant todo <= was.Keys
      invariant registered == RegisteredAfter(was, todo, retryAt)
      invariant timers' == TimersAfter(was.Keys, timers, todo, retryAt)
      decreases |todo|
    {
      var c :| c in todo;
      OneMoreRegistered(was, todo, retryAt, c);
      OneMoreTimer(was.Keys, timers, todo, retryAt, c);
      registered := registered[c := registered[c].(retryAt := Some(retryAt))];
      timers' := timers'[c := retryAt];
      todo := todo - {c};
    }
  }

  /** A missing or empty token counts as none. */
  predicate HasToken(token: Option<string>) { token.Some? && token.value != "" }

  class ChallengeHandler {
    var solving: int
    var challengeToken: Option<string>
    var nextSeq: nat
    var responseHandlers: set<nat>
    ghost var calls: map<nat, Solves.Stage>

    var registeredConversations: map<Queue.ConvId, Queue.Challenge>
    var startTimers: map<Queue.ConvId, nat>
    var pendingStarts: set<Queue.ConvId>
    var isOnline: bool
    var challengeRateLimitRetryAt: Option<nat>
    var startedQueues: seq<Queue.ConvId>

    ghost function Solver(): Solves.Solver
      reads this
    {
      Solves.Solver(solving, challengeToken, nextSeq, responseHandlers, calls)
    }

    ghost function Waiting(): Queue.Waiting
      reads this
    {
      Queue.Waiting(registeredConversations, startTimers, pendingStarts, isOnline, challengeRateLimitRetryAt,
                    startedQueues)
    }

    constructor ()
      ensures Solver() == Solves.IDLE && Waiting() == Queue.NOBODY
    {
      solving, challengeToken, nextSeq, responseHandlers, calls := 0, None, 0, {}, map[];
      registeredConversations, startTimers, pendingStarts := map[], map[], {};
      isOnline, challengeRateLimitRetryAt, startedQueues := false, None, [];
    }

    // --------------------------------------------------------------- solving

    method RequestCaptcha() returns (request: nat)
      modifies this`nextSeq, this`responseHandlers
      ensures request == old(nextSeq) && Solver() == Solves.Step(old(Solver()), Solves.RequestOnly)
    {
      request := nextSeq;
      nextSeq := nextSeq + 1;
      responseHandlers := responseHandlers + {request};
    }

    /** `#solve` up to its first await. */
    method BeginSolve(token: string) returns (request: nat)
      modifies this`solving, this`challengeToken, this`nextSeq, this`responseHandlers, this`calls
      ensures Solver() == Solves.Step(old(Solver()), Solves.Solve(token))
    {
      solving := solving + 1;
      challengeToken := Some(token);
      request := RequestCaptcha();
      calls := calls[request := Solves.Asking];
    }

    method OnResponse(request: nat, captcha: string)
      modifies this`responseHandlers, this`calls
      ensures Solver() == Solves.Step(old(Solver()), Solves.Respond(request, captcha))
    {
      if request !in responseHandlers { return; }
      responseHandlers := responseHandlers - {request};
      if request in calls { calls := calls[request := Solves.Resumed(captcha)]; }
    }

    /** `#solve` after its captcha: the token to send, or none if another call
        has completed earlier. */
    method ResumeSolve(request: nat) returns (lastToken: Option<string>)
      requires Solves.CanStep(Solver(), Solves.Resume(request))
      modifies this`solving, this`challengeToken, this`calls
      ensures Solver() == Solves.Step(old(Solver()), Solves.Resume(request))
      ensures lastToken == old(challengeToken)
    {
      lastToken := challengeToken;
      if lastToken.None? {
        solving := solving - 1;
        calls := calls - {request};
        return;
      }
      challengeToken := None;
      calls := calls[request := Solves.Sending(lastToken.value)];
    }

    // ------------------------------------------------------------ registration

    method Unregister(c: Queue.ConvId)
      modifies this`registeredConversations, this`pendingStarts, this`startTimers
      ensures Waiting() == Queue.Unregistered(old(Waiting()), c)
    {
      registeredConversations := registeredConversations - {c};
      pendingStarts := pendingStarts - {c};
      startTimers := startTimers - {c};
    }

    method StartQueue(c: Queue.ConvId)
      modifies this`registeredConversations, this`pendingStarts, this`startTimers, this`startedQueues
      ensures Waiting() == Queue.StartQueue(old(Waiting()), c)
    {
      if !isOnline {
        pendingStarts := pendingStarts + {c};
        return;
      }
      Unregister(c);
      startedQueues := startedQueues + [c];
    }

    /** `register`: what its challenge carries besides a time decides whether a
        solve is started. `offersCaptcha` is false if the server sent options
        without it. */
    method Register(c: Queue.ConvId, challenge: Queue.Challenge, now: nat,
                    token: Option<string>, silent: bool, offersCaptcha: bool)
      returns (request: Option<nat>)
      modifies this
      ensures Waiting() == Queue.Registered(old(Waiting()), c, challenge, now)
      ensures request.Some? <==>
                && c !in old(registeredConversations)
                && !(challenge.retryAt.Some? && 0 < challenge.retryAt.value <= now)
                && offersCaptcha && token.Some? && token.value != "" && !silent
      ensures Solver() == if request.Some? then Solves.Step(old(Solver()), Solves.Solve(token.value)) else old(Solver())
    {
      if c in registeredConversations { return None; }
      registeredConversations := registeredConversations[c := challenge];
      if Queue.ShouldStart(challenge, now) {
        StartQueue(c);
        return None;
      }
      if Queue.Truthy(challengeRateLimitRetryAt) {
        startTimers := startTimers[c := challengeRateLimitRetryAt.value];
      } else if Queue.Truthy(challenge.retryAt) {
        startTimers := startTimers[c := challenge.retryAt.value];
      }
      if !offersCaptcha || !HasToken(token) || silent { return None; }
      var n := BeginSolve(token.value);
      return Some(n);
    }

    /** Every registered conversation is rescheduled, one after another. */
    method ForceWaitOnAll(retryAt: nat)
      modifies this`challengeRateLimitRetryAt, this`registeredConversations, this`startTimers
      ensures Waiting() == Queue.ForcedToWait(old(Waiting()), retryAt)
    {
      AllDone(Waiting(), retryAt);
      challengeRateLimitRetryAt := Some(retryAt);
      registeredConversations, startTimers := RescheduleAll(registeredConversations, startTimers, retryAt);
    }

    /** `#startAllQueues`: collect first, then start each. */
    method StartAllQueues(force: bool, now: nat)
      modifies this`registeredConversations, this`pendingStarts, this`startTimers, this`startedQueues
      ensures exists cs ::
                Queue.Collects(old(Waiting()), cs, force, now) && Waiting() == Queue.StartQueues(old(Waiting()), cs)
    {
      var cs: seq<Queue.ConvId> := [];
      var todo := registeredConversations.Keys;
      while todo != {}
        invariant todo <= registeredConversations.Keys
        invariant Waiting() == old(Waiting())
        invariant forall i, j :: 0 <= i < j < |cs| ==> cs[i] != cs[j]
        invariant forall c :: c in cs <==>
                    (c in registeredConversations && c !in todo
                     && (force || Queue.ShouldStart(registeredConversations[c], now)))
        decreases |todo|
      {
        var c :| c in todo;
        if force || Queue.ShouldStart(registeredConversations[c], now) { cs := cs + [c]; }
        todo := todo - {c};
      }
      assert Queue.Collects(old(Waiting()), cs, force, now);
      var i := 0;
      while i < |cs|
        invariant i <= |cs|
        invariant Queue.StartQueues(old(Waiting()), cs) == Queue.StartQueues(Waiting(), cs[i..])
      {
        assert cs[i..][0] == cs[i] && cs[i..][1..] == cs[i + 1..];
        StartQueue(cs[i]);
        i := i + 1;
      }
      assert cs[i..] == [];
    }

    method OnOnline(now: nat)
      modifies this`isOnline, this`registeredConversations, this`pendingStarts, this`startTimers, this`startedQueues
      ensures Queue.Next(old(Waiting()), Queue.GoOnline(now), Waiting())
    {
      isOnline := true;
      pendingStarts := {};
      StartAllQueues(false, now);
    }
  }
}
