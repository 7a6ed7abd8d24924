/**
 Concurrent callers of one Provider client (internal/provider/client.go, Capabilities and supports): the
 mutex-protected steps of any number of goroutines interleave, time passes, and the Provider may answer
 discovery differently every time.
 */
module Rediscovery {
  import opened Common
  import opened Contract
  import opened Client

  /** One stored discovery answer. */
  datatype Stored = Stored(caps: set<Cap>, at: Time)

  datatype Pc =
    | Idle
    | Loaded(cap: Cap, seen: Option<nat>)                // declared and knownAt copied under the lock
    | Asking(cap: Cap, test: Time)                       // found unknown or stale at time `test`
    | Answered(cap: Cap, test: Time)                     // own answer stored
    // about to look the capability up in that answer; `own` if the caller has asked the Provider itself
    | Consulting(cap: Cap, source: nat, test: Time, own: bool)
    | Sending(cap: Cap, source: nat, test: Time, own: bool)

  /** A capability request that went out at time `at`. */
  datatype Sent = Sent(cap: Cap, source: nat, test: Time, own: bool, at: Time)

  /** `history` is every answer ever stored; its last element is what the client currently holds. */
  datatype State = State(history: seq<Stored>, clock: Time, pc: nat -> Pc, sent: seq<Sent>)

  const START := State([], 0, (t: nat) => Idle, [])

  datatype Action =
    | Begin(t: nat, c: Cap)
    | TestAge(t: nat)
    | Answer(t: nat, reply: Option<seq<Cap>>)    // None: unreachable, refused, malformed or of another kind
    | Reload(t: nat)
    | LookUp(t: nat)
    | Send(t: nat)
    | Tick(d: nat)

  function Move(pc: nat -> Pc, t: nat, p: Pc): nat -> Pc {
    (u: nat) => if u == t then p else pc(u)
  }

  function At(s: State, t: nat, p: Pc): State {
    s.(pc := Move(s.pc, t, p))
  }

  function Step(s: State, a: Action): State {
    match a
    case Tick(d) => s.(clock := s.clock + d)
    case Begin(t, c) =>
      if s.pc(t).Idle? then At(s, t, Loaded(c, if s.history == [] then None else Some(|s.history| - 1))) else s
    case TestAge(t) =>
      var p := s.pc(t);
      if !p.Loaded? then s
      else if p.seen.None? || p.seen.value >= |s.history|
              || s.clock - s.history[p.seen.value].at > CAPABILITY_TTL
      then At(s, t, Asking(p.cap, s.clock))
      else At(s, t, Consulting(p.cap, p.seen.value, s.clock, false))
    case Answer(t, reply) =>
      var p := s.pc(t);
      if !p.Asking? then s
      else if reply.None? then At(s, t, Idle)
      else At(s.(history := s.history + [Stored(AsSet(Valid(reply.value)), s.clock)]), t, Answered(p.cap, p.test))
    case Reload(t) =>
      var p := s.pc(t);
      if p.Answered? && s.history != [] then At(s, t, Consulting(p.cap, |s.history| - 1, p.test, true)) else s
    case LookUp(t) =>
      var p := s.pc(t);
      if !p.Consulting? then s
      else if p.source < |s.history| && p.cap in s.history[p.source].caps
      then At(s, t, Sending(p.cap, p.source, p.test, p.own))
      else At(s, t, Idle)
    case Send(t) =>
      var p := s.pc(t);
      if !p.Sending? then s
      else At(s.(sent := s.sent + [Sent(p.cap, p.source, p.test, p.own, s.clock)]), t, Idle)
  }

  function Run(actions: seq<Action>): State {
    if actions == [] then START else Step(Run(actions[..|actions| - 1]), actions[|actions| - 1])
  }

  /** The answer is the caller's own or a later one, or was at most the TTL old at the caller's age test. */
  predicate Recent(s: State, source: nat, test: Time, own: bool) {
    && source < |s.history| && test <= s.clock
    && (own ==> test <= s.history[source].at)
    && (!own ==> 0 <= test - s.history[source].at <= CAPABILITY_TTL)
  }

  ghost predicate Allowed(s: State, x: Sent) {
    && Recent(s, x.source, x.test, x.own) && x.test <= x.at <= s.clock
    && x.cap in s.history[x.source].caps && ValidCapability(x.cap)
  }

  ghost predicate ThreadInv(s: State, p: Pc) {
    match p
    case Idle => true
    case Loaded(_, seen) => seen.Some? ==> seen.value < |s.history|
    case Asking(_, test) => test <= s.clock
    case Answered(_, test) => s.history != [] && Recent(s, |s.history| - 1, test, true)
    case Consulting(_, source, test, own) => Recent(s, source, test, own)
    case Sending(c, source, test, own) => Allowed(s, Sent(c, source, test, own, s.clock))
  }

  ghost predicate Inv(s: State) {
    && (forall t :: ThreadInv(s, s.pc(t)))
    && (forall x <- s.sent :: Allowed(s, x))
    && (forall h <- s.history :: h.at <= s.clock && forall c <- h.caps :: ValidCapability(c))
    && (forall i, j :: 0 <= i <= j < |s.history| ==> s.history[i].at <= s.history[j].at)
  }

  /** Later states only add answers and time. */
  ghost predicate Extends(s: State, u: State) {
    s.history <= u.history && s.clock <= u.clock && (s.history != [] ==> u.history != [])
    && (forall i, j :: 0 <= i <= j < |u.history| ==> u.history[i].at <= u.history[j].at)
  }

  lemma ThreadKept(s: State, u: State, p: Pc)
    requires ThreadInv(s, p) && Extends(s, u)
    ensures ThreadInv(u, p)
  {
    if p.Answered? {
      assert u.history[|s.history| - 1] == s.history[|s.history| - 1];
    }
  }

  lemma StepExtends(s: State, a: Action)
    requires Inv(s)
    ensures Extends(s, Step(s, a))
    ensures forall h <- Step(s, a).history :: h.at <= Step(s, a).clock && forall c <- h.caps :: ValidCapability(c)
  {
    if a.Answer? && a.reply.Some? {
      forall c ensures c in AsSet(Valid(a.reply.value)) ==> ValidCapability(c) { ValidMembers(a.reply.value, c); }
    }
  }

  lemma AnswerKept(s: State, t: nat, reply: seq<Cap>)
    requires Inv(s) && s.pc(t).Asking?
    ensures var u := Step(s, Answer(t, Some(reply))); ThreadInv(u, u.pc(t))
  {
    assert ThreadInv(s, s.pc(t));
  }

  lemma LookUpKept(s: State, t: nat)
    requires Inv(s) && s.pc(t).Consulting?
    ensures var u := Step(s, LookUp(t)); ThreadInv(u, u.pc(t))
  {
    assert ThreadInv(s, s.pc(t));
    assert s.history[s.pc(t).source] in s.history;
  }

  lemma AgeTestKept(s: State, t: nat)
    requires Inv(s) && s.pc(t).Loaded?
    ensures var u := Step(s, TestAge(t)); ThreadInv(u, u.pc(t))
  {
    assert ThreadInv(s, s.pc(t));
    var seen := s.pc(t).seen;
    if seen.Some? { assert s.history[seen.value] in s.history; }
  }

  lemma StillThere(s: State, a: Action)
    requires Inv(s) && !a.Tick? && Step(s, a).pc(a.t) == s.pc(a.t)
    ensures ThreadInv(Step(s, a), Step(s, a).pc(a.t))
  {
    assert ThreadInv(s, s.pc(a.t));
    StepExtends(s, a);
    ThreadKept(s, Step(s, a), s.pc(a.t));
  }

  /** The thread that moved satisfies its own condition afterwards. */
  lemma MoverKept(s: State, a: Action)
    requires Inv(s) && !a.Tick?
    ensures ThreadInv(Step(s, a), Step(s, a).pc(a.t))
  {
    if Step(s, a).pc(a.t) == s.pc(a.t) {
      StillThere(s, a);
    } else {
      assert ThreadInv(s, s.pc(a.t));
      match a
      case TestAge(t) => AgeTestKept(s, t);
      case Answer(t, reply) => if reply.Some? { AnswerKept(s, t, reply.value); }
      case LookUp(t) => LookUpKept(s, t);
      case _ =>
    }
  }

  lemma SentGrows(s: State, a: Action, x: Sent)
    requires x in Step(s, a).sent && x !in s.sent
    ensures a.Send? && s.pc(a.t) == Sending(x.cap, x.source, x.test, x.own) && x.at == s.clock
    ensures Step(s, a).history == s.history && Step(s, a).clock == s.clock
  {
  }

  lemma StepKeeps(s: State, a: Action)
    requires Inv(s)
    ensures Inv(Step(s, a))
  {
    var u := Step(s, a);
    StepExtends(s, a);
    if !a.Tick? { MoverKept(s, a); }
    forall t ensures ThreadInv(u, u.pc(t)) {
      assert ThreadInv(s, s.pc(t));
      if a.Tick? || t != a.t { ThreadKept(s, u, s.pc(t)); }
    }
    forall x | x in u.sent ensures Allowed(u, x) {
      if x in s.sent {
        assert Allowed(s, x);
      } else {
        SentGrows(s, a, x);
        assert ThreadInv(s, s.pc(a.t));
      }
    }
  }

  lemma {:induction false} AlwaysInv(actions: seq<Action>)
    ensures Inv(Run(actions))
    decreases |actions|
  {
    if actions != [] {
      AlwaysInv(actions[..|actions| - 1]);
      StepKeeps(Run(actions[..|actions| - 1]), actions[|actions| - 1]);
    }
  }

  /**
   In every interleaving, a capability request is sent only for a capability the contract knows that was in a
   discovery answer stored no earlier than five minutes before the caller's age test.
   */
  lemma OnlyDeclaredIsAsked(actions: seq<Action>, x: Sent)
    requires x in Run(actions).sent
    ensures var s := Run(actions);
            && x.source < |s.history| && x.cap in s.history[x.source].caps && ValidCapability(x.cap)
            && x.test - s.history[x.source].at <= CAPABILITY_TTL
  {
    AlwaysInv(actions);
  }

  /** A fresh empty declaration is an answer: the call is refused without asking the Provider again. */
  lemma EmptyIsKnown(actions: seq<Action>, t: nat, c: Cap)
    requires var s := Run(actions);
             s.pc(t).Idle? && s.history != [] && s.history[|s.history| - 1].caps == {}
             && s.clock - s.history[|s.history| - 1].at <= CAPABILITY_TTL
    ensures var s := Run(actions);
            var u := Step(Step(Step(s, Begin(t, c)), TestAge(t)), LookUp(t));
            u.history == s.history && u.sent == s.sent && u.pc(t).Idle?
  {
  }

  lemma RunSplit(before: seq<Action>, a: Action)
    ensures Run(before + [a]) == Step(Run(before), a)
  {
    assert (before + [a])[..|before + [a]| - 1] == before;
  }

  // ----- a failed rediscovery forgets nothing -----

  /** Over any run the stored answers only grow. */
  lemma {:induction false} HistoryGrows(before: seq<Action>, after: seq<Action>)
    ensures Run(before).history <= Run(before + after).history
    decreases |after|
  {
    if after == [] {
      assert before + after == before;
    } else {
      var init, a := after[..|after| - 1], after[|after| - 1];
      HistoryGrows(before, init);
      assert before + after == before + init + [a];
      RunSplit(before + init, a);
    }
  }

  /** Every discovery of the stretch fails. */
  ghost predicate DiscoveryFails(actions: seq<Action>) {
    forall a <- actions :: a.Answer? ==> a.reply.None?
  }

  lemma {:induction false} NothingStored(before: seq<Action>, after: seq<Action>)
    requires DiscoveryFails(after)
    ensures Run(before + after).history == Run(before).history
    decreases |after|
  {
    if after == [] {
      assert before + after == before;
    } else {
      var init, a := after[..|after| - 1], after[|after| - 1];
      NothingStored(before, init);
      assert a in after;
      assert before + after == before + init + [a];
      RunSplit(before + init, a);
    }
  }

  /** The caller whose rediscovery failed gives up: nothing is sent for it. */
  lemma FailureEndsTheCall(actions: seq<Action>, t: nat)
    requires Run(actions).pc(t).Asking?
    ensures var s := Step(Run(actions), Answer(t, None));
            s.history == Run(actions).history && s.sent == Run(actions).sent && s.pc(t).Idle?
  {
  }

  /**
   However many callers rediscover in vain, and however their steps interleave, the stored answers stay as they
   were, and a caller that comes within five minutes of the last one is still decided by it without asking: its
   request goes out exactly if that answer lists the capability.
   */
  lemma FailureForgetsNothing(before: seq<Action>, after: seq<Action>, t: nat, c: Cap)
    requires DiscoveryFails(after) && Run(before).history != []
    ensures Run(before + after).history == Run(before).history
    ensures var s := Run(before + after);
            var last := |s.history| - 1;
            var u := Step(Step(Step(Step(s, Begin(t, c)), TestAge(t)), LookUp(t)), Send(t));
            s.pc(t).Idle? && s.clock - s.history[last].at <= CAPABILITY_TTL ==>
              u.sent == s.sent +
                if c in Run(before).history[last].caps then [Sent(c, last, s.clock, false, s.clock)] else []
  {
    NothingStored(before, after);
  }

  // ----- how old an answer can be when the request goes out -----

  /** How old the answer was at the caller's age test, and when the request went out. */
  function AgeAtTest(s: State, x: Sent): int
    requires x.source < |s.history|
  {
    x.test - s.history[x.source].at
  }

  function AgeAtSending(s: State, x: Sent): int
    requires x.source < |s.history|
  {
    x.at - s.history[x.source].at
  }

  /** How long the caller took between its age test and its request. */
  function Pause(x: Sent): int { x.at - x.test }

  /**
   In every run an answer is at most the TTL plus the caller's pause old when the request goes out, and no older than
   the pause if the caller asked itself. It is older than the TTL exactly when the pause exceeds what the age test
   had left of it.
   */
  lemma AgeIsBounded(actions: seq<Action>, x: Sent)
    requires x in Run(actions).sent
    ensures var s := Run(actions);
            && x.source < |s.history| && Pause(x) >= 0
            && (x.own ==> AgeAtTest(s, x) <= 0 && AgeAtSending(s, x) <= Pause(x))
            && (!x.own ==> 0 <= AgeAtTest(s, x) <= CAPABILITY_TTL && AgeAtSending(s, x) <= CAPABILITY_TTL + Pause(x))
            && (AgeAtSending(s, x) > CAPABILITY_TTL <==> Pause(x) > CAPABILITY_TTL - AgeAtTest(s, x))
  {
    AlwaysInv(actions);
    assert Allowed(Run(actions), x);
  }

  /** One more action on a run that has reached s. */
  lemma Then(actions: seq<Action>, s: State, a: Action) returns (more: seq<Action>, u: State)
    requires Run(actions) == s
    ensures more == actions + [a] && u == Step(s, a) && Run(more) == u
  {
    RunSplit(actions, a);
    more, u := actions + [a], Step(s, a);
  }

  /** Caller 0 finds nothing known and stores an answer that lists the alarms. */
  lemma Discovered() returns (actions: seq<Action>, s: State)
    ensures Run(actions) == s && s.clock == 0 && s.sent == [] && s.pc(0) == Answered(Alarms, 0) && s.pc(1) == Idle
    ensures |s.history| == 1 && s.history[0].at == 0 && Alarms in s.history[0].caps
  {
    actions, s := [], START;
    actions, s := Then(actions, s, Begin(0, Alarms));
    actions, s := Then(actions, s, TestAge(0));
    ValidMembers([Alarms], Alarms);
    actions, s := Then(actions, s, Answer(0, Some([Alarms])));
  }

  /** A caller that asked itself: for every pause a run whose request rests on an answer as old as the pause. */
  lemma OwnAnswerAges(pause: nat) returns (actions: seq<Action>, x: Sent)
    ensures x in Run(actions).sent && x.own && Pause(x) == pause
    ensures x.source < |Run(actions).history| && AgeAtSending(Run(actions), x) == pause
  {
    var s;
    actions, s := Discovered();
    actions, s := Then(actions, s, Tick(pause));
    actions, s := Then(actions, s, Reload(0));
    actions, s := Then(actions, s, LookUp(0));
    actions, s := Then(actions, s, Send(0));
    x := Sent(Alarms, 0, 0, true, pause);
  }

  /** Caller 1 tests the age of that answer when it is exactly the TTL. */
  lemma JustFreshEnough() returns (actions: seq<Action>, s: State)
    ensures Run(actions) == s && s.clock == CAPABILITY_TTL && s.sent == []
    ensures s.pc(1) == Consulting(Alarms, 0, CAPABILITY_TTL, false)
    ensures |s.history| == 1 && s.history[0].at == 0 && Alarms in s.history[0].caps
  {
    actions, s := Discovered();
    actions, s := Then(actions, s, Tick(CAPABILITY_TTL));
    actions, s := Then(actions, s, Begin(1, Alarms));
    actions, s := Then(actions, s, TestAge(1));
  }

  /** A caller that found the answer just fresh enough: for every pause a run that attains TTL + pause. */
  lemma KnownAnswerAges(pause: nat) returns (actions: seq<Action>, x: Sent)
    ensures x in Run(actions).sent && !x.own && Pause(x) == pause
    ensures x.source < |Run(actions).history| && AgeAtSending(Run(actions), x) == CAPABILITY_TTL + pause
  {
    var s;
    actions, s := JustFreshEnough();
    actions, s := Then(actions, s, Tick(pause));
    actions, s := Then(actions, s, LookUp(1));
    actions, s := Then(actions, s, Send(1));
    x := Sent(Alarms, 0, CAPABILITY_TTL, false, CAPABILITY_TTL + pause);
  }

  /** Some request that took this pause between age test and sending rests on an answer older than the TTL. */
  ghost predicate CanBeLate(pause: int, own: bool) {
    exists actions: seq<Action>, x ::
      && x in Run(actions).sent && x.own == own && Pause(x) == pause
      && x.source < |Run(actions).history| && AgeAtSending(Run(actions), x) > CAPABILITY_TTL
  }

  /**
   The five-minute bound is on the age test, not on the request, and this is exactly when it carries over: a
   caller that found the answer fresh can be late after any pause at all, one that asked itself only after a pause
   longer than the TTL.
   */
  lemma LateExactly(pause: int, own: bool)
    ensures CanBeLate(pause, own) <==> pause > if own then CAPABILITY_TTL else 0
  {
    if pause > 0 {
      var actions, x;
      if own { actions, x := OwnAnswerAges(pause); } else { actions, x := KnownAnswerAges(pause); }
      assert x in Run(actions).sent;
    }
    forall actions: seq<Action>, x | x in Run(actions).sent && x.own == own && Pause(x) == pause
      ensures x.source < |Run(actions).history|
      ensures AgeAtSending(Run(actions), x) > CAPABILITY_TTL ==> pause > if own then CAPABILITY_TTL else 0
    {
      AgeIsBounded(actions, x);
    }
  }

  // ----- the class takes these steps -----

  /** What the client's fields hold in state s. */
  function Held(s: State): Known {
    if s.history == [] then Known(None, 0)
    else Known(Some(s.history[|s.history| - 1].caps), s.history[|s.history| - 1].at)
  }

  /** What comes back when discovery is asked: the names listed, or None if the answer cannot be used. */
  function Listing(net: Net, cred: Credential, at: Moment): Option<seq<Cap>> {
    var res := Returned(net, cred, h => Request(true, Discovery, h, OtherMetric(""), None), at);
    if res.None? || res.value.status != OK || !res.value.body.CapabilitiesBody? || res.value.body.kind != KIND_INFRA
    then None else Some(res.value.body.capabilities)
  }

  /** One call of `Supports` that nobody interrupts; steps whose turn it is not do nothing. */
  function SupportsSteps(s: State, t: nat, c: Cap, reply: Option<seq<Cap>>): State {
    Step(Step(Step(Step(Step(s, Begin(t, c)), TestAge(t)), Answer(t, reply)), Reload(t)), LookUp(t))
  }

  lemma FreshSupports(s: State, t: nat, c: Cap, reply: Option<seq<Cap>>)
    requires s.pc(t).Idle? && s.history != [] && s.clock - s.history[|s.history| - 1].at <= CAPABILITY_TTL
    ensures var u, last := SupportsSteps(s, t, c, reply), |s.history| - 1;
            && u.history == s.history && u.sent == s.sent && u.clock == s.clock
            && u.pc(t) == if c in s.history[last].caps then Sending(c, last, s.clock, false) else Idle
  {
  }

  lemma StaleSupports(s: State, t: nat, c: Cap, reply: Option<seq<Cap>>)
    requires s.pc(t).Idle?
    requires s.history != [] ==> s.clock - s.history[|s.history| - 1].at > CAPABILITY_TTL
    ensures var u := SupportsSteps(s, t, c, reply);
            && u.sent == s.sent && u.clock == s.clock
            && (reply.None? ==> u.history == s.history && u.pc(t).Idle?)
            && (reply.Some? ==>
                  && u.history == s.history + [Stored(AsSet(Valid(reply.value)), s.clock)]
                  && u.pc(t) == if c in AsSet(Valid(reply.value)) then Sending(c, |s.history|, s.clock, true) else Idle)
  {
    var asking := Step(Step(s, Begin(t, c)), TestAge(t));
    assert asking.pc(t) == Asking(c, s.clock) && asking.history == s.history;
    if reply.Some? {
      var answered := Step(asking, Answer(t, reply));
      assert answered.pc(t) == Answered(c, s.clock);
      assert answered.history == s.history + [Stored(AsSet(Valid(reply.value)), s.clock)];
      assert Step(answered, Reload(t)).pc(t) == Consulting(c, |s.history|, s.clock, true);
    }
  }

  /** u is s after a call that found `answer`: stored as the class stores it, and about to send if it says so. */
  ghost predicate Supported(s: State, u: State, t: nat, c: Cap, held: Known, answer: Result<set<Cap>>) {
    && Held(u) == held && u.sent == s.sent && u.clock == s.clock
    && s.history <= u.history && |u.history| <= |s.history| + 1
    && (u.pc(t).Sending? <==> answer.Got? && c in answer.value) && (!u.pc(t).Sending? ==> u.pc(t).Idle?)
    && (u.pc(t).Sending? ==> u.history != [] && u.pc(t).cap == c && u.pc(t).source == |u.history| - 1
                             && u.history[|u.history| - 1].caps == answer.value)
  }

  lemma ListingIsDiscovered(net: Net, cred: Credential, at: Moment)
    ensures var answer, reply := Discover(net, cred, at), Listing(net, cred, at);
            (answer.Got? <==> reply.Some?) && (reply.Some? ==> answer.value == Valid(reply.value))
  {
  }

  lemma StepsSupport(s: State, t: nat, c: Cap, net: Net, cred: Credential, at: Moment)
    requires s.pc(t).Idle?
    ensures Supported(s, SupportsSteps(s, t, c, Listing(net, cred, at)), t, c,
                      AfterRead(Held(s), net, cred, at, s.clock), Consult(Held(s), net, cred, at, s.clock))
  {
    ListingIsDiscovered(net, cred, at);
    if s.history != [] && s.clock - s.history[|s.history| - 1].at <= CAPABILITY_TTL {
      FreshSupports(s, t, c, Listing(net, cred, at));
    } else {
      StaleSupports(s, t, c, Listing(net, cred, at));
    }
  }

  lemma RunSteps(actions: seq<Action>, t: nat, c: Cap, reply: Option<seq<Cap>>)
    ensures Run(actions + [Begin(t, c)] + [TestAge(t)] + [Answer(t, reply)] + [Reload(t)] + [LookUp(t)])
            == SupportsSteps(Run(actions), t, c, reply)
  {
    RunSplit(actions, Begin(t, c));
    RunSplit(actions + [Begin(t, c)], TestAge(t));
    RunSplit(actions + [Begin(t, c)] + [TestAge(t)], Answer(t, reply));
    RunSplit(actions + [Begin(t, c)] + [TestAge(t)] + [Answer(t, reply)], Reload(t));
    RunSplit(actions + [Begin(t, c)] + [TestAge(t)] + [Answer(t, reply)] + [Reload(t)], LookUp(t));
  }

  /**
   One uninterrupted `Supports` is a run of these steps: in any run, with the client's fields holding the last stored
   answer, the steps of a caller store exactly what the class stores, and the caller goes on to send its request
   exactly if the class says the capability is supported. So what is proved of all interleavings holds of the class.
   */
  lemma SupportsIsARun(actions: seq<Action>, t: nat, c: Cap, net: Net, cred: Credential, at: Moment)
    requires Run(actions).pc(t).Idle?
    ensures var s := Run(actions);
            var u := Run(actions + [Begin(t, c)] + [TestAge(t)] + [Answer(t, Listing(net, cred, at))]
                         + [Reload(t)] + [LookUp(t)]);
            Supported(s, u, t, c, AfterRead(Held(s), net, cred, at, s.clock),
                      Consult(Held(s), net, cred, at, s.clock))
  {
    RunSteps(actions, t, c, Listing(net, cred, at));
    StepsSupport(Run(actions), t, c, net, cred, at);
  }
}
