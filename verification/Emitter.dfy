/**
 The background log emitter (internal/ocilog/ocilog.go): non-blocking producers, one bounded channel,
 one batching worker with a ticker, and a closing drain.

 The step system (`State`, `Action`, `Apply`) interleaves producers, worker, ticker and close at the
 granularity of one channel operation, one locked counter update or one `put`. The class `Emitter` holds
 the same fields and its methods are sequences of those steps.
 */
module Emitter {
  const BUFFER_SIZE := 2048
  const BATCH_SIZE := 128

  datatype Event = Event(kind: string, jobId: string, app: string, status: string, stream: string,
                         message: string, image: string, tag: string, error: string)

  datatype Entry = Entry(when: int, ev: Event)

  // ----- batches -----

  function Concat(puts: seq<seq<Entry>>): seq<Entry> {
    if puts == [] then [] else Concat(puts[..|puts| - 1]) + puts[|puts| - 1]
  }

  /** A stretch of entries cut into full batches, with the remainder last. */
  function Chunks(s: seq<Entry>): seq<seq<Entry>> {
    if s == [] then []
    else if |s| <= BATCH_SIZE then [s]
    else [s[..BATCH_SIZE]] + Chunks(s[BATCH_SIZE..])
  }

  lemma {:induction false} ConcatSplit(a: seq<seq<Entry>>, b: seq<seq<Entry>>)
    ensures Concat(a + b) == Concat(a) + Concat(b)
    decreases |b|
  {
    if b == [] {
      assert a + b == a;
    } else {
      assert (a + b)[..|a + b| - 1] == a + b[..|b| - 1];
      ConcatSplit(a, b[..|b| - 1]);
    }
  }

  /** Cutting loses nothing, and makes the fewest batches possible: only the last may be short. */
  lemma {:induction false} ChunksExact(s: seq<Entry>)
    ensures Concat(Chunks(s)) == s
    ensures |Chunks(s)| == (|s| + BATCH_SIZE - 1) / BATCH_SIZE
    ensures forall i :: 0 <= i < |Chunks(s)| ==>
              1 <= |Chunks(s)[i]| <= BATCH_SIZE && (i + 1 < |Chunks(s)| ==> |Chunks(s)[i]| == BATCH_SIZE)
    decreases |s|
  {
    if |s| > BATCH_SIZE {
      ChunksExact(s[BATCH_SIZE..]);
      ConcatSplit([s[..BATCH_SIZE]], Chunks(s[BATCH_SIZE..]));
      assert Concat([s[..BATCH_SIZE]]) == [] + s[..BATCH_SIZE];
      assert (|s| + BATCH_SIZE - 1) / BATCH_SIZE == 1 + (|s| - BATCH_SIZE + BATCH_SIZE - 1) / BATCH_SIZE;
    } else if s != [] {
      assert Concat([s]) == [] + s;
    }
  }

  // ----- the step system -----

  /** Where the worker is: in the outer select, about to put, in the drain loop, or gone. */
  datatype Pc = Select | Flush(draining: bool) | Drain | LastFlush | Stopped

  datatype State = State(
    ch: seq<Entry>,            // the channel
    batch: seq<Entry>,         // the worker's batch
    pc: Pc,
    closed: bool,              // done is closed
    dropped: nat,              // the counter behind the mutex
    dropping: nat,             // producers past the full channel, before the lock
    puts: seq<seq<Entry>>,     // every batch handed to the sink so far
    emitted: nat,              // how many Emit calls have passed their select
    accepted: seq<Entry>,      // what went into the channel, in order
    acceptedAtClose: nat)      // how many of those before done was closed

  const START := State([], [], Select, false, 0, 0, [], 0, [], 0)

  datatype Action =
    | Offer(e: Entry)    // a producer's select
    | CountDrop          // a producer that found the channel full takes the lock
    | Receive            // the worker takes an entry, in either loop
    | Tick               // the ticker fires in the outer select
    | Put                // the worker hands its batch to the sink
    | SeeDone            // the outer select picks done
    | DrainEmpty         // the inner select takes its default
    | Close              // close(done)

  /** One atomic step; an action that is not enabled leaves the state alone. */
  function Apply(s: State, a: Action): State {
    match a
    case Offer(e) =>
      if |s.ch| < BUFFER_SIZE
      then s.(emitted := s.emitted + 1, ch := s.ch + [e], accepted := s.accepted + [e])
      else s.(emitted := s.emitted + 1, dropping := s.dropping + 1)
    case CountDrop =>
      if s.dropping > 0 then s.(dropping := s.dropping - 1, dropped := s.dropped + 1) else s
    case Receive =>
      if (s.pc.Select? || s.pc.Drain?) && s.ch != [] then
        s.(ch := s.ch[1..], batch := s.batch + [s.ch[0]],
           pc := if |s.batch| + 1 >= BATCH_SIZE then Flush(s.pc.Drain?) else s.pc)
      else s
    case Tick =>
      if s.pc.Select? && s.batch != [] then s.(pc := Flush(false)) else s
    case Put =>
      if s.pc.Flush? then
        s.(puts := s.puts + [s.batch], batch := [], pc := if s.pc.draining then Drain else Select)
      else if s.pc.LastFlush? then
        s.(puts := if s.batch == [] then s.puts else s.puts + [s.batch], batch := [], pc := Stopped)
      else s
    case SeeDone =>
      if s.pc.Select? && s.closed then s.(pc := Drain) else s
    case DrainEmpty =>
      if s.pc.Drain? && s.ch == [] then s.(pc := LastFlush) else s
    case Close =>
      if s.closed then s else s.(closed := true, acceptedAtClose := |s.accepted|)
  }

  function Run(actions: seq<Action>): State {
    if actions == [] then START else Apply(Run(actions[..|actions| - 1]), actions[|actions| - 1])
  }

  /** Everything accepted is in exactly one place, and the order of acceptance is kept across the three. */
  ghost predicate Fifo(s: State) {
    s.accepted == Concat(s.puts) + (s.batch + s.ch)
  }

  ghost predicate Bounds(s: State) {
    && s.emitted == |s.accepted| + s.dropped + s.dropping
    && |s.ch| <= BUFFER_SIZE
    && (forall p <- s.puts :: 1 <= |p| <= BATCH_SIZE)
    && |s.batch| <= BATCH_SIZE
    && (s.pc.Select? || s.pc.Drain? ==> |s.batch| < BATCH_SIZE)
    && (s.pc.Flush? ==> s.batch != [])
    && (s.pc.Stopped? ==> s.batch == [])
  }

  /** Once the drain loop has seen the channel empty, what was accepted before the close has left it. */
  ghost predicate Closing(s: State) {
    && s.acceptedAtClose <= |s.accepted|
    && (s.pc.Drain? || s.pc.LastFlush? || s.pc.Stopped? || s.pc == Flush(true) ==> s.closed)
    && (s.pc.LastFlush? || s.pc.Stopped? ==> s.acceptedAtClose <= |s.accepted| - |s.ch|)
  }

  ghost predicate Inv(s: State) {
    Fifo(s) && Bounds(s) && Closing(s)
  }

  lemma StepKeepsFifo(s: State, a: Action)
    requires Fifo(s)
    ensures Fifo(Apply(s, a))
  {
    match a
    case Offer(e) => Regroup(Concat(s.puts), s.batch, s.ch, [e]);
    case Receive => if s.ch != [] { MoveOne(s.batch, s.ch); }
    case Put => PutKeepsOrder(s.puts, s.batch, s.ch);
    case _ =>
  }

  lemma PutKeepsOrder(puts: seq<seq<Entry>>, batch: seq<Entry>, ch: seq<Entry>)
    ensures Concat(puts + [batch]) + ([] + ch) == Concat(puts) + (batch + ch)
  {
    assert (puts + [batch])[..|puts|] == puts;
    assert Concat(puts + [batch]) == Concat(puts) + batch;
    assert [] + ch == ch;
  }

  lemma Regroup(a: seq<Entry>, b: seq<Entry>, c: seq<Entry>, d: seq<Entry>)
    ensures a + (b + (c + d)) == a + (b + c) + d
  {
  }

  lemma MoveOne(batch: seq<Entry>, ch: seq<Entry>)
    requires ch != []
    ensures batch + [ch[0]] + ch[1..] == batch + ch
  {
  }

  lemma StepKeepsBounds(s: State, a: Action)
    requires Bounds(s)
    ensures Bounds(Apply(s, a))
  {
  }

  lemma StepKeepsClosing(s: State, a: Action)
    requires Closing(s) && |s.ch| <= |s.accepted|
    ensures Closing(Apply(s, a))
  {
  }

  lemma StepKeepsInv(s: State, a: Action)
    requires Inv(s)
    ensures Inv(Apply(s, a))
  {
    StepKeepsFifo(s, a);
    StepKeepsBounds(s, a);
    StepKeepsClosing(s, a);
  }

  /** Conservation, order and bounds hold in every interleaving. */
  lemma {:induction false} Safety(actions: seq<Action>)
    ensures Inv(Run(actions))
  {
    if actions != [] {
      Safety(actions[..|actions| - 1]);
      StepKeepsInv(Run(actions[..|actions| - 1]), actions[|actions| - 1]);
    }
  }

  // ----- what became of every Emit call -----

  /** The entry an action offers, if it is an Emit call. */
  function Asked(a: Action): seq<Entry> {
    if a.Offer? then [a.e] else []
  }

  /** The same if it finds room, and if it finds none. */
  function Fits(s: State, a: Action): seq<Entry> {
    if |s.ch| < BUFFER_SIZE then Asked(a) else []
  }

  function Misses(s: State, a: Action): seq<Entry> {
    if |s.ch| >= BUFFER_SIZE then Asked(a) else []
  }

  /** The entries of the Emit calls of a stretch of a run, in order. */
  function Offered(actions: seq<Action>): seq<Entry> {
    if actions == [] then [] else Offered(actions[..|actions| - 1]) + Asked(actions[|actions| - 1])
  }

  /** Those of them that found room in the channel, when the stretch follows `past`. */
  function Admitted(past: seq<Action>, actions: seq<Action>): seq<Entry> {
    if actions == [] then []
    else
      var init := actions[..|actions| - 1];
      Admitted(past, init) + Fits(Run(past + init), actions[|actions| - 1])
  }

  /** And those that found it full. */
  function Refused(past: seq<Action>, actions: seq<Action>): seq<Entry> {
    if actions == [] then []
    else
      var init := actions[..|actions| - 1];
      Refused(past, init) + Misses(Run(past + init), actions[|actions| - 1])
  }

  lemma RunSplit(before: seq<Action>, a: Action)
    ensures Run(before + [a]) == Apply(Run(before), a)
  {
    assert (before + [a])[..|before + [a]| - 1] == before;
  }

  lemma StepSettles(s: State, a: Action)
    ensures var t := Apply(s, a);
            && t.accepted == s.accepted + Fits(s, a)
            && t.dropped + t.dropping == s.dropped + s.dropping + |Misses(s, a)|
            && |Asked(a)| == |Fits(s, a)| + |Misses(s, a)|
  {
  }

  lemma RunOn(past: seq<Action>, actions: seq<Action>)
    requires actions != []
    ensures Run(past + actions) == Apply(Run(past + actions[..|actions| - 1]), actions[|actions| - 1])
  {
    assert past + actions == past + actions[..|actions| - 1] + [actions[|actions| - 1]];
    RunSplit(past + actions[..|actions| - 1], actions[|actions| - 1]);
  }

  /** Close, Receive, Put and the rest accept nothing. */
  lemma {:induction false} AdmittedAreAccepted(past: seq<Action>, actions: seq<Action>)
    ensures Run(past + actions).accepted == Run(past).accepted + Admitted(past, actions)
    decreases |actions|
  {
    if actions == [] {
      assert past + actions == past;
    } else {
      var init, a := actions[..|actions| - 1], actions[|actions| - 1];
      AdmittedAreAccepted(past, init);
      RunOn(past, actions);
      StepSettles(Run(past + init), a);
      Append(Run(past).accepted, Admitted(past, init), Fits(Run(past + init), a));
    }
  }

  lemma {:induction false} RefusedAreCounted(past: seq<Action>, actions: seq<Action>)
    ensures var s, t := Run(past), Run(past + actions);
            t.dropped + t.dropping == s.dropped + s.dropping + |Refused(past, actions)|
    decreases |actions|
  {
    if actions == [] {
      assert past + actions == past;
    } else {
      RefusedAreCounted(past, actions[..|actions| - 1]);
      RunOn(past, actions);
      StepSettles(Run(past + actions[..|actions| - 1]), actions[|actions| - 1]);
    }
  }

  lemma {:induction false} NoThirdWay(past: seq<Action>, actions: seq<Action>)
    ensures |Offered(actions)| == |Admitted(past, actions)| + |Refused(past, actions)|
    decreases |actions|
  {
    if actions != [] {
      NoThirdWay(past, actions[..|actions| - 1]);
      StepSettles(Run(past + actions[..|actions| - 1]), actions[|actions| - 1]);
    }
  }

  lemma Append(a: seq<Entry>, b: seq<Entry>, c: seq<Entry>)
    ensures a + b + c == a + (b + c)
  {
  }

  lemma SettledFromStart(past: seq<Action>, actions: seq<Action>)
    requires past == []
    ensures var s := Run(actions);
            s.accepted == Admitted(past, actions) && s.dropped + s.dropping == |Refused(past, actions)|
  {
    assert past + actions == actions;
    AdmittedAreAccepted(past, actions);
    RefusedAreCounted(past, actions);
    assert [] + Admitted(past, actions) == Admitted(past, actions);
  }

  /**
   In every run the accepted entries are exactly the Emit calls that found room, in their order; exactly those that
   found 2048 entries in the channel are counted as dropped (or about to be); and no call is anything else.
   */
  lemma LossOnlyWhenFull(actions: seq<Action>)
    ensures var s := Run(actions);
            && s.accepted == Admitted([], actions)
            && s.dropped + s.dropping == |Refused([], actions)|
            && s.emitted == |Offered(actions)| == |Admitted([], actions)| + |Refused([], actions)|
            && |s.ch| <= BUFFER_SIZE
  {
    SettledFromStart([], actions);
    NoThirdWay([], actions);
    Safety(actions);
  }

  lemma PutsGrow(s: State, a: Action)
    ensures s.puts <= Apply(s, a).puts && s.accepted <= Apply(s, a).accepted
    ensures s.pc.Stopped? ==> Apply(s, a).puts == s.puts && Apply(s, a).pc.Stopped?
  {
  }

  lemma {:induction false} AcceptedGrows(before: seq<Action>, after: seq<Action>)
    ensures Run(before).accepted <= Run(before + after).accepted
    decreases |after|
  {
    if after == [] {
      assert before + after == before;
    } else {
      AcceptedGrows(before, after[..|after| - 1]);
      RunOn(before, after);
      PutsGrow(Run(before + after[..|after| - 1]), after[|after| - 1]);
    }
  }

  lemma {:induction false} CloseIsKept(before: seq<Action>, after: seq<Action>)
    requires Run(before).closed
    ensures Run(before + after).closed && Run(before + after).acceptedAtClose == Run(before).acceptedAtClose
    decreases |after|
  {
    if after == [] {
      assert before + after == before;
    } else {
      CloseIsKept(before, after[..|after| - 1]);
      RunOn(before, after);
    }
  }

  // ----- the ticker: nothing the worker has received waits beyond one tick -----

  /** The first n accepted entries have been put, or the worker is about to put the last of them. */
  ghost predicate Due(s: State, n: nat) {
    |Concat(s.puts)| >= n || ((s.pc.Flush? || s.pc.LastFlush?) && |Concat(s.puts)| + |s.batch| >= n)
  }

  lemma PutExtends(puts: seq<seq<Entry>>, batch: seq<Entry>)
    ensures Concat(puts + [batch]) == Concat(puts) + batch
  {
    assert (puts + [batch])[..|puts|] == puts;
  }

  lemma StepKeepsDue(s: State, a: Action, n: nat)
    requires Due(s, n)
    ensures Due(Apply(s, a), n) && (a.Put? || |Concat(s.puts)| >= n ==> |Concat(Apply(s, a).puts)| >= n)
  {
    PutExtends(s.puts, s.batch);
  }

  lemma LastOrBefore(after: seq<Action>, a: Action)
    requires after != []
    ensures a in after <==> a == after[|after| - 1] || a in after[..|after| - 1]
  {
    assert after == after[..|after| - 1] + [after[|after| - 1]];
  }

  lemma {:induction false} DueIsPut(before: seq<Action>, after: seq<Action>, n: nat)
    requires Due(Run(before), n)
    ensures Due(Run(before + after), n) && (Put in after ==> |Concat(Run(before + after).puts)| >= n)
    decreases |after|
  {
    if after == [] {
      assert before + after == before;
    } else {
      DueIsPut(before, after[..|after| - 1], n);
      RunOn(before, after);
      LastOrBefore(after, Put);
      StepKeepsDue(Run(before + after[..|after| - 1]), after[|after| - 1], n);
    }
  }

  /** How many entries the worker has received. */
  function Received(s: State): nat {
    if |s.ch| <= |s.accepted| then |s.accepted| - |s.ch| else 0
  }

  lemma TickMakesDue(before: seq<Action>)
    requires Run(before).pc.Select?
    ensures Due(Run(before + [Tick]), Received(Run(before)))
  {
    Safety(before);
    RunSplit(before, Tick);
  }

  lemma PutIsPrefix(actions: seq<Action>, accepted: seq<Entry>, n: nat)
    requires accepted <= Run(actions).accepted && n <= |accepted| && n <= |Concat(Run(actions).puts)|
    ensures Concat(Run(actions).puts)[..n] == accepted[..n]
  {
    Safety(actions);
    var put, t := Concat(Run(actions).puts), Run(actions);
    assert t.accepted[..n] == accepted[..n];
    assert t.accepted[..n] == (put + (t.batch + t.ch))[..n] == put[..n];
  }

  /**
   Everything the worker has received when the ticker fires in its outer select is put by the time the worker has
   served that tick, in order, whatever the producers, later receives and a close do in between.
   */
  lemma TickDelivers(before: seq<Action>, after: seq<Action>)
    requires Run(before).pc.Select? && Put in after
    ensures var s, t := Run(before), Run(before + [Tick] + after);
            var n := Received(s);
            n <= |s.accepted| && n <= |Concat(t.puts)| && Concat(t.puts)[..n] == s.accepted[..n]
  {
    TickMakesDue(before);
    DueIsPut(before + [Tick], after, Received(Run(before)));
    RunSplit(before, Tick);
    AcceptedGrows(before + [Tick], after);
    PutIsPrefix(before + [Tick] + after, Run(before).accepted, Received(Run(before)));
  }

  /** Served at once, a tick leaves the worker with nothing in hand and the channel as it was. */
  lemma TickThenPut(before: seq<Action>)
    requires Run(before).pc.Select?
    ensures var s, t := Run(before), Run(before + [Tick] + [Put]);
            t.pc.Select? && t.batch == [] && t.ch == s.ch && t.accepted == s.accepted == Concat(t.puts) + t.ch
  {
    RunSplit(before, Tick);
    RunSplit(before + [Tick], Put);
    Safety(before);
    Safety(before + [Tick] + [Put]);
    assert [] + Run(before).ch == Run(before).ch;
  }

  // ----- the worker alone always gets everything out -----

  predicate ByWorker(a: Action) {
    a.Receive? || a.Tick? || a.Put? || a.SeeDone? || a.DrainEmpty?
  }

  /** What the worker does next when nobody else moves. */
  function NextWork(s: State): Action {
    match s.pc
    case Flush(_) => Put
    case LastFlush => Put
    case Drain => if s.ch != [] then Receive else DrainEmpty
    case _ => if s.ch != [] then Receive else if s.closed then SeeDone else Tick
  }

  /** How far it still has to go with the channel as it is. */
  function Work(s: State): nat {
    match s.pc
    case Stopped => 0
    case LastFlush => 1
    case Drain => 2
    case Flush(draining) => if draining then 3 else 5
    case Select => if s.batch == [] then 4 else 6
  }

  ghost predicate Quiet(s: State) {
    s.pc.Stopped? || (s.pc.Select? && s.batch == [] && s.ch == [] && !s.closed)
  }

  /** The drain has already found the channel empty. */
  predicate PastDrain(s: State) { s.pc.Stopped? || s.pc.LastFlush? }

  lemma WorkerStep(s: State)
    requires Bounds(s) && !Quiet(s)
    ensures var t := Apply(s, NextWork(s));
            && t.accepted == s.accepted && t.closed == s.closed && ByWorker(NextWork(s))
            && (|t.ch| < |s.ch| || (t.ch == s.ch && Work(t) < Work(s)))
            && (PastDrain(s) ==> PastDrain(t) && t.ch == s.ch)
            && (!PastDrain(s) && PastDrain(t) ==> t.ch == [])
  {
  }

  /** t is where the worker by itself takes s: nothing in hand, and the channel empty unless the drain was over. */
  ghost predicate WorkedOff(s: State, t: State) {
    && t.accepted == s.accepted && t.closed == s.closed && Quiet(t)
    && t.ch == if PastDrain(s) then s.ch else []
  }

  lemma WorkedOffBefore(s: State, t: State)
    requires Bounds(s) && !Quiet(s) && WorkedOff(Apply(s, NextWork(s)), t)
    ensures WorkedOff(s, t)
  {
    WorkerStep(s);
  }

  lemma RunCons(before: seq<Action>, a: Action, after: seq<Action>)
    ensures Run(before + [a] + after) == Run(before + ([a] + after)) && Run(before + [a]) == Apply(Run(before), a)
  {
    assert before + [a] + after == before + ([a] + after);
    RunSplit(before, a);
  }

  lemma WorksOff(before: seq<Action>) returns (after: seq<Action>)
    ensures (forall a <- after :: ByWorker(a)) && WorkedOff(Run(before), Run(before + after))
    decreases |Run(before).ch|, Work(Run(before))
  {
    if Quiet(Run(before)) {
      after := [];
      assert before + after == before;
    } else {
      var s, a := Run(before), NextWork(Run(before));
      Safety(before);
      WorkerStep(s);
      RunSplit(before, a);
      var rest := WorksOff(before + [a]);
      RunCons(before, a, rest);
      WorkedOffBefore(s, Run(before + [a] + rest));
      after := [a] + rest;
    }
  }

  /**
   From every state of every run the worker by itself, with at most its ticker to help, puts everything accepted so
   far and then is idle, or stopped if done has been closed. Only what is in the channel after the drain has found
   it empty is out of its reach.
   */
  lemma NothingIsStuck(before: seq<Action>) returns (after: seq<Action>)
    ensures forall a <- after :: ByWorker(a)
    ensures var s, t := Run(before), Run(before + after);
            && (if s.closed then t.pc.Stopped? else t.pc.Select?)
            && (if PastDrain(s) then Concat(t.puts) + s.ch else Concat(t.puts)) == s.accepted
  {
    after := WorksOff(before);
    Safety(before);
    Safety(before + after);
    var put, ch := Concat(Run(before + after).puts), Run(before + after).ch;
    assert [] + ch == ch && put + [] == put;
  }

  /**
   When the worker has stopped (which is what Close waits for), everything accepted before done was closed
   has been put, in order, and what has been put is an initial stretch of what was accepted.
   */
  lemma CloseDelivers(before: seq<Action>, after: seq<Action>)
    requires !Run(before).closed && Run(before + [Close] + after).pc.Stopped?
    ensures var s, t := Run(before), Run(before + [Close] + after);
            && s.accepted <= Concat(t.puts) <= t.accepted
            && |t.ch| == |t.accepted| - |Concat(t.puts)|
  {
    RunSplit(before, Close);
    AcceptedGrows(before + [Close], after);
    CloseIsKept(before + [Close], after);
    Safety(before + [Close] + after);
    StoppedChannel(before + [Close] + after);
  }

  lemma {:induction false} StoppedStays(before: seq<Action>, after: seq<Action>)
    requires Run(before).pc.Stopped?
    ensures Run(before + after).pc.Stopped? && Run(before + after).puts == Run(before).puts
    decreases |after|
  {
    if after == [] {
      assert before + after == before;
    } else {
      var init, last := after[..|after| - 1], after[|after| - 1];
      StoppedStays(before, init);
      assert before + after == before + init + [last];
      RunSplit(before + init, last);
      PutsGrow(Run(before + init), last);
    }
  }

  /**
   Once the worker has stopped, the entries put are for ever the first n accepted ones, n being what had left the
   channel by then. Every later Emit that finds room is accepted all the same and counted nowhere: it stays in the
   channel behind what the drain left there, and only calls that find the channel full are counted as dropped.
   */
  lemma LateEntriesAreLost(before: seq<Action>, after: seq<Action>)
    requires Run(before).pc.Stopped?
    ensures var s, t := Run(before), Run(before + after);
            var n := |s.accepted| - |s.ch|;
            && 0 <= n <= |t.accepted| && Concat(t.puts) == t.accepted[..n]
            && t.accepted == s.accepted + Admitted(before, after)
            && t.ch == s.ch + Admitted(before, after)
            && t.dropped + t.dropping == s.dropped + s.dropping + |Refused(before, after)|
  {
    StoppedStays(before, after);
    AdmittedAreAccepted(before, after);
    RefusedAreCounted(before, after);
    StoppedChannel(before);
    StoppedChannel(before + after);
    var put := Concat(Run(before).puts);
    TailOf(put, Run(before).ch, Admitted(before, after), Run(before + after).ch);
  }

  lemma StoppedChannel(actions: seq<Action>)
    requires Run(actions).pc.Stopped?
    ensures var s := Run(actions); s.accepted == Concat(s.puts) + s.ch
  {
    Safety(actions);
    assert [] + Run(actions).ch == Run(actions).ch;
  }

  lemma TailOf(put: seq<Entry>, ch: seq<Entry>, more: seq<Entry>, later: seq<Entry>)
    requires put + ch + more == put + later
    ensures later == ch + more && (put + later)[..|put|] == put
  {
    Append(put, ch, more);
    assert later == (put + later)[|put|..] == (put + (ch + more))[|put|..];
  }

  /** Such a loss does happen: Close on an idle emitter, then one Emit. */
  lemma OneEntryIsLost(e: Entry) returns (actions: seq<Action>)
    ensures var s := Run(actions);
            s.pc.Stopped? && s.accepted == [e] && s.puts == [] && s.emitted == 1 && s.dropped == s.dropping == 0
  {
    actions := [];
    RunSplit(actions, Close);
    actions := actions + [Close];
    RunSplit(actions, SeeDone);
    actions := actions + [SeeDone];
    RunSplit(actions, DrainEmpty);
    actions := actions + [DrainEmpty];
    RunSplit(actions, Put);
    actions := actions + [Put];
    RunSplit(actions, Offer(e));
    actions := actions + [Offer(e)];
  }

  /** The worker alone, from the moment its select picks done. */
  function DrainRun(s: State): State
    requires s.pc.Drain?
    decreases |s.ch|
  {
    if s.ch == [] then Apply(Apply(s, DrainEmpty), Put)
    else
      var t := Apply(s, Receive);
      DrainRun(if t.pc.Flush? then Apply(t, Put) else t)
  }

  lemma DrainStep(s: State)
    requires s.pc.Drain? && s.ch != [] && |s.batch| < BATCH_SIZE
    ensures var t := Apply(s, Receive);
            && t.batch + t.ch == s.batch + s.ch
            && t == s.(batch := s.batch + [s.ch[0]], ch := s.ch[1..], pc := t.pc)
            && (|t.batch| < BATCH_SIZE ==> t.pc == Drain) && (|t.batch| >= BATCH_SIZE ==> t.pc == Flush(true))
  {
    MoveOne(s.batch, s.ch);
  }

  lemma {:induction false} DrainExact(s: State)
    requires s.pc.Drain? && |s.batch| < BATCH_SIZE
    ensures DrainRun(s) == s.(pc := Stopped, ch := [], batch := [], puts := s.puts + Chunks(s.batch + s.ch))
    decreases |s.ch|
  {
    if s.ch == [] {
      assert s.batch + s.ch == s.batch;
    } else {
      var t := Apply(s, Receive);
      DrainStep(s);
      if t.pc.Flush? {
        DrainExact(Apply(t, Put));
        assert [] + t.ch == t.ch;
        ChunksFull(t.batch, t.ch);
        assert s.puts + [t.batch] + Chunks(t.ch) == s.puts + ([t.batch] + Chunks(t.ch));
      } else {
        DrainExact(t);
      }
    }
  }

  /**
   With no further Emit, the drain hands over exactly what the batch and the channel held, in order, in
   ceil((batch + channel) / 128) puts, and stops.
   */
  lemma DrainPuts(s: State)
    requires s.pc.Drain? && |s.batch| < BATCH_SIZE
    ensures var t := DrainRun(s);
            && t.pc.Stopped? && t.ch == [] && t.batch == []
            && Concat(t.puts) == Concat(s.puts) + (s.batch + s.ch)
            && |t.puts| - |s.puts| == (|s.batch| + |s.ch| + BATCH_SIZE - 1) / BATCH_SIZE
  {
    DrainExact(s);
    ChunksExact(s.batch + s.ch);
    ConcatSplit(s.puts, Chunks(s.batch + s.ch));
  }

  lemma ChunksFull(full: seq<Entry>, rest: seq<Entry>)
    requires |full| == BATCH_SIZE
    ensures Chunks(full + rest) == [full] + Chunks(rest)
  {
    if rest == [] {
      assert full + rest == full;
    } else {
      assert (full + rest)[..BATCH_SIZE] == full && (full + rest)[BATCH_SIZE..] == rest;
    }
  }

  // ----- the program's own form -----

  class Emitter {
    var ch: seq<Entry>
    var batch: seq<Entry>
    var pc: Pc
    var closed: bool
    var dropped: nat
    ghost var dropping: nat
    ghost var emitted: nat
    ghost var puts: seq<seq<Entry>>
    ghost var accepted: seq<Entry>
    ghost var acceptedAtClose: nat

    ghost function View(): State
      reads this
    {
      State(ch, batch, pc, closed, dropped, dropping, puts, emitted, accepted, acceptedAtClose)
    }

    constructor ()
      ensures View() == START
    {
      ch, batch, pc, closed, dropped := [], [], Select, false, 0;
      dropping, emitted, puts, accepted, acceptedAtClose := 0, 0, [], [], 0;
    }

    /** The select of Emit: never blocks. */
    method Send(e: Entry) returns (sent: bool)
      modifies this
      ensures View() == Apply(old(View()), Offer(e))
      ensures sent == (old(|ch|) < BUFFER_SIZE) && ch == if sent then old(ch) + [e] else old(ch)
      ensures batch == old(batch) && pc == old(pc) && closed == old(closed) && dropped == old(dropped)
    {
      emitted := emitted + 1;
      sent := |ch| < BUFFER_SIZE;
      if sent {
        ch, accepted := ch + [e], accepted + [e];
      } else {
        dropping := dropping + 1;
      }
    }

    /** The locked counter update of Emit. */
    method Count()
      requires dropping > 0
      modifies this
      ensures View() == Apply(old(View()), CountDrop)
      ensures dropped == old(dropped) + 1 && dropping == old(dropping) - 1 && ch == old(ch) && batch == old(batch)
    {
      dropping := dropping - 1;
      dropped := dropped + 1;
    }

    /** One Emit with nothing in between: the entry is queued or counted, never both, never neither. */
    method Emit(e: Entry)
      requires Inv(View()) && dropping == 0
      modifies this
      ensures Inv(View()) && dropping == 0
      ensures ch == if old(|ch|) < BUFFER_SIZE then old(ch) + [e] else old(ch)
      ensures dropped == if old(|ch|) < BUFFER_SIZE then old(dropped) else old(dropped) + 1
      ensures batch == old(batch) && pc == old(pc) && closed == old(closed) && puts == old(puts)
      ensures emitted == old(emitted) + 1 && acceptedAtClose == old(acceptedAtClose)
    {
      StepKeepsInv(View(), Offer(e));
      var sent := Send(e);
      if !sent {
        StepKeepsInv(View(), CountDrop);
        Count();
      }
    }

    method Close()
      modifies this
      ensures View() == Apply(old(View()), Action.Close)
      ensures closed && ch == old(ch) && batch == old(batch) && pc == old(pc) && dropped == old(dropped)
    {
      if !closed {
        closed, acceptedAtClose := true, |accepted|;
      }
    }

    /** `flush`: an empty batch is not put. */
    method FlushBatch()
      modifies this`batch, this`puts
      ensures batch == [] && puts == if old(batch) == [] then old(puts) else old(puts) + [old(batch)]
    {
      if |batch| == 0 {
        return;
      }
      puts := puts + [batch];
      batch := [];
    }

    /** The receive case of either select. */
    method OnEntry()
      requires (pc.Select? || pc.Drain?) && ch != []
      modifies this
      ensures View() == var t := Apply(old(View()), Receive); if t.pc.Flush? then Apply(t, Put) else t
      ensures ch == old(ch[1..]) && pc == old(pc) && closed == old(closed) && dropped == old(dropped)
      ensures if old(|batch|) + 1 < BATCH_SIZE then puts == old(puts) && batch == old(batch + [ch[0]])
              else puts == old(puts + [batch + [ch[0]]]) && batch == []
    {
      batch := batch + [ch[0]];
      ch := ch[1..];
      if |batch| >= BATCH_SIZE {
        FlushBatch();
      }
    }

    /** The ticker case. */
    method OnTick()
      requires pc.Select?
      modifies this
      ensures View() == Apply(Apply(old(View()), Tick), if old(batch) == [] then Tick else Put)
      ensures batch == [] && puts == if old(batch) == [] then old(puts) else old(puts) + [old(batch)]
      ensures ch == old(ch) && pc == old(pc) && closed == old(closed) && dropped == old(dropped)
    {
      FlushBatch();
    }

    /** The done case: drain what is queued, flush the remainder, stop. */
    method OnDone()
      requires pc.Select? && closed && |batch| < BATCH_SIZE
      modifies this
      ensures View() == DrainRun(Apply(old(View()), SeeDone))
      ensures puts == old(puts) + Chunks(old(batch) + old(ch))
      ensures ch == [] && batch == [] && pc == Stopped
    {
      pc := Drain;
      DrainExact(View());
      while |ch| > 0
        invariant pc.Drain?
        invariant DrainRun(View()) == DrainRun(Apply(old(View()), SeeDone))
        decreases |ch|
      {
        OnEntry();
      }
      FlushBatch();
      pc := Stopped;
    }
  }
}
