/**
 The snapshot cache (internal/infra/cache.go): serve what is in memory, refresh behind the request, one
 refresh in flight, at most one start per TTL.

 `State` holds the mutex-protected fields and every refresh goroutine that has not ended; `Step` is one critical
 section, or one step of a refresh goroutine. That no two goroutines ever fly at once is proved, not built in. The
 clock is read as often as the code reads it, so one Get carries three readings. The class `Cache` is the program's
 form; everything over whole runs is proved of `Run`.
 */
module Cache {
  import opened Common

  type Time = int

  const SECOND: int := 1_000_000_000

  datatype Snapshot = Snapshot(body: nat, stale: bool)

  datatype Options = Options(ttl: int, staleAfter: int)

  /** NewCache: zero or negative options fall back to the defaults. */
  function WithDefaults(o: Options): (c: Options)
    ensures c.ttl > 0 && c.staleAfter > 0
    ensures (o.ttl > 0 ==> c.ttl == o.ttl) && (o.staleAfter > 0 ==> c.staleAfter == o.staleAfter)
  {
    Options(if o.ttl <= 0 then 60 * SECOND else o.ttl,
            if o.staleAfter <= 0 then 300 * SECOND else o.staleAfter)
  }

  /** A refresh goroutine: launched, without a collector to read through, unable to build one, or collecting. */
  datatype Phase = Starting | Building | Broken(err: string) | Collecting

  datatype State = State(
    collector: bool,            // a collector has been built
    snap: Option<Snapshot>,
    fetchedAt: Time,
    attempted: Option<Time>,    // None is Go's zero time
    refreshing: bool,
    flying: seq<Phase>,         // the refresh goroutines that have been launched and have not ended
    lastErr: Option<string>)

  const COLD := State(false, None, 0, None, false, [], None)

  datatype Reply = Served(snap: Snapshot) | NotReady(cause: Option<string>)

  datatype Event =
    | Get(t1: Time, t2: Time, t3: Time)   // age, throttle test, attempted
    | Prime(t2: Time, t3: Time)
    | Look(g: nat)                            // goroutine g reads the collector under the lock
    | Build(g: nat, failure: Option<string>)  // it builds its own, and stores it under the lock
    | End(g: nat, t: Time, body: nat)         // it takes the lock to publish

  // ----- one critical section -----

  function StartRefresh(o: Options, s: State, t2: Time, t3: Time): State {
    if s.refreshing then s
    else if s.attempted.Some? && t2 - s.attempted.value < o.ttl then s
    else s.(refreshing := true, attempted := Some(t3), flying := s.flying + [Starting])
  }

  /** Goroutine g, if there is one and it stands at p. */
  predicate Stands(s: State, g: nat, p: Phase) {
    g < |s.flying| && s.flying[g] == p
  }

  /** The goroutine can publish: it has collected, or has failed to get a collector. */
  predicate Ending(s: State, g: nat) {
    g < |s.flying| && (s.flying[g].Collecting? || s.flying[g].Broken?)
  }

  /** The goroutine publishes and is gone. */
  function Publish(s: State, g: nat, t: Time, body: nat): State
    requires Ending(s, g)
  {
    var after := s.(refreshing := false, flying := s.flying[..g] + s.flying[g + 1..]);
    if s.flying[g].Broken? then after.(lastErr := Some(s.flying[g].err))
    else after.(lastErr := None, snap := Some(Snapshot(body, false)), fetchedAt := t)
  }

  function Step(o: Options, s: State, e: Event): State {
    match e
    case Get(t1, t2, t3) =>
      if s.snap.None? || t1 - s.fetchedAt >= o.ttl then StartRefresh(o, s, t2, t3) else s
    case Prime(t2, t3) => StartRefresh(o, s, t2, t3)
    case Look(g) =>
      if Stands(s, g, Starting) then s.(flying := s.flying[g := if s.collector then Collecting else Building]) else s
    case Build(g, failure) =>
      if !Stands(s, g, Building) then s
      else if failure.Some? then s.(flying := s.flying[g := Broken(failure.value)])
      else s.(collector := true, flying := s.flying[g := Collecting])
    case End(g, t, body) =>
      if Ending(s, g) then Publish(s, g, t, body) else s
  }

  function Answer(o: Options, s: State, t1: Time): Reply {
    if s.snap.None? then NotReady(s.lastErr)
    else Served(s.snap.value.(stale := t1 - s.fetchedAt > o.staleAfter))
  }

  // ----- runs -----

  function Run(o: Options, es: seq<Event>): State {
    if es == [] then COLD else Step(o, Run(o, es[..|es| - 1]), es[|es| - 1])
  }

  datatype Attempt = Success(at: Time, body: nat) | Failure(err: string)

  /** The refresh the event completes, if any. */
  function Completed(s: State, e: Event): seq<Attempt> {
    if !e.End? || !Ending(s, e.g) then []
    else if s.flying[e.g].Collecting? then [Success(e.t, e.body)]
    else [Failure(s.flying[e.g].err)]
  }

  /** The launch of a goroutine, if the event brings one: a goroutine more than before. */
  function Launched(s: State, e: Event, t: State): seq<Time> {
    if (e.Get? || e.Prime?) && |t.flying| > |s.flying| then [e.t3] else []
  }

  /** The completed refreshes of a run, in order. */
  function Attempts(o: Options, es: seq<Event>): seq<Attempt> {
    if es == [] then []
    else Attempts(o, es[..|es| - 1]) + Completed(Run(o, es[..|es| - 1]), es[|es| - 1])
  }

  /** The moments at which refreshes were started: one for every goroutine launched. */
  function Starts(o: Options, es: seq<Event>): seq<Time> {
    if es == [] then []
    else Starts(o, es[..|es| - 1]) + Launched(Run(o, es[..|es| - 1]), es[|es| - 1], Run(o, es))
  }

  // ----- Get refines "the last successful refresh, if any" -----

  /** When the last successful refresh completed, and what it brought. */
  function LastSuccess(attempts: seq<Attempt>): Option<(Time, nat)> {
    if attempts == [] then None
    else if attempts[|attempts| - 1].Success? then Some((attempts[|attempts| - 1].at, attempts[|attempts| - 1].body))
    else LastSuccess(attempts[..|attempts| - 1])
  }

  function LastError(attempts: seq<Attempt>): Option<string> {
    if attempts != [] && attempts[|attempts| - 1].Failure? then Some(attempts[|attempts| - 1].err) else None
  }

  /** What Get promises, said of the completed refreshes alone. */
  function Promise(o: Options, attempts: seq<Attempt>, now: Time): Reply {
    match LastSuccess(attempts)
    case None => NotReady(LastError(attempts))
    case Some(last) => Served(Snapshot(last.1, now - last.0 > o.staleAfter))
  }

  ghost predicate Remembers(s: State, attempts: seq<Attempt>) {
    && s.lastErr == LastError(attempts)
    && (s.snap.None? <==> LastSuccess(attempts).None?)
    && (s.snap.Some? ==> LastSuccess(attempts) == Some((s.fetchedAt, s.snap.value.body)))
  }

  lemma StepRemembers(o: Options, s: State, e: Event, attempts: seq<Attempt>)
    requires Remembers(s, attempts)
    ensures Remembers(Step(o, s, e), attempts + Completed(s, e))
  {
    var more := attempts + Completed(s, e);
    if Completed(s, e) == [] { assert more == attempts; } else { assert more[..|more| - 1] == attempts; }
  }

  lemma {:induction false} RunRemembers(o: Options, es: seq<Event>)
    ensures Remembers(Run(o, es), Attempts(o, es))
  {
    if es != [] {
      RunRemembers(o, es[..|es| - 1]);
      StepRemembers(o, Run(o, es[..|es| - 1]), es[|es| - 1], Attempts(o, es[..|es| - 1]));
    }
  }

  /** In every run Get answers with the last successful refresh, and before the first one with the last error. */
  lemma GetRefinesLastSuccess(o: Options, es: seq<Event>, now: Time)
    ensures Answer(o, Run(o, es), now) == Promise(o, Attempts(o, es), now)
  {
    RunRemembers(o, es);
  }

  // ----- rate: one refresh in flight, starts a TTL apart -----

  predicate Ordered(e: Event) {
    match e
    case Get(t1, t2, t3) => t1 <= t2 <= t3
    case Prime(t2, t3) => t2 <= t3
    case _ => true
  }

  ghost predicate OneFlies(s: State) {
    |s.flying| <= 1 && (s.refreshing <==> |s.flying| == 1)
  }

  lemma StepFlies(o: Options, s: State, e: Event)
    requires OneFlies(s)
    ensures var t := Step(o, s, e);
            OneFlies(t) && |t.flying| + |Completed(s, e)| == |s.flying| + |Launched(s, e, t)|
  {
  }

  /**
   In every run at most one refresh goroutine exists, exactly while `refreshing` is set, and it is the one start
   that has not been completed.
   */
  lemma {:induction false} SingleFlight(o: Options, es: seq<Event>)
    ensures OneFlies(Run(o, es))
    ensures |Starts(o, es)| == |Attempts(o, es)| + |Run(o, es).flying|
  {
    if es != [] {
      SingleFlight(o, es[..|es| - 1]);
      StepFlies(o, Run(o, es[..|es| - 1]), es[|es| - 1]);
    }
  }

  /** Whoever collects has a collector, and with a collector no goroutine is left that could fail. */
  ghost predicate Equipped(s: State) {
    && (s.snap.Some? || Collecting in s.flying ==> s.collector)
    && (s.collector ==> forall p <- s.flying :: p.Starting? || p.Collecting?)
  }

  lemma StepStaysEquipped(o: Options, s: State, e: Event)
    requires Equipped(s) && |s.flying| <= 1
    ensures Equipped(Step(o, s, e))
  {
    match e
    case Build(g, failure) => if Stands(s, g, Building) { assert s.flying == [Building] && Building in s.flying; }
    case Look(g) => if Stands(s, g, Starting) { assert s.flying == [Starting]; }
    case End(g, _, _) => if Ending(s, g) { assert s.flying == [s.flying[0]] && s.flying[0] in s.flying; }
    case _ =>
  }

  lemma {:induction false} AlwaysEquipped(o: Options, es: seq<Event>)
    ensures Equipped(Run(o, es))
  {
    if es != [] {
      AlwaysEquipped(o, es[..|es| - 1]);
      SingleFlight(o, es[..|es| - 1]);
      StepStaysEquipped(o, Run(o, es[..|es| - 1]), es[|es| - 1]);
    }
  }

  /** The goroutine that stored the collector was the only one flying, so after a success no attempt fails. */
  lemma {:induction false} CollectorStays(o: Options, es: seq<Event>)
    ensures Run(o, es).snap.Some? ==> Run(o, es).collector
    ensures forall i, j :: 0 <= i < j < |Attempts(o, es)| && Attempts(o, es)[i].Success? ==>
              Attempts(o, es)[j].Success?
  {
    AlwaysEquipped(o, es);
    if es != [] {
      var before, e := es[..|es| - 1], es[|es| - 1];
      CollectorStays(o, before);
      AlwaysEquipped(o, before);
      RunRemembers(o, before);
      SuccessInside(Attempts(o, before));
      if e.End? && Ending(Run(o, before), e.g) { assert Run(o, before).flying[e.g] in Run(o, before).flying; }
    }
  }

  lemma {:induction false} SuccessInside(attempts: seq<Attempt>)
    ensures LastSuccess(attempts).Some? <==> exists a <- attempts :: a.Success?
  {
    if attempts != [] {
      SuccessInside(attempts[..|attempts| - 1]);
      assert attempts[|attempts| - 1] in attempts;
      assert forall a <- attempts :: a == attempts[|attempts| - 1] || a in attempts[..|attempts| - 1];
    }
  }

  ghost predicate SpacedBy(ttl: int, starts: seq<Time>) {
    forall i, j :: 0 <= i < j < |starts| ==> starts[i] + ttl <= starts[j]
  }

  lemma StepThrottled(o: Options, s: State, e: Event)
    requires Ordered(e)
    ensures var t := Step(o, s, e);
            var started := Launched(s, e, t);
            && (started == [] ==> t.attempted == s.attempted)
            && (started != [] ==> started == [e.t3] && t.attempted == Some(e.t3)
                                  && (s.attempted.Some? ==> s.attempted.value + o.ttl <= e.t3))
  {
  }

  lemma {:induction false} StartsSpaced(o: Options, es: seq<Event>)
    requires o.ttl > 0 && forall e <- es :: Ordered(e)
    ensures SpacedBy(o.ttl, Starts(o, es))
    ensures Run(o, es).attempted ==
            if Starts(o, es) == [] then None else Some(Starts(o, es)[|Starts(o, es)| - 1])
  {
    if es != [] {
      assert Ordered(es[|es| - 1]);
      StartsSpaced(o, es[..|es| - 1]);
      StepThrottled(o, Run(o, es[..|es| - 1]), es[|es| - 1]);
    }
  }

  /** How many of the starts fall into the closed interval [lo, hi]. */
  function CountWithin(starts: seq<Time>, lo: Time, hi: Time): nat {
    if starts == [] then 0
    else CountWithin(starts[..|starts| - 1], lo, hi) + if lo <= starts[|starts| - 1] <= hi then 1 else 0
  }

  lemma {:induction false} CountTighter(starts: seq<Time>, lo: Time, hi: Time, hi': Time)
    requires hi' <= hi && forall i :: 0 <= i < |starts| ==> starts[i] <= hi'
    ensures CountWithin(starts, lo, hi) == CountWithin(starts, lo, hi')
    ensures hi' < lo ==> CountWithin(starts, lo, hi) == 0
  {
    if starts != [] { CountTighter(starts[..|starts| - 1], lo, hi, hi'); }
  }

  lemma OneMoreGap(n: nat, ttl: int, span: int)
    requires ttl > 0 && span >= 0 && (n > 0 ==> (n - 1) * ttl <= span - ttl)
    ensures n * ttl <= span
  {
    if n > 0 { assert n * ttl == (n - 1) * ttl + ttl; }
  }

  lemma {:induction false} SpacedCount(starts: seq<Time>, ttl: int, lo: Time, hi: Time)
    requires ttl > 0 && SpacedBy(ttl, starts)
    ensures CountWithin(starts, lo, hi) > 0 ==> (CountWithin(starts, lo, hi) - 1) * ttl <= hi - lo
  {
    if starts != [] {
      var init, last := starts[..|starts| - 1], starts[|starts| - 1];
      if lo <= last <= hi {
        CountTighter(init, lo, hi, last - ttl);
        SpacedCount(init, ttl, lo, last - ttl);
        OneMoreGap(CountWithin(init, lo, last - ttl), ttl, last - lo);
      } else {
        SpacedCount(init, ttl, lo, hi);
      }
    }
  }

  lemma TimesMonotone(a: int, b: int, d: nat)
    requires a <= b
    ensures a * d <= b * d
  {
  }

  lemma FloorBound(n: nat, d: int, x: nat)
    requires d > 0 && n * d <= x
    ensures n <= x / d
  {
    if n > x / d {
      TimesMonotone(x / d + 1, n, d);
      assert false;
    }
  }

  lemma SpacedBound(starts: seq<Time>, ttl: int, from: Time, length: nat)
    requires ttl > 0 && SpacedBy(ttl, starts)
    ensures CountWithin(starts, from, from + length) <= length / ttl + 1
  {
    var n := CountWithin(starts, from, from + length);
    SpacedCount(starts, ttl, from, from + length);
    if n > 0 { FloorBound(n - 1, ttl, length); }
  }

  /** Any window of length T holds at most floor(T / ttl) + 1 refresh starts, whatever the mix of events. */
  lemma StartsPerWindow(o: Options, es: seq<Event>, from: Time, length: nat)
    requires o.ttl > 0 && forall e <- es :: Ordered(e)
    ensures CountWithin(Starts(o, es), from, from + length) <= length / o.ttl + 1
  {
    var ttl := o.ttl;
    StartsSpaced(o, es);
    SpacedBound(Starts(o, es), ttl, from, length);
  }

  // ----- freshness -----

  /** Deployment assumptions: Gets at least every `poll`, a refresh over within `budget`, one clock from `t0`. */
  datatype Pace = Pace(t0: Time, poll: int, budget: int)

  predicate Timed(e: Event) { e.Get? || e.Prime? || e.End? }

  function First(e: Event): Time
    requires Timed(e)
  {
    match e
    case Get(t1, _, _) => t1
    case Prime(t2, _) => t2
    case End(_, t, _) => t
  }

  function Last(e: Event): Time
    requires Timed(e)
  {
    match e
    case Get(_, _, t3) => t3
    case Prime(_, t3) => t3
    case End(_, t, _) => t
  }

  function Clock(t0: Time, es: seq<Event>): Time {
    if es == [] then t0
    else if Timed(es[|es| - 1]) then Last(es[|es| - 1])
    else Clock(t0, es[..|es| - 1])
  }

  function LastGet(t0: Time, es: seq<Event>): Time {
    if es == [] then t0
    else if es[|es| - 1].Get? then es[|es| - 1].t1
    else LastGet(t0, es[..|es| - 1])
  }

  /** The next event keeps the pace: monotone clock, the next Get in time, no refresh overdue. */
  predicate KeepsPace(o: Options, p: Pace, es: seq<Event>, e: Event) {
    var s := Run(o, es);
    && Ordered(e)
    && (Timed(e) ==> Clock(p.t0, es) <= First(e))
    && (e.Get? ==> e.t3 <= LastGet(p.t0, es) + p.poll)
    && (Timed(e) && s.flying != [] && s.attempted.Some? ==> Last(e) <= s.attempted.value + p.budget)
  }

  predicate Paced(o: Options, p: Pace, es: seq<Event>) {
    es == [] || (Paced(o, p, es[..|es| - 1]) && KeepsPace(o, p, es[..|es| - 1], es[|es| - 1]))
  }

  /** After a success the throttle cannot suppress a due refresh: `attempted` is no later than `fetchedAt`. */
  ghost predicate Fresh(o: Options, p: Pace, s: State, lastGet: Time) {
    s.snap.Some? ==>
      && s.attempted.Some?
      && (s.flying == [] ==> s.attempted.value <= s.fetchedAt && lastGet < s.fetchedAt + o.ttl)
      && (s.flying != [] ==>
            s.attempted.value <= s.fetchedAt + o.ttl + p.poll || lastGet < s.fetchedAt + o.ttl)
  }

  lemma {:induction false} ClockBounds(o: Options, p: Pace, es: seq<Event>)
    requires Paced(o, p, es)
    ensures LastGet(p.t0, es) <= Clock(p.t0, es)
    ensures Run(o, es).attempted.Some? ==> Run(o, es).attempted.value <= Clock(p.t0, es)
    ensures Run(o, es).flying != [] ==> Run(o, es).attempted.Some?
  {
    if es != [] { ClockBounds(o, p, es[..|es| - 1]); }
  }

  lemma EndIsFresh(o: Options, p: Pace, es: seq<Event>, e: Event)
    requires o.ttl > 0 && Paced(o, p, es) && KeepsPace(o, p, es, e) && e.End?
    requires Fresh(o, p, Run(o, es), LastGet(p.t0, es))
    ensures Fresh(o, p, Step(o, Run(o, es), e), LastGet(p.t0, es))
  {
    var s := Run(o, es);
    ClockBounds(o, p, es);
    SingleFlight(o, es);
    AlwaysEquipped(o, es);
    if Ending(s, e.g) { assert s.flying[e.g] in s.flying && s.flying == [s.flying[0]]; }
  }

  lemma TickIsFresh(o: Options, p: Pace, es: seq<Event>, e: Event)
    requires o.ttl > 0 && Paced(o, p, es) && KeepsPace(o, p, es, e) && !e.End?
    requires Fresh(o, p, Run(o, es), LastGet(p.t0, es))
    ensures Fresh(o, p, Step(o, Run(o, es), e), if e.Get? then e.t1 else LastGet(p.t0, es))
  {
    ClockBounds(o, p, es);
    SingleFlight(o, es);
  }

  lemma {:induction false} StaysFresh(o: Options, p: Pace, es: seq<Event>)
    requires o.ttl > 0 && Paced(o, p, es)
    ensures Fresh(o, p, Run(o, es), LastGet(p.t0, es))
  {
    if es != [] {
      var before, e := es[..|es| - 1], es[|es| - 1];
      StaysFresh(o, p, before);
      if e.End? { EndIsFresh(o, p, before, e); } else { TickIsFresh(o, p, before, e); }
    }
  }

  /** After the first success, no Get serves a snapshot older than ttl + poll + budget. */
  lemma AgeBound(o: Options, p: Pace, es: seq<Event>, e: Event)
    requires o.ttl > 0 && p.budget >= 0 && e.Get? && Paced(o, p, es) && KeepsPace(o, p, es, e)
    requires Run(o, es).snap.Some?
    ensures e.t1 - Run(o, es).fetchedAt <= o.ttl + p.poll + p.budget
    ensures o.ttl + p.poll + p.budget <= o.staleAfter ==> !Answer(o, Run(o, es), e.t1).snap.stale
  {
    StaysFresh(o, p, es);
    ClockBounds(o, p, es);
  }

  /** With the default cache, polling and refreshing within four minutes together never shows a stale page. */
  lemma DefaultsStayFresh(p: Pace, es: seq<Event>, e: Event)
    requires p.budget >= 0 && p.poll + p.budget <= 240 * SECOND
    requires var o := WithDefaults(Options(0, 0)); e.Get? && Paced(o, p, es) && KeepsPace(o, p, es, e)
    ensures var r := Answer(WithDefaults(Options(0, 0)), Run(WithDefaults(Options(0, 0)), es), e.t1);
            r.Served? ==> !r.snap.stale
  {
    var o := WithDefaults(Options(0, 0));
    if Run(o, es).snap.Some? { AgeBound(o, p, es, e); }
  }

  // ----- refreshes keep coming, successes and failures alike -----

  /** At every timed event the last Get is at most `poll` ago. */
  predicate Polled(p: Pace, es: seq<Event>) {
    es == [] || (Polled(p, es[..|es| - 1])
                 && (Timed(es[|es| - 1]) ==> Last(es[|es| - 1]) <= LastGet(p.t0, es[..|es| - 1]) + p.poll))
  }

  /** No snapshot is younger than the start of the last refresh allows, and no Get has found that start overdue. */
  ghost predicate OnTime(o: Options, p: Pace, s: State, lastGet: Time) {
    && (s.snap.Some? ==> s.attempted.Some? && s.fetchedAt <= s.attempted.value + p.budget)
    && (s.attempted.Some? ==> lastGet <= s.attempted.value + o.ttl + p.budget)
  }

  lemma EndIsOnTime(o: Options, p: Pace, es: seq<Event>, e: Event)
    requires o.ttl > 0 && p.budget >= 0 && Paced(o, p, es) && KeepsPace(o, p, es, e) && !e.Get? && !e.Prime?
    requires OnTime(o, p, Run(o, es), LastGet(p.t0, es))
    ensures OnTime(o, p, Step(o, Run(o, es), e), LastGet(p.t0, es))
  {
    ClockBounds(o, p, es);
  }

  lemma GetIsOnTime(o: Options, p: Pace, es: seq<Event>, e: Event)
    requires o.ttl > 0 && p.budget >= 0 && Paced(o, p, es) && KeepsPace(o, p, es, e) && (e.Get? || e.Prime?)
    requires OnTime(o, p, Run(o, es), LastGet(p.t0, es))
    ensures var t := Step(o, Run(o, es), e);
            OnTime(o, p, t, if e.Get? then e.t1 else LastGet(p.t0, es)) && t.attempted.Some?
  {
    ClockBounds(o, p, es);
    SingleFlight(o, es);
    AlwaysOnceAttempted(o, es);
  }

  /** Whatever the cache knows it has attempted to learn. */
  lemma {:induction false} AlwaysOnceAttempted(o: Options, es: seq<Event>)
    ensures var s := Run(o, es); s.snap.Some? || s.flying != [] ==> s.attempted.Some?
  {
    if es != [] { AlwaysOnceAttempted(o, es[..|es| - 1]); }
  }

  lemma {:induction false} StaysOnTime(o: Options, p: Pace, es: seq<Event>)
    requires o.ttl > 0 && p.budget >= 0 && Paced(o, p, es)
    ensures OnTime(o, p, Run(o, es), LastGet(p.t0, es))
  {
    if es != [] {
      var before, e := es[..|es| - 1], es[|es| - 1];
      StaysOnTime(o, p, before);
      assert es == before + [e];
      if e.Get? || e.Prime? { GetIsOnTime(o, p, before, e); } else { EndIsOnTime(o, p, before, e); }
    }
  }

  lemma {:induction false} PacedIsOrdered(o: Options, p: Pace, es: seq<Event>)
    requires Paced(o, p, es)
    ensures forall e <- es :: Ordered(e)
  {
    if es != [] {
      PacedIsOrdered(o, p, es[..|es| - 1]);
      assert es == es[..|es| - 1] + [es[|es| - 1]];
    }
  }

  lemma StepOnTime(o: Options, p: Pace, es: seq<Event>, e: Event)
    requires o.ttl > 0 && p.budget >= 0 && Paced(o, p, es) && KeepsPace(o, p, es, e)
    requires Timed(e) ==> Last(e) <= LastGet(p.t0, es) + p.poll
    requires OnTime(o, p, Run(o, es), LastGet(p.t0, es))
    ensures var s, t := Run(o, es), Step(o, Run(o, es), e);
            var limit := o.ttl + p.poll + p.budget;
            && (Launched(s, e, t) != [] && s.attempted.Some? ==> e.t3 <= s.attempted.value + limit)
            && (Timed(e) && t.attempted.Some? ==> Last(e) <= t.attempted.value + limit)
            && (!Timed(e) ==> t.attempted == s.attempted)
  {
    ClockBounds(o, p, es);
  }

  ghost predicate AtMostApart(starts: seq<Time>, gap: int) {
    forall i :: 0 <= i < |starts| - 1 ==> starts[i + 1] <= starts[i] + gap
  }

  lemma ApartExtends(starts: seq<Time>, more: seq<Time>, gap: int)
    requires AtMostApart(starts, gap) && |more| <= 1
    requires starts != [] && more != [] ==> more[0] <= starts[|starts| - 1] + gap
    ensures AtMostApart(starts + more, gap)
  {
  }

  lemma LastStart(o: Options, p: Pace, es: seq<Event>)
    requires o.ttl > 0 && Paced(o, p, es)
    ensures Run(o, es).attempted ==
            if Starts(o, es) == [] then None else Some(Starts(o, es)[|Starts(o, es)| - 1])
  {
    PacedIsOrdered(o, p, es);
    StartsSpaced(o, es);
  }

  ghost predicate AsksForRefresh(es: seq<Event>) {
    exists e <- es :: e.Get? || e.Prime?
  }

  lemma AsksLast(es: seq<Event>)
    requires es != []
    ensures AsksForRefresh(es) <==> AsksForRefresh(es[..|es| - 1]) || es[|es| - 1].Get? || es[|es| - 1].Prime?
  {
    assert es == es[..|es| - 1] + [es[|es| - 1]];
  }

  lemma StepAttempts(o: Options, s: State, e: Event)
    requires OneFlies(s) && (s.snap.Some? || s.flying != [] ==> s.attempted.Some?)
    ensures var t := Step(o, s, e);
            && (t.attempted.Some? <==> s.attempted.Some? || e.Get? || e.Prime?)
            && (Launched(s, e, t) != [] ==> t.attempted.Some?)
            && (s.attempted.None? && t.attempted.Some? ==> Launched(s, e, t) != [])
  {
  }

  /** Whatever the clock does, the first Get or Prime starts a refresh, and nothing else ever starts the first. */
  lemma {:induction false} FirstCallStarts(o: Options, es: seq<Event>)
    ensures AsksForRefresh(es) <==> Starts(o, es) != []
    ensures Run(o, es).attempted.Some? <==> Starts(o, es) != []
  {
    if es != [] {
      FirstCallStarts(o, es[..|es| - 1]);
      SingleFlight(o, es[..|es| - 1]);
      AlwaysOnceAttempted(o, es[..|es| - 1]);
      StepAttempts(o, Run(o, es[..|es| - 1]), es[|es| - 1]);
      AsksLast(es);
    }
  }

  /**
   In a run with Gets at least every `poll` and refreshes over within `budget`, whether they succeed or fail, the
   first Get or Prime starts a refresh, consecutive starts are at most ttl + poll + budget apart, and the last one
   is never longer ago than that: an outage never stops the cache from trying.
   */
  lemma {:induction false} StartsKeepComing(o: Options, p: Pace, es: seq<Event>)
    requires o.ttl > 0 && p.budget >= 0 && Paced(o, p, es) && Polled(p, es)
    ensures AtMostApart(Starts(o, es), o.ttl + p.poll + p.budget)
    ensures AsksForRefresh(es) ==> Starts(o, es) != []
    ensures Starts(o, es) != [] ==>
              Clock(p.t0, es) <= Starts(o, es)[|Starts(o, es)| - 1] + o.ttl + p.poll + p.budget
  {
    LastStart(o, p, es);
    FirstCallStarts(o, es);
    if es != [] {
      var before, e := es[..|es| - 1], es[|es| - 1];
      StartsKeepComing(o, p, before);
      LastStart(o, p, before);
      StaysOnTime(o, p, before);
      StepOnTime(o, p, before, e);
      ApartExtends(Starts(o, before), Launched(Run(o, before), e, Run(o, es)), o.ttl + p.poll + p.budget);
    }
  }

  // ----- the program's own form -----

  class Cache {
    const o: Options
    var collector: bool
    var snap: Option<Snapshot>
    var fetchedAt: Time
    var attempted: Option<Time>
    var refreshing: bool
    var lastErr: Option<string>
    ghost var flying: seq<Phase>

    ghost predicate Valid()
      reads this
    {
      |flying| <= 1 && (refreshing <==> |flying| == 1)
    }

    ghost function View(): State
      reads this
    {
      State(collector, snap, fetchedAt, attempted, refreshing, flying, lastErr)
    }

    constructor (opts: Options)
      ensures Valid() && View() == COLD && o == WithDefaults(opts)
    {
      o := WithDefaults(opts);
      collector, snap, fetchedAt, attempted, refreshing, lastErr := false, None, 0, None, false, None;
      flying := [];
    }

    method StartRefreshLocked(t2: Time, t3: Time)
      requires Valid()
      modifies this`refreshing, this`attempted, this`flying
      ensures Valid() && View() == StartRefresh(o, old(View()), t2, t3)
      ensures var starts := !old(refreshing) && (old(attempted).Some? ==> t2 - old(attempted).value >= o.ttl);
              && refreshing == (old(refreshing) || starts)
              && attempted == if starts then Some(t3) else old(attempted)
    {
      if refreshing {
        return;
      }
      if attempted.Some? && t2 - attempted.value < o.ttl {
        return;
      }
      refreshing, attempted := true, Some(t3);
      flying := flying + [Starting];
    }

    method Prime(t2: Time, t3: Time)
      requires Valid()
      modifies this`refreshing, this`attempted, this`flying
      ensures Valid() && View() == Step(o, old(View()), Event.Prime(t2, t3))
      ensures refreshing <==> old(refreshing) || old(attempted).None? || t2 - old(attempted).value >= o.ttl
    {
      StartRefreshLocked(t2, t3);
    }

    method Get(t1: Time, t2: Time, t3: Time) returns (r: Reply)
      requires Valid()
      modifies this`refreshing, this`attempted, this`flying
      ensures Valid() && View() == Step(o, old(View()), Event.Get(t1, t2, t3))
      ensures r == Answer(o, old(View()), t1)
      ensures var due := old(snap).None? || t1 - old(fetchedAt) >= o.ttl;
              var starts := due && !old(refreshing) && (old(attempted).Some? ==> t2 - old(attempted).value >= o.ttl);
              && refreshing == (old(refreshing) || starts)
              && attempted == if starts then Some(t3) else old(attempted)
    {
      var age := t1 - fetchedAt;
      if snap.None? || age >= o.ttl {
        StartRefreshLocked(t2, t3);
      }
      if snap.None? {
        return NotReady(lastErr);
      }
      r := Served(snap.value.(stale := age > o.staleAfter));
    }

    /** The first critical section of `collect`. */
    method LookUpCollector() returns (found: bool)
      requires Valid() && flying == [Starting]
      modifies this`flying
      ensures Valid() && View() == Step(o, old(View()), Look(0)) && found == collector
    {
      found := collector;
      flying := [if found then Collecting else Building];
    }

    /** newCollector and, if it succeeds, the second critical section of `collect`. */
    method BuildCollector(failure: Option<string>)
      requires Valid() && flying == [Building]
      modifies this`collector, this`flying
      ensures Valid() && View() == Step(o, old(View()), Build(0, failure))
    {
      if failure.Some? {
        flying := [Broken(failure.value)];
        return;
      }
      collector := true;
      flying := [Collecting];
    }

    /** The critical section of `refresh`: publish the snapshot, or keep the old one and note the error. */
    method PublishLocked(err: Option<string>, t: Time, body: nat)
      requires Valid() && flying == [if err.Some? then Broken(err.value) else Collecting]
      modifies this`refreshing, this`lastErr, this`snap, this`fetchedAt, this`flying
      ensures Valid() && View() == Step(o, old(View()), End(0, t, body))
      ensures !refreshing && lastErr == err
      ensures if err.None? then snap == Some(Snapshot(body, false)) && fetchedAt == t
              else snap == old(snap) && fetchedAt == old(fetchedAt)
    {
      refreshing, lastErr := false, err;
      if err.None? {
        snap, fetchedAt := Some(Snapshot(body, false)), t;
      }
      flying := [];
    }

    /** One refresh goroutine that nothing interrupts; a built collector always yields a snapshot. */
    method Refresh(failure: Option<string>, t: Time, body: nat)
      requires Valid() && flying == [Starting]
      modifies this
      ensures Valid() && !refreshing && (snap.Some? <==> old(snap).Some? || old(collector) || failure.None?)
      ensures View() == Step(o, Step(o, Step(o, old(View()), Look(0)), Build(0, failure)), End(0, t, body))
    {
      var err := None;
      var found := LookUpCollector();
      if !found {
        BuildCollector(failure);
        err := failure;
      }
      PublishLocked(err, t, body);
    }
  }
}
