/**
 The signing-key cache: a module-global pair of keys and time stamp that concurrent calls read before, and write
 after, an await. Any number of calls interleave; fetches can fail and finish in any order.
 */
module Jwks {
  import opened Wrappers

  type Id = nat

  const TTL: real := 86400.0

  /** A key set, with the time at which the server answered with it, and the number of the step in which it did. */
  datatype Keys = Keys(document: int, fetchedAt: real, answer: nat)

  /** The stamp is the time the fetching call read before its request. */
  datatype Cached = Cached(keys: Keys, stamp: real)

  /** A call between its awaits: the response outstanding, or received and the client being closed. */
  datatype Call = Requesting(now: real) | Closing(now: real, keys: Keys)

  datatype Returned = Returned(keys: Keys, readAt: real, hit: bool)

  /** `taken` counts the steps of the run. */
  datatype State = State(
    clock: real, cache: Option<Cached>, calls: map<Id, Call>, returned: seq<Returned>, taken: nat)

  datatype Step =
    | Pass(seconds: real)
    | Begin(call: Id)
    | Respond(call: Id, document: int)
    | Fail(call: Id)
    | Finish(call: Id)

  const Initial: State := State(0.0, None, map[], [], 0)

  predicate Fresh(cache: Option<Cached>, now: real) {
    cache.Some? && now - cache.value.stamp < TTL
  }

  predicate Enabled(s: State, step: Step) {
    match step
    case Pass(seconds) => seconds >= 0.0
    case Begin(call) => call !in s.calls
    case Respond(call, _) => call in s.calls && s.calls[call].Requesting?
    case Fail(call) => call in s.calls
    case Finish(call) => call in s.calls && s.calls[call].Closing?
  }

  function Apply(s: State, step: Step): State
    requires Enabled(s, step)
  {
    match step
    case Pass(seconds) => s.(clock := s.clock + seconds)
    case Begin(call) =>
      if Fresh(s.cache, s.clock) then
        s.(returned := s.returned + [Returned(s.cache.value.keys, s.clock, true)])
      else
        s.(calls := s.calls[call := Requesting(s.clock)])
    case Respond(call, document) =>
      s.(calls := s.calls[call := Closing(s.calls[call].now, Keys(document, s.clock, s.taken))])
    case Fail(call) => s.(calls := s.calls - {call})
    case Finish(call) =>
      var done := s.calls[call];
      s.(cache := Some(Cached(done.keys, done.now)), calls := s.calls - {call},
         returned := s.returned + [Returned(done.keys, done.now, false)])
  }

  function Next(s: State, step: Step): State {
    (if Enabled(s, step) then Apply(s, step) else s).(taken := s.taken + 1)
  }

  function Run(s: State, steps: seq<Step>): State
    decreases |steps|
  {
    if steps == [] then s else Run(Next(s, steps[0]), steps[1..])
  }

  /** Keys are never older than their stamp, nor newer than the clock. */
  ghost predicate Sound(s: State) {
    && (s.cache.Some? ==> s.cache.value.stamp <= s.cache.value.keys.fetchedAt <= s.clock)
    && (forall c :: c in s.calls ==> s.calls[c].now <= s.clock)
    && (forall c :: c in s.calls && s.calls[c].Closing? ==> s.calls[c].now <= s.calls[c].keys.fetchedAt <= s.clock)
    && (forall i :: 0 <= i < |s.returned| ==> Bounded(s.returned[i]))
  }

  /** What a caller may rely on. */
  predicate Bounded(r: Returned) {
    if r.hit then 0.0 <= r.readAt - r.keys.fetchedAt < 86400.0 else r.readAt <= r.keys.fetchedAt
  }

  lemma SoundStep(s: State, step: Step)
    requires Sound(s)
    ensures Sound(Next(s, step))
  {}

  lemma {:induction false} SoundRun(s: State, steps: seq<Step>)
    requires Sound(s)
    ensures Sound(Run(s, steps))
    decreases |steps|
  {
    if steps != [] {
      SoundStep(s, steps[0]);
      SoundRun(Next(s, steps[0]), steps[1..]);
    }
  }

  /**
   For every interleaving, out-of-order writes included: a hit returns keys fetched at most, and less than, a day
   before the call read the clock; a miss returns keys fetched after it did.
   */
  lemma StalenessIsBounded(steps: seq<Step>, i: nat)
    requires i < |Run(Initial, steps).returned|
    ensures Bounded(Run(Initial, steps).returned[i])
  {
    SoundRun(Initial, steps);
  }

  lemma RunStep(s: State, step: Step, rest: seq<Step>)
    ensures Run(s, [step] + rest) == Run(Next(s, step), rest)
  {
    assert ([step] + rest)[1..] == rest;
  }

  lemma RunThree(s: State, a: Step, b: Step, c: Step, rest: seq<Step>)
    ensures Run(s, [a, b, c] + rest) == Run(Next(Next(Next(s, a), b), c), rest)
  {
    assert [a, b, c] + rest == [a] + ([b] + ([c] + rest));
    RunStep(s, a, [b] + ([c] + rest));
    RunStep(Next(s, a), b, [c] + rest);
    RunStep(Next(Next(s, a), b), c, rest);
  }

  // ----- which keys the cache holds

  /** Step m of the run is the return of a call from its last await. */
  predicate FinishAt(steps: seq<Step>, m: nat) {
    m < |steps| && steps[m].Finish? && Enabled(Run(Initial, steps[..m]), steps[m])
  }

  /** The call that finishes in step m. */
  function Finished(steps: seq<Step>, m: nat): Call
    requires FinishAt(steps, m)
  {
    Run(Initial, steps[..m]).calls[steps[m].call]
  }

  ghost predicate LastBefore(steps: seq<Step>, m: nat, n: nat) {
    m < n && FinishAt(steps, m) && forall k :: m < k < n ==> !FinishAt(steps, k)
  }

  lemma {:induction false} RunOneMore(s: State, steps: seq<Step>, step: Step)
    ensures Run(s, steps + [step]) == Next(Run(s, steps), step)
    decreases |steps|
  {
    if steps == [] {
      assert [] + [step] == [step];
      assert Run(s, [step]) == Run(Next(s, step), []);
    } else {
      assert (steps + [step])[1..] == steps[1..] + [step];
      RunOneMore(Next(s, steps[0]), steps[1..], step);
    }
  }

  lemma PrefixRun(steps: seq<Step>, n: nat)
    requires n < |steps|
    ensures Run(Initial, steps[..n + 1]) == Next(Run(Initial, steps[..n]), steps[n])
  {
    assert steps[..n + 1] == steps[..n] + [steps[n]];
    RunOneMore(Initial, steps[..n], steps[n]);
  }

  lemma OnlyFinishWrites(s: State, step: Step)
    ensures step.Finish? && Enabled(s, step) ==>
              Next(s, step).cache == Some(Cached(s.calls[step.call].keys, s.calls[step.call].now))
    ensures !(step.Finish? && Enabled(s, step)) ==> Next(s, step).cache == s.cache
  {}

  /** The cache holds what the last call to finish stored. */
  lemma {:induction false} CacheIsLastFinish(steps: seq<Step>, n: nat) returns (m: nat)
    requires n <= |steps|
    ensures var cache := Run(Initial, steps[..n]).cache;
            if cache.None? then forall k :: 0 <= k < n ==> !FinishAt(steps, k)
            else LastBefore(steps, m, n) && cache.value == Cached(Finished(steps, m).keys, Finished(steps, m).now)
  {
    m := 0;
    if n > 0 {
      var before := CacheIsLastFinish(steps, n - 1);
      PrefixRun(steps, n - 1);
      OnlyFinishWrites(Run(Initial, steps[..n - 1]), steps[n - 1]);
      m := if FinishAt(steps, n - 1) then n - 1 else before;
    }
  }

  lemma SameLast(steps: seq<Step>, m: nat, k: nat, n: nat)
    requires LastBefore(steps, m, n) && LastBefore(steps, k, n)
    ensures m == k
  {
    assert !(m < k) && !(k < m);
  }

  /** The finishing call puts keys into the cache that were answered before the ones it overwrites. */
  predicate KeysGoBack(steps: seq<Step>, n: nat)
    requires FinishAt(steps, n)
  {
    var cache := Run(Initial, steps[..n]).cache;
    cache.Some? && Finished(steps, n).keys.answer < cache.value.keys.answer
  }

  predicate StampGoesBack(steps: seq<Step>, n: nat)
    requires FinishAt(steps, n)
  {
    var cache := Run(Initial, steps[..n]).cache;
    cache.Some? && Finished(steps, n).now < cache.value.stamp
  }

  /**
   A finishing call puts older keys back if and only if the call that finished last before it was answered after it;
   the stamp goes back if and only if that call read the clock after it.
   */
  lemma WhatALateWritePutsBack(steps: seq<Step>, n: nat)
    requires FinishAt(steps, n)
    ensures KeysGoBack(steps, n)
            <==> exists m :: LastBefore(steps, m, n) && Finished(steps, n).keys.answer < Finished(steps, m).keys.answer
    ensures StampGoesBack(steps, n)
            <==> exists m :: LastBefore(steps, m, n) && Finished(steps, n).now < Finished(steps, m).now
  {
    var last := CacheIsLastFinish(steps, n);
    if Run(Initial, steps[..n]).cache.Some? {
      forall m | LastBefore(steps, m, n) ensures m == last { SameLast(steps, m, last, n); }
    }
  }

  /** Over a whole run, the calls finish in the order in which they were answered. */
  ghost predicate FinishInOrder(steps: seq<Step>) {
    forall m, n :: 0 <= m < n && FinishAt(steps, m) && FinishAt(steps, n) ==>
      Finished(steps, m).keys.answer <= Finished(steps, n).keys.answer
  }

  lemma {:induction false} ForwardKeepsOrder(steps: seq<Step>, m: nat, n: nat)
    requires m < n && FinishAt(steps, m) && FinishAt(steps, n)
    requires forall k :: FinishAt(steps, k) ==> !KeysGoBack(steps, k)
    ensures Finished(steps, m).keys.answer <= Finished(steps, n).keys.answer
    decreases n
  {
    var last := CacheIsLastFinish(steps, n);
    WhatALateWritePutsBack(steps, n);
    if m < last { ForwardKeepsOrder(steps, m, last); }
  }

  /** Over a whole run, no write puts older keys back if and only if the calls finish in the order of their answers. */
  lemma NeverBackExactly(steps: seq<Step>)
    ensures (forall n :: FinishAt(steps, n) ==> !KeysGoBack(steps, n)) <==> FinishInOrder(steps)
  {
    if forall n :: FinishAt(steps, n) ==> !KeysGoBack(steps, n) {
      forall m, n | 0 <= m < n && FinishAt(steps, m) && FinishAt(steps, n)
        ensures Finished(steps, m).keys.answer <= Finished(steps, n).keys.answer
      {
        ForwardKeepsOrder(steps, m, n);
      }
    }
    if FinishInOrder(steps) {
      forall n | FinishAt(steps, n) ensures !KeysGoBack(steps, n) { WhatALateWritePutsBack(steps, n); }
    }
  }

  /** The answer of a call is the step that its number names, at the time it names. */
  lemma {:induction false} AnswerIsAStep(steps: seq<Step>, n: nat, c: Id)
    requires n <= |steps| && c in Run(Initial, steps[..n]).calls && Run(Initial, steps[..n]).calls[c].Closing?
    ensures var keys := Run(Initial, steps[..n]).calls[c].keys;
            && keys.answer < n && steps[keys.answer] == Respond(c, keys.document)
            && Run(Initial, steps[..keys.answer]).clock == keys.fetchedAt
  {
    if n > 0 {
      PrefixRun(steps, n - 1);
      StepsTaken(steps, n - 1);
      var s := Run(Initial, steps[..n - 1]);
      if steps[n - 1].Respond? && steps[n - 1].call == c && Enabled(s, steps[n - 1]) {
        assert Run(Initial, steps[..n]).calls[c].keys == Keys(steps[n - 1].document, s.clock, n - 1);
      } else {
        AnswerIsAStep(steps, n - 1, c);
      }
    }
  }

  lemma {:induction false} StepsTaken(steps: seq<Step>, n: nat)
    requires n <= |steps|
    ensures Run(Initial, steps[..n]).taken == n
  {
    if n > 0 {
      StepsTaken(steps, n - 1);
      PrefixRun(steps, n - 1);
    }
  }

  lemma {:induction false} ClockRises(steps: seq<Step>, i: nat, j: nat)
    requires i <= j <= |steps|
    ensures Run(Initial, steps[..i]).clock <= Run(Initial, steps[..j]).clock
    decreases j
  {
    if i < j {
      ClockRises(steps, i, j - 1);
      PrefixRun(steps, j - 1);
    }
  }

  /** Keys that were answered earlier were fetched earlier. */
  lemma EarlierIsOlder(steps: seq<Step>, m: nat, n: nat)
    requires FinishAt(steps, m) && FinishAt(steps, n)
    requires Finished(steps, m).keys.answer <= Finished(steps, n).keys.answer
    ensures Finished(steps, m).keys.fetchedAt <= Finished(steps, n).keys.fetchedAt
  {
    AnswerIsAStep(steps, m, steps[m].call);
    AnswerIsAStep(steps, n, steps[n].call);
    ClockRises(steps, Finished(steps, m).keys.answer, Finished(steps, n).keys.answer);
  }

  // ----- two runs

  /** A late write can put back older keys, here under an older stamp. */
  lemma CacheCanGoBackward()
    ensures var steps := [Begin(0), Pass(1.0), Begin(1)] + ([Respond(0, 7), Pass(1.0), Respond(1, 8)] + []);
            var s := Next(Run(Initial, steps), Finish(1));
            var t := Next(s, Finish(0));
            && s.cache == Some(Cached(Keys(8, 2.0, 5), 1.0))
            && t.cache == Some(Cached(Keys(7, 1.0, 3), 0.0))
  {
    var s3 := Next(Next(Next(Initial, Begin(0)), Pass(1.0)), Begin(1));
    RunThree(Initial, Begin(0), Pass(1.0), Begin(1), [Respond(0, 7), Pass(1.0), Respond(1, 8)] + []);
    RunThree(s3, Respond(0, 7), Pass(1.0), Respond(1, 8), []);
  }

  /** And it can put them back under a newer stamp: keys fetched at 5 seconds give way to keys fetched at 2. */
  lemma KeysCanGoBackUnderANewerStamp()
    ensures var steps := [Begin(0), Pass(1.0), Begin(1)]
                         + ([Pass(1.0), Respond(1, 7), Pass(3.0)] + [Respond(0, 8)]);
            var s := Next(Run(Initial, steps), Finish(0));
            var t := Next(s, Finish(1));
            && s.cache == Some(Cached(Keys(8, 5.0, 6), 0.0))
            && t.cache == Some(Cached(Keys(7, 2.0, 4), 1.0))
  {
    var s3 := Next(Next(Next(Initial, Begin(0)), Pass(1.0)), Begin(1));
    var s6 := Next(Next(Next(s3, Pass(1.0)), Respond(1, 7)), Pass(3.0));
    RunThree(Initial, Begin(0), Pass(1.0), Begin(1), [Pass(1.0), Respond(1, 7), Pass(3.0)] + [Respond(0, 8)]);
    RunThree(s3, Pass(1.0), Respond(1, 7), Pass(3.0), [Respond(0, 8)]);
    assert [Respond(0, 8)] == [Respond(0, 8)] + [];
    RunStep(s6, Respond(0, 8), []);
  }

  // ----- the function as it runs

  /** What happens at one await: steps of others, then the outcome of the call. */
  datatype Event = Event(others: seq<Step>, failed: bool, document: int)

  predicate Touches(step: Step, call: Id) {
    !step.Pass? && step.call == call
  }

  /** The state once the steps that are not of this call have been taken. */
  function AfterOthers(call: Id, s: State, others: seq<Step>): State
    decreases |others|
  {
    if others == [] then s
    else
      var before := AfterOthers(call, s, others[..|others| - 1]);
      var step := others[|others| - 1];
      if Touches(step, call) then before else Next(before, step)
  }

  /** Where a call whose request is out ends: without its answer, or with it and the client closed. */
  function Fetched(world: nat -> Event, call: Id, s: State, tick: nat): (r: (State, nat, bool)) {
    var asked := AfterOthers(call, s, world(tick).others);
    if world(tick).failed then (Next(asked, Fail(call)), tick + 1, false)
    else
      var answered := AfterOthers(call, Next(asked, Respond(call, world(tick).document)), world(tick + 1).others);
      if world(tick + 1).failed then (Next(answered, Fail(call)), tick + 2, false)
      else (Next(answered, Finish(call)), tick + 2, true)
  }

  class KeyCache {
    const world: nat -> Event
    var tick: nat
    var state: State

    constructor (world: nat -> Event)
      ensures Sound(state) && state == Initial && this.world == world && tick == 0
    {
      this.world, tick, state := world, 0, Initial;
    }

    method Await(call: Id) returns (event: Event)
      requires Sound(state)
      modifies this
      ensures event == world(old(tick)) && tick == old(tick) + 1
      ensures state == AfterOthers(call, old(state), event.others)
      ensures Sound(state) && old(state).clock <= state.clock
      ensures call in state.calls <==> call in old(state).calls
      ensures call in state.calls ==> state.calls[call] == old(state).calls[call]
    {
      event := world(tick);
      tick := tick + 1;
      for i := 0 to |event.others|
        invariant state == AfterOthers(call, old(state), event.others[..i]) && tick == old(tick) + 1
        invariant Sound(state) && old(state).clock <= state.clock
        invariant call in state.calls <==> call in old(state).calls
        invariant call in state.calls ==> state.calls[call] == old(state).calls[call]
      {
        assert event.others[..i + 1][..i] == event.others[..i];
        if !Touches(event.others[i], call) {
          SoundStep(state, event.others[i]);
          state := Next(state, event.others[i]);
        }
      }
      assert event.others[..|event.others|] == event.others;
    }

    /** The request, and the closing of its client: both await, and either can raise. */
    method Fetch(call: Id) returns (keys: Option<Keys>)
      requires Sound(state) && call in state.calls && state.calls[call].Requesting?
      modifies this
      ensures Sound(state) && (state, tick, keys.Some?) == Fetched(world, call, old(state), old(tick))
      ensures keys.None? <==> world(old(tick)).failed || world(old(tick) + 1).failed
      ensures keys.Some? ==>
        && state.cache == Some(Cached(keys.value, old(state).calls[call].now))
        && keys.value.document == world(old(tick)).document && keys.value.fetchedAt >= old(state).clock
    {
      var event := Await(call);
      if event.failed {
        SoundStep(state, Fail(call));
        state := Next(state, Fail(call));
        return None;
      }
      SoundStep(state, Respond(call, event.document));
      state := Next(state, Respond(call, event.document));
      keys := Some(state.calls[call].keys);
      event := Await(call);
      if event.failed {
        SoundStep(state, Fail(call));
        state := Next(state, Fail(call));
        return None;
      }
      SoundStep(state, Finish(call));
      state := Next(state, Finish(call));
    }

    /**
     Returns the cached keys while their stamp is less than a day old; else fetches, stores and returns new ones.
     There are no keys if and only if they had to be fetched and one of the two awaits raised.
     */
    method GetJwks(call: Id) returns (keys: Option<Keys>)
      requires Sound(state) && call !in state.calls
      modifies this
      ensures Sound(state)
      ensures old(state).cache.Some? && old(state).clock < old(state).cache.value.stamp + 86400.0 ==>
        && keys == Some(old(state).cache.value.keys) && old(state).clock - keys.value.fetchedAt < 86400.0
        && state == Next(old(state), Begin(call)) && state.cache == old(state).cache && tick == old(tick)
      ensures old(state).cache.None? || old(state).clock >= old(state).cache.value.stamp + 86400.0 ==>
        && (state, tick, keys.Some?) == Fetched(world, call, Next(old(state), Begin(call)), old(tick))
        && (keys.None? <==> world(old(tick)).failed || world(old(tick) + 1).failed)
        && (keys.Some? ==>
              && state.cache == Some(Cached(keys.value, old(state).clock))
              && keys.value.document == world(old(tick)).document && keys.value.fetchedAt >= old(state).clock)
    {
      var now := state.clock;
      SoundStep(state, Begin(call));
      if state.cache.Some? && now - state.cache.value.stamp < TTL {
        keys := Some(state.cache.value.keys);
        state := Next(state, Begin(call));
        return;
      }
      state := Next(state, Begin(call));
      keys := Fetch(call);
    }
  }
}
