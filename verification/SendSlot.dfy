/**
 The shared pacing of e-mail starts: one Redis key, one atomic script, and the loop that waits for a slot.
 Server time is in milliseconds; a key lives up to and including its expiry.
 */
module SendSlot {
  import opened Common

  const WINDOW := 60_000

  datatype Slot = Slot(next: int, expiry: int)

  /** A granted start and the interval it was granted under. */
  datatype Grant = Grant(at: int, interval: int)

  datatype Server = Server(now: int, slot: Option<Slot>, grants: seq<Grant>)

  datatype Action = Tick(ms: nat) | Reserve(interval: int)

  function Start(now: nat): Server {
    Server(now, None, [])
  }

  /** The milliseconds between starts at `rate` per minute, rounded up. */
  function Interval(rate: int): (ms: int)
    requires rate > 0
    ensures ms >= 1 && (ms - 1) * rate < WINDOW <= ms * rate
  {
    var ms := (WINDOW + rate - 1) / rate;
    CeilingDivision(rate);
    ms
  }

  lemma CeilingDivision(rate: int)
    requires rate > 0
    ensures var ms := (WINDOW + rate - 1) / rate; ms >= 1 && (ms - 1) * rate < WINDOW <= ms * rate
  {
    var ms := (WINDOW + rate - 1) / rate;
    assert WINDOW + rate - 1 == ms * rate + (WINDOW + rate - 1) % rate;
    assert (ms - 1) * rate == ms * rate - rate;
  }

  /** What `GET` finds: nothing, once the key has expired. */
  function NextSlot(s: Server): int {
    if s.slot.Some? && s.now <= s.slot.value.expiry then s.slot.value.next else 0
  }

  /** The script's answer: how long to wait, or 0 with the slot taken. */
  function WaitFor(s: Server): int {
    if NextSlot(s) > s.now then NextSlot(s) - s.now else 0
  }

  function Step(s: Server, a: Action): Server {
    match a
    case Tick(ms) => s.(now := s.now + ms)
    case Reserve(interval) =>
      if WaitFor(s) > 0 then s
      else s.(slot := Some(Slot(s.now + interval, s.now + Max(2 * interval, 1))), grants := s.grants + [Grant(s.now, interval)])
  }

  function Run(s: Server, actions: seq<Action>): Server
    decreases |actions|
  {
    if actions == [] then s else Run(Step(s, actions[0]), actions[1..])
  }

  /** Every caller asks with an interval of at least one millisecond. */
  predicate Positive(actions: seq<Action>) {
    forall a :: a in actions && a.Reserve? ==> a.interval >= 1
  }

  predicate OneInterval(actions: seq<Action>, interval: int) {
    forall a :: a in actions && a.Reserve? ==> a.interval == interval
  }

  // ---------------------------------------------------------------- the invariant

  /** The key is the last grant's, and outlives the wait it imposes. */
  predicate ServerOk(s: Server) {
    && s.now >= 0
    && (s.slot.None? <==> s.grants == [])
    && (s.grants != [] ==>
          var last := s.grants[|s.grants| - 1];
          && 0 <= last.at <= s.now && s.slot.value.next == last.at + last.interval
          && s.slot.value.next < s.slot.value.expiry)
  }

  /** Each start comes at least the previous start's interval later. */
  predicate Spaced(grants: seq<Grant>) {
    forall i :: 0 < i < |grants| ==> grants[i - 1].at + grants[i - 1].interval <= grants[i].at
  }

  lemma StepKeeps(s: Server, a: Action)
    requires ServerOk(s) && Spaced(s.grants) && (a.Reserve? ==> a.interval >= 1)
    ensures ServerOk(Step(s, a)) && Spaced(Step(s, a).grants)
  {
  }

  lemma {:induction false} RunKeeps(s: Server, actions: seq<Action>)
    requires ServerOk(s) && Spaced(s.grants) && Positive(actions)
    ensures ServerOk(Run(s, actions)) && Spaced(Run(s, actions).grants)
    decreases |actions|
  {
    if actions != [] {
      StepKeeps(s, actions[0]);
      RunKeeps(Step(s, actions[0]), actions[1..]);
    }
  }

  // ---------------------------------------------------------------- pacing

  /** Under mixed rates every gap is at least the earlier grant's interval, across key expiry too. */
  lemma GapsRespectTheEarlierInterval(start: nat, actions: seq<Action>, i: nat)
    requires Positive(actions)
    requires 0 < i < |Run(Start(start), actions).grants|
    ensures var grants := Run(Start(start), actions).grants; grants[i].at - grants[i - 1].at >= grants[i - 1].interval
  {
    hide Run;
    RunKeeps(Start(start), actions);
  }

  function StartsIn(grants: seq<Grant>, from: int, to: int): nat
    decreases |grants|
  {
    if grants == [] then 0 else (if from <= grants[0].at < to then 1 else 0) + StartsIn(grants[1..], from, to)
  }

  predicate AllOf(grants: seq<Grant>, interval: int) {
    forall i :: 0 <= i < |grants| ==> grants[i].interval == interval
  }

  /** `n` starts at or after `first` and before `to` span `n - 1` intervals. */
  lemma {:induction false} StartsSpan(grants: seq<Grant>, from: int, to: int, first: int, interval: int)
    requires Spaced(grants) && AllOf(grants, interval) && interval >= 1 && from <= first
    requires grants != [] ==> first <= grants[0].at
    ensures StartsIn(grants, from, to) > 0 ==> (StartsIn(grants, from, to) - 1) * interval < to - first
    decreases |grants|
  {
    if grants != [] {
      var rest := grants[1..];
      assert forall i :: 0 <= i < |rest| ==> rest[i] == grants[i + 1];
      StartsSpan(rest, from, to, grants[0].at + interval, interval);
      var n := StartsIn(rest, from, to);
      assert n * interval == (n - 1) * interval + interval;
    }
  }

  /** So does any window. */
  lemma {:induction false} WindowSpan(grants: seq<Grant>, from: int, to: int, interval: int)
    requires Spaced(grants) && AllOf(grants, interval) && interval >= 1
    ensures StartsIn(grants, from, to) > 0 ==> (StartsIn(grants, from, to) - 1) * interval < to - from
    decreases |grants|
  {
    if grants != [] {
      var rest := grants[1..];
      assert forall i :: 0 <= i < |rest| ==> rest[i] == grants[i + 1];
      if grants[0].at < from {
        WindowSpan(rest, from, to, interval);
      } else {
        StartsSpan(grants, from, to, from, interval);
      }
    }
  }

  lemma {:induction false} RunKeepsInterval(s: Server, actions: seq<Action>, interval: int)
    requires OneInterval(actions, interval) && AllOf(s.grants, interval)
    ensures AllOf(Run(s, actions).grants, interval)
    decreases |actions|
  {
    if actions != [] {
      RunKeepsInterval(Step(s, actions[0]), actions[1..], interval);
    }
  }

  /** With one rate, any half-open minute of server time holds at most that many starts. */
  lemma AtMostRatePerMinute(start: nat, actions: seq<Action>, rate: int, from: int)
    requires rate > 0 && OneInterval(actions, Interval(rate))
    ensures StartsIn(Run(Start(start), actions).grants, from, from + WINDOW) <= rate
  {
    hide Run, StartsIn, Interval;
    var interval := Interval(rate);
    RunKeeps(Start(start), actions);
    RunKeepsInterval(Start(start), actions, interval);
    var n := StartsIn(Run(Start(start), actions).grants, from, from + WINDOW);
    WindowSpan(Run(Start(start), actions).grants, from, from + WINDOW, interval);
    if n > rate {
      assert (n - 1) * interval >= rate * interval by { Grows(rate, n - 1, interval); }
    }
  }

  lemma Grows(a: int, b: int, c: int)
    requires a <= b && 0 <= c
    ensures a * c <= b * c
  {
  }

  /** The wait is exact: if nobody else takes the slot, it is due after that long and not a millisecond before. */
  lemma WaitIsExact(s: Server, ms: nat)
    requires ServerOk(s) && WaitFor(s) > 0
    ensures WaitFor(Step(s, Tick(ms))) > 0 <==> ms < WaitFor(s)
  {
  }

  // ---------------------------------------------------------------- the waiting loop

  lemma {:induction false} RunAppends(s: Server, first: seq<Action>, second: seq<Action>)
    ensures Run(s, first + second) == Run(Run(s, first), second)
    decreases |first|
  {
    if first == [] {
      assert first + second == second;
    } else {
      assert (first + second)[1..] == first[1..] + second;
      RunAppends(Step(s, first[0]), first[1..], second);
    }
  }

  lemma RunExtends(s: Server, actions: seq<Action>, a: Action)
    ensures Run(s, actions + [a]) == Step(Run(s, actions), a)
  {
    RunAppends(s, actions, [a]);
    assert [a][1..] == [];
  }

  datatype Answer = Granted | Refused | BadRate

  /** While a waiter sleeps: how much longer than asked it sleeps, and what the server does meanwhile. */
  datatype Sleep = Sleep(extra: nat, others: seq<Action>)

  /** The first `k` unsuccessful rounds of a waiter: it asks, and others act while it sleeps. */
  function Rounds(interval: int, sleeps: nat -> Sleep, k: nat): seq<Action>
    decreases k
  {
    if k == 0 then [] else Rounds(interval, sleeps, k - 1) + [Reserve(interval)] + sleeps(k - 1).others
  }

  /** What it is told in round `k`. */
  function Told(s: Server, interval: int, sleeps: nat -> Sleep, k: nat): int {
    WaitFor(Run(s, Rounds(interval, sleeps, k)))
  }

  /** How long `k` rounds take: each as long as told, and what the sleep adds. */
  function Slept(s: Server, interval: int, sleeps: nat -> Sleep, k: nat): int
    decreases k
  {
    if k == 0 then 0 else Slept(s, interval, sleeps, k - 1) + Told(s, interval, sleeps, k - 1) + sleeps(k - 1).extra
  }

  lemma NextRound(s: Server, interval: int, sleeps: nat -> Sleep, k: nat)
    ensures Run(s, []) == s && Rounds(interval, sleeps, 0) == [] && Slept(s, interval, sleeps, 0) == 0
    ensures Run(s, Rounds(interval, sleeps, k) + [Reserve(interval)]) == Step(Run(s, Rounds(interval, sleeps, k)), Reserve(interval))
    ensures Rounds(interval, sleeps, k + 1) == Rounds(interval, sleeps, k) + [Reserve(interval)] + sleeps(k).others
    ensures Run(s, Rounds(interval, sleeps, k + 1)) == Run(Run(s, Rounds(interval, sleeps, k) + [Reserve(interval)]), sleeps(k).others)
    ensures Slept(s, interval, sleeps, k + 1)
            == Slept(s, interval, sleeps, k) + WaitFor(Run(s, Rounds(interval, sleeps, k))) + sleeps(k).extra
  {
    hide Step, WaitFor;
    RunExtends(s, Rounds(interval, sleeps, k), Reserve(interval));
    RunAppends(s, Rounds(interval, sleeps, k) + [Reserve(interval)], sleeps(k).others);
  }

  class EmailPacing {
    var now: int
    var slot: Option<Slot>
    var grants: seq<Grant>

    function State(): Server
      reads this
    {
      Server(now, slot, grants)
    }

    ghost predicate Valid()
      reads this
    {
      ServerOk(State()) && Spaced(grants)
    }

    constructor (start: nat)
      ensures Valid() && State() == Start(start)
    {
      now, slot, grants := start, None, [];
    }

    /** `RESERVE_SEND_SLOT_SCRIPT`. */
    method ReserveSlot(interval: int) returns (wait: int)
      requires Valid() && interval >= 1
      modifies this
      ensures Valid() && State() == Step(old(State()), Reserve(interval))
      ensures wait == old(WaitFor(State())) && wait >= 0
      ensures wait > 0 ==> State() == old(State())
      ensures wait == 0 ==> grants == old(grants) + [Grant(now, interval)]
    {
      StepKeeps(State(), Reserve(interval));
      var next := if slot.Some? && now <= slot.value.expiry then slot.value.next else 0;
      if next > now {
        return next - now;
      }
      slot := Some(Slot(now + interval, now + Max(interval * 2, 1)));
      grants := grants + [Grant(now, interval)];
      return 0;
    }

    method Interfere(actions: seq<Action>)
      requires Valid() && Positive(actions)
      modifies this
      ensures Valid() && State() == Run(old(State()), actions)
    {
      RunKeeps(State(), actions);
      var s := Run(State(), actions);
      now, slot, grants := s.now, s.slot, s.grants;
    }

    /**
     `wait_for_send_slot`; `clock` is the caller's own clock at the start and `ended` when it returned, in
     milliseconds, `maxWait` the caller's patience and `sleeps` what each sleep turns out to be. It asks the
     script until it is granted a slot, sleeps exactly as long as it is told, gives up exactly when that would end
     after the deadline, and never sleeps towards a later instant.
     */
    method WaitForSendSlot(rate: int, maxWait: int, clock: int, sleeps: nat -> Sleep)
      returns (answer: Answer, ended: int, polls: nat, trace: seq<Action>)
      requires Valid() && forall k :: Positive(sleeps(k).others)
      modifies this
      ensures Valid() && State() == Run(old(State()), trace)
      ensures answer == BadRate <==> rate <= 0
      ensures rate <= 0 || maxWait < 0 ==> trace == [] && answer != Granted && ended == clock
      ensures rate > 0 && maxWait >= 0 ==>
                var s, interval := old(State()), Interval(rate);
                && 1 <= polls <= maxWait + 1
                && trace == Rounds(interval, sleeps, polls - 1) + [Reserve(interval)]
                && ended == clock + Slept(s, interval, sleeps, polls - 1)
                && (forall k :: 0 <= k < polls - 1 ==>
                      0 < Told(s, interval, sleeps, k) <= maxWait - Slept(s, interval, sleeps, k))
                && (answer == Granted <==> Told(s, interval, sleeps, polls - 1) == 0)
                && (answer == Refused <==> Told(s, interval, sleeps, polls - 1) > Max(clock + maxWait - ended, 0))
      ensures answer == Granted ==> grants != [] && grants[|grants| - 1] == Grant(now, Interval(rate))
      ensures maxWait >= 0 && polls > 1 ==> ended <= clock + maxWait + sleeps(polls - 2).extra
    {
      hide Run, Step, Interval, WaitFor, Rounds, Slept, Spaced, ServerOk;
      ghost var first := State();
      assert Run(first, []) == first by { NextRound(first, 1, sleeps, 0); }
      answer, ended, polls, trace := Refused, clock, 0, [];
      if rate <= 0 {
        return BadRate, ended, polls, trace;
      }
      if maxWait < 0 {
        return;
      }
      var interval := Interval(rate);
      var deadline := clock + maxWait;
      NextRound(first, interval, sleeps, 0);
      while true
        invariant Valid() && State() == Run(first, trace) && trace == Rounds(interval, sleeps, polls)
        invariant ended == clock + Slept(first, interval, sleeps, polls) && clock + polls <= ended
        invariant forall k :: 0 <= k < polls ==>
                    0 < Told(first, interval, sleeps, k) <= maxWait - Slept(first, interval, sleeps, k)
        invariant polls > 0 ==> ended <= deadline + sleeps(polls - 1).extra
        invariant polls <= maxWait && answer == Refused
        decreases maxWait - polls
      {
        NextRound(first, interval, sleeps, polls);
        trace := trace + [Reserve(interval)];
        var wait := ReserveSlot(interval);
        polls := polls + 1;
        if wait <= 0 {
          return Granted, ended, polls, trace;
        }
        if wait > deadline - ended {
          return;
        }
        var sleep := sleeps(polls - 1);
        ended := ended + wait + sleep.extra;
        trace := trace + sleep.others;
        Interfere(sleep.others);
      }
    }
  }
}
