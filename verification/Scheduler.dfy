/** Timed chat jobs under overlapping ticks (packages/chat/src/scheduler.ts). Times are milliseconds; the local zone is
    a fixed offset from UTC. */
module Scheduler {
  import opened Messages
  import opened Whitespace

  const DAY_MS := 86400000

  datatype Trigger = At | After | Every

  /** The text of a trigger: a time of day, an instant, or neither. The date parser is a parameter. */
  datatype AtTime = TimeOfDay(ms: nat) | Instant(at: int)

  /** The clock's UTC offset and the two parsers of trigger texts. */
  datatype Zone = Zone(offset: int, atTime: string -> Option<AtTime>)

  ghost predicate IsZone(z: Zone) {
    forall text :: z.atTime(text).Some? && z.atTime(text).value.TimeOfDay? ==> z.atTime(text).value.ms < DAY_MS
  }

  // ---------------------------------------------------------------------
  // Durations
  // ---------------------------------------------------------------------

  predicate IsDigit(c: char) {
    '0' <= c <= '9'
  }

  function DigitsValue(s: string): nat {
    if s == "" then 0
    else DigitsValue(s[..|s| - 1]) * 10 + if IsDigit(s[|s| - 1]) then s[|s| - 1] as nat - '0' as nat else 0
  }

  /** The longest prefix of digits. */
  function DigitPrefix(s: string): (n: nat)
    ensures n <= |s| && forall i :: 0 <= i < n ==> IsDigit(s[i])
    ensures n < |s| ==> !IsDigit(s[n])
  {
    if s == "" || !IsDigit(s[0]) then 0 else DigitPrefix(s[1..]) + 1
  }

  function UnitMs(c: char): Option<nat> {
    match c
    case 's' => Some(1000)
    case 'm' => Some(60000)
    case 'h' => Some(3600000)
    case 'd' => Some(86400000)
    case 'S' => Some(1000)
    case 'M' => Some(60000)
    case 'H' => Some(3600000)
    case 'D' => Some(86400000)
    case _ => None
  }

  /** Digits, optional white space, one unit letter; a zero amount is refused. */
  function ParseDuration(value: string): (ms: Option<nat>)
    ensures ms.Some? ==> ms.value >= 1000
  {
    var text := Trim(value);
    var n := DigitPrefix(text);
    if n == 0 || n == |text| || !Blank(text[n..|text| - 1]) || UnitMs(text[|text| - 1]).None? then None
    else
      var amount := DigitsValue(text[..n]);
      if amount == 0 then None else Some(Positive(amount, UnitMs(text[|text| - 1]).value))
  }

  function Positive(amount: nat, unit: nat): (ms: nat)
    requires amount > 0
    ensures unit >= 1000 ==> ms >= 1000
  {
    assert amount * unit >= unit;
    amount * unit
  }

  lemma {:induction false} PrefixOfDigits(digits: string, rest: string)
    requires forall i :: 0 <= i < |digits| ==> IsDigit(digits[i])
    requires rest != "" && !IsDigit(rest[0])
    ensures DigitPrefix(digits + rest) == |digits|
    decreases |digits|
  {
    if digits == "" {
      assert digits + rest == rest;
    } else {
      PrefixOfDigits(digits[1..], rest);
      assert (digits + rest)[1..] == digits[1..] + rest;
    }
  }

  /** How many seconds each unit letter stands for. */
  const UNIT_SECONDS := map['s' := 1, 'm' := 60, 'h' := 60 * 60, 'd' := 24 * 60 * 60,
                            'S' := 1, 'M' := 60, 'H' := 60 * 60, 'D' := 24 * 60 * 60]

  /** Any number, any gap and any unit letter, in either case, give amount times unit; zero and any other letter give
      nothing. */
  lemma {:induction false} ParsesEveryDuration(digits: string, gap: string, unit: char)
    requires digits != "" && forall i :: 0 <= i < |digits| ==> IsDigit(digits[i])
    requires Blank(gap) && !IsSpace(unit) && !IsDigit(unit)
    ensures ParseDuration(digits + gap + [unit])
            == if DigitsValue(digits) == 0 || unit !in UNIT_SECONDS then None
               else Some(DigitsValue(digits) * (UNIT_SECONDS[unit] * 1000))
  {
    ParsesAmountAndUnit(digits, gap, unit);
    UnitsAgree(unit);
  }

  lemma {:induction false} UnitsAgree(unit: char)
    ensures UnitMs(unit) == if unit in UNIT_SECONDS then Some(UNIT_SECONDS[unit] * 1000) else None
  {
  }

  lemma {:induction false} ParsesAmountAndUnit(digits: string, gap: string, unit: char)
    requires digits != "" && forall i :: 0 <= i < |digits| ==> IsDigit(digits[i])
    requires Blank(gap) && !IsSpace(unit) && !IsDigit(unit)
    ensures ParseDuration(digits + gap + [unit])
            == if DigitsValue(digits) == 0 || UnitMs(unit).None? then None
               else Some(Positive(DigitsValue(digits), UnitMs(unit).value))
  {
    var text := digits + gap + [unit];
    assert text == digits + (gap + [unit]);
    NothingToTrim(text);
    PrefixOfDigits(digits, gap + [unit]);
    Parts(digits, gap, unit);
  }

  /** A number in decimal digits. */
  function Decimal(n: nat): (text: string)
    ensures text != "" && forall i :: 0 <= i < |text| ==> IsDigit(text[i])
  {
    if n < 10 then [('0' as nat + n) as char] else Decimal(n / 10) + [('0' as nat + n % 10) as char]
  }

  lemma {:induction false} DecimalIsRead(n: nat)
    ensures DigitsValue(Decimal(n)) == n
  {
    if n >= 10 {
      DecimalIsRead(n / 10);
      var text := Decimal(n);
      assert text[..|text| - 1] == Decimal(n / 10);
    } else {
      assert Decimal(n)[..0] == "";
    }
  }

  /** Reading a written duration gives it back. */
  lemma {:induction false} DurationRoundTrip(n: nat, gap: string, unit: char)
    requires n > 0 && Blank(gap) && unit in UNIT_SECONDS
    ensures ParseDuration(Decimal(n) + gap + [unit]) == Some(n * (UNIT_SECONDS[unit] * 1000))
  {
    DecimalIsRead(n);
    ParsesEveryDuration(Decimal(n), gap, unit);
  }

  lemma {:induction false} NothingToTrim(text: string)
    requires text != "" && !IsSpace(text[0]) && !IsSpace(text[|text| - 1])
    ensures Trim(text) == text
  {
  }

  lemma {:induction false} Parts(digits: string, gap: string, unit: char)
    ensures var text := digits + gap + [unit];
            text[..|digits|] == digits && text[|digits|..|text| - 1] == gap && text[|text| - 1] == unit
  {
  }

  predicate IsDuration(text: string, digits: string, gap: string, unit: char) {
    && text == digits + gap + [unit]
    && digits != "" && (forall i :: 0 <= i < |digits| ==> IsDigit(digits[i])) && DigitsValue(digits) > 0
    && Blank(gap) && unit in UNIT_SECONDS
  }

  /** Nothing else parses: what does is, once trimmed, a positive number, a gap and a unit, and it has their value. */
  lemma {:induction false} ParsesOnlyDurations(value: string)
    requires ParseDuration(value).Some?
    ensures exists digits, gap, unit ::
              && IsDuration(Trim(value), digits, gap, unit)
              && ParseDuration(value) == Some(DigitsValue(digits) * (UNIT_SECONDS[unit] * 1000))
  {
    var text := Trim(value);
    var n := DigitPrefix(text);
    var digits, gap, unit := text[..n], text[n..|text| - 1], text[|text| - 1];
    assert text == digits + gap + [unit];
    assert IsDuration(text, digits, gap, unit);
  }

  // ---------------------------------------------------------------------
  // The next slot
  // ---------------------------------------------------------------------

  function DayStart(z: Zone, now: int): int {
    (now + z.offset) / DAY_MS * DAY_MS - z.offset
  }

  function TimeOfDayOf(z: Zone, time: AtTime): nat {
    match time
    case TimeOfDay(ms) => ms
    case Instant(at) => (at + z.offset) % DAY_MS
  }

  /** Today at the given time of day, or tomorrow when that has passed. */
  function NextDaily(z: Zone, tod: nat, now: int): int {
    var today := DayStart(z, now) + tod;
    if today <= now then today + DAY_MS else today
  }

  /** The daily slot is the least instant after now whose local time of day is the wanted one. */
  lemma {:induction false} NextDailyIsLeast(z: Zone, tod: nat, now: int, other: int)
    requires tod < DAY_MS
    ensures NextDaily(z, tod, now) > now && (NextDaily(z, tod, now) + z.offset) % DAY_MS == tod
    ensures other > now && (other + z.offset) % DAY_MS == tod ==> other >= NextDaily(z, tod, now)
  {
    var local := now + z.offset;
    var days := local / DAY_MS;
    assert local == days * DAY_MS + local % DAY_MS;
    var next := NextDaily(z, tod, now) + z.offset;
    assert next == days * DAY_MS + tod || next == (days + 1) * DAY_MS + tod;
    DayOf(if next == days * DAY_MS + tod then days else days + 1, tod);
    if other > now && (other + z.offset) % DAY_MS == tod {
      var otherDays := (other + z.offset) / DAY_MS;
      assert other + z.offset == otherDays * DAY_MS + tod;
      assert otherDays >= days;
    }
  }

  lemma {:induction false} DayOf(days: int, tod: nat)
    requires tod < DAY_MS
    ensures (days * DAY_MS + tod) % DAY_MS == tod
  {
  }

  function ComputeNextFireAt(z: Zone, trigger: Trigger, when: string, now: int): Option<int> {
    match trigger
    case After =>
      (match ParseDuration(when) case Some(ms) => Some(now + ms) case None => None)
    case Every =>
      (match ParseDuration(when)
       case Some(ms) => Some(now + ms)
       case None => match z.atTime(when) case Some(at) => Some(NextDaily(z, TimeOfDayOf(z, at), now)) case None => None)
    case At =>
      match z.atTime(when)
      case Some(TimeOfDay(ms)) => Some(NextDaily(z, ms, now))
      case Some(Instant(at)) => Some(at)
      case None => None
  }

  datatype Spec = Spec(trigger: Trigger, when: string)

  /** None disables the job: only repeating jobs have a next slot. */
  function NextFireAtAfter(z: Zone, spec: Spec, now: int): Option<int> {
    if spec.trigger != Every then None else ComputeNextFireAt(z, Every, spec.when, now)
  }

  /** The least distance between a claim and the next slot. */
  function Spacing(spec: Spec): nat {
    match ParseDuration(spec.when)
    case Some(ms) => ms
    case None => 1
  }

  lemma {:induction false} NextSlotIsLater(z: Zone, spec: Spec, now: int)
    requires IsZone(z) && NextFireAtAfter(z, spec, now).Some?
    ensures NextFireAtAfter(z, spec, now).value >= now + Spacing(spec) && Spacing(spec) > 0 && spec.trigger == Every
  {
    if ParseDuration(spec.when).None? {
      var tod := TimeOfDayOf(z, z.atTime(spec.when).value);
      NextDailyIsLeast(z, tod, now, now);
    }
  }

  /** The first slot of a job: its duration from now; or the next time of day, the least later instant that has it; or
      the given instant, which only a job for that one time takes as it stands. */
  lemma {:induction false} FirstSlotExactly(z: Zone, spec: Spec, now: int, slot: int)
    requires IsZone(z)
    ensures var length, time := ParseDuration(spec.when), z.atTime(spec.when);
            ComputeNextFireAt(z, spec.trigger, spec.when, now) == Some(slot) <==>
              if spec.trigger != At && length.Some? then slot == now + length.value
              else if spec.trigger == After || time.None? then false
              else if spec.trigger == At && time.value.Instant? then slot == time.value.at
              else
                var tod := if time.value.Instant? then (time.value.at + z.offset) % DAY_MS else time.value.ms;
                && slot > now && (slot + z.offset) % DAY_MS == tod
                && slot - now <= DAY_MS
  {
    var length, time := ParseDuration(spec.when), z.atTime(spec.when);
    if time.Some? {
      var tod := if time.value.Instant? then (time.value.at + z.offset) % DAY_MS else time.value.ms;
      NextDailyIsLeast(z, tod, now, slot);
      NextDailyIsSoon(z, tod, now, slot);
    }
  }

  /** Two instants at the same time of day within one day of each other's past are the same. */
  lemma {:induction false} NextDailyIsSoon(z: Zone, tod: nat, now: int, slot: int)
    requires tod < DAY_MS
    ensures NextDaily(z, tod, now) - now <= DAY_MS
    ensures slot > now && (slot + z.offset) % DAY_MS == tod && slot - now <= DAY_MS ==> slot == NextDaily(z, tod, now)
  {
    NextDailyIsLeast(z, tod, now, slot);
    var local := now + z.offset;
    assert local == local / DAY_MS * DAY_MS + local % DAY_MS;
    if slot > now && (slot + z.offset) % DAY_MS == tod && slot - now <= DAY_MS {
      SameDay(slot + z.offset, NextDaily(z, tod, now) + z.offset, tod);
    }
  }

  lemma {:induction false} SameDay(a: int, b: int, tod: nat)
    requires a % DAY_MS == tod && b % DAY_MS == tod && b <= a < b + DAY_MS
    ensures a == b
  {
    assert a == a / DAY_MS * DAY_MS + tod && b == b / DAY_MS * DAY_MS + tod;
  }

  // ---------------------------------------------------------------------
  // The scheduler
  // ---------------------------------------------------------------------

  datatype Job = Job(spec: Spec, nextFireAt: int, enabled: bool, fireCount: nat)

  /** A tick that read the clock as now took the job's slot. */
  datatype Claim = Claim(id: string, slot: int, now: int)

  /** The jobs, with the specifications of all jobs ever scheduled and all claims so far. */
  datatype State = State(jobs: map<string, Job>, specs: map<string, Spec>, claims: seq<Claim>)

  predicate Due(s: State, id: string, now: int) {
    id in s.jobs && s.jobs[id].enabled && s.jobs[id].nextFireAt <= now
  }

  function Claimed(z: Zone, job: Job, now: int): Job {
    match NextFireAtAfter(z, job.spec, now)
    case Some(next) => job.(nextFireAt := next)
    case None => job.(enabled := false)
  }

  /** The part of a tick's work on one job that runs without interruption: check and claim. */
  function Fire(z: Zone, s: State, id: string, now: int): State {
    if Due(s, id, now) then
      s.(jobs := s.jobs[id := Claimed(z, s.jobs[id], now)],
         claims := s.claims + [Claim(id, s.jobs[id].nextFireAt, now)])
    else s
  }

  /** Ticks overlap: between any two jobs of a tick other ticks, with their own clock readings, and callers act. */
  datatype Action =
    | Schedule(id: string, spec: Spec, now: int)
    | Cancel(id: string)
    | Remove(id: string)
    | Tick(id: string, now: int)
    | Completed(id: string)

  function Step(z: Zone, s: State, a: Action): State {
    match a
    case Schedule(id, spec, now) =>
      (match ComputeNextFireAt(z, spec.trigger, spec.when, now)
       case Some(next) =>
         if id in s.specs then s
         else s.(jobs := s.jobs[id := Job(spec, next, true, 0)], specs := s.specs[id := spec])
       case None => s)
    case Cancel(id) => if id in s.jobs then s.(jobs := s.jobs[id := s.jobs[id].(enabled := false)]) else s
    case Remove(id) => s.(jobs := s.jobs - {id})
    case Tick(id, now) => Fire(z, s, id, now)
    case Completed(id) =>
      if id in s.jobs then s.(jobs := s.jobs[id := s.jobs[id].(fireCount := s.jobs[id].fireCount + 1)]) else s
  }

  function Steps(z: Zone, s: State, actions: seq<Action>): State {
    if actions == [] then s else Step(z, Steps(z, s, actions[..|actions| - 1]), actions[|actions| - 1])
  }

  const NO_JOBS := State(map[], map[], [])

  // ---------------------------------------------------------------------
  // Claims
  // ---------------------------------------------------------------------

  /** What is left to claim of a job lies beyond the claim, by the job's spacing. */
  ghost predicate Behind(s: State, c: Claim) {
    && c.slot <= c.now && c.id in s.specs
    && (c.id in s.jobs && s.jobs[c.id].enabled ==>
          s.specs[c.id].trigger == Every && s.jobs[c.id].nextFireAt >= c.now + Spacing(s.specs[c.id]))
  }

  /** Two claims of one job, the first before the second. */
  ghost predicate Apart(s: State, first: Claim, second: Claim) {
    first.id == second.id ==>
      (first.id in s.specs && s.specs[first.id].trigger == Every
       && first.slot <= first.now && first.now + Spacing(s.specs[first.id]) <= second.slot <= second.now)
  }

  ghost predicate Inv(s: State) {
    && (forall id :: id in s.jobs ==> id in s.specs && s.jobs[id].spec == s.specs[id])
    && (forall i :: 0 <= i < |s.claims| ==> Behind(s, s.claims[i]))
    && (forall i, j :: 0 <= i < j < |s.claims| ==> Apart(s, s.claims[i], s.claims[j]))
  }

  lemma {:induction false} FireKeeps(z: Zone, s: State, id: string, now: int)
    requires IsZone(z) && Inv(s)
    ensures Inv(Fire(z, s, id, now))
  {
    if Due(s, id, now) {
      var next := Fire(z, s, id, now);
      var job := s.jobs[id];
      if NextFireAtAfter(z, job.spec, now).Some? {
        NextSlotIsLater(z, job.spec, now);
      }
      var n := |s.claims|;
      forall i | 0 <= i < |next.claims| ensures Behind(next, next.claims[i]) {
        if i < n {
          assert next.claims[i] == s.claims[i] && Behind(s, s.claims[i]);
        }
      }
      forall i, j | 0 <= i < j < |next.claims| ensures Apart(next, next.claims[i], next.claims[j]) {
        assert next.claims[i] == s.claims[i] && Behind(s, s.claims[i]);
        if j < n {
          assert next.claims[j] == s.claims[j] && Apart(s, s.claims[i], s.claims[j]);
        }
      }
    }
  }

  lemma {:induction false} CallerStepKeeps(z: Zone, s: State, a: Action)
    requires Inv(s) && !a.Tick?
    ensures Inv(Step(z, s, a))
  {
    var next := Step(z, s, a);
    forall i | 0 <= i < |next.claims| ensures Behind(next, next.claims[i]) {
      assert Behind(s, s.claims[i]);
    }
    forall i, j | 0 <= i < j < |next.claims| ensures Apart(next, next.claims[i], next.claims[j]) {
      assert Apart(s, s.claims[i], s.claims[j]);
    }
  }

  lemma {:induction false} EveryReachableState(z: Zone, actions: seq<Action>)
    requires IsZone(z)
    ensures Inv(Steps(z, NO_JOBS, actions))
    decreases |actions|
  {
    if actions != [] {
      var before := Steps(z, NO_JOBS, actions[..|actions| - 1]);
      EveryReachableState(z, actions[..|actions| - 1]);
      match actions[|actions| - 1] {
        case Tick(id, now) => FireKeeps(z, before, id, now);
        case a => CallerStepKeeps(z, before, a);
      }
    }
  }

  /** Of one job, a later claim takes a later slot, beyond the clock reading of every earlier claim; clock readings of
      an interval job's claims are at least the interval apart; and a one-shot job is claimed at most once. */
  lemma {:induction false} NoSlotIsClaimedTwice(z: Zone, actions: seq<Action>, i: nat, j: nat)
    requires IsZone(z)
    requires var claims := Steps(z, NO_JOBS, actions).claims; i < j < |claims| && claims[i].id == claims[j].id
    ensures var s := Steps(z, NO_JOBS, actions);
            var first, second := s.claims[i], s.claims[j];
            && first.id in s.specs && s.specs[first.id].trigger == Every
            && first.slot <= first.now < second.slot <= second.now
            && (ParseDuration(s.specs[first.id].when).Some? ==>
                  second.now - first.now >= ParseDuration(s.specs[first.id].when).value)
  {
    EveryReachableState(z, actions);
    var s := Steps(z, NO_JOBS, actions);
    assert Apart(s, s.claims[i], s.claims[j]);
  }

  ghost predicate Dead(s: State, id: string) {
    id in s.specs && (id in s.jobs ==> !s.jobs[id].enabled)
  }

  /** A job that was cancelled, removed or used up is never claimed again. */
  lemma {:induction false} DeadJobsAreNotClaimed(z: Zone, s: State, actions: seq<Action>, id: string)
    requires Dead(s, id)
    ensures var after := Steps(z, s, actions);
            && Dead(after, id) && s.claims <= after.claims
            && forall i :: |s.claims| <= i < |after.claims| ==> after.claims[i].id != id
    decreases |actions|
  {
    if actions != [] {
      DeadJobsAreNotClaimed(z, s, actions[..|actions| - 1], id);
    }
  }

  /** A tick claims a job's slot exactly when the job is there, enabled and due by the tick's clock; a repeating job
      whose trigger still reads then stays enabled and moves to the slot after that reading, any other is disabled. */
  lemma {:induction false} TickClaimsExactly(z: Zone, s: State, id: string, now: int)
    ensures var next := Step(z, s, Tick(id, now));
            if id in s.jobs && s.jobs[id].enabled && s.jobs[id].nextFireAt <= now then
              var job := s.jobs[id];
              var slot := ComputeNextFireAt(z, Every, job.spec.when, now);
              && next.claims == s.claims + [Claim(id, job.nextFireAt, now)] && id in next.jobs
              && next.jobs[id] == (if job.spec.trigger == Every && slot.Some? then job.(nextFireAt := slot.value)
                                   else job.(enabled := false))
              && next.jobs - {id} == s.jobs - {id} && next.specs == s.specs
            else next == s
  {
  }

  /** What callers do to a job: a first slot makes a new enabled job, and cancelling, removing and completing leave all
      others alone. */
  lemma {:induction false} CallersActExactly(z: Zone, s: State, a: Action)
    requires !a.Tick?
    ensures var next := Step(z, s, a);
            && next.claims == s.claims && next.jobs - {a.id} == s.jobs - {a.id}
            && match a
               case Schedule(id, spec, now) =>
                 var slot := ComputeNextFireAt(z, spec.trigger, spec.when, now);
                 if slot.Some? && id !in s.specs then
                   id in next.jobs && next.jobs[id] == Job(spec, slot.value, true, 0)
                     && next.specs == s.specs[id := spec]
                 else next == s
               case Cancel(id) =>
                 next.specs == s.specs
                 && (id in next.jobs <==> id in s.jobs)
                 && (id in s.jobs ==> next.jobs[id] == s.jobs[id].(enabled := false))
               case Remove(id) => id !in next.jobs && next.specs == s.specs
               case Completed(id) =>
                 next.specs == s.specs
                 && (id in next.jobs <==> id in s.jobs)
                 && (id in s.jobs ==> next.jobs[id] == s.jobs[id].(fireCount := s.jobs[id].fireCount + 1))
               case Tick(_, _) => true
  {
    assert s.jobs - {a.id} == Step(z, s, a).jobs - {a.id};
  }

  // ---------------------------------------------------------------------
  // The class
  // ---------------------------------------------------------------------

  class ChatScheduler {
    const zone: Zone
    var jobs: map<string, Job>
    ghost var specs: map<string, Spec>
    ghost var claims: seq<Claim>

    ghost function View(): State
      reads this
    {
      State(jobs, specs, claims)
    }

    constructor (z: Zone)
      ensures zone == z && View() == NO_JOBS
    {
      zone, jobs, specs, claims := z, map[], map[], [];
    }

    /** The id is a fresh random one. */
    method ScheduleJob(id: string, spec: Spec, now: int) returns (nextFireAt: Option<int>)
      requires id !in specs
      modifies this
      ensures View() == Step(zone, old(View()), Schedule(id, spec, now))
      ensures nextFireAt == ComputeNextFireAt(zone, spec.trigger, spec.when, now)
    {
      nextFireAt := ComputeNextFireAt(zone, spec.trigger, spec.when, now);
      if nextFireAt.None? {
        return;
      }
      jobs := jobs[id := Job(spec, nextFireAt.value, true, 0)];
      specs := specs[id := spec];
    }

    method CancelJob(id: string) returns (cancelled: bool)
      modifies this
      ensures View() == Step(zone, old(View()), Cancel(id))
      ensures cancelled <==> id in old(jobs) && old(jobs)[id].enabled
    {
      if id !in jobs || !jobs[id].enabled {
        assert id in jobs ==> jobs[id := jobs[id].(enabled := false)] == jobs;
        return false;
      }
      jobs := jobs[id := jobs[id].(enabled := false)];
      cancelled := true;
    }

    method RemoveJob(id: string) returns (removed: bool)
      modifies this
      ensures View() == Step(zone, old(View()), Remove(id)) && (removed <==> id in old(jobs))
    {
      removed := id in jobs;
      jobs := jobs - {id};
    }

    /** One job of a tick, up to its first wait: claims the slot when the job is due. */
    method FireOne(id: string, now: int) returns (claimed: bool)
      modifies this
      ensures View() == Fire(zone, old(View()), id, now) && (claimed <==> Due(old(View()), id, now))
    {
      if id !in jobs {
        return false;
      }
      var job := jobs[id];
      if !job.enabled || job.nextFireAt > now {
        return false;
      }
      claims := claims + [Claim(id, job.nextFireAt, now)];
      var next := NextFireAtAfter(zone, job.spec, now);
      if next.Some? {
        jobs := jobs[id := job.(nextFireAt := next.value)];
      } else {
        jobs := jobs[id := job.(enabled := false)];
      }
      claimed := true;
    }

    /** A whole tick that nothing interrupts: the jobs in table order, all with the same clock reading. */
    method FireDue(order: seq<string>, now: int)
      modifies this
      ensures View() == Steps(zone, old(View()), Ticks(order, now))
    {
      for i := 0 to |order|
        invariant View() == Steps(zone, old(View()), Ticks(order[..i], now))
      {
        assert order[..i + 1][..i] == order[..i];
        assert Ticks(order[..i + 1], now) == Ticks(order[..i], now) + [Tick(order[i], now)];
        ghost var actions := Ticks(order[..i + 1], now);
        assert actions[..|actions| - 1] == Ticks(order[..i], now);
        var _ := FireOne(order[i], now);
      }
      assert order[..|order|] == order;
    }
  }

  function Ticks(order: seq<string>, now: int): (actions: seq<Action>)
    ensures |actions| == |order| && forall i :: 0 <= i < |order| ==> actions[i] == Tick(order[i], now)
  {
    seq(|order|, i requires 0 <= i < |order| => Tick(order[i], now))
  }
}
