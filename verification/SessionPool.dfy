/** One agent session per chat conversation (packages/chat/src/session-pool.ts). A session is identified with the
    creation that produced it; promise callbacks run as separate steps. */
module SessionPool {
  import opened Messages

  /** A disposal waiting for its promise: it disposes the session if that is idle when it runs. */
  datatype Callback = Callback(key: string, token: nat)

  datatype Disposal = Disposal(token: nat, idle: bool)

  /** byKey, sessions and lastUsed are the pool's own tables; keyOf, pending and failed describe the promises. */
  datatype Pool = Pool(byKey: map<string, nat>, sessions: set<nat>, lastUsed: map<string, int>,
                       keyOf: map<nat, string>, pending: set<nat>, failed: set<nat>,
                       callbacks: multiset<Callback>, disposals: seq<Disposal>, next: nat)

  const EMPTY := Pool(map[], {}, map[], map[], {}, {}, multiset{}, [], 0)

  datatype Limits = Limits(maxSessions: nat, maxIdleMs: int)

  /** Defaults apply to absent options; both limits are at least one. */
  function LimitsOf(maxSessions: Option<int>, maxIdleMinutes: Option<int>): (l: Limits)
    ensures l.maxSessions >= 1 && l.maxIdleMs >= 60000
    ensures maxSessions.None? ==> l.maxSessions == 50
    ensures maxIdleMinutes.None? ==> l.maxIdleMs == 30 * 60000
    ensures maxSessions.Some? && maxSessions.value < 1 ==> l.maxSessions == 1
    ensures maxIdleMinutes.Some? && maxIdleMinutes.value < 1 ==> l.maxIdleMs == 60000
    ensures maxSessions.Some? && maxSessions.value >= 1 ==> l.maxSessions == maxSessions.value
    ensures maxIdleMinutes.Some? && maxIdleMinutes.value >= 1 ==> l.maxIdleMs == maxIdleMinutes.value * 60000
  {
    var sessions := if maxSessions.Some? then maxSessions.value else 50;
    var minutes := if maxIdleMinutes.Some? then maxIdleMinutes.value else 30;
    Limits(if sessions >= 1 then sessions else 1, (if minutes >= 1 then minutes else 1) * 60000)
  }

  datatype Action =
    | GetOrCreate(key: string, now: int)
    | Resolve(token: nat, now: int)
    | Reject(token: nat)
    | Free(token: nat)
    | Reap(now: int)
    | RunCallback(callback: Callback, idle: bool)

  // ---------------------------------------------------------------------
  // Transitions
  // ---------------------------------------------------------------------

  function CallbacksFor(p: Pool, keys: set<string>): set<Callback> {
    set k | k in keys && k in p.byKey :: Callback(k, p.byKey[k])
  }

  function UsedKeys(p: Pool): set<string> {
    set k | k in p.byKey && k in p.lastUsed
  }

  /** At the limit a disposal is scheduled for every session used so far. */
  function EvictIfNeeded(p: Pool, l: Limits): Pool {
    if |p.sessions| < l.maxSessions then p
    else p.(callbacks := p.callbacks + multiset(CallbacksFor(p, UsedKeys(p))))
  }

  function Create(p: Pool, l: Limits, key: string): Pool {
    EvictIfNeeded(p, l).(byKey := p.byKey[key := p.next], keyOf := p.keyOf[p.next := key],
                         pending := p.pending + {p.next}, next := p.next + 1)
  }

  function LastUsed(p: Pool, key: string): int {
    if key in p.lastUsed then p.lastUsed[key] else 0
  }

  function IdleKeys(p: Pool, l: Limits, now: int): set<string> {
    set k | k in p.byKey && now - LastUsed(p, k) >= l.maxIdleMs
  }

  /** A session that is already gone is left alone. */
  function Dispose(p: Pool, key: string, token: nat, idle: bool): Pool {
    if token !in p.sessions then p
    else p.(sessions := p.sessions - {token}, byKey := p.byKey - {key}, lastUsed := p.lastUsed - {key},
            disposals := p.disposals + [Disposal(token, idle)])
  }

  predicate Resolved(p: Pool, token: nat) {
    token in p.keyOf && token !in p.pending && token !in p.failed
  }

  predicate Enabled(p: Pool, a: Action) {
    match a
    case GetOrCreate(_, _) => true
    case Resolve(token, _) => token in p.pending && token in p.keyOf
    case Reject(token) => token in p.pending
    case Free(token) => token in p.failed && token in p.keyOf
    case Reap(_) => true
    case RunCallback(callback, _) => callback in p.callbacks && Resolved(p, callback.token)
  }

  function Apply(p: Pool, l: Limits, a: Action): Pool
    requires Enabled(p, a)
  {
    match a
    case GetOrCreate(key, now) =>
      if key in p.byKey then p.(lastUsed := p.lastUsed[key := now]) else Create(p, l, key)
    case Resolve(token, now) =>
      p.(pending := p.pending - {token}, sessions := p.sessions + {token},
         lastUsed := p.lastUsed[p.keyOf[token] := now])
    case Reject(token) => p.(pending := p.pending - {token}, failed := p.failed + {token})
    case Free(token) =>
      var key := p.keyOf[token];
      if key in p.byKey && p.byKey[key] == token then p.(byKey := p.byKey - {key}) else p
    case Reap(now) => p.(callbacks := p.callbacks + multiset(CallbacksFor(p, IdleKeys(p, l, now))))
    case RunCallback(callback, idle) =>
      var rest := p.(callbacks := p.callbacks - multiset{callback});
      if idle then Dispose(rest, callback.key, callback.token, idle) else rest
  }

  function Step(p: Pool, l: Limits, a: Action): Pool {
    if Enabled(p, a) then Apply(p, l, a) else p
  }

  function Steps(p: Pool, l: Limits, actions: seq<Action>): Pool {
    if actions == [] then p else Step(Steps(p, l, actions[..|actions| - 1]), l, actions[|actions| - 1])
  }

  // ---------------------------------------------------------------------
  // The invariant
  // ---------------------------------------------------------------------

  ghost predicate Mapped(p: Pool, token: nat) {
    token in p.keyOf && p.keyOf[token] in p.byKey && p.byKey[p.keyOf[token]] == token
  }

  ghost predicate Tables(p: Pool) {
    && (forall t :: t in p.keyOf ==> t < p.next)
    && (forall k :: k in p.byKey ==> p.byKey[k] in p.keyOf && p.keyOf[p.byKey[k]] == k)
    && (forall k :: k in p.byKey ==> p.byKey[k] in p.pending + p.sessions + p.failed)
    && (forall t :: t in p.pending + p.sessions ==> Mapped(p, t))
    && (forall t :: t in p.failed ==> t in p.keyOf)
    && p.pending !! p.sessions && p.failed !! p.pending && p.failed !! p.sessions
  }

  ghost predicate CallbacksKnown(p: Pool) {
    forall c :: c in p.callbacks ==> c.token in p.keyOf && p.keyOf[c.token] == c.key
  }

  ghost predicate DisposedOnce(p: Pool) {
    && (forall i :: 0 <= i < |p.disposals| ==> p.disposals[i].idle && Resolved(p, p.disposals[i].token)
                                               && p.disposals[i].token !in p.sessions)
    && (forall i, j :: 0 <= i < j < |p.disposals| ==> p.disposals[i].token != p.disposals[j].token)
  }

  ghost predicate Inv(p: Pool) {
    Tables(p) && CallbacksKnown(p) && DisposedOnce(p)
  }

  lemma {:induction false} NextIsNew(p: Pool)
    requires Inv(p)
    ensures p.next !in p.keyOf && p.next !in p.failed && p.next !in p.sessions && p.next !in p.pending
    ensures forall i :: 0 <= i < |p.disposals| ==> p.disposals[i].token != p.next
  {
    assert p.next in p.pending + p.sessions ==> Mapped(p, p.next);
    forall i | 0 <= i < |p.disposals| ensures p.disposals[i].token != p.next {
      assert Resolved(p, p.disposals[i].token);
    }
  }

  lemma {:induction false} CreateKeepsTables(p: Pool, l: Limits, key: string, next: Pool)
    requires Inv(p) && key !in p.byKey && next == Create(p, l, key)
    ensures Tables(next)
  {
    NextIsNew(p);
    forall t | t in next.pending + next.sessions ensures Mapped(next, t) {
      assert t != p.next ==> Mapped(p, t);
    }
  }

  lemma {:induction false} CreateKeepsRest(p: Pool, l: Limits, key: string, next: Pool)
    requires Inv(p) && key !in p.byKey && next == Create(p, l, key)
    ensures CallbacksKnown(next) && DisposedOnce(next)
  {
    NextIsNew(p);
    forall i | 0 <= i < |next.disposals| ensures Resolved(next, next.disposals[i].token) {
      assert Resolved(p, p.disposals[i].token);
    }
  }

  lemma {:induction false} CreateKeeps(p: Pool, l: Limits, key: string)
    requires Inv(p) && key !in p.byKey
    ensures Inv(Create(p, l, key))
  {
    CreateKeepsTables(p, l, key, Create(p, l, key));
    CreateKeepsRest(p, l, key, Create(p, l, key));
  }

  lemma {:induction false} SettleKeeps(p: Pool, l: Limits, a: Action)
    requires Inv(p) && Enabled(p, a) && (a.Resolve? || a.Reject? || a.Free?)
    ensures Inv(Apply(p, l, a))
  {
    var next := Apply(p, l, a);
    assert a.token in p.pending ==> Mapped(p, a.token);
    forall t | t in next.pending + next.sessions ensures Mapped(next, t) {
      assert Mapped(p, t);
    }
    forall i | 0 <= i < |next.disposals|
      ensures Resolved(next, next.disposals[i].token) && next.disposals[i].token !in next.sessions
    {
      assert Resolved(p, p.disposals[i].token);
    }
  }

  lemma {:induction false} DisposeKeeps(p: Pool, key: string, token: nat)
    requires Inv(p) && token in p.keyOf && p.keyOf[token] == key
    ensures Inv(Dispose(p, key, token, true))
  {
    if token in p.sessions {
      var next := Dispose(p, key, token, true);
      assert Mapped(p, token);
      forall t | t in next.pending + next.sessions ensures Mapped(next, t) {
        assert Mapped(p, t);
      }
      forall i | 0 <= i < |p.disposals| ensures p.disposals[i].token != token {
        assert p.disposals[i].token !in p.sessions;
      }
    }
  }

  lemma {:induction false} CallbackKeeps(p: Pool, l: Limits, callback: Callback, idle: bool)
    requires Inv(p) && Enabled(p, RunCallback(callback, idle))
    ensures Inv(Apply(p, l, RunCallback(callback, idle)))
  {
    var rest := p.(callbacks := p.callbacks - multiset{callback});
    assert forall t :: t in p.pending + p.sessions ==> Mapped(p, t);
    assert Inv(rest);
    if idle {
      DisposeKeeps(rest, callback.key, callback.token);
    }
  }

  lemma {:induction false} StepKeeps(p: Pool, l: Limits, a: Action)
    requires Inv(p)
    ensures Inv(Step(p, l, a))
  {
    if Enabled(p, a) {
      match a {
        case GetOrCreate(key, now) =>
          if key !in p.byKey {
            CreateKeeps(p, l, key);
          } else {
            assert forall t :: t in p.pending + p.sessions ==> Mapped(p, t);
          }
        case Reap(now) => assert forall t :: t in p.pending + p.sessions ==> Mapped(p, t);
        case RunCallback(callback, idle) =>
          CallbackKeeps(p, l, callback, idle);
        case _ => SettleKeeps(p, l, a);
      }
    }
  }

  lemma {:induction false} EveryReachableState(l: Limits, actions: seq<Action>)
    ensures Inv(Steps(EMPTY, l, actions))
    decreases |actions|
  {
    if actions != [] {
      EveryReachableState(l, actions[..|actions| - 1]);
      StepKeeps(Steps(EMPTY, l, actions[..|actions| - 1]), l, actions[|actions| - 1]);
    }
  }

  // ---------------------------------------------------------------------
  // What it means
  // ---------------------------------------------------------------------

  /** In every interleaving a key has at most one creation in flight or live session, the one the pool hands out. */
  lemma {:induction false} OneSessionPerKey(l: Limits, actions: seq<Action>, a: nat, b: nat)
    requires var p := Steps(EMPTY, l, actions);
             a in p.pending + p.sessions && b in p.pending + p.sessions
             && a in p.keyOf && b in p.keyOf && p.keyOf[a] == p.keyOf[b]
    ensures a == b && var p := Steps(EMPTY, l, actions); p.keyOf[a] in p.byKey && p.byKey[p.keyOf[a]] == a
  {
    EveryReachableState(l, actions);
    var p := Steps(EMPTY, l, actions);
    assert Mapped(p, a) && Mapped(p, b);
  }

  /** A session is disposed at most once, only when idle at that step, and is no longer handed out afterwards. */
  lemma {:induction false} DisposedAtMostOnce(l: Limits, actions: seq<Action>, i: nat)
    requires i < |Steps(EMPTY, l, actions).disposals|
    ensures var p := Steps(EMPTY, l, actions);
            && p.disposals[i].idle
            && (forall j :: 0 <= j < |p.disposals| && j != i ==> p.disposals[j].token != p.disposals[i].token)
            && (forall k :: k in p.byKey ==> p.byKey[k] != p.disposals[i].token)
  {
    EveryReachableState(l, actions);
    var p := Steps(EMPTY, l, actions);
    assert Resolved(p, p.disposals[i].token);
  }

  /** A failed creation frees its key once its rejection is handled, so the next request creates again. */
  lemma {:induction false} FailureFreesTheKey(l: Limits, actions: seq<Action>, token: nat)
    requires token in Steps(EMPTY, l, actions).failed
    ensures var p := Steps(EMPTY, l, actions);
            Enabled(p, Free(token))
            && (var freed := Step(p, l, Free(token));
                forall k :: k in p.byKey && p.byKey[k] == token <==> k in p.byKey && k !in freed.byKey)
  {
    EveryReachableState(l, actions);
  }

  /** A request for a new key asks another session to go exactly when the pool is at its limit and that session has
      been used; the scan does not stop at the least recently used one, since disposals only run later. */
  lemma {:induction false} EvictionAsksEveryone(l: Limits, p: Pool, key: string, other: string, now: int)
    requires key !in p.byKey && other in p.byKey
    ensures var c := Callback(other, p.byKey[other]);
            Step(p, l, GetOrCreate(key, now)).callbacks[c]
            == p.callbacks[c] + if |p.sessions| >= l.maxSessions && other in p.lastUsed then 1 else 0
  {
    assert Callback(other, p.byKey[other]) in CallbacksFor(p, UsedKeys(p)) <==> other in UsedKeys(p);
  }

  /** A reaping asks a session to go exactly when it was not used for at least the idle time; one never used since
      counts from the beginning of time. */
  lemma {:induction false} ReapAsksExactly(l: Limits, p: Pool, key: string, now: int)
    requires key in p.byKey
    ensures var c := Callback(key, p.byKey[key]);
            var used := if key in p.lastUsed then p.lastUsed[key] else 0;
            Step(p, l, Reap(now)).callbacks[c] == p.callbacks[c] + if now - used >= l.maxIdleMs then 1 else 0
  {
    assert Callback(key, p.byKey[key]) in CallbacksFor(p, IdleKeys(p, l, now)) <==> key in IdleKeys(p, l, now);
  }

  /** A request touches the creation it knows, and otherwise starts one under a new token. */
  lemma {:induction false} RequestsExactly(l: Limits, p: Pool, key: string, now: int)
    ensures var next := Step(p, l, GetOrCreate(key, now));
            && key in next.byKey && next.byKey - {key} == p.byKey - {key}
            && (key in p.byKey ==> next == p.(lastUsed := p.lastUsed[key := now]))
            && (key !in p.byKey ==>
                  && next.byKey[key] == p.next && next.pending == p.pending + {p.next} && next.next == p.next + 1
                  && next.keyOf == p.keyOf[p.next := key] && next.lastUsed == p.lastUsed
                  && next.sessions == p.sessions && next.failed == p.failed && next.disposals == p.disposals)
  {
    assert Step(p, l, GetOrCreate(key, now)).byKey - {key} == p.byKey - {key};
  }

  /** A creation that resolves is live and is what its key gets, and it is asked to go for idleness exactly once that
      much time has passed since. */
  lemma {:induction false} ResolvedSessionIsHandedOut(l: Limits, actions: seq<Action>, token: nat, now: int, later: int)
    requires token in Steps(EMPTY, l, actions).pending
    ensures var p := Steps(EMPTY, l, actions);
            token in p.keyOf
            && var key, next := p.keyOf[token], Step(p, l, Resolve(token, now));
               && token in next.sessions && token !in next.pending && token !in next.failed
               && key in next.byKey && next.byKey[key] == token
               && Step(next, l, Reap(later)).callbacks[Callback(key, token)]
                  == next.callbacks[Callback(key, token)] + if later - now >= l.maxIdleMs then 1 else 0
  {
    EveryReachableState(l, actions);
    var p := Steps(EMPTY, l, actions);
    assert Mapped(p, token);
    ReapAsksExactly(l, Step(p, l, Resolve(token, now)), p.keyOf[token], later);
  }

  /** One that is rejected is never live; its key gets it until the failure is handled, which frees the key. */
  lemma {:induction false} RejectedCreationFails(l: Limits, actions: seq<Action>, token: nat)
    requires token in Steps(EMPTY, l, actions).pending
    ensures var p := Steps(EMPTY, l, actions);
            token in p.keyOf
            && var key, next := p.keyOf[token], Step(p, l, Reject(token));
               && token in next.failed && token !in next.pending && token !in next.sessions
               && key in next.byKey && next.byKey[key] == token && key !in Step(next, l, Free(token)).byKey
  {
    EveryReachableState(l, actions);
    assert Mapped(Steps(EMPTY, l, actions), token);
  }

  /** And a session that was asked does go when it is idle by then, whatever happened in between and however far below
      the limit the pool is. */
  lemma {:induction false} AskedSessionGoes(l: Limits, actions: seq<Action>, c: Callback)
    requires var p := Steps(EMPTY, l, actions); c in p.callbacks && c.token in p.sessions
    ensures var p := Steps(EMPTY, l, actions);
            var next := Step(p, l, RunCallback(c, true));
            && next.sessions == p.sessions - {c.token} && c.key !in next.byKey && c.key !in next.lastUsed
            && next.disposals == p.disposals + [Disposal(c.token, true)]
  {
    EveryReachableState(l, actions);
    var p := Steps(EMPTY, l, actions);
    assert Mapped(p, c.token);
    assert Resolved(p, c.token);
  }

  /** A session is created and its promise resolves. */
  function Opening(key: string, token: nat, now: int): seq<Action> {
    [GetOrCreate(key, now)] + [Resolve(token, now)]
  }

  lemma {:induction false} OneStep(p: Pool, l: Limits, a: Action)
    ensures Steps(p, l, [a]) == Step(p, l, a)
  {
    assert [a][..0] == [];
    assert Steps(p, l, [a][..0]) == p;
  }

  lemma {:induction false} TwoSteps(p: Pool, l: Limits, a: Action, b: Action)
    ensures Steps(p, l, [a] + [b]) == Step(Step(p, l, a), l, b)
  {
    StepsJoin(p, l, [a], [b]);
    OneStep(p, l, a);
    OneStep(Step(p, l, a), l, b);
  }

  lemma {:induction false} StepsJoin(p: Pool, l: Limits, a: seq<Action>, b: seq<Action>)
    ensures Steps(p, l, a + b) == Steps(Steps(p, l, a), l, b)
    decreases |b|
  {
    if b == [] {
      assert a + b == a;
    } else {
      assert (a + b)[..|a + b| - 1] == a + b[..|b| - 1];
      StepsJoin(p, l, a, b[..|b| - 1]);
    }
  }

  lemma {:induction false} OneOpened(p: Pool, l: Limits, key: string, now: int, next: Pool)
    requires key !in p.byKey && |p.sessions| < l.maxSessions && p.pending == {}
    requires next == Steps(p, l, Opening(key, p.next, now))
    ensures next == p.(byKey := p.byKey[key := p.next], keyOf := p.keyOf[p.next := key],
                       sessions := p.sessions + {p.next}, lastUsed := p.lastUsed[key := now], next := p.next + 1)
  {
    TwoSteps(p, l, GetOrCreate(key, now), Resolve(p.next, now));
    assert p.pending + {p.next} - {p.next} == p.pending;
  }

  /** Two sessions of a pool that may hold two, used one after the other, and a request for a third. */
  function ThirdRequest(): seq<Action> {
    Opening("a", 0, 1) + Opening("b", 1, 2) + [GetOrCreate("c", 3)]
  }

  lemma {:induction false} FullPool(l: Limits, full: Pool)
    requires l.maxSessions == 2 && full == Steps(EMPTY, l, Opening("a", 0, 1) + Opening("b", 1, 2))
    ensures full.sessions == {0, 1} && full.byKey == map["a" := 0, "b" := 1] && full.lastUsed == map["a" := 1, "b" := 2]
    ensures full.keyOf == map[0 := "a", 1 := "b"] && full.next == 2 && full.pending == {} && full.failed == {}
    ensures full.callbacks == multiset{} && full.disposals == []
  {
    StepsJoin(EMPTY, l, Opening("a", 0, 1), Opening("b", 1, 2));
    BothOpened(EMPTY, l, "a", "b", 1, 2, Steps(EMPTY, l, Opening("a", 0, 1)), full);
  }

  lemma {:induction false} BothOpened(p: Pool, l: Limits, a: string, b: string, first: int, second: int, one: Pool,
                                      full: Pool)
    requires l.maxSessions == 2 && p == EMPTY && a != b
    requires one == Steps(p, l, Opening(a, p.next, first)) && full == Steps(one, l, Opening(b, 1, second))
    ensures full.sessions == {0, 1} && full.byKey == map[a := 0, b := 1]
    ensures full.lastUsed == map[a := first, b := second] && full.keyOf == map[0 := a, 1 := b] && full.next == 2
    ensures full.pending == {} && full.failed == {} && full.callbacks == multiset{} && full.disposals == []
  {
    OneOpened(p, l, a, first, one);
    assert one.sessions == {0} && one.byKey == map[a := 0] && one.next == 1 && one.pending == {};
    OneOpened(one, l, b, second, full);
  }

  lemma {:induction false} AskedBoth(l: Limits, full: Pool, asked: Pool)
    requires |full.sessions| >= l.maxSessions && "c" !in full.byKey && asked == Step(full, l, GetOrCreate("c", 3))
    requires full.byKey == map["a" := 0, "b" := 1] && full.lastUsed == map["a" := 1, "b" := 2]
    requires full.callbacks == multiset{}
    ensures asked.callbacks == multiset{Callback("a", 0), Callback("b", 1)}
    ensures asked.sessions == full.sessions && asked.disposals == full.disposals && asked.failed == full.failed
    ensures asked.pending == full.pending + {full.next} && asked.keyOf == full.keyOf[full.next := "c"]
  {
    CallbacksOfBoth(full);
    assert multiset{} + multiset({Callback("a", 0), Callback("b", 1)}) == multiset{Callback("a", 0), Callback("b", 1)};
  }

  lemma {:induction false} CallbacksOfBoth(p: Pool)
    requires p.byKey == map["a" := 0, "b" := 1] && p.lastUsed == map["a" := 1, "b" := 2]
    ensures CallbacksFor(p, UsedKeys(p)) == {Callback("a", 0), Callback("b", 1)}
  {
    assert UsedKeys(p) == {"a", "b"};
    assert p.byKey["a"] == 0 && p.byKey["b"] == 1;
  }

  /** Both of them are asked to go, and both do when they are idle: the request leaves no session at all. */
  lemma {:induction false} EvictionEmptiesThePool()
    ensures var l := Limits(2, 60000);
            var asked := Steps(EMPTY, l, ThirdRequest());
            && asked.sessions == {0, 1} && asked.callbacks == multiset{Callback("a", 0), Callback("b", 1)}
            && var left := Step(Step(asked, l, RunCallback(Callback("a", 0), true)), l,
                                RunCallback(Callback("b", 1), true));
               left.sessions == {} && left.disposals == [Disposal(0, true), Disposal(1, true)]
  {
    var l := Limits(2, 60000);
    var full := Steps(EMPTY, l, Opening("a", 0, 1) + Opening("b", 1, 2));
    FullPool(l, full);
    StepsJoin(EMPTY, l, Opening("a", 0, 1) + Opening("b", 1, 2), [GetOrCreate("c", 3)]);
    OneStep(full, l, GetOrCreate("c", 3));
    var asked := Step(full, l, GetOrCreate("c", 3));
    AskedBoth(l, full, asked);
    BothGo(l, asked);
  }

  lemma {:induction false} Goes(l: Limits, p: Pool, c: Callback, next: Pool)
    requires c in p.callbacks && Resolved(p, c.token) && c.token in p.sessions
    requires next == Step(p, l, RunCallback(c, true))
    ensures next.sessions == p.sessions - {c.token} && next.disposals == p.disposals + [Disposal(c.token, true)]
    ensures next.callbacks == p.callbacks - multiset{c} && next.keyOf == p.keyOf
    ensures next.pending == p.pending && next.failed == p.failed
  {
  }

  lemma {:induction false} BothGo(l: Limits, asked: Pool)
    requires asked.sessions == {0, 1} && asked.callbacks == multiset{Callback("a", 0), Callback("b", 1)}
    requires Resolved(asked, 0) && Resolved(asked, 1) && asked.disposals == []
    ensures var left := Step(Step(asked, l, RunCallback(Callback("a", 0), true)), l,
                             RunCallback(Callback("b", 1), true));
            left.sessions == {} && left.disposals == [Disposal(0, true), Disposal(1, true)]
  {
    var one := Step(asked, l, RunCallback(Callback("a", 0), true));
    Goes(l, asked, Callback("a", 0), one);
    Goes(l, one, Callback("b", 1), Step(one, l, RunCallback(Callback("b", 1), true)));
    assert asked.disposals + [Disposal(0, true)] + [Disposal(1, true)] == [Disposal(0, true), Disposal(1, true)];
  }

  // ---------------------------------------------------------------------
  // The class
  // ---------------------------------------------------------------------

  /** The used keys, least recently used first, as the sort leaves them. */
  ghost predicate IsLruOrder(order: seq<string>, p: Pool) {
    && (forall k :: k in order <==> k in UsedKeys(p))
    && (forall i, j :: 0 <= i < j < |order| ==> order[i] != order[j])
    && (forall i, j :: 0 <= i < j < |order| && order[i] in p.lastUsed && order[j] in p.lastUsed ==>
          p.lastUsed[order[i]] <= p.lastUsed[order[j]])
  }

  class ChatSessionPool {
    const limits: Limits
    var pool: Pool

    constructor (maxSessions: Option<int>, maxIdleMinutes: Option<int>)
      ensures limits == LimitsOf(maxSessions, maxIdleMinutes) && pool == EMPTY
    {
      limits := LimitsOf(maxSessions, maxIdleMinutes);
      pool := EMPTY;
    }

    /** Schedules disposals in least recently used order until the size is below the limit. */
    method Evict(order: seq<string>)
      requires IsLruOrder(order, pool)
      modifies this
      ensures pool == EvictIfNeeded(old(pool), limits)
    {
      if |pool.sessions| < limits.maxSessions {
        return;
      }
      ghost var before := pool;
      var scheduled: set<Callback> := {};
      for i := 0 to |order|
        invariant pool == before && scheduled == CallbacksFor(before, KeySet(order[..i]))
      {
        assert order[i] in UsedKeys(pool);
        assert KeySet(order[..i + 1]) == KeySet(order[..i]) + {order[i]};
        scheduled := scheduled + {Callback(order[i], pool.byKey[order[i]])};
        if |pool.sessions| < limits.maxSessions {
          break;
        }
      }
      assert order[..|order|] == order;
      assert KeySet(order) == UsedKeys(before);
      pool := pool.(callbacks := pool.callbacks + multiset(scheduled));
    }

    /** The creation known for the key, or a new one in flight. */
    method Get(key: string, now: int, order: seq<string>) returns (token: nat)
      requires IsLruOrder(order, pool)
      modifies this
      ensures pool == Step(old(pool), limits, GetOrCreate(key, now))
      ensures key in pool.byKey && token == pool.byKey[key]
    {
      if key in pool.byKey {
        pool := pool.(lastUsed := pool.lastUsed[key := now]);
        return pool.byKey[key];
      }
      Evict(order);
      token := pool.next;
      pool := pool.(byKey := pool.byKey[key := token], keyOf := pool.keyOf[token := key],
                    pending := pool.pending + {token}, next := pool.next + 1);
    }

    /** Schedules a disposal for every key unused for too long; keys is the table's iteration order. */
    method ReapIdle(now: int, keys: seq<string>)
      requires (forall k :: k in keys <==> k in pool.byKey)
      requires forall i, j :: 0 <= i < j < |keys| ==> keys[i] != keys[j]
      modifies this
      ensures pool == Step(old(pool), limits, Reap(now))
    {
      ghost var before := pool;
      var scheduled: set<Callback> := {};
      for i := 0 to |keys|
        invariant pool == before
        invariant scheduled == CallbacksFor(before, KeySet(keys[..i]) * IdleKeys(before, limits, now))
      {
        assert keys[i] in keys;
        assert KeySet(keys[..i + 1]) == KeySet(keys[..i]) + {keys[i]};
        var lastUsed := if keys[i] in pool.lastUsed then pool.lastUsed[keys[i]] else 0;
        if now - lastUsed >= limits.maxIdleMs {
          scheduled := scheduled + {Callback(keys[i], pool.byKey[keys[i]])};
        }
      }
      assert keys[..|keys|] == keys;
      assert KeySet(keys) * IdleKeys(before, limits, now) == IdleKeys(before, limits, now);
      pool := pool.(callbacks := pool.callbacks + multiset(scheduled));
    }

    /** A scheduled disposal whose promise has resolved. */
    method RunScheduled(callback: Callback, idle: bool)
      requires Enabled(pool, RunCallback(callback, idle))
      modifies this
      ensures pool == Step(old(pool), limits, RunCallback(callback, idle))
    {
      pool := pool.(callbacks := pool.callbacks - multiset{callback});
      if !idle {
        return;
      }
      if callback.token !in pool.sessions {
        return;
      }
      pool := pool.(sessions := pool.sessions - {callback.token});
      pool := pool.(byKey := pool.byKey - {callback.key});
      pool := pool.(lastUsed := pool.lastUsed - {callback.key});
      pool := pool.(disposals := pool.disposals + [Disposal(callback.token, true)]);
    }
  }

  function KeySet(keys: seq<string>): set<string> {
    set k | k in keys
  }
}
