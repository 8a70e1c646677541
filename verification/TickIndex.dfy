// service/optionChain/OptionChainService.py and the subscription counts of
// marketengine/ShoonyaOptionFeed.py.  The service is asyncio code: what runs
// between two awaits is one action; feed calls run later on worker threads.
module TickIndex {

  // `jobs`: feed calls handed to the executor and not yet run.
  datatype Job = Subscribe(tokens: set<string>) | Unsubscribe(tokens: set<string>)

  datatype State = State(
    caches: map<string, set<string>>,     // cache key -> the tokens of its legs
    refcounts: map<string, int>,          // cache key -> stream viewers
    index: map<string, set<string>>,      // token -> cache keys
    feed: map<string, int>, attached: bool, jobs: seq<Job>)

  datatype Action =
    | Create(key: string, tokens: set<string>)  // _get_or_create_cache up to its first await
    | Acquire(key: string)
    | Release(key: string)                      // _release up to its await
    | Serve(job: nat)                           // a worker thread runs a pending feed call
    | Drop(job: nat)                            // the wait for a call times out while it is still queued
    | Attach                                    // set_feed

  function KeysAt(index: map<string, set<string>>, token: string): set<string>
  {
    if token in index then index[token] else {}
  }

  function AddKey(index: map<string, set<string>>, tokens: set<string>, key: string): map<string, set<string>>
  {
    index + map t | t in tokens :: KeysAt(index, t) + {key}
  }

  function DropKey(index: map<string, set<string>>, tokens: set<string>, key: string): map<string, set<string>>
  {
    var emptied := set t | t in tokens && KeysAt(index, t) - {key} == {};
    (index + map t | t in tokens :: KeysAt(index, t) - {key}) - emptied
  }

  function Count(counts: map<string, int>, x: string): int { if x in counts then counts[x] else 0 }

  // ensure_subscribed
  function Subscribed(feed: map<string, int>, tokens: set<string>): map<string, int>
  {
    feed + map t | t in tokens :: Count(feed, t) + 1
  }

  // release: a count at one, or none at all, is removed.
  function Unsubscribed(feed: map<string, int>, tokens: set<string>): map<string, int>
  {
    var idle := set t | t in tokens && Count(feed, t) <= 1;
    (feed + map t | t in tokens :: Count(feed, t) - 1) - idle
  }

  function Do(feed: map<string, int>, job: Job): map<string, int>
  {
    if job.Subscribe? then Subscribed(feed, job.tokens) else Unsubscribed(feed, job.tokens)
  }

  function Without(jobs: seq<Job>, i: nat): seq<Job>
    requires i < |jobs|
  {
    jobs[..i] + jobs[i + 1..]
  }

  function CreateStep(s: State, key: string, tokens: set<string>): State
  {
    if key in s.caches then s
    else s.(caches := s.caches[key := tokens], index := AddKey(s.index, tokens, key),
            jobs := if s.attached then s.jobs + [Subscribe(tokens)] else s.jobs)
  }

  function ReleaseStep(s: State, key: string): State
  {
    var remaining := if Count(s.refcounts, key) - 1 < 0 then 0 else Count(s.refcounts, key) - 1;
    if remaining > 0 then s.(refcounts := s.refcounts[key := remaining])
    else if key !in s.caches then s.(refcounts := s.refcounts - {key})
    else s.(refcounts := s.refcounts - {key}, caches := s.caches - {key}, index := DropKey(s.index, s.caches[key], key),
            jobs := if s.attached then s.jobs + [Unsubscribe(s.caches[key])] else s.jobs)
  }

  function Apply(s: State, a: Action): State
  {
    match a
    case Create(key, tokens) => CreateStep(s, key, tokens)
    case Acquire(key) => s.(refcounts := s.refcounts[key := Count(s.refcounts, key) + 1])
    case Release(key) => ReleaseStep(s, key)
    case Serve(i) =>
      if i >= |s.jobs| then s else s.(feed := Do(s.feed, s.jobs[i]), jobs := Without(s.jobs, i))
    case Drop(i) => if i >= |s.jobs| then s else s.(jobs := Without(s.jobs, i))
    case Attach => s.(attached := true)
  }

  function Run(s: State, actions: seq<Action>): State
  {
    if |actions| == 0 then s else Apply(Run(s, actions[..|actions| - 1]), actions[|actions| - 1])
  }

  // ----- The token index -------------------------------------------------------------------------------

  // Every live cache with a leg on this token: what a full scan would find.
  function Holders(caches: map<string, set<string>>, token: string): set<string>
  {
    set k | k in caches && token in caches[k]
  }

  // _route_tick: the caches a tick reaches.
  function Reached(s: State, token: string): set<string> { set k | k in KeysAt(s.index, token) && k in s.caches }

  ghost predicate IndexAgrees(s: State)
  {
    && (forall t :: KeysAt(s.index, t) == Holders(s.caches, t))
    && (forall t :: t in s.index ==> s.index[t] != {})
  }

  lemma AddKeyAgrees(s: State, key: string, tokens: set<string>, t: string)
    requires KeysAt(s.index, t) == Holders(s.caches, t) && key !in s.caches
    ensures KeysAt(AddKey(s.index, tokens, key), t) == Holders(s.caches[key := tokens], t)
  {
    var caches' := s.caches[key := tokens];
    assert Holders(caches', t) == Holders(s.caches, t) + if t in tokens then {key} else {};
  }

  lemma DropKeyAgrees(s: State, key: string, t: string)
    requires KeysAt(s.index, t) == Holders(s.caches, t) && key in s.caches
    ensures KeysAt(DropKey(s.index, s.caches[key], key), t) == Holders(s.caches - {key}, t)
  {
    assert Holders(s.caches - {key}, t) == Holders(s.caches, t) - {key};
    if t !in s.caches[key] { assert key !in Holders(s.caches, t); }
  }

  lemma ApplyKeepsIndex(s: State, a: Action)
    requires IndexAgrees(s)
    ensures IndexAgrees(Apply(s, a))
  {
    hide Holders;
    match a {
      case Create(key, tokens) =>
        if key !in s.caches { forall t { AddKeyAgrees(s, key, tokens, t); } }
      case Release(key) =>
        if key in s.caches { forall t { DropKeyAgrees(s, key, t); } }
      case _ =>
    }
  }

  // After any run the index lists, under each token, exactly the live caches
  // that hold it, and no empty entry stays behind; so a tick reaches exactly
  // the caches a full scan would find.
  lemma {:induction false} TicksReachEveryHolder(s: State, actions: seq<Action>)
    requires IndexAgrees(s)
    ensures IndexAgrees(Run(s, actions))
    ensures forall t :: Reached(Run(s, actions), t) == Holders(Run(s, actions).caches, t)
  {
    if |actions| > 0 {
      TicksReachEveryHolder(s, actions[..|actions| - 1]);
      ApplyKeepsIndex(Run(s, actions[..|actions| - 1]), actions[|actions| - 1]);
    }
  }

  // ----- The feed's counts --------------------------------------------------------------------------------

  ghost predicate Positive(counts: map<string, int>) { forall t :: t in counts ==> counts[t] > 0 }

  function Change(job: Job, t: string): int { if t !in job.tokens then 0 else if job.Subscribe? then 1 else -1 }

  // Subscriptions of the token still to be made, less releases.
  function Pending(jobs: seq<Job>, t: string): int
  {
    if |jobs| == 0 then 0 else Pending(jobs[..|jobs| - 1], t) + Change(jobs[|jobs| - 1], t)
  }

  // What the token's count, pending calls included, has beyond its live holders.
  function Surplus(s: State, t: string): int { Count(s.feed, t) + Pending(s.jobs, t) - |Holders(s.caches, t)| }

  // The guard that fails: a release is run for a token whose count is zero.
  predicate Underflow(s: State, a: Action, t: string)
  {
    a.Serve? && a.job < |s.jobs| && s.jobs[a.job].Unsubscribe? && t in s.jobs[a.job].tokens && Count(s.feed, t) == 0
  }

  // Cache changes made while no feed was attached are never sent to one.
  predicate CreatesUnfed(s: State, a: Action, t: string)
  {
    a.Create? && !s.attached && a.key !in s.caches && t in a.tokens
  }

  predicate EvictsUnfed(s: State, a: Action, t: string)
  {
    a.Release? && !s.attached && Count(s.refcounts, a.key) <= 1 && a.key in s.caches && t in s.caches[a.key]
  }

  // What a call that never runs would have changed.
  function Dropped(s: State, a: Action, t: string): int
  {
    if a.Drop? && a.job < |s.jobs| then Change(s.jobs[a.job], t) else 0
  }

  // What one action adds to the surplus.
  function Adds(s: State, a: Action, t: string): int
  {
    if a.Drop? then -Dropped(s, a, t)
    else if Underflow(s, a, t) || EvictsUnfed(s, a, t) then 1 else if CreatesUnfed(s, a, t) then -1 else 0
  }

  function AddsAll(s: State, actions: seq<Action>, t: string): int
  {
    if |actions| == 0 then 0
    else
      var init := actions[..|actions| - 1];
      AddsAll(s, init, t) + Adds(Run(s, init), actions[|actions| - 1], t)
  }

  function Underflows(s: State, actions: seq<Action>, t: string): nat
  {
    if |actions| == 0 then 0
    else
      var init := actions[..|actions| - 1];
      Underflows(s, init, t) + if Underflow(Run(s, init), actions[|actions| - 1], t) then 1 else 0
  }

  // Subscriptions of the token given up while queued, less releases given up.
  function DroppedAll(s: State, actions: seq<Action>, t: string): int
  {
    if |actions| == 0 then 0
    else
      var init := actions[..|actions| - 1];
      DroppedAll(s, init, t) + Dropped(Run(s, init), actions[|actions| - 1], t)
  }

  lemma PendingPush(jobs: seq<Job>, job: Job, t: string)
    ensures Pending(jobs + [job], t) == Pending(jobs, t) + Change(job, t)
  {
    assert (jobs + [job])[..|jobs|] == jobs;
  }

  lemma {:induction false} PendingTake(jobs: seq<Job>, i: nat, t: string)
    requires i < |jobs|
    ensures Pending(Without(jobs, i), t) == Pending(jobs, t) - Change(jobs[i], t)
  {
    var n := |jobs| - 1;
    var rest := jobs[..i] + jobs[i + 1..];
    if i == n {
      assert rest == jobs[..n];
    } else {
      PendingTake(jobs[..n], i, t);
      assert rest[..n - 1] == jobs[..n][..i] + jobs[..n][i + 1..];
      assert rest[n - 1] == jobs[n];
    }
  }

  // A feed call moves a count by its change, unless it releases nothing.
  lemma DoCounts(feed: map<string, int>, job: Job, t: string)
    requires Positive(feed)
    ensures Positive(Do(feed, job))
    ensures Count(Do(feed, job), t)
      == Count(feed, t) + if job.Unsubscribe? && t in job.tokens && Count(feed, t) == 0 then 0 else Change(job, t)
  {}

  lemma HoldersAfterCreate(caches: map<string, set<string>>, key: string, tokens: set<string>, t: string)
    requires key !in caches
    ensures |Holders(caches[key := tokens], t)| == |Holders(caches, t)| + if t in tokens then 1 else 0
  {
    assert Holders(caches[key := tokens], t) == Holders(caches, t) + if t in tokens then {key} else {};
  }

  lemma HoldersAfterEvict(caches: map<string, set<string>>, key: string, t: string)
    requires key in caches
    ensures |Holders(caches - {key}, t)| == |Holders(caches, t)| - if t in caches[key] then 1 else 0
  {
    if t in caches[key] {
      assert key in Holders(caches, t);
      assert Holders(caches - {key}, t) == Holders(caches, t) - {key};
    } else {
      assert Holders(caches - {key}, t) == Holders(caches, t);
    }
  }

  lemma SurplusStep(s: State, a: Action, t: string)
    requires Positive(s.feed)
    ensures Positive(Apply(s, a).feed) && Surplus(Apply(s, a), t) == Surplus(s, t) + Adds(s, a, t)
  {
    hide Holders, Pending, AddKey, DropKey, Do;
    match a {
      case Create(key, tokens) =>
        if key !in s.caches {
          HoldersAfterCreate(s.caches, key, tokens, t);
          PendingPush(s.jobs, Subscribe(tokens), t);
        }
      case Release(key) =>
        if key in s.caches {
          HoldersAfterEvict(s.caches, key, t);
          PendingPush(s.jobs, Unsubscribe(s.caches[key]), t);
        }
      case Serve(i) =>
        if i < |s.jobs| {
          PendingTake(s.jobs, i, t);
          DoCounts(s.feed, s.jobs[i], t);
        }
      case Drop(i) =>
        if i < |s.jobs| { PendingTake(s.jobs, i, t); }
      case Acquire(_) =>
      case Attach =>
    }
  }

  // Over every order of creations, releases, feed calls and attachment, a
  // token's surplus is exactly what those actions added.
  lemma {:induction false} SurplusIsWhatWasAdded(s: State, actions: seq<Action>, t: string)
    requires Positive(s.feed)
    ensures Positive(Run(s, actions).feed)
    ensures Surplus(Run(s, actions), t) == Surplus(s, t) + AddsAll(s, actions, t)
  {
    hide Surplus, Adds, Apply;
    if |actions| > 0 {
      SurplusIsWhatWasAdded(s, actions[..|actions| - 1], t);
      SurplusStep(Run(s, actions[..|actions| - 1]), actions[|actions| - 1], t);
    }
  }

  lemma {:induction false} WhatAdds(s: State, actions: seq<Action>, t: string)
    requires s.attached
    ensures Run(s, actions).attached
    ensures AddsAll(s, actions, t) == Underflows(s, actions, t) - DroppedAll(s, actions, t)
  {
    hide CreateStep, ReleaseStep, Change;
    if |actions| > 0 {
      WhatAdds(s, actions[..|actions| - 1], t);
      StaysAttached(Run(s, actions[..|actions| - 1]), actions[|actions| - 1]);
    }
  }

  lemma StaysAttached(s: State, a: Action)
    requires s.attached
    ensures Apply(s, a).attached
  {}

  // Counts in step with the caches: no surplus anywhere.
  ghost predicate InStep(s: State) { Positive(s.feed) && forall t :: Surplus(s, t) == 0 }

  // Once every feed call has run or been given up, in whatever order the worker
  // threads took them, a token's count is the number of live caches holding it
  // exactly when all that was added cancels out: what was evicted without a feed
  // and released from zero against what was created without a feed, and the calls
  // given up on either side.
  lemma {:induction false} CountsExactly(s: State, actions: seq<Action>, t: string)
    requires InStep(s) && Run(s, actions).jobs == []
    ensures Count(Run(s, actions).feed, t) == |Holders(Run(s, actions).caches, t)| + AddsAll(s, actions, t)
  {
    hide Run, AddsAll, Holders;
    SurplusIsWhatWasAdded(s, actions, t);
  }

  // With the feed attached throughout, exactly when as many releases of the
  // token were run from zero as subscriptions, less releases, were given up.
  lemma {:induction false} CountsFollowCaches(s: State, actions: seq<Action>, t: string)
    requires InStep(s) && s.attached
    ensures Count(Run(s, actions).feed, t) + Pending(Run(s, actions).jobs, t)
      == |Holders(Run(s, actions).caches, t)| + Underflows(s, actions, t) - DroppedAll(s, actions, t)
    ensures Run(s, actions).jobs == [] ==>
      (Count(Run(s, actions).feed, t) == |Holders(Run(s, actions).caches, t)|
       <==> Underflows(s, actions, t) == DroppedAll(s, actions, t))
  {
    hide Run, AddsAll, Holders, Underflows, DroppedAll;
    SurplusIsWhatWasAdded(s, actions, t);
    WhatAdds(s, actions, t);
  }

  // Every pending release is covered by the count and the calls before it.
  ghost predicate Covered(s: State)
  {
    forall t, k :: 0 <= k <= |s.jobs| ==> Count(s.feed, t) + Pending(s.jobs[..k], t) >= 0
  }

  lemma CoveredPush(s: State, s': State, job: Job)
    requires Covered(s) && s'.feed == s.feed && s'.jobs == s.jobs + [job]
    requires forall t :: Count(s.feed, t) + Pending(s.jobs, t) + Change(job, t) >= 0
    ensures Covered(s')
  {
    hide Pending;
    forall t, k | 0 <= k <= |s'.jobs| ensures Count(s'.feed, t) + Pending(s'.jobs[..k], t) >= 0 {
      if k <= |s.jobs| {
        assert s'.jobs[..k] == s.jobs[..k];
      } else {
        assert s'.jobs[..k] == s.jobs + [job] && s.jobs[..|s.jobs|] == s.jobs;
        PendingPush(s.jobs, job, t);
      }
    }
  }

  lemma PendingFront(jobs: seq<Job>, t: string)
    requires |jobs| > 0
    ensures Pending(jobs, t) == Change(jobs[0], t) + Pending(jobs[1..], t)
  {
    assert Without(jobs, 0) == jobs[1..];
    PendingTake(jobs, 0, t);
  }

  lemma ServeFirst(s: State)
    requires Covered(s) && Positive(s.feed) && |s.jobs| > 0
    ensures Covered(Apply(s, Serve(0))) && forall t :: !Underflow(s, Serve(0), t)
  {
    hide Pending, Do;
    var s' := Apply(s, Serve(0));
    assert s'.jobs == s.jobs[1..];
    forall t ensures !Underflow(s, Serve(0), t) {
      assert s.jobs[..1][1..] == [];
      PendingFront(s.jobs[..1], t);
      PendingNone(t);
      assert Count(s.feed, t) + Pending(s.jobs[..1], t) >= 0;
    }
    forall t, k | 0 <= k <= |s'.jobs| ensures Count(s'.feed, t) + Pending(s'.jobs[..k], t) >= 0 {
      assert s.jobs[..k + 1][1..] == s'.jobs[..k];
      PendingFront(s.jobs[..k + 1], t);
      DoCounts(s.feed, s.jobs[0], t);
      assert Count(s.feed, t) + Pending(s.jobs[..k + 1], t) >= 0;
      assert !Underflow(s, Serve(0), t);
    }
  }

  lemma PendingNone(t: string)
    ensures Pending([], t) == 0
  {}

  // Calls run in the order they were made, none given up, never release from zero.
  lemma {:induction false} InOrderNeverUnderflows(s: State, actions: seq<Action>)
    requires InStep(s) && s.attached && Covered(s)
    requires forall a :: a in actions ==> (a.Serve? ==> a.job == 0) && !a.Drop?
    ensures InStep(Run(s, actions)) && Covered(Run(s, actions)) && forall t :: Underflows(s, actions, t) == 0
  {
    hide InStep, Covered, Apply, Underflow;
    if |actions| > 0 {
      var before, a := Run(s, actions[..|actions| - 1]), actions[|actions| - 1];
      InOrderNeverUnderflows(s, actions[..|actions| - 1]);
      WhatAdds(s, actions[..|actions| - 1], "");
      InOrderStep(before, a);
    }
  }

  lemma InOrderStep(s: State, a: Action)
    requires InStep(s) && s.attached && Covered(s) && (a.Serve? ==> a.job == 0) && !a.Drop?
    ensures InStep(Apply(s, a)) && Covered(Apply(s, a)) && forall t :: !Underflow(s, a, t)
  {
    hide Holders, Pending, Covered, AddKey, DropKey;
    if a.Serve? && |s.jobs| > 0 { ServeFirst(s); }
    forall t ensures Surplus(Apply(s, a), t) == 0 && !Underflow(s, a, t) { SurplusStep(s, a, t); }
    SurplusStep(s, a, "");
    match a {
      case Create(key, tokens) =>
        if key !in s.caches {
          forall t ensures Count(s.feed, t) + Pending(s.jobs, t) >= 0 { assert Surplus(s, t) == 0; }
          CoveredPush(s, Apply(s, a), Subscribe(tokens));
        }
      case Release(key) =>
        if Apply(s, a).jobs != s.jobs {
          forall t ensures Count(s.feed, t) + Pending(s.jobs, t) + Change(Unsubscribe(s.caches[key]), t) >= 0 {
            HoldersAfterEvict(s.caches, key, t);
            assert Surplus(s, t) == 0;
          }
          CoveredPush(s, Apply(s, a), Unsubscribe(s.caches[key]));
        } else {
          SameJobs(s, Apply(s, a));
        }
      case Acquire(_) => SameJobs(s, Apply(s, a));
      case Attach => SameJobs(s, Apply(s, a));
      case Serve(_) =>
    }
  }

  lemma SameJobs(s: State, s': State)
    requires Covered(s) && s'.jobs == s.jobs && s'.feed == s.feed
    ensures Covered(s')
  {}

  // Worker threads can also overtake one another: a chain opened and closed at
  // once may have its release run, from zero, before its subscription, and the
  // token then stays subscribed with no cache behind it.
  lemma OvertakingLeaks(key: string, token: string)
    ensures
      var s := State(map[], map[], map[], map[], true, []);
      var actions := [Create(key, {token}), Release(key), Serve(1), Serve(0)];
      && InStep(s) && Run(s, actions).jobs == [] && Run(s, actions).caches == map[]
      && Underflows(s, actions, token) == 1 && Count(Run(s, actions).feed, token) == 1
  {
    hide AddKey, DropKey, Subscribed, Unsubscribed;
    var acts := [Create(key, {token}), Release(key), Serve(1), Serve(0)];
    var s0 := State(map[], map[], map[], map[], true, []);
    var s1 := Apply(s0, acts[0]);
    var s2 := Apply(s1, acts[1]);
    assert s1.caches == map[key := {token}] && s1.jobs == [Subscribe({token})] && s1.feed == map[];
    assert s2.caches == map[] && s2.jobs == [Subscribe({token}), Unsubscribe({token})] && s2.feed == map[];
    forall t ensures Surplus(s0, t) == 0 { assert Holders(s0.caches, t) == {}; }
    RunFour(s0, acts, token);
    assert Underflow(s2, acts[2], token);
    var s3 := Apply(s2, acts[2]);
    assert s3.jobs == [Subscribe({token})] && !Underflow(s3, acts[3], token);
    assert Holders(Run(s0, acts).caches, token) == {};
    NoneDropped(s0, acts, token);
    CountsFollowCaches(s0, acts, token);
  }

  lemma {:induction false} NoneDropped(s: State, actions: seq<Action>, t: string)
    requires forall a :: a in actions ==> !a.Drop?
    ensures DroppedAll(s, actions, t) == 0
  {
    if |actions| > 0 { NoneDropped(s, actions[..|actions| - 1], t); }
  }

  lemma {:induction false} RunFour(s: State, a: seq<Action>, t: string)
    requires |a| == 4
    ensures Run(s, a) == Apply(Apply(Apply(Apply(s, a[0]), a[1]), a[2]), a[3])
    ensures Underflows(s, a, t)
      == (if Underflow(s, a[0], t) then 1 else 0) + (if Underflow(Apply(s, a[0]), a[1], t) then 1 else 0)
       + (if Underflow(Apply(Apply(s, a[0]), a[1]), a[2], t) then 1 else 0)
       + (if Underflow(Apply(Apply(Apply(s, a[0]), a[1]), a[2]), a[3], t) then 1 else 0)
  {
    hide Apply, Underflow;
    assert a[..3][..2] == a[..2] && a[..2][..1] == a[..1] && a[..1][..0] == a[..0];
    assert Run(s, a[..0]) == s && Underflows(s, a[..0], t) == 0;
    assert Run(s, a[..1]) == Apply(s, a[0]);
    assert Run(s, a[..2]) == Apply(Run(s, a[..1]), a[1]);
    assert Run(s, a[..3]) == Apply(Run(s, a[..2]), a[2]);
    assert Underflows(s, a[..1], t) == if Underflow(s, a[0], t) then 1 else 0;
    assert Underflows(s, a[..2], t) == Underflows(s, a[..1], t) + if Underflow(Run(s, a[..1]), a[1], t) then 1 else 0;
    assert Underflows(s, a[..3], t) == Underflows(s, a[..2], t) + if Underflow(Run(s, a[..2]), a[2], t) then 1 else 0;
  }

  // ----- Viewers ---------------------------------------------------------------------------------------------

  // While a chain has viewers its cache is live and nobody evicts it.
  ghost predicate ViewersServed(s: State)
  {
    forall k :: k in s.refcounts ==> s.refcounts[k] > 0 && k in s.caches
  }

  // That is kept by everything but a viewer acquiring a chain whose cache was
  // evicted while its stream was still being set up.
  lemma ViewersServedIff(s: State, a: Action)
    requires ViewersServed(s)
    ensures ViewersServed(Apply(s, a)) <==> (a.Acquire? ==> a.key in s.caches)
  {
    if a.Acquire? { assert a.key in Apply(s, a).refcounts; }
  }

  // It can happen: the second viewer of a chain finds the cache, comes and goes
  // while the first is still waiting for its creation to finish.
  lemma LateAcquireHoldsNothing(s: State, key: string, tokens: set<string>)
    requires ViewersServed(s) && key !in s.caches
    ensures var s' := Apply(Apply(Apply(Apply(s, Create(key, tokens)), Acquire(key)), Release(key)), Acquire(key));
      Count(s'.refcounts, key) == 1 && key !in s'.caches && !ViewersServed(s')
  {
    assert key !in s.refcounts;
    var s' := Apply(Apply(Apply(Apply(s, Create(key, tokens)), Acquire(key)), Release(key)), Acquire(key));
    assert key in s'.refcounts;
  }

  // ----- The loops over a cache's tokens ----------------------------------------------------------------------

  lemma AddKeyOne(index: map<string, set<string>>, done: set<string>, token: string, key: string)
    requires token !in done
    ensures AddKey(index, done + {token}, key)
      == AddKey(index, done, key)[token := KeysAt(AddKey(index, done, key), token) + {key}]
  {}

  lemma DropKeyOne(index: map<string, set<string>>, done: set<string>, token: string, key: string)
    requires token !in done
    ensures var dropped := DropKey(index, done, key);
      DropKey(index, done + {token}, key) ==
        if token !in dropped then dropped
        else if dropped[token] - {key} == {} then dropped - {token}
        else dropped[token := dropped[token] - {key}]
  {}

  lemma NoTokens(index: map<string, set<string>>, key: string)
    ensures AddKey(index, {}, key) == index && DropKey(index, {}, key) == index
  {}

  lemma SubscribedOne(feed: map<string, int>, done: set<string>, token: string)
    requires token !in done
    ensures Subscribed(feed, done + {token})
      == Subscribed(feed, done)[token := Count(Subscribed(feed, done), token) + 1]
    ensures Count(Subscribed(feed, done), token) == Count(feed, token)
  {}

  lemma UnsubscribedOne(feed: map<string, int>, done: set<string>, token: string)
    requires token !in done
    ensures var dropped := Unsubscribed(feed, done);
      && Count(dropped, token) == Count(feed, token)
      && Unsubscribed(feed, done + {token}) ==
           if Count(dropped, token) <= 1 then dropped - {token} else dropped[token := Count(dropped, token) - 1]
  {}

  lemma NothingSubscribed(feed: map<string, int>)
    ensures Subscribed(feed, {}) == feed && Unsubscribed(feed, {}) == feed
  {}

  method IndexTokens(before: map<string, set<string>>, tokens: set<string>, key: string)
      returns (index: map<string, set<string>>)
    ensures index == AddKey(before, tokens, key)
  {
    hide AddKey;
    index := before;
    NoTokens(before, key);
    var rest := tokens;
    ghost var done: set<string> := {};
    while rest != {}
      invariant rest <= tokens && done == tokens - rest && index == AddKey(before, done, key)
      decreases |rest|
    {
      var token :| token in rest;
      AddKeyOne(before, done, token, key);
      index := index[token := (if token in index then index[token] else {}) + {key}];
      rest := rest - {token};
      assert tokens - rest == done + {token};
      done := done + {token};
    }
    assert done == tokens;
  }

  method UnindexTokens(before: map<string, set<string>>, tokens: set<string>, key: string)
      returns (index: map<string, set<string>>)
    ensures index == DropKey(before, tokens, key)
  {
    hide DropKey;
    index := before;
    NoTokens(before, key);
    var rest := tokens;
    ghost var done: set<string> := {};
    while rest != {}
      invariant rest <= tokens && done == tokens - rest && index == DropKey(before, done, key)
      decreases |rest|
    {
      var token :| token in rest;
      DropKeyOne(before, done, token, key);
      if token in index {
        var keys := index[token] - {key};
        index := if keys == {} then index - {token} else index[token := keys];
      }
      rest := rest - {token};
      assert tokens - rest == done + {token};
      done := done + {token};
    }
    assert done == tokens;
  }

  method CountUp(before: map<string, int>, tokens: set<string>) returns (feed: map<string, int>, unheld: set<string>)
    ensures feed == Subscribed(before, tokens)
    ensures forall t :: t in unheld <==> t in tokens && Count(before, t) == 0
  {
    hide Subscribed, Count;
    feed, unheld := before, {};
    NothingSubscribed(before);
    var rest := tokens;
    ghost var done: set<string> := {};
    while rest != {}
      invariant rest <= tokens && done == tokens - rest && feed == Subscribed(before, done)
      invariant forall t :: t in unheld <==> t in done && Count(before, t) == 0
      decreases |rest|
    {
      var token :| token in rest;
      SubscribedOne(before, done, token);
      var count := Count(feed, token);
      if count == 0 { unheld := unheld + {token}; }
      feed := feed[token := count + 1];
      rest := rest - {token};
      assert tokens - rest == done + {token};
      done := done + {token};
    }
    assert done == tokens;
  }

  method CountDown(before: map<string, int>, tokens: set<string>) returns (feed: map<string, int>, idle: set<string>)
    ensures feed == Unsubscribed(before, tokens)
    ensures forall t :: t in idle <==> t in tokens && Count(before, t) <= 1
  {
    hide Unsubscribed, Count;
    feed, idle := before, {};
    NothingSubscribed(before);
    var rest := tokens;
    ghost var done: set<string> := {};
    while rest != {}
      invariant rest <= tokens && done == tokens - rest && feed == Unsubscribed(before, done)
      invariant forall t :: t in idle <==> t in done && Count(before, t) <= 1
      decreases |rest|
    {
      var token :| token in rest;
      UnsubscribedOne(before, done, token);
      var count := Count(feed, token);
      if count <= 1 {
        feed := feed - {token};
        idle := idle + {token};
      } else {
        feed := feed[token := count - 1];
      }
      rest := rest - {token};
      assert tokens - rest == done + {token};
      done := done + {token};
    }
    assert done == tokens;
  }

  // ----- The code ---------------------------------------------------------------------------------------------

  class ShoonyaOptionFeed {
    var subscribed: map<string, int>

    constructor ()
      ensures subscribed == map[]
    {
      subscribed := map[];
    }

    // Returns the tokens to ask the broker for: those nobody held.
    method EnsureSubscribed(tokens: set<string>) returns (unheld: set<string>)
      modifies this
      ensures subscribed == Subscribed(old(subscribed), tokens)
      ensures forall t :: t in unheld <==> t in tokens && Count(old(subscribed), t) == 0
    {
      subscribed, unheld := CountUp(subscribed, tokens);
    }

    // Returns the tokens to give up: those nobody else holds.
    method Release(tokens: set<string>) returns (idle: set<string>)
      modifies this
      ensures subscribed == Unsubscribed(old(subscribed), tokens)
      ensures forall t :: t in idle <==> t in tokens && Count(old(subscribed), t) <= 1
    {
      subscribed, idle := CountDown(subscribed, tokens);
    }
  }

  class OptionChainService {
    var caches: map<string, set<string>>
    var refcounts: map<string, int>
    var index: map<string, set<string>>
    var attached: bool
    var jobs: seq<Job>

    constructor (attached: bool)
      ensures Now(map[]) == State(map[], map[], map[], map[], attached, [])
    {
      this.caches, this.refcounts, this.index, this.attached, this.jobs := map[], map[], map[], attached, [];
    }

    function Now(feed: map<string, int>): State
      reads this
    {
      State(caches, refcounts, index, feed, attached, jobs)
    }

    method SetFeed(ghost feed: map<string, int>)
      modifies this
      ensures Now(feed) == Apply(old(Now(feed)), Attach)
    {
      attached := true;
    }

    // The part of _get_or_create_cache that runs before its first await.
    method CreateCache(key: string, tokens: set<string>, ghost feed: map<string, int>)
      modifies this
      ensures Now(feed) == CreateStep(old(Now(feed)), key, tokens)
    {
      if key in caches { return; }
      caches := caches[key := tokens];
      index := IndexTokens(index, tokens, key);
      if attached { jobs := jobs + [Subscribe(tokens)]; }
    }

    method Acquire(key: string, ghost feed: map<string, int>)
      modifies this
      ensures Now(feed) == Apply(old(Now(feed)), Action.Acquire(key))
    {
      refcounts := refcounts[key := (if key in refcounts then refcounts[key] else 0) + 1];
    }

    method Release(key: string, ghost feed: map<string, int>)
      modifies this
      ensures Now(feed) == ReleaseStep(old(Now(feed)), key)
    {
      var held := if key in refcounts then refcounts[key] else 0;
      var remaining := if held - 1 < 0 then 0 else held - 1;
      if remaining > 0 {
        refcounts := refcounts[key := remaining];
        return;
      }
      refcounts := refcounts - {key};
      if key !in caches { return; }
      var tokens := caches[key];
      caches := caches - {key};
      index := UnindexTokens(index, tokens, key);
      if attached { jobs := jobs + [Unsubscribe(tokens)]; }
    }
  }
}
