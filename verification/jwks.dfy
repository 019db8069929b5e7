/**
 The cache of signing keys: once a fetch has succeeded, the next forced one waits a minute, so while
 fetches succeed a stream of tokens with unknown key ids cannot turn into a stream of requests. While
 fetches fail it can: what bounds the requests is their success.
 */
module JwksCache {
  import opened Wrappers

  const TTL_MS: int := 10 * 60 * 1000
  const MIN_REFRESH_MS: int := 60 * 1000

  /** What the key endpoint answers: an error status, a body without keys, or keys. */
  datatype Fetched<K> = BadStatus | NoKeys | Good(keys: K)

  /** One use of the cache. The clock is read when it begins, and again when a fetch has succeeded. */
  datatype Use<K> = Use(force: bool, at: int, fetched: Fetched<K>, done: int)

  datatype State<K> = State(cached: Option<K>, fetchedAt: int)

  datatype Outcome<K> = Outcome(state: State<K>, keys: Option<K>, asked: bool)

  predicate Refreshes<K>(s: State<K>, force: bool, at: int) {
    s.cached.None? || at - s.fetchedAt > TTL_MS || (force && at - s.fetchedAt > MIN_REFRESH_MS)
  }

  /** The keys returned, or None for an error, and what is remembered. */
  function Step<K>(s: State<K>, u: Use<K>): Outcome<K> {
    if !Refreshes(s, u.force, u.at) then Outcome(s, s.cached, false)
    else
      match u.fetched
      case BadStatus => Outcome(s, s.cached, true)
      case NoKeys => Outcome(s, None, true)
      case Good(keys) => Outcome(State(Some(keys), u.done), Some(keys), true)
  }

  function Start<K>(): State<K> {
    State(None, 0)
  }

  class Cache<K(0)> {
    var cached: Option<K>
    var fetchedAt: int

    constructor ()
      ensures View() == Start()
    {
      cached, fetchedAt := None, 0;
    }

    function View(): State<K>
      reads this
    {
      State(cached, fetchedAt)
    }

    method Get(u: Use<K>) returns (keys: Option<K>, asked: bool)
      modifies this
      ensures Outcome(View(), keys, asked) == Step(old(View()), u)
    {
      var age := u.at - fetchedAt;
      var stale := cached.None? || age > TTL_MS;
      var refresh := stale || (u.force && age > MIN_REFRESH_MS);
      if !refresh && cached.Some? {
        return cached, false;
      }
      match u.fetched
      case BadStatus => return cached, true;
      case NoKeys => return None, true;
      case Good(keys) =>
        cached, fetchedAt := Some(keys), u.done;
        return cached, true;
    }
  }

  // Runs.

  function Run<K>(s: State<K>, us: seq<Use<K>>): State<K> {
    if us == [] then s else Step(Run(s, us[..|us| - 1]), us[|us| - 1]).state
  }

  /** The clock never goes back. */
  ghost predicate Clocked<K>(us: seq<Use<K>>) {
    && (forall i :: 0 <= i < |us| ==> us[i].at <= us[i].done)
    && forall i, j :: 0 <= i < j < |us| ==> us[i].done <= us[j].at
  }

  /** This use asks for keys and gets them. */
  predicate Succeeds<K>(s: State<K>, u: Use<K>) {
    Refreshes(s, u.force, u.at) && u.fetched.Good?
  }

  /** When each successful fetch of the run ended. */
  function Successes<K>(us: seq<Use<K>>): seq<int> {
    if us == [] then []
    else
      var front, last := us[..|us| - 1], us[|us| - 1];
      Successes(front) + if Succeeds(Run(Start(), front), last) then [last.done] else []
  }

  /** The cache remembers the latest successful fetch, and only that. */
  lemma {:induction false} RemembersLatest<K>(us: seq<Use<K>>)
    ensures Run(Start(), us).cached.Some? <==> Successes(us) != []
    ensures Successes(us) != [] ==> Run(Start(), us).fetchedAt == Successes(us)[|Successes(us)| - 1]
  {
    if us != [] {
      RemembersLatest(us[..|us| - 1]);
    }
  }

  /** The keys of the latest successful fetch of the run. */
  function Latest<K>(us: seq<Use<K>>): Option<K> {
    if us == [] then None
    else
      var front, last := us[..|us| - 1], us[|us| - 1];
      if Succeeds(Run(Start(), front), last) then Some(last.fetched.keys) else Latest(front)
  }

  lemma {:induction false} CachedIsLatest<K>(us: seq<Use<K>>)
    ensures Run(Start(), us).cached == Latest(us)
  {
    if us != [] {
      CachedIsLatest(us[..|us| - 1]);
    }
  }

  /** Whatever keys a use returns are those of the latest successful fetch, its own included. */
  lemma ReturnsLatest<K>(us: seq<Use<K>>, u: Use<K>)
    ensures var keys := Step(Run(Start(), us), u).keys; keys.Some? ==> keys == Latest(us + [u])
  {
    assert (us + [u])[..|us|] == us;
    CachedIsLatest(us);
  }

  // One use among others, told by what was asked and answered before it.

  /** What the i-th use of the run meets. */
  function At<K>(us: seq<Use<K>>, i: nat): Outcome<K>
    requires i < |us|
  {
    Step(Run(Start(), us[..i]), us[i])
  }

  /** The i-th use asked for keys and got them. */
  predicate Got<K>(us: seq<Use<K>>, i: nat)
    requires i < |us|
  {
    At(us, i).asked && us[i].fetched.Good?
  }

  /** Before the i-th use, the j-th was the last to get keys. */
  ghost predicate LastGot<K>(us: seq<Use<K>>, i: nat, j: nat)
    requires i <= |us|
  {
    j < i && Got(us, j) && forall k :: j < k < i ==> !Got(us, k)
  }

  ghost predicate NoneGot<K>(us: seq<Use<K>>, i: nat)
    requires i <= |us|
  {
    forall k :: 0 <= k < i ==> !Got(us, k)
  }

  /** What the run remembers changes only with a use that gets keys. */
  lemma RunNext<K>(us: seq<Use<K>>, i: nat)
    requires i < |us|
    ensures Run(Start(), us[..i + 1]) ==
      if Got(us, i) then State(Some(us[i].fetched.keys), us[i].done) else Run(Start(), us[..i])
  {
    assert us[..i + 1][..i] == us[..i];
  }

  lemma {:induction false} NothingHeld<K>(us: seq<Use<K>>, i: nat)
    requires i <= |us| && NoneGot(us, i)
    ensures Run(Start(), us[..i]).cached.None?
  {
    if i > 0 {
      RunNext(us, i - 1);
      NothingHeld(us, i - 1);
    }
  }

  lemma {:induction false} LastHeld<K>(us: seq<Use<K>>, i: nat, j: nat)
    requires i <= |us| && LastGot(us, i, j)
    ensures Run(Start(), us[..i]) == State(Some(us[j].fetched.keys), us[j].done)
  {
    RunNext(us, i - 1);
    if j < i - 1 {
      LastHeld(us, i - 1, j);
    }
  }

  /**
   Every use of every run. While no fetch has succeeded it asks, and returns what it gets. Once one has, it asks
   exactly when those keys are more than ten minutes old, or more than one and a refresh is forced; it returns
   the last keys when it does not ask or meets an error status, and fails only on an answer without keys.
   */
  lemma UseExact<K>(us: seq<Use<K>>, i: nat)
    requires i < |us|
    ensures NoneGot(us, i) ==>
      At(us, i).asked && At(us, i).keys == if us[i].fetched.Good? then Some(us[i].fetched.keys) else None
    ensures forall j: nat :: LastGot(us, i, j) ==>
      && (At(us, i).asked <==>
            us[i].at - us[j].done > 600000 || (us[i].force && us[i].at - us[j].done > 60000))
      && (!At(us, i).asked || us[i].fetched.BadStatus? ==> At(us, i).keys == Some(us[j].fetched.keys))
      && (At(us, i).asked && us[i].fetched.Good? ==> At(us, i).keys == Some(us[i].fetched.keys))
      && (At(us, i).asked && us[i].fetched.NoKeys? ==> At(us, i).keys.None?)
  {
    if NoneGot(us, i) {
      NothingHeld(us, i);
    }
    forall j: nat | LastGot(us, i, j)
      ensures Run(Start(), us[..i]) == State(Some(us[j].fetched.keys), us[j].done)
    {
      LastHeld(us, i, j);
    }
  }

  lemma ClockedFront<K>(us: seq<Use<K>>)
    requires Clocked(us) && us != []
    ensures Clocked(us[..|us| - 1]) && us[0].at <= us[|us| - 1].at <= us[|us| - 1].done
    ensures |us| > 1 ==> us[|us| - 2].done <= us[|us| - 1].at
  {
    assert forall i :: 0 <= i < |us| - 1 ==> us[..|us| - 1][i] == us[i];
    assert us[0].at <= us[0].done;
  }

  /** Every successful fetch of the run ends within it. */
  lemma {:induction false} SuccessesWithin<K>(us: seq<Use<K>>)
    requires Clocked(us)
    ensures us == [] ==> Successes(us) == []
    ensures us != [] ==> forall i :: 0 <= i < |Successes(us)| ==> us[0].at <= Successes(us)[i] <= us[|us| - 1].done
  {
    if us != [] {
      ClockedFront(us);
      SuccessesWithin(us[..|us| - 1]);
    }
  }

  /** Two successful fetches are more than a minute apart. */
  lemma {:induction false} SuccessesApart<K>(us: seq<Use<K>>)
    requires Clocked(us)
    ensures forall i :: 0 < i < |Successes(us)| ==> Successes(us)[i] - Successes(us)[i - 1] > MIN_REFRESH_MS
  {
    if us != [] {
      ClockedFront(us);
      SuccessesApart(us[..|us| - 1]);
      RemembersLatest(us[..|us| - 1]);
    }
  }

  lemma {:induction false} ApartSpread(ts: seq<int>)
    requires ts != [] && forall i :: 0 < i < |ts| ==> ts[i] - ts[i - 1] > MIN_REFRESH_MS
    ensures ts[|ts| - 1] - ts[0] >= (|ts| - 1) * MIN_REFRESH_MS
  {
    if |ts| > 1 {
      ApartSpread(ts[..|ts| - 1]);
    }
  }

  /** In any T milliseconds at most 1 + T/60000 fetches succeed. */
  lemma SuccessesBounded<K>(us: seq<Use<K>>, span: nat)
    requires Clocked(us) && (us != [] ==> us[|us| - 1].done - us[0].at <= span)
    ensures |Successes(us)| <= 1 + span / MIN_REFRESH_MS
  {
    var ts := Successes(us);
    if ts != [] {
      SuccessesWithin(us);
      SuccessesApart(us);
      ApartSpread(ts);
      assert (|ts| - 1) * MIN_REFRESH_MS <= span;
    }
  }

  // Requests.

  /** How many uses of the run ask the key endpoint. */
  function Asks<K>(s: State<K>, us: seq<Use<K>>): nat {
    if us == [] then 0
    else
      var front, last := us[..|us| - 1], us[|us| - 1];
      Asks(s, front) + if Step(Run(s, front), last).asked then 1 else 0
  }

  /** How many ask it in vain. */
  function Failures<K>(s: State<K>, us: seq<Use<K>>): nat {
    if us == [] then 0
    else
      var front, last := us[..|us| - 1], us[|us| - 1];
      Failures(s, front) + if Step(Run(s, front), last).asked && !last.fetched.Good? then 1 else 0
  }

  /** Every request succeeds or fails. */
  lemma {:induction false} AsksSplit<K>(us: seq<Use<K>>)
    ensures Asks(Start(), us) == |Successes(us)| + Failures(Start(), us)
  {
    if us != [] {
      AsksSplit(us[..|us| - 1]);
    }
  }

  /** In any T milliseconds there are at most 1 + T/60000 requests, and one more for each that fails. */
  lemma AsksBounded<K>(us: seq<Use<K>>, span: nat)
    requires Clocked(us) && (us != [] ==> us[|us| - 1].done - us[0].at <= span)
    ensures Asks(Start(), us) <= 1 + span / MIN_REFRESH_MS + Failures(Start(), us)
  {
    AsksSplit(us);
    SuccessesBounded(us, span);
  }

  /** n forced uses, all at one moment, all answered with an error. */
  function Failing<K>(at: int, n: nat): (us: seq<Use<K>>)
    ensures |us| == n && forall i :: 0 <= i < n ==> us[i] == Use(true, at, BadStatus, at)
  {
    seq(n, i => Use(true, at, BadStatus, at))
  }

  /**
   A failed fetch leaves the clock of the last success where it is, so nothing bounds the requests while
   fetches fail: from any moment a forced use would ask, for every n there is a run of n forced uses in no
   time at all that asks n times.
   */
  lemma {:induction false} FailuresUnbounded<K>(s: State<K>, at: int, n: nat)
    requires Refreshes(s, true, at)
    ensures Clocked(Failing<K>(at, n)) && Asks(s, Failing<K>(at, n)) == n && Run(s, Failing<K>(at, n)) == s
    decreases n
  {
    if n > 0 {
      var us := Failing<K>(at, n);
      assert us[..n - 1] == Failing<K>(at, n - 1);
      FailuresUnbounded(s, at, n - 1);
    }
  }
}
