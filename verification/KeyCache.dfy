/** packages/delegation_fabric_adapters/kms/signer.py, `CachedKeyResolver`: key resolution with a positive and a
    negative cache. Instants are integers in microseconds of the monotonic clock. */
module KeyCache {
  import opened Text
  import opened Records

  const NEGATIVE_TTL := 30 * SECOND

  datatype Hit = Hit(at: int, pem: string)

  datatype Caches = Caches(cache: map<string, Hit>, negativeUntil: map<string, int>)

  /** One call: the clock, and what the underlying resolver would answer; None is an exception. */
  datatype Query = Query(kid: string, now: int, answer: Option<string>)

  /** What a call did: whether it asked the resolver, and its result; None is GrantSignatureError. */
  datatype Outcome = Outcome(kid: string, now: int, asked: bool, result: Option<string>)

  function Answer(s: Caches, ttl: int, q: Query): (Caches, Outcome) {
    if q.kid in s.cache && q.now - s.cache[q.kid].at < ttl then (s, Outcome(q.kid, q.now, false, Some(s.cache[q.kid].pem)))
    else if q.now < (if q.kid in s.negativeUntil then s.negativeUntil[q.kid] else 0) then (s, Outcome(q.kid, q.now, false, None))
    else match q.answer
      case None => (s.(negativeUntil := s.negativeUntil[q.kid := q.now + NEGATIVE_TTL]), Outcome(q.kid, q.now, true, None))
      case Some(pem) => (s.(cache := s.cache[q.kid := Hit(q.now, pem)]), Outcome(q.kid, q.now, true, Some(pem)))
  }

  class CachedKeyResolver {
    const ttl: int
    var cache: map<string, Hit>
    var negativeUntil: map<string, int>

    ghost function View(): Caches
      reads this
    {
      Caches(cache, negativeUntil)
    }

    constructor (ttlSeconds: int)
      ensures ttl == ttlSeconds * SECOND && View() == Caches(map[], map[])
    {
      ttl, cache, negativeUntil := ttlSeconds * SECOND, map[], map[];
    }

    method Call(q: Query) returns (o: Outcome)
      modifies this
      ensures (View(), o) == Answer(old(View()), ttl, q)
    {
      if q.kid in cache {
        var hit := cache[q.kid];
        if q.now - hit.at < ttl { return Outcome(q.kid, q.now, false, Some(hit.pem)); }
      }
      var until := if q.kid in negativeUntil then negativeUntil[q.kid] else 0;
      if q.now < until { return Outcome(q.kid, q.now, false, None); }
      match q.answer {
        case None =>
          negativeUntil := negativeUntil[q.kid := q.now + NEGATIVE_TTL];
          return Outcome(q.kid, q.now, true, None);
        case Some(pem) =>
          cache := cache[q.kid := Hit(q.now, pem)];
          return Outcome(q.kid, q.now, true, Some(pem));
      }
    }
  }

  // ---- sequences of calls ----

  /** The caches and the log after a sequence of calls on a fresh resolver. */
  function Trace(ttl: int, qs: seq<Query>): (r: (Caches, seq<Outcome>))
    ensures |r.1| == |qs|
  {
    if qs == [] then (Caches(map[], map[]), [])
    else
      var (s, log) := Trace(ttl, qs[..|qs| - 1]);
      var (s', o) := Answer(s, ttl, qs[|qs| - 1]);
      (s', log + [o])
  }

  predicate Monotone(qs: seq<Query>) { forall i, j :: 0 <= i < j < |qs| ==> qs[i].now <= qs[j].now }

  /** The resolver itself gave `pem` for `kid` in the j-th call. */
  predicate Resolved(log: seq<Outcome>, j: nat, kid: string, at: int, pem: string) {
    j < |log| && log[j] == Outcome(kid, at, true, Some(pem))
  }

  /** The i-th result was resolved in that call, or less than ttl before it. */
  ghost predicate Fresh(log: seq<Outcome>, ttl: int, i: nat) {
    i < |log| && log[i].result.Some? ==>
      exists j: nat, at :: j <= i && Resolved(log, j, log[i].kid, at, log[i].result.value) && (j == i || log[i].now - at < ttl)
  }

  /** Two resolver calls for one key are far enough apart. */
  predicate Apart(log: seq<Outcome>, ttl: int, i: nat, j: nat) {
    i < j < |log| && log[i].asked && log[j].asked && log[i].kid == log[j].kid ==>
      log[j].now - log[i].now >= if log[i].result.Some? then ttl else NEGATIVE_TTL
  }

  ghost predicate CacheOk(s: Caches, log: seq<Outcome>, kid: string) {
    kid in s.cache ==> exists j: nat :: Resolved(log, j, kid, s.cache[kid].at, s.cache[kid].pem)
  }

  /** The caches remember the latest success and failure. */
  predicate Remembered(s: Caches, log: seq<Outcome>, i: nat) {
    i < |log| && log[i].asked ==>
      if log[i].result.Some? then log[i].kid in s.cache && log[i].now <= s.cache[log[i].kid].at
      else log[i].kid in s.negativeUntil && log[i].now + NEGATIVE_TTL <= s.negativeUntil[log[i].kid]
  }

  ghost predicate Inv(s: Caches, log: seq<Outcome>, ttl: int) {
    && (forall i: nat :: Fresh(log, ttl, i)) && (forall i: nat, j: nat :: Apart(log, ttl, i, j))
    && (forall k :: CacheOk(s, log, k)) && (forall i: nat :: Remembered(s, log, i))
  }

  lemma AnswerKeepsInv(s: Caches, log: seq<Outcome>, ttl: int, q: Query)
    requires Inv(s, log, ttl) && forall i :: 0 <= i < |log| ==> log[i].now <= q.now
    ensures var (s', o) := Answer(s, ttl, q); Inv(s', log + [o], ttl)
  {
    var (s', o) := Answer(s, ttl, q);
    var log', n := log + [o], |log|;
    forall k ensures CacheOk(s', log', k) {
      assert CacheOk(s, log, k);
      if k in s'.cache && (k !in s.cache || s'.cache[k] != s.cache[k]) {
        assert Resolved(log', n, k, s'.cache[k].at, s'.cache[k].pem);
      } else if k in s.cache {
        var j: nat :| Resolved(log, j, k, s.cache[k].at, s.cache[k].pem);
        assert Resolved(log', j, k, s.cache[k].at, s.cache[k].pem);
      }
    }
    forall i: nat ensures Remembered(s', log', i) { assert Remembered(s, log, i); }
    forall i: nat, j: nat ensures Apart(log', ttl, i, j) { assert Apart(log, ttl, i, j) && Remembered(s, log, i); }
    forall i: nat ensures Fresh(log', ttl, i) {
      assert Fresh(log, ttl, i) && CacheOk(s, log, q.kid);
      if i < n && log[i].result.Some? {
        var j: nat, at :| j <= i && Resolved(log, j, log[i].kid, at, log[i].result.value) && (j == i || log[i].now - at < ttl);
        assert Resolved(log', j, log'[i].kid, at, log'[i].result.value);
      } else if i == n && o.result.Some? && !o.asked {
        var j: nat :| Resolved(log, j, q.kid, s.cache[q.kid].at, s.cache[q.kid].pem);
        assert Resolved(log', j, log'[i].kid, s.cache[q.kid].at, log'[i].result.value);
      } else if i == n && o.result.Some? {
        assert Resolved(log', n, log'[i].kid, q.now, log'[i].result.value);
      }
    }
  }

  lemma {:induction false} TraceInv(ttl: int, qs: seq<Query>)
    requires Monotone(qs)
    ensures Inv(Trace(ttl, qs).0, Trace(ttl, qs).1, ttl)
    ensures forall i :: 0 <= i < |qs| ==> Trace(ttl, qs).1[i].now == qs[i].now
  {
    if qs != [] {
      var front := qs[..|qs| - 1];
      TraceInv(ttl, front);
      var (s, log) := Trace(ttl, front);
      forall i | 0 <= i < |log| ensures log[i].now <= qs[|qs| - 1].now { assert log[i].now == front[i].now; }
      AnswerKeepsInv(s, log, ttl, qs[|qs| - 1]);
    }
  }

  /** Over any sequence of calls with a clock that does not run backwards, every key handed out came from the resolver
      in the same call or less than ttl earlier, and the resolver is asked about one key at most once per ttl after a
      success and once per thirty seconds after a failure. */
  lemma KeysAreFresh(ttl: int, qs: seq<Query>)
    requires Monotone(qs)
    ensures forall i: nat :: Fresh(Trace(ttl, qs).1, ttl, i)
    ensures forall i: nat, j: nat :: Apart(Trace(ttl, qs).1, ttl, i, j)
  {
    TraceInv(ttl, qs);
  }

  // ---- when the resolver is asked ----

  /** An earlier success that is still fresh, and an earlier failure that still holds. */
  predicate FreshHit(log: seq<Outcome>, ttl: int, i: nat, j: nat) {
    j < i < |log| && log[j].kid == log[i].kid && log[j].asked && log[j].result.Some? && log[i].now - log[j].now < ttl
  }

  predicate RecentFailure(log: seq<Outcome>, i: nat, j: nat) {
    j < i < |log| && log[j].kid == log[i].kid && log[j].asked && log[j].result.None? && log[i].now < log[j].now + 30 * SECOND
  }

  ghost predicate Explained(log: seq<Outcome>, ttl: int, i: nat) {
    i < |log| ==>
      if log[i].asked then forall j: nat :: !FreshHit(log, ttl, i, j) && !RecentFailure(log, i, j)
      else if log[i].result.Some? then exists j: nat :: FreshHit(log, ttl, i, j) && log[j].result == log[i].result
      else (forall j: nat :: !FreshHit(log, ttl, i, j)) && exists j: nat :: RecentFailure(log, i, j)
  }

  ghost predicate NegativeOk(s: Caches, log: seq<Outcome>, kid: string) {
    kid in s.negativeUntil ==> exists j: nat :: j < |log| && log[j] == Outcome(kid, s.negativeUntil[kid] - 30 * SECOND, true, None)
  }

  ghost predicate History(s: Caches, log: seq<Outcome>, ttl: int) {
    (forall i: nat :: Explained(log, ttl, i)) && forall k :: NegativeOk(s, log, k)
  }

  lemma ExplainedStays(log: seq<Outcome>, o: Outcome, ttl: int, i: nat)
    requires Explained(log, ttl, i) && i < |log|
    ensures Explained(log + [o], ttl, i)
  {
    var log' := log + [o];
    forall j: nat ensures FreshHit(log', ttl, i, j) == FreshHit(log, ttl, i, j) && RecentFailure(log', i, j) == RecentFailure(log, i, j) {}
    if !log[i].asked && log[i].result.Some? {
      var j: nat :| FreshHit(log, ttl, i, j) && log[j].result == log[i].result;
      assert FreshHit(log', ttl, i, j);
    } else if !log[i].asked {
      var j: nat :| RecentFailure(log, i, j);
      assert RecentFailure(log', i, j);
    }
  }

  lemma AnswerExplained(s: Caches, log: seq<Outcome>, ttl: int, q: Query)
    requires Inv(s, log, ttl) && History(s, log, ttl) && 0 <= q.now
    ensures var o := Answer(s, ttl, q).1; Explained(log + [o], ttl, |log|)
  {
    var o, n := Answer(s, ttl, q).1, |log|;
    var log' := log + [o];
    assert CacheOk(s, log, q.kid) && NegativeOk(s, log, q.kid);
    if q.kid in s.cache {
      var j: nat :| Resolved(log, j, q.kid, s.cache[q.kid].at, s.cache[q.kid].pem);
      assert q.now - s.cache[q.kid].at < ttl ==> FreshHit(log', ttl, n, j) && log'[j].result == o.result;
    }
    if q.kid in s.negativeUntil {
      var j: nat :| j < |log| && log[j] == Outcome(q.kid, s.negativeUntil[q.kid] - 30 * SECOND, true, None);
      assert q.now < s.negativeUntil[q.kid] ==> RecentFailure(log', n, j);
    }
    forall j: nat ensures FreshHit(log', ttl, n, j) ==> q.kid in s.cache && q.now - s.cache[q.kid].at < ttl {
      assert Remembered(s, log, j);
    }
    forall j: nat ensures RecentFailure(log', n, j) ==> q.kid in s.negativeUntil && q.now < s.negativeUntil[q.kid] {
      assert Remembered(s, log, j);
    }
  }

  lemma AnswerKeepsHistory(s: Caches, log: seq<Outcome>, ttl: int, q: Query)
    requires Inv(s, log, ttl) && History(s, log, ttl) && 0 <= q.now
    ensures var (s', o) := Answer(s, ttl, q); History(s', log + [o], ttl)
  {
    var (s', o) := Answer(s, ttl, q);
    var log' := log + [o];
    AnswerExplained(s, log, ttl, q);
    forall i: nat ensures Explained(log', ttl, i) {
      assert Explained(log, ttl, i);
      if i < |log| { ExplainedStays(log, o, ttl, i); }
    }
    forall k ensures NegativeOk(s', log', k) {
      assert NegativeOk(s, log, k);
      if k in s'.negativeUntil && (k !in s.negativeUntil || s'.negativeUntil[k] != s.negativeUntil[k]) {
        assert log'[|log|] == Outcome(k, s'.negativeUntil[k] - 30 * SECOND, true, None);
      } else if k in s.negativeUntil {
        var j: nat :| j < |log| && log[j] == Outcome(k, s.negativeUntil[k] - 30 * SECOND, true, None);
        assert log'[j] == log[j];
      }
    }
  }

  lemma {:induction false} TraceHistory(ttl: int, qs: seq<Query>)
    requires Monotone(qs) && (qs != [] ==> 0 <= qs[0].now)
    ensures History(Trace(ttl, qs).0, Trace(ttl, qs).1, ttl)
    ensures forall i :: 0 <= i < |qs| ==> AnswersTo(Trace(ttl, qs).1[i], qs[i])
  {
    if qs != [] {
      var front, q := qs[..|qs| - 1], qs[|qs| - 1];
      TraceHistory(ttl, front);
      TraceInv(ttl, front);
      var (s, log) := Trace(ttl, front);
      AnswerKeepsHistory(s, log, ttl, q);
      forall i | 0 <= i < |qs| ensures AnswersTo(Trace(ttl, qs).1[i], qs[i]) {
        if i < |front| { assert AnswersTo(log[i], front[i]); }
      }
    }
  }

  /** The outcome is of this call, and what the resolver said if it was asked. */
  predicate AnswersTo(o: Outcome, q: Query) { o.kid == q.kid && o.now == q.now && (o.asked ==> o.result == q.answer) }

  /** The resolver is asked exactly if no success for the key is fresh and no failure is less than thirty seconds old; it
      is then answered as it says, and otherwise with the fresh key, or with a failure if there is none. */
  lemma AskedExactlyWhen(ttl: int, qs: seq<Query>, i: nat)
    requires Monotone(qs) && i < |qs| && 0 <= qs[0].now
    ensures AnswersTo(Trace(ttl, qs).1[i], qs[i]) && Explained(Trace(ttl, qs).1, ttl, i)
  {
    TraceHistory(ttl, qs);
  }
}
