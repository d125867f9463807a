/** The consent cache (stackConsent): only answers that let someone in are
    remembered, for a while, and only so many. */
module Consent {
  import opened Prelude

  type Subject = nat

  const TTL := 600

  /** What the cache is asked to do, each under its mutex, by any number of
      requests at once: look a subject up, or remember that the stack answered
      complete for it, at an instant not later. */
  datatype Step = Look(subject: Subject, at: Time) | Keep(subject: Subject, answered: Time, at: Time)

  /** The cache ran these steps, on a clock that does not go back. */
  ghost predicate Timely(steps: seq<Step>) {
    && (forall i, j | 0 <= i < j < |steps| :: steps[i].at <= steps[j].at)
    && (forall i | 0 <= i < |steps| && steps[i].Keep? :: steps[i].answered <= steps[i].at)
  }

  /** Remembered, and not longer ago than the TTL. */
  ghost predicate Backed(steps: seq<Step>, subject: Subject, at: Time) {
    exists k :: 0 <= k < |steps| && steps[k].Keep? && steps[k].subject == subject && at < steps[k].at + TTL
  }

  ghost predicate Kept(steps: seq<Step>, subject: Subject, until: Time) {
    exists k :: 0 <= k < |steps| && steps[k].Keep? && steps[k].subject == subject && until == steps[k].at + TTL
  }

  lemma KeptStill(steps: seq<Step>, more: seq<Step>, subject: Subject, until: Time)
    requires Kept(steps, subject, until)
    ensures Kept(steps + more, subject, until)
  {
    var k :| 0 <= k < |steps| && steps[k].Keep? && steps[k].subject == subject && until == steps[k].at + TTL;
    assert (steps + more)[k] == steps[k];
  }

  class Cache {
    var passed: map<Subject, Time>
    const max: nat
    ghost var ran: seq<Step>

    constructor (max: nat)
      requires max >= 1
      ensures Valid() && ran == [] && this.max == max
    {
      passed, ran := map[], [];
      this.max := max;
    }

    ghost predicate Valid()
      reads this
    {
      && max >= 1 && |passed| <= max
      && forall s | s in passed :: Kept(ran, s, passed[s])
    }

    method Cached(subject: Subject, now: Time) returns (hit: bool)
      requires Valid()
      modifies this
      ensures Valid() && ran == old(ran) + [Look(subject, now)]
      ensures hit ==> Backed(old(ran), subject, now)
      ensures hit <==> subject in old(passed) && now < old(passed)[subject]
      ensures passed == if hit then old(passed) else old(passed) - {subject}
    {
      ghost var was := ran;
      ran := ran + [Look(subject, now)];
      forall s | s in passed ensures Kept(ran, s, passed[s]) { KeptStill(was, [Look(subject, now)], s, passed[s]); }
      if subject !in passed {
        assert passed == passed - {subject};
        return false;
      }
      if now < passed[subject] { return true; }
      SizeLess(passed, subject);
      passed := passed - {subject};
      hit := false;
    }

    /** Everything remembered that has not expired stays, unless that alone fills
        the cache. */
    method Remember(subject: Subject, answered: Time, now: Time)
      requires Valid()
      modifies this
      ensures Valid() && ran == old(ran) + [Keep(subject, answered, now)]
      ensures subject in passed && passed[subject] == now + TTL
      ensures forall s | s in passed && s != subject :: s in old(passed) && passed[s] == old(passed)[s]
      ensures (forall s | s in old(passed) && now < old(passed)[s] :: s in passed) || |Live(old(passed), now)| >= max
      ensures |old(passed)| < max ==> passed == old(passed)[subject := now + TTL]
    {
      ghost var was := ran;
      var keep := Keep(subject, answered, now);
      ran := ran + [keep];
      assert ran[|was|] == keep;
      assert Kept(ran, subject, now + TTL);
      forall s | s in passed ensures Kept(ran, s, passed[s]) { KeptStill(was, [keep], s, passed[s]); }
      if |passed| >= max {
        DropExpired(now);
        DropAny();
      }
      SizeMore(passed, subject, now + TTL);
      passed := passed[subject := now + TTL];
    }

    method DropExpired(now: Time)
      modifies this`passed
      ensures passed == Live(old(passed), now) && |passed| <= |old(passed)|
    {
      ghost var was := passed;
      var left := passed.Keys;
      while left != {}
        invariant left <= was.Keys
        invariant passed == map s | s in was && (s in left || now < was[s]) :: was[s]
      {
        var s :| s in left;
        left := left - {s};
        if passed[s] <= now { passed := passed - {s}; }
      }
      SubmapSize(passed, was);
    }

    /** Which entries go is up to the map's order. */
    method DropAny()
      requires max >= 1
      modifies this`passed
      ensures |passed| < max && forall s | s in passed :: s in old(passed) && passed[s] == old(passed)[s]
      ensures |old(passed)| < max ==> passed == old(passed)
    {
      while |passed| >= max
        invariant forall s | s in passed :: s in old(passed) && passed[s] == old(passed)[s]
        invariant |old(passed)| < max ==> passed == old(passed)
        decreases |passed|
      {
        var s :| s in passed;
        SizeLess(passed, s);
        passed := passed - {s};
      }
    }

    method One(step: Step) returns (hit: bool)
      requires Valid()
      modifies this
      ensures Valid() && ran == old(ran) + [step]
      ensures hit ==> step.Look? && Backed(old(ran), step.subject, step.at)
    {
      hit := false;
      if step.Look? {
        hit := Cached(step.subject, step.at);
      } else {
        Remember(step.subject, step.answered, step.at);
      }
    }

    /** Any requests at once, as the steps they take at the cache. Every hit is
        backed by an answer kept less than the TTL before. */
    method Serve(steps: seq<Step>) returns (hits: seq<bool>)
      requires Valid()
      modifies this
      ensures Valid() && ran == old(ran) + steps && |hits| == |steps|
      ensures forall i | 0 <= i < |steps| :: hits[i] ==>
        steps[i].Look? && Backed(old(ran) + steps[..i], steps[i].subject, steps[i].at)
    {
      hide Backed;
      hits := [];
      for i := 0 to |steps|
        invariant Valid() && ran == old(ran) + steps[..i] && |hits| == i
        invariant forall j | 0 <= j < i :: hits[j] ==>
          steps[j].Look? && Backed(old(ran) + steps[..j], steps[j].subject, steps[j].at)
      {
        assert old(ran) + steps[..i + 1] == old(ran) + steps[..i] + [steps[i]];
        var hit := One(steps[i]);
        hits := hits + [hit];
      }
      assert old(ran) + steps[..|steps|] == old(ran) + steps;
    }

    /** complete: asked at begin, answered (None: no verdict) at answeredAt, with
        other requests at the cache in between. */
    method Complete(subject: Subject, proper: bool, verdict: Option<bool>, begin: Time, answeredAt: Time,
                    between: seq<Step>, end: Time)
      returns (ok: bool, ghost asked: bool)
      requires Valid()
      modifies this
      ensures Valid()
      ensures ok ==> proper && (if asked then verdict == Some(true) else Backed(old(ran), subject, begin))
      ensures proper && verdict == Some(true) ==> ok
      ensures asked <==> proper && !(subject in old(passed) && begin < old(passed)[subject])
      ensures ran == if !proper then old(ran) else if !asked then old(ran) + [Look(subject, begin)]
                     else old(ran) + [Look(subject, begin)] + between
                          + (if ok then [Keep(subject, answeredAt, end)] else [])
      ensures asked && ok ==> subject in passed && passed[subject] == end + TTL
    {
      asked := false;
      if !proper { return false, false; }
      var hit := Cached(subject, begin);
      if hit { return true, false; }
      asked := true;
      var hits := Serve(between);
      if verdict != Some(true) { return false, true; }
      Remember(subject, answeredAt, end);
      ok := true;
    }
  }

  /** The stack answered complete for the subject less than limit before. */
  ghost predicate AnsweredWithin(steps: seq<Step>, subject: Subject, at: Time, limit: Time) {
    exists k :: 0 <= k < |steps| && steps[k].Keep? && steps[k].subject == subject && at - steps[k].answered < limit
  }

  /** Some answer for the subject was at most delay old at that instant. */
  ghost predicate Prompt(steps: seq<Step>, subject: Subject, at: Time, delay: Time) {
    exists k :: 0 <= k < |steps| && steps[k].Keep? && steps[k].subject == subject && at - steps[k].answered <= delay
  }

  /** Every hit that what is remembered of a subject can give (Cached: up to
      passed[subject], from the instant it was remembered) is backed by an answer
      younger than a limit exactly if some answer was at most limit - TTL old when
      it was remembered. For the TTL itself: exactly if an answer was remembered
      the instant it was given. */
  lemma AnswerAge(c: Cache, subject: Subject, limit: Time)
    requires c.Valid() && subject in c.passed
    ensures var until := c.passed[subject];
            (forall at | until - TTL <= at < until :: AnsweredWithin(c.ran, subject, at, limit)) <==>
              Prompt(c.ran, subject, until - TTL, limit - TTL)
  {
    var steps, until := c.ran, c.passed[subject];
    if Prompt(steps, subject, until - TTL, limit - TTL) {
      var k :| 0 <= k < |steps| && steps[k].Keep? && steps[k].subject == subject && until - steps[k].answered <= limit;
      forall at | until - TTL <= at < until ensures AnsweredWithin(steps, subject, at, limit) {
        assert at - steps[k].answered < limit;
      }
    } else {
      assert !AnsweredWithin(steps, subject, until - 1, limit);
    }
  }

  /** And each such instant is a hit of the cache, unless the entry is evicted
      before; here is one, with an answer that took 3 seconds: it is served 601
      seconds after it was given. */
  method SlowAnswer(max: nat) returns (c: Cache, hit: bool)
    requires max >= 1
    ensures fresh(c) && c.ran == [Keep(1, 0, 3), Look(1, 601)] && Timely(c.ran)
    ensures hit && !AnsweredWithin(c.ran, 1, 601, TTL)
  {
    c := new Cache(max);
    c.Remember(1, 0, 3);
    hit := c.Cached(1, 601);
    assert c.ran == [Keep(1, 0, 3), Look(1, 601)];
  }

  function Live(passed: map<Subject, Time>, now: Time): map<Subject, Time> {
    map s | s in passed && now < passed[s] :: passed[s]
  }

  lemma SizeLess(m: map<Subject, Time>, s: Subject)
    requires s in m
    ensures |m - {s}| == |m| - 1
  {
    assert (m - {s}).Keys == m.Keys - {s};
    assert m.Keys == (m - {s}).Keys + {s};
    assert |m.Keys| == |m| && |(m - {s}).Keys| == |m - {s}|;
  }

  lemma SizeMore(m: map<Subject, Time>, s: Subject, t: Time)
    ensures |m[s := t]| <= |m| + 1
    ensures s in m ==> |m[s := t]| == |m|
  {
    assert m[s := t].Keys == m.Keys + {s};
    assert |m[s := t].Keys| == |m[s := t]| && |m.Keys| == |m|;
    assert s in m ==> m.Keys + {s} == m.Keys;
  }

  lemma SubmapSize(a: map<Subject, Time>, b: map<Subject, Time>)
    requires a.Keys <= b.Keys
    ensures |a| <= |b|
  {
    assert b.Keys == a.Keys + (b.Keys - a.Keys);
    assert |a.Keys| == |a| && |b.Keys| == |b|;
  }
}
