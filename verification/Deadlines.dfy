/** The event loop's two deadline lists: timers to resume and sockets to close. Times are steady-clock nanoseconds. */
module Deadlines {
  import opened Wrappers
  import opened Texts
  import opened Sequences

  const MILLISECOND := 1000000

  /** A timer (the tag names its coroutine) or a close request (the tag is the socket). */
  datatype Entry = Entry(deadline: int, tag: nat)

  predicate InOrder(es: seq<Entry>, i: nat)
    requires 0 < i < |es|
  {
    es[i - 1].deadline <= es[i].deadline
  }

  predicate Sorted(es: seq<Entry>) {
    forall i | 0 < i < |es| :: InOrder(es, i)
  }

  lemma {:induction false} SortedPair(es: seq<Entry>, i: nat, j: nat)
    requires Sorted(es) && i <= j < |es|
    ensures es[i].deadline <= es[j].deadline
  {
    if i < j {
      SortedPair(es, i, j - 1);
      assert InOrder(es, j);
    }
  }

  /** std::lower_bound on a sorted list: the first entry not before `t`. */
  function LowerBound(es: seq<Entry>, t: int): (k: nat)
    ensures k <= |es|
    ensures forall i | 0 <= i < k :: es[i].deadline < t
    ensures k < |es| ==> es[k].deadline >= t
  {
    if es == [] || es[0].deadline >= t then 0 else 1 + LowerBound(es[1..], t)
  }

  // ---------------------------------------------------------------- the lists as values

  function Insert(es: seq<Entry>, e: Entry): seq<Entry> {
    var k := LowerBound(es, e.deadline);
    es[..k] + [e] + es[k..]
  }

  function Expired(es: seq<Entry>, now: int): seq<Entry> {
    es[..LowerBound(es, now)]
  }

  function Remaining(es: seq<Entry>, now: int): seq<Entry> {
    es[LowerBound(es, now)..]
  }

  /** The list without the first entry for `tag`. */
  function Cancelled(es: seq<Entry>, tag: nat): seq<Entry> {
    if es == [] then [] else if es[0].tag == tag then es[1..] else [es[0]] + Cancelled(es[1..], tag)
  }

  function Count(es: seq<Entry>, tag: nat): nat {
    if es == [] then 0 else (if es[0].tag == tag then 1 else 0) + Count(es[1..], tag)
  }

  /** A new entry goes in front of those with the same deadline, and the list stays sorted. */
  lemma InsertSorts(es: seq<Entry>, e: Entry)
    requires Sorted(es)
    ensures Sorted(Insert(es, e)) && Insert(es, e)[LowerBound(es, e.deadline)] == e
  {
    var k, r := LowerBound(es, e.deadline), Insert(es, e);
    forall i | 0 < i < |r|
      ensures InOrder(r, i)
    {
      if i < k {
        assert InOrder(es, i);
      } else if i > k + 1 {
        assert InOrder(es, i - 1);
      }
    }
  }

  /** Nothing else enters or leaves. */
  lemma InsertAdds(es: seq<Entry>, e: Entry)
    ensures multiset(Insert(es, e)) == multiset(es) + multiset{e}
    ensures forall y | y in Insert(es, e) :: y == e || y in es
  {
    var k := LowerBound(es, e.deadline);
    assert es == es[..k] + es[k..];
    assert multiset(Insert(es, e)) == multiset(es[..k]) + multiset{e} + multiset(es[k..]);
  }

  /** Expiry takes exactly the entries whose deadline has passed. */
  lemma ExpiryIsExact(es: seq<Entry>, now: int)
    requires Sorted(es)
    ensures Expired(es, now) + Remaining(es, now) == es
    ensures forall e | e in Expired(es, now) :: e.deadline < now
    ensures forall e | e in Remaining(es, now) :: e.deadline >= now
    ensures Sorted(Expired(es, now)) && Sorted(Remaining(es, now))
  {
    var k := LowerBound(es, now);
    var gone, left := Expired(es, now), Remaining(es, now);
    forall e | e in left
      ensures e.deadline >= now
    {
      var j :| 0 <= j < |left| && left[j] == e;
      SortedPair(es, k, k + j);
    }
    forall i | 0 < i < |gone|
      ensures InOrder(gone, i)
    {
      assert InOrder(es, i);
    }
    forall i | 0 < i < |left|
      ensures InOrder(left, i)
    {
      assert InOrder(es, k + i);
    }
  }

  lemma CancelStep(es: seq<Entry>, i: nat, tag: nat)
    requires i < |es|
    ensures es[..i] + Cancelled(es[i..], tag)
         == if es[i].tag == tag then es[..i] + es[i + 1..] else es[..i + 1] + Cancelled(es[i + 1..], tag)
  {
    assert es[i..][0] == es[i] && es[i..][1..] == es[i + 1..];
    assert es[..i + 1] == es[..i] + [es[i]];
  }

  lemma {:induction false} CancelledFacts(es: seq<Entry>, tag: nat)
    ensures forall t :: Count(Cancelled(es, tag), t)
                     == if t == tag && Count(es, t) > 0 then Count(es, t) - 1 else Count(es, t)
    ensures forall e | e in Cancelled(es, tag) :: e in es
    ensures forall e | e in es && e.tag != tag :: e in Cancelled(es, tag)
  {
    if es != [] {
      CancelledFacts(es[1..], tag);
      if es[0].tag != tag {
        assert Cancelled(es, tag)[1..] == Cancelled(es[1..], tag);
      }
    }
  }

  lemma FirstBack(es: seq<Entry>, i: nat)
    requires 0 < i <= |es|
    ensures [es[0]] + es[1..] == es
    ensures i < |es| ==> [es[0]] + (es[1..][..i - 1] + es[1..][i..]) == es[..i] + es[i + 1..]
  {
  }

  /** What a cancel removes is the first entry of the socket, if it has one. */
  lemma {:induction false} CancelRemovesFirst(es: seq<Entry>, tag: nat, i: nat)
    requires i <= |es| && forall j | 0 <= j < i :: es[j].tag != tag
    requires i < |es| ==> es[i].tag == tag
    ensures Cancelled(es, tag) == if i < |es| then es[..i] + es[i + 1..] else es
  {
    if i > 0 {
      var t := es[1..];
      assert forall j | 0 <= j < i - 1 :: t[j] == es[j + 1];
      CancelRemovesFirst(t, tag, i - 1);
      assert Cancelled(es, tag) == [es[0]] + Cancelled(t, tag);
      hide Cancelled;
      FirstBack(es, i);
    }
  }

  lemma {:induction false} CancelSorts(es: seq<Entry>, tag: nat)
    requires Sorted(es)
    ensures Sorted(Cancelled(es, tag))
  {
    if es != [] {
      var t, c := es[1..], Cancelled(es, tag);
      forall i | 0 < i < |t|
        ensures InOrder(t, i)
      {
        assert InOrder(es, i + 1);
      }
      if es[0].tag != tag {
        CancelSorts(t, tag);
        CancelledFacts(t, tag);
        forall i | 0 < i < |c|
          ensures InOrder(c, i)
        {
          if i > 1 {
            assert InOrder(Cancelled(t, tag), i - 1);
          } else {
            assert c[1] in t;
            var j :| 0 <= j < |t| && t[j] == c[1];
            SortedPair(es, 0, j + 1);
          }
        }
      }
    }
  }

  lemma {:induction false} CountAppend(a: seq<Entry>, b: seq<Entry>, tag: nat)
    ensures Count(a + b, tag) == Count(a, tag) + Count(b, tag)
  {
    if a == [] {
      assert a + b == b;
    } else {
      assert (a + b)[1..] == a[1..] + b;
      CountAppend(a[1..], b, tag);
    }
  }

  lemma {:induction false} CountZero(es: seq<Entry>, tag: nat)
    ensures Count(es, tag) == 0 <==> forall e | e in es :: e.tag != tag
  {
    if es != [] {
      CountZero(es[1..], tag);
      assert forall e | e in es :: e == es[0] || e in es[1..];
    }
  }

  lemma InsertCounts(es: seq<Entry>, e: Entry, tag: nat)
    ensures Count(Insert(es, e), tag) == Count(es, tag) + if e.tag == tag then 1 else 0
  {
    var k := LowerBound(es, e.deadline);
    CountAppend(es[..k], [e], tag);
    CountAppend(es[..k] + [e], es[k..], tag);
    CountAppend(es[..k], es[k..], tag);
    assert es[..k] + es[k..] == es && [e][1..] == [];
  }

  /** cancel-then-add leaves one entry for a socket that had at most one; a plain cancel leaves none of one. */
  lemma RefreshKeepsOne(es: seq<Entry>, fd: nat, deadline: int)
    ensures Count(Insert(Cancelled(es, fd), Entry(deadline, fd)), fd) == Max(1, Count(es, fd))
    ensures Count(Cancelled(es, fd), fd) == 0 <==> Count(es, fd) <= 1
  {
    CancelledFacts(es, fd);
    InsertCounts(Cancelled(es, fd), Entry(deadline, fd), fd);
  }

  // ---------------------------------------------------------------- the poll wait

  /** How long the poller may sleep, in milliseconds. */
  function NextTimeout(requested: int, timers: seq<Entry>, now: int): int {
    if timers == [] then requested
    else if timers[0].deadline <= now then 0
    else Min(requested, Max(1, (timers[0].deadline - now) / MILLISECOND))
  }

  predicate SomeTimerDue(timers: seq<Entry>, now: int) {
    exists e :: e in timers && e.deadline <= now
  }

  /** A sleep that passes neither the request nor, but for rounding up to 1 ms, any deadline. */
  predicate Punctual(wait: int, requested: int, timers: seq<Entry>, now: int) {
    wait <= requested && forall e | e in timers :: wait * MILLISECOND <= Max(MILLISECOND, e.deadline - now)
  }

  ghost predicate LongestPunctual(wait: int, requested: int, timers: seq<Entry>, now: int) {
    && Punctual(wait, requested, timers, now)
    && forall w: int | Punctual(w, requested, timers, now) :: w <= wait
  }

  lemma HeadIsDueFirst(timers: seq<Entry>, now: int)
    requires Sorted(timers)
    ensures SomeTimerDue(timers, now) <==> timers != [] && timers[0].deadline <= now
    ensures forall e | e in timers :: timers[0].deadline <= e.deadline
  {
    forall e | e in timers
      ensures timers[0].deadline <= e.deadline
    {
      var i :| 0 <= i < |timers| && timers[i] == e;
      SortedPair(timers, 0, i);
    }
    if timers != [] && timers[0].deadline <= now {
      assert timers[0] in timers;
    }
  }

  /**
   With a timer due the poller does not sleep, otherwise it sleeps as long as it may: the longest time that
   passes neither the request nor, but for rounding up to 1 ms, any deadline.
   */
  lemma WaitIsBounded(requested: int, timers: seq<Entry>, now: int)
    requires Sorted(timers)
    ensures SomeTimerDue(timers, now) ==> NextTimeout(requested, timers, now) == 0
    ensures !SomeTimerDue(timers, now) ==> LongestPunctual(NextTimeout(requested, timers, now), requested, timers, now)
    ensures NextTimeout(requested, timers, now) == 0 <==> requested == 0 || SomeTimerDue(timers, now)
  {
    HeadIsDueFirst(timers, now);
    var r := NextTimeout(requested, timers, now);
    if timers != [] && timers[0].deadline > now {
      var left := timers[0].deadline - now;
      forall w: int | Punctual(w, requested, timers, now)
        ensures w <= r
      {
        assert timers[0] in timers;
        assert w * MILLISECOND <= Max(MILLISECOND, left);
      }
    }
  }

  // ---------------------------------------------------------------- I/O cancelled with its socket

  datatype PendingIo = PendingIo(operation: nat, socket: nat)

  function On(ps: seq<PendingIo>, fd: nat): seq<PendingIo> {
    if ps == [] then [] else (if ps[0].socket == fd then [ps[0]] else []) + On(ps[1..], fd)
  }

  function NotOn(ps: seq<PendingIo>, fd: nat): seq<PendingIo> {
    if ps == [] then [] else (if ps[0].socket == fd then [] else [ps[0]]) + NotOn(ps[1..], fd)
  }

  /** Operations resumed as cancelled when these sockets close, in order, and those that go on waiting. */
  function Woken(ps: seq<PendingIo>, closing: seq<Entry>): seq<PendingIo>
    decreases |closing|
  {
    if closing == [] then [] else On(ps, closing[0].tag) + Woken(NotOn(ps, closing[0].tag), closing[1..])
  }

  function StillWaiting(ps: seq<PendingIo>, closing: seq<Entry>): seq<PendingIo>
    decreases |closing|
  {
    if closing == [] then ps else StillWaiting(NotOn(ps, closing[0].tag), closing[1..])
  }

  lemma {:induction false} SplitBySocket(ps: seq<PendingIo>, fd: nat)
    ensures multiset(On(ps, fd)) + multiset(NotOn(ps, fd)) == multiset(ps)
    ensures forall p | p in On(ps, fd) :: p.socket == fd
    ensures forall p | p in NotOn(ps, fd) :: p.socket != fd && p in ps
  {
    if ps != [] {
      SplitBySocket(ps[1..], fd);
      assert ps == [ps[0]] + ps[1..];
    }
  }

  /** Closing sockets wakes every operation on them and no other. */
  lemma {:induction false} WokenExactly(ps: seq<PendingIo>, closing: seq<Entry>)
    ensures multiset(Woken(ps, closing)) + multiset(StillWaiting(ps, closing)) == multiset(ps)
    ensures forall p | p in Woken(ps, closing) :: exists e :: e in closing && e.tag == p.socket
    ensures forall p | p in StillWaiting(ps, closing) :: p in ps && forall e | e in closing :: e.tag != p.socket
    decreases |closing|
  {
    if closing != [] {
      SplitBySocket(ps, closing[0].tag);
      WokenExactly(NotOn(ps, closing[0].tag), closing[1..]);
      assert closing[0] in closing;
    }
  }

  predicate Closing(closing: seq<Entry>, fd: nat) {
    exists i :: 0 <= i < |closing| && closing[i].tag == fd
  }

  /** The operations on none of the sockets, in their order. */
  function Spared(ps: seq<PendingIo>, closing: seq<Entry>): seq<PendingIo> {
    if ps == [] then []
    else (if Closing(closing, ps[0].socket) then [] else [ps[0]]) + Spared(ps[1..], closing)
  }

  lemma {:induction false} SparedStep(ps: seq<PendingIo>, closing: seq<Entry>)
    requires closing != []
    ensures Spared(NotOn(ps, closing[0].tag), closing[1..]) == Spared(ps, closing)
  {
    if ps != [] {
      SparedStep(ps[1..], closing);
      var p, rest := ps[0], closing[1..];
      assert Closing(closing, p.socket) <==> closing[0].tag == p.socket || Closing(rest, p.socket) by {
        if Closing(rest, p.socket) {
          var i :| 0 <= i < |rest| && rest[i].tag == p.socket;
          assert closing[i + 1].tag == p.socket;
        }
        if Closing(closing, p.socket) && closing[0].tag != p.socket {
          var i :| 0 <= i < |closing| && closing[i].tag == p.socket;
          assert rest[i - 1].tag == p.socket;
        }
      }
      var others := NotOn(ps[1..], closing[0].tag);
      assert p.socket != closing[0].tag ==> ([p] + others)[1..] == others;
      assert p.socket == closing[0].tag ==> NotOn(ps, closing[0].tag) == others;
    }
  }

  lemma {:induction false} OnAppend(a: seq<PendingIo>, b: seq<PendingIo>, fd: nat)
    ensures On(a + b, fd) == On(a, fd) + On(b, fd)
  {
    if a == [] {
      Ends(b);
      Ends(On(b, fd));
    } else {
      ConsAppend(a, b);
      OnAppend(a[1..], b, fd);
      Assoc(if a[0].socket == fd then [a[0]] else [], On(a[1..], fd), On(b, fd));
    }
  }

  /** The operations on a socket, in their order. */
  lemma OnKeepsOrder(a: seq<PendingIo>, p: PendingIo, b: seq<PendingIo>, fd: nat)
    ensures On([], fd) == []
    ensures On(a + [p] + b, fd) == On(a, fd) + (if p.socket == fd then [p] else []) + On(b, fd)
  {
    OnAppend(a + [p], b, fd);
    OnAppend(a, [p], fd);
    assert [p][1..] == [];
  }

  lemma {:induction false} SparedByNone(ps: seq<PendingIo>)
    ensures Spared(ps, []) == ps
  {
    if ps != [] {
      SparedByNone(ps[1..]);
    }
  }

  /** Those that go on waiting keep their order, and those on one socket are woken in theirs, socket after socket. */
  lemma {:induction false} WokenInOrder(ps: seq<PendingIo>, closing: seq<Entry>, later: seq<Entry>)
    ensures StillWaiting(ps, closing) == Spared(ps, closing)
    ensures Woken(ps, closing + later) == Woken(ps, closing) + Woken(StillWaiting(ps, closing), later)
    decreases |closing|
  {
    if closing == [] {
      SparedByNone(ps);
      assert closing + later == later;
    } else {
      var rest := NotOn(ps, closing[0].tag);
      SparedStep(ps, closing);
      WokenInOrder(rest, closing[1..], later);
      assert (closing + later)[1..] == closing[1..] + later;
      assert On(ps, closing[0].tag) + (Woken(rest, closing[1..]) + Woken(StillWaiting(ps, closing), later))
          == Woken(ps, closing) + Woken(StillWaiting(ps, closing), later);
    }
  }

  lemma WokenStep(ps: seq<PendingIo>, closing: seq<Entry>, i: nat)
    requires i < |closing|
    ensures Woken(ps, closing[i..]) == On(ps, closing[i].tag) + Woken(NotOn(ps, closing[i].tag), closing[i + 1..])
    ensures StillWaiting(ps, closing[i..]) == StillWaiting(NotOn(ps, closing[i].tag), closing[i + 1..])
  {
    assert closing[i..][0] == closing[i] && closing[i..][1..] == closing[i + 1..];
  }

  // ---------------------------------------------------------------- the object

  class DeadlineLists {
    var timers: seq<Entry>
    var closeTimeouts: seq<Entry>
    var pending: seq<PendingIo>

    predicate Valid()
      reads this
    {
      Sorted(timers) && Sorted(closeTimeouts)
    }

    constructor ()
      ensures Valid() && timers == [] && closeTimeouts == [] && pending == []
    {
      timers, closeTimeouts, pending := [], [], [];
    }

    method AddTimer(timer: Entry)
      requires Valid()
      modifies this`timers
      ensures Valid() && timers == Insert(old(timers), timer)
    {
      InsertSorts(timers, timer);
      var k := LowerBound(timers, timer.deadline);
      timers := timers[..k] + [timer] + timers[k..];
    }

    method CloseAfter(fd: nat, delay: int, now: int)
      requires Valid()
      modifies this`closeTimeouts
      ensures Valid() && closeTimeouts == Insert(old(closeTimeouts), Entry(now + delay * MILLISECOND, fd))
    {
      var deadline := now + delay * MILLISECOND;
      InsertSorts(closeTimeouts, Entry(deadline, fd));
      var k := LowerBound(closeTimeouts, deadline);
      closeTimeouts := closeTimeouts[..k] + [Entry(deadline, fd)] + closeTimeouts[k..];
    }

    method CancelClose(fd: nat)
      requires Valid()
      modifies this`closeTimeouts
      ensures Valid() && closeTimeouts == Cancelled(old(closeTimeouts), fd)
    {
      CancelSorts(closeTimeouts, fd);
      var i := 0;
      while i < |closeTimeouts|
        invariant 0 <= i <= |closeTimeouts| && closeTimeouts == old(closeTimeouts)
        invariant Cancelled(closeTimeouts, fd) == closeTimeouts[..i] + Cancelled(closeTimeouts[i..], fd)
      {
        CancelStep(closeTimeouts, i, fd);
        if closeTimeouts[i].tag == fd {
          closeTimeouts := closeTimeouts[..i] + closeTimeouts[i + 1..];
          return;
        }
        i := i + 1;
      }
    }

    /** The wait handed to the poller: none if a timer is due, else the longest that is punctual. */
    method NextWait(requested: int, now: int) returns (wait: int)
      requires Valid()
      ensures SomeTimerDue(timers, now) ==> wait == 0
      ensures !SomeTimerDue(timers, now) ==> LongestPunctual(wait, requested, timers, now)
    {
      WaitIsBounded(requested, timers, now);
      if timers == [] {
        return requested;
      }
      if timers[0].deadline <= now {
        return 0;
      }
      var ms := (timers[0].deadline - now) / MILLISECOND;
      wait := Min(requested, Max(1, ms));
    }

    method ExpireTimers(now: int) returns (expired: seq<Entry>)
      requires Valid()
      modifies this`timers
      ensures Valid() && expired == Expired(old(timers), now) && timers == Remaining(old(timers), now)
    {
      ExpiryIsExact(timers, now);
      var boundary := LowerBound(timers, now);
      assert timers[..0] == [] && timers[0..] == timers;
      expired := [];
      if boundary != 0 {
        expired := timers[..boundary];
        timers := timers[boundary..];
      }
    }

    method ExpireCloses(now: int) returns (toClose: seq<nat>, toResume: seq<PendingIo>)
      requires Valid()
      modifies this`closeTimeouts, this`pending
      ensures Valid() && closeTimeouts == Remaining(old(closeTimeouts), now)
      ensures |toClose| == |Expired(old(closeTimeouts), now)|
      ensures forall i | 0 <= i < |toClose| :: toClose[i] == Expired(old(closeTimeouts), now)[i].tag
      ensures toResume == Woken(old(pending), Expired(old(closeTimeouts), now))
      ensures pending == StillWaiting(old(pending), Expired(old(closeTimeouts), now))
    {
      ExpiryIsExact(closeTimeouts, now);
      var boundary := LowerBound(closeTimeouts, now);
      toClose, toResume := CollectCloses(closeTimeouts[..boundary]);
      closeTimeouts := closeTimeouts[boundary..];
    }

    method CollectCloses(closing: seq<Entry>) returns (toClose: seq<nat>, toResume: seq<PendingIo>)
      modifies this`pending
      ensures |toClose| == |closing| && forall i | 0 <= i < |toClose| :: toClose[i] == closing[i].tag
      ensures toResume == Woken(old(pending), closing) && pending == StillWaiting(old(pending), closing)
    {
      toClose, toResume := [], [];
      var i := 0;
      assert closing[0..] == closing && [] + Woken(pending, closing) == Woken(pending, closing);
      while i < |closing|
        invariant 0 <= i <= |closing|
        invariant |toClose| == i && forall j | 0 <= j < i :: toClose[j] == closing[j].tag
        invariant Woken(old(pending), closing) == toResume + Woken(pending, closing[i..])
        invariant StillWaiting(old(pending), closing) == StillWaiting(pending, closing[i..])
      {
        WokenStep(pending, closing, i);
        ghost var later := Woken(NotOn(pending, closing[i].tag), closing[i + 1..]);
        toClose := toClose + [closing[i].tag];
        var woken := TakePending(closing[i].tag);
        assert toResume + (woken + later) == toResume + woken + later;
        toResume := toResume + woken;
        i := i + 1;
      }
      assert closing[i..] == [] && toResume + [] == toResume;
    }

    method TakePending(fd: nat) returns (woken: seq<PendingIo>)
      modifies this`pending
      ensures woken == On(old(pending), fd) && pending == NotOn(old(pending), fd)
    {
      var left: seq<PendingIo> := [];
      woken := [];
      var i := 0;
      while i < |pending|
        invariant 0 <= i <= |pending| && pending == old(pending)
        invariant On(pending, fd) == woken + On(pending[i..], fd)
        invariant NotOn(pending, fd) == left + NotOn(pending[i..], fd)
      {
        assert pending[i..][0] == pending[i] && pending[i..][1..] == pending[i + 1..];
        if pending[i].socket == fd {
          woken := woken + [pending[i]];
        } else {
          left := left + [pending[i]];
        }
        i := i + 1;
      }
      assert pending[i..] == [] && woken + [] == woken && left + [] == left;
      pending := left;
    }
  }

  // ---------------------------------------------------------------- runs

  datatype Fired = Fired(entry: Entry, at: int)

  function FiredAt(es: seq<Entry>, now: int): (r: seq<Fired>)
    ensures |r| == |es| && forall i | 0 <= i < |es| :: r[i] == Fired(es[i], now)
  {
    seq(|es|, i requires 0 <= i < |es| => Fired(es[i], now))
  }

  predicate InTime(fs: seq<Fired>) {
    forall f | f in fs :: f.entry.deadline < f.at
  }

  lemma FiredInTime(es: seq<Entry>, now: int)
    requires forall e | e in es :: e.deadline < now
    ensures InTime(FiredAt(es, now))
  {
    forall f | f in FiredAt(es, now)
      ensures f.entry.deadline < f.at
    {
      assert f.entry in es;
    }
  }

  // ---------------------------------------------------------------- every run of the timers

  /** A call that touches the timers, `wait` nanoseconds after the one before: the clock never runs backwards. */
  datatype TimerEvent = Added(wait: nat, timer: Entry) | Expire(wait: nat)

  /** The timers with a record of the past. */
  datatype TimerRun = TimerRun(now: int, timers: seq<Entry>, added: seq<Entry>, resumed: seq<Fired>)

  function OnTimers(h: TimerRun, e: TimerEvent): TimerRun {
    var now := h.now + e.wait;
    match e
    case Added(_, t) => TimerRun(now, Insert(h.timers, t), h.added + [t], h.resumed)
    case Expire(_) =>
      TimerRun(now, Remaining(h.timers, now), h.added, h.resumed + FiredAt(Expired(h.timers, now), now))
  }

  function RunTimers(h: TimerRun, es: seq<TimerEvent>): TimerRun
    decreases |es|
  {
    if es == [] then h else RunTimers(OnTimers(h, es[0]), es[1..])
  }

  function Entries(fs: seq<Fired>): seq<Entry> {
    if fs == [] then [] else [fs[0].entry] + Entries(fs[1..])
  }

  lemma {:induction false} EntriesAppend(a: seq<Fired>, b: seq<Fired>)
    ensures Entries(a + b) == Entries(a) + Entries(b)
  {
    if a == [] {
      assert a + b == b;
    } else {
      assert (a + b)[1..] == a[1..] + b;
      EntriesAppend(a[1..], b);
    }
  }

  lemma {:induction false} EntriesOfFired(es: seq<Entry>, now: int)
    ensures Entries(FiredAt(es, now)) == es
  {
    if es != [] {
      assert FiredAt(es, now)[1..] == FiredAt(es[1..], now);
      EntriesOfFired(es[1..], now);
    }
  }

  lemma TakenFromEither(added: seq<Entry>, timers: seq<Entry>, resumed: seq<Entry>, t: Entry)
    requires multiset(added) == multiset(timers) + multiset(resumed) && t in added && t !in timers
    ensures t in resumed
  {
    assert t in multiset(added);
  }

  predicate TimersSound(timers: seq<Entry>, added: seq<Entry>, resumed: seq<Fired>) {
    && Sorted(timers)
    && multiset(added) == multiset(timers) + multiset(Entries(resumed))
    && InTime(resumed)
  }

  lemma TimerAddedSoundly(timers: seq<Entry>, added: seq<Entry>, resumed: seq<Fired>, t: Entry)
    requires TimersSound(timers, added, resumed)
    ensures TimersSound(Insert(timers, t), added + [t], resumed)
  {
    InsertSorts(timers, t);
    InsertAdds(timers, t);
    assert multiset(added + [t]) == multiset(added) + multiset{t};
  }

  lemma TimersExpireSoundly(timers: seq<Entry>, added: seq<Entry>, resumed: seq<Fired>, now: int)
    requires TimersSound(timers, added, resumed)
    ensures TimersSound(Remaining(timers, now), added, resumed + FiredAt(Expired(timers, now), now))
    ensures forall t | t in Remaining(timers, now) :: t.deadline >= now
  {
    var gone, left := Expired(timers, now), Remaining(timers, now);
    ExpiryIsExact(timers, now);
    EntriesAppend(resumed, FiredAt(gone, now));
    EntriesOfFired(gone, now);
    assert multiset(gone + left) == multiset(gone) + multiset(left);
    assert multiset(Entries(resumed) + gone) == multiset(Entries(resumed)) + multiset(gone);
    FiredInTime(gone, now);
  }

  /** Every timer is waiting or has been resumed, once and after its deadline. */
  predicate EachTimerSound(h: TimerRun) {
    TimersSound(h.timers, h.added, h.resumed)
  }

  lemma TimersStep(h: TimerRun, e: TimerEvent)
    requires EachTimerSound(h)
    ensures EachTimerSound(OnTimers(h, e))
  {
    if e.Added? {
      TimerAddedSoundly(h.timers, h.added, h.resumed, e.timer);
    } else {
      var now := h.now + e.wait;
      TimersExpireSoundly(h.timers, h.added, h.resumed, now);
      assert OnTimers(h, e).resumed == h.resumed + FiredAt(Expired(h.timers, now), now);
    }
  }

  /** From `es` to `left` what is due at `now` is fired, each entry once; `fired` had been `before`. */
  ghost predicate Fires(es: seq<Entry>, before: seq<Fired>, left: seq<Entry>, fired: seq<Fired>, now: int) {
    && |left| + |fired| == |es| + |before|
    && (forall c :: c in left <==> c in es && c.deadline >= now)
    && (forall c | c in es && c.deadline < now :: Fired(c, now) in fired)
    && forall f | f in fired :: f in before || (f.at == now && f.entry in es && f.entry.deadline < now)
  }

  lemma ExpiryFires(es: seq<Entry>, now: int, before: seq<Fired>)
    requires Sorted(es)
    ensures Fires(es, before, Remaining(es, now), before + FiredAt(Expired(es, now), now), now)
  {
    var gone, left := Expired(es, now), Remaining(es, now);
    var fired := FiredAt(gone, now);
    ExpiryIsExact(es, now);
    hide Sorted, Expired, Remaining;
    assert forall c :: c in es <==> c in gone || c in left by {
      assert es == gone + left;
    }
    forall f | f in fired
      ensures f.at == now && f.entry in gone
    {
    }
    forall c | c in gone
      ensures Fired(c, now) in fired
    {
      var i :| 0 <= i < |gone| && gone[i] == c;
      assert fired[i] == Fired(c, now);
    }
  }

  /** What a call does: an added timer is accepted and waits; an expiry pass resumes what is due, and only that. */
  lemma TimersMove(h: TimerRun, e: TimerEvent)
    requires Sorted(h.timers)
    ensures var r, now := OnTimers(h, e), h.now + e.wait;
            && r.now == now
            && match e
               case Added(_, t) =>
                 && multiset(r.timers) == multiset(h.timers) + multiset{t}
                 && r.added == h.added + [t] && r.resumed == h.resumed
               case Expire(_) => r.added == h.added && Fires(h.timers, h.resumed, r.timers, r.resumed, now)
  {
    hide Fires, Sorted, Insert, Expired, Remaining, FiredAt;
    if e.Added? {
      InsertAdds(h.timers, e.timer);
    } else {
      ExpiryFires(h.timers, h.now + e.wait, h.resumed);
    }
  }

  /** A run takes its calls one after the other. */
  lemma {:induction false} RunTimersSnoc(h: TimerRun, es: seq<TimerEvent>, e: TimerEvent)
    ensures RunTimers(h, []) == h && RunTimers(h, es + [e]) == OnTimers(RunTimers(h, es), e)
    decreases |es|
  {
    if es == [] {
      assert es + [e] == [e] && [e][1..] == [];
    } else {
      assert (es + [e])[1..] == es[1..] + [e];
      RunTimersSnoc(OnTimers(h, es[0]), es[1..], e);
    }
  }

  /** On every run, each accepted timer is either waiting or has been resumed, once, and only after its deadline. */
  lemma {:induction false} EachTimerOnce(h: TimerRun, es: seq<TimerEvent>)
    requires EachTimerSound(h)
    ensures EachTimerSound(RunTimers(h, es))
    decreases |es|
  {
    if es != [] {
      TimersStep(h, es[0]);
      EachTimerOnce(OnTimers(h, es[0]), es[1..]);
    }
  }

  lemma NoneOverdue(timers: seq<Entry>, added: seq<Entry>, resumed: seq<Fired>, now: int)
    requires TimersSound(timers, added, resumed) && forall t | t in timers :: t.deadline >= now
    ensures forall t | t in added && t.deadline < now :: t in Entries(resumed)
  {
    forall t | t in added && t.deadline < now
      ensures t in Entries(resumed)
    {
      TakenFromEither(added, timers, Entries(resumed), t);
    }
  }

  /** Right after an expiry pass in any reachable state, every timer whose deadline has passed has been resumed. */
  lemma NoTimerOverdue(h: TimerRun, wait: nat)
    requires EachTimerSound(h)
    ensures forall t | t in h.added && t.deadline < h.now + wait :: t in Entries(OnTimers(h, Expire(wait)).resumed)
  {
    hide Remaining, Expired, FiredAt, TimersSound;
    var now := h.now + wait;
    var left, resumed := Remaining(h.timers, now), h.resumed + FiredAt(Expired(h.timers, now), now);
    TimersExpireSoundly(h.timers, h.added, h.resumed, now);
    NoneOverdue(left, h.added, resumed, now);
    assert OnTimers(h, Expire(wait)) == TimerRun(now, left, h.added, resumed);
  }

  // ---------------------------------------------------------------- every run of the close list

  datatype CloseEvent = Request(wait: nat, fd: nat, delay: int) | Cancel(wait: nat, fd: nat) | CloseExpired(wait: nat)

  /** The close list with a record of the past; `due` is the deadline last requested for a socket. */
  datatype CloseRun = CloseRun(now: int, closes: seq<Entry>, closed: seq<Fired>, due: map<nat, int>)

  function OnCloses(h: CloseRun, e: CloseEvent): CloseRun {
    var now := h.now + e.wait;
    match e
    case Request(_, fd, delay) =>
      var d := now + delay * MILLISECOND;
      CloseRun(now, Insert(h.closes, Entry(d, fd)), h.closed, h.due[fd := d])
    case Cancel(_, fd) => CloseRun(now, Cancelled(h.closes, fd), h.closed, h.due)
    case CloseExpired(_) =>
      CloseRun(now, Remaining(h.closes, now), h.closed + FiredAt(Expired(h.closes, now), now), h.due)
  }

  function RunCloses(h: CloseRun, es: seq<CloseEvent>): CloseRun
    decreases |es|
  {
    if es == [] then h else RunCloses(OnCloses(h, es[0]), es[1..])
  }

  /** A close is requested for a socket only when none is outstanding: a fresh socket, or after a cancel. */
  predicate Disciplined(h: CloseRun, es: seq<CloseEvent>)
    decreases |es|
  {
    es == [] ||
    ((es[0].Request? ==> Count(h.closes, es[0].fd) == 0) && Disciplined(OnCloses(h, es[0]), es[1..]))
  }

  predicate LatestRequest(closes: seq<Entry>, due: map<nat, int>) {
    forall e | e in closes :: e.tag in due && e.deadline == due[e.tag]
  }

  ghost predicate OneEach(closes: seq<Entry>) {
    forall fd :: Count(closes, fd) <= 1
  }

  /**
   At most one close per socket is outstanding, for the deadline requested last; every close came after its deadline.
   */
  ghost predicate ClosesSound(h: CloseRun) {
    Sorted(h.closes) && LatestRequest(h.closes, h.due) && OneEach(h.closes) && InTime(h.closed)
  }

  lemma RequestKeepsCloses(closes: seq<Entry>, due: map<nat, int>, x: Entry)
    requires Sorted(closes) && LatestRequest(closes, due) && OneEach(closes) && Count(closes, x.tag) == 0
    ensures Sorted(Insert(closes, x)) && OneEach(Insert(closes, x))
    ensures LatestRequest(Insert(closes, x), due[x.tag := x.deadline])
  {
    var after := Insert(closes, x);
    InsertSorts(closes, x);
    CountZero(closes, x.tag);
    forall t
      ensures Count(after, t) <= 1
    {
      InsertCounts(closes, x, t);
    }
    InsertAdds(closes, x);
  }

  lemma ExpiryKeepsCloses(closes: seq<Entry>, due: map<nat, int>, now: int)
    requires Sorted(closes) && LatestRequest(closes, due) && OneEach(closes)
    ensures Sorted(Remaining(closes, now)) && OneEach(Remaining(closes, now))
            && LatestRequest(Remaining(closes, now), due)
    ensures InTime(FiredAt(Expired(closes, now), now))
  {
    var gone, left := Expired(closes, now), Remaining(closes, now);
    ExpiryIsExact(closes, now);
    forall t
      ensures Count(left, t) <= 1
    {
      CountAppend(gone, left, t);
    }
    FiredInTime(gone, now);
  }

  lemma CancelKeepsCloses(closes: seq<Entry>, due: map<nat, int>, fd: nat)
    requires Sorted(closes) && LatestRequest(closes, due) && OneEach(closes)
    ensures var left := Cancelled(closes, fd);
            Sorted(left) && LatestRequest(left, due) && OneEach(left)
  {
    CancelledFacts(closes, fd);
    CancelSorts(closes, fd);
  }

  lemma InTimeAppend(a: seq<Fired>, b: seq<Fired>)
    requires InTime(a) && InTime(b)
    ensures InTime(a + b)
  {
  }

  lemma ClosesStep(h: CloseRun, e: CloseEvent)
    requires ClosesSound(h) && (e.Request? ==> Count(h.closes, e.fd) == 0)
    ensures ClosesSound(OnCloses(h, e))
  {
    hide Sorted, LatestRequest, OneEach, InTime, Insert, Cancelled, Remaining, Expired, FiredAt;
    match e {
      case Request(wait, fd, delay) =>
        RequestKeepsCloses(h.closes, h.due, Entry(h.now + wait + delay * MILLISECOND, fd));
      case Cancel(_, fd) =>
        CancelKeepsCloses(h.closes, h.due, fd);
      case CloseExpired(wait) =>
        ExpiryKeepsCloses(h.closes, h.due, h.now + wait);
        InTimeAppend(h.closed, FiredAt(Expired(h.closes, h.now + wait), h.now + wait));
    }
  }

  /**
   What a call does: a request waits for its own deadline, a cancel takes one entry of its socket away, and an expiry
   pass closes what is due, and only that.
   */
  lemma ClosesMove(h: CloseRun, e: CloseEvent)
    requires Sorted(h.closes)
    ensures var r, now := OnCloses(h, e), h.now + e.wait;
            && r.now == now
            && match e
               case Request(_, fd, delay) =>
                 && multiset(r.closes) == multiset(h.closes) + multiset{Entry(now + delay * 1000000, fd)}
                 && r.closed == h.closed && r.due == h.due[fd := now + delay * 1000000]
               case Cancel(_, fd) =>
                 && (forall t :: Count(r.closes, t)
                              == if t == fd && Count(h.closes, t) > 0 then Count(h.closes, t) - 1
                                 else Count(h.closes, t))
                 && r.closed == h.closed && r.due == h.due
               case CloseExpired(_) => r.due == h.due && Fires(h.closes, h.closed, r.closes, r.closed, now)
  {
    hide Fires, Sorted, Insert, Cancelled, Expired, Remaining, FiredAt;
    match e {
      case Request(wait, fd, delay) =>
        InsertAdds(h.closes, Entry(h.now + wait + delay * MILLISECOND, fd));
      case Cancel(_, fd) =>
        CancelledFacts(h.closes, fd);
      case CloseExpired(wait) =>
        ExpiryFires(h.closes, h.now + wait, h.closed);
    }
  }

  lemma {:induction false} RunClosesSnoc(h: CloseRun, es: seq<CloseEvent>, e: CloseEvent)
    ensures RunCloses(h, []) == h && RunCloses(h, es + [e]) == OnCloses(RunCloses(h, es), e)
    decreases |es|
  {
    if es == [] {
      assert es + [e] == [e] && [e][1..] == [];
    } else {
      assert (es + [e])[1..] == es[1..] + [e];
      RunClosesSnoc(OnCloses(h, es[0]), es[1..], e);
    }
  }

  lemma {:induction false} ClosesStaySound(h: CloseRun, es: seq<CloseEvent>)
    requires ClosesSound(h) && Disciplined(h, es)
    ensures ClosesSound(RunCloses(h, es))
    decreases |es|
  {
    if es != [] {
      ClosesStep(h, es[0]);
      ClosesStaySound(OnCloses(h, es[0]), es[1..]);
    }
  }

  /**
   A socket that is refreshed by cancel-then-request has one entry at most and is never closed before
   its last refresh plus the delay: whatever an expiry pass closes was last requested for a moment
   that has passed.
   */
  lemma NeverClosedEarly(h: CloseRun, es: seq<CloseEvent>, wait: nat)
    requires ClosesSound(h) && Disciplined(h, es)
    ensures ClosesSound(RunCloses(h, es))
    ensures var r := RunCloses(h, es);
            forall e | e in Expired(r.closes, r.now + wait) :: e.tag in r.due && r.due[e.tag] < r.now + wait
  {
    ClosesStaySound(h, es);
    var r := RunCloses(h, es);
    ExpiryIsExact(r.closes, r.now + wait);
  }

  /** Without the discipline it fails: a cancel removes one entry only, so a twice requested close outlives it. */
  lemma CancelLeavesTheSecond(es: seq<Entry>, fd: nat, a: int, b: int)
    requires Count(es, fd) == 0
    ensures Count(Cancelled(Insert(Insert(es, Entry(a, fd)), Entry(b, fd)), fd), fd) == 1
  {
    InsertCounts(es, Entry(a, fd), fd);
    InsertCounts(Insert(es, Entry(a, fd)), Entry(b, fd), fd);
    CancelledFacts(Insert(Insert(es, Entry(a, fd)), Entry(b, fd)), fd);
  }
}
