/**
 * The session half of `AuthenticationContextResolver.resolve`: an idle window that slides with
 * every accepted call, under an absolute expiry.
 */
module AuthSession {
  import opened Common

  const IDLE_TIMEOUT: int := 8 * 3600 * SECOND

  datatype State = Active | Expired | Revoked

  datatype Session = Session(
    state: State,
    tokenVersion: int,
    issuedAt: int,
    expiresAt: int,
    absoluteExpiresAt: int,
    lastSeenAt: int)

  /** The CHECK constraints on the times of a session. */
  predicate Allowed(s: Session) {
    && s.issuedAt < s.expiresAt <= s.absoluteExpiresAt && s.issuedAt < s.absoluteExpiresAt
    && s.issuedAt <= s.lastSeenAt
  }

  /**
   * What a call brings along: the time, the token version in its claims, and the state of the
   * membership, the identity and the role as stored.
   */
  datatype Call = Call(now: int, tokenVersion: int, membershipActive: bool, identityActive: bool, roleKnown: bool)

  /** The session after a call, and whether the call was accepted. */
  function Resolved(s: Session, c: Call): (Session, bool) {
    if c.tokenVersion != s.tokenVersion then (s, false)
    else if s.state == Active && c.membershipActive && c.identityActive
            && c.now < s.expiresAt && c.now < s.absoluteExpiresAt then
      var slid := s.(lastSeenAt := c.now, expiresAt := Min(c.now + IDLE_TIMEOUT, s.absoluteExpiresAt));
      if Allowed(slid) then (slid, c.roleKnown) else (s, false)
    else if s.state == Active && c.now >= s.expiresAt then (s.(state := Expired), false)
    else (s, false)
  }

  class SessionRow {
    var state: State
    var tokenVersion: int
    var issuedAt: int
    var expiresAt: int
    var absoluteExpiresAt: int
    var lastSeenAt: int

    ghost function Row(): Session
      reads this
    {
      Session(state, tokenVersion, issuedAt, expiresAt, absoluteExpiresAt, lastSeenAt)
    }

    constructor (s: Session)
      ensures Row() == s
    {
      state, tokenVersion, issuedAt := s.state, s.tokenVersion, s.issuedAt;
      expiresAt, absoluteExpiresAt, lastSeenAt := s.expiresAt, s.absoluteExpiresAt, s.lastSeenAt;
    }

    /** The transaction of `resolve`; a constraint that objects at the flush rolls it back. */
    method Resolve(c: Call) returns (accepted: bool)
      requires Allowed(Row())
      modifies this
      ensures (Row(), accepted) == Resolved(old(Row()), c)
      ensures Allowed(Row())
    {
      accepted := false;
      if c.tokenVersion != tokenVersion {
        return;
      }
      var isActive :=
        state == Active && c.membershipActive && c.identityActive && c.now < expiresAt && c.now < absoluteExpiresAt;
      if !isActive {
        if state == Active && c.now >= expiresAt {
          state := Expired;
        }
      } else {
        var before := (lastSeenAt, expiresAt);
        lastSeenAt := c.now;
        expiresAt := Min(c.now + IDLE_TIMEOUT, absoluteExpiresAt);
        if c.roleKnown {
          accepted := true;
        }
        if !(issuedAt < expiresAt && issuedAt <= lastSeenAt) {
          lastSeenAt, expiresAt := before.0, before.1;
          accepted := false;
        }
      }
    }
  }

  // ---- Any sequence of calls ----

  ghost function After(s: Session, calls: seq<Call>): Session {
    if calls == [] then s else Resolved(After(s, calls[..|calls| - 1]), calls[|calls| - 1]).0
  }

  ghost function At(s: Session, calls: seq<Call>, i: int): Session
    requires 0 <= i <= |calls|
  {
    After(s, calls[..i])
  }

  ghost predicate Accepted(s: Session, calls: seq<Call>, i: int)
    requires 0 <= i < |calls|
  {
    Resolved(At(s, calls, i), calls[i]).1
  }

  lemma {:induction false} OneStep(s: Session, calls: seq<Call>, i: nat)
    requires i < |calls|
    ensures At(s, calls, i + 1) == Resolved(At(s, calls, i), calls[i]).0
  {
    assert calls[..i + 1][..i] == calls[..i];
  }

  /** What no call changes, whatever the calls and their times. */
  ghost predicate SameTerms(a: Session, b: Session) {
    a.tokenVersion == b.tokenVersion && a.issuedAt == b.issuedAt && a.absoluteExpiresAt == b.absoluteExpiresAt
  }

  /** The sliding window never passes the absolute expiry, and a closed session stays as it is. */
  lemma {:induction false} AlwaysBounded(s: Session, calls: seq<Call>, i: nat, j: nat)
    requires i <= j <= |calls| && Allowed(s)
    ensures Allowed(At(s, calls, i)) && Allowed(At(s, calls, j)) && SameTerms(At(s, calls, i), At(s, calls, j))
    ensures At(s, calls, i).state != Active ==> At(s, calls, j) == At(s, calls, i)
    decreases j, j - i
  {
    if i < j {
      AlwaysBounded(s, calls, i, j - 1);
      OneStep(s, calls, j - 1);
    } else if j > 0 {
      AlwaysBounded(s, calls, j - 1, j - 1);
      OneStep(s, calls, j - 1);
    }
  }

  /** A session that timed out is never accepted again, even by a clock that goes backwards. */
  lemma {:induction false} TimedOutForever(s: Session, calls: seq<Call>, i: nat, j: nat)
    requires i < j < |calls| && Allowed(s)
    requires calls[i].tokenVersion == At(s, calls, i).tokenVersion && calls[i].now >= At(s, calls, i).expiresAt
    ensures !Accepted(s, calls, j)
  {
    OneStep(s, calls, i);
    AlwaysBounded(s, calls, i + 1, j);
  }

  // ---- What every accepted call needs ----

  /** The caller's token, membership and identity are good; only then the window may move. */
  ghost predicate Counts(s: Session, c: Call) {
    c.tokenVersion == s.tokenVersion && c.membershipActive && c.identityActive
  }

  /** The time is within the window, and after the session was issued. */
  ghost predicate Within(s: Session, now: int) {
    s.issuedAt <= now < s.expiresAt && now < s.absoluteExpiresAt
  }

  /**
   * Whatever came before, in whatever order: a call is accepted exactly if its token is the
   * session's current one, membership and identity are ACTIVE, the role is known, the session is
   * ACTIVE, and the call is within the window.
   */
  lemma {:induction false} AcceptanceNeeds(s: Session, calls: seq<Call>, i: nat)
    requires i < |calls| && Allowed(s)
    ensures var now, c := At(s, calls, i), calls[i];
      Accepted(s, calls, i) <==>
        && c.tokenVersion == s.tokenVersion && c.membershipActive && c.identityActive && c.roleKnown
        && now.state == Active && s.issuedAt <= c.now < now.expiresAt && c.now < s.absoluteExpiresAt
  {
    AlwaysBounded(s, calls, 0, i);
    assert calls[..0] == [];
  }

  /**
   * The window moves exactly on calls that count, come within it, and find the session ACTIVE:
   * then to eight hours after the call, at most to the absolute expiry. Every other call leaves it.
   */
  lemma {:induction false} WindowMovesExactly(s: Session, calls: seq<Call>, i: nat)
    requires i < |calls| && Allowed(s)
    ensures var now, next, c := At(s, calls, i), At(s, calls, i + 1), calls[i];
      if now.state == Active && Counts(s, c) && Within(now, c.now) then
        next == now.(lastSeenAt := c.now, expiresAt := Min(c.now + 28_800_000_000, s.absoluteExpiresAt))
      else
        && next.expiresAt == now.expiresAt && next.lastSeenAt == now.lastSeenAt
        && (next.state != now.state <==>
              now.state == Active && c.tokenVersion == s.tokenVersion && c.now >= now.expiresAt)
        && (next.state != now.state ==> next.state == Expired)
  {
    AlwaysBounded(s, calls, 0, i);
    AlwaysBounded(s, calls, 0, i + 1);
    assert calls[..0] == [];
    OneStep(s, calls, i);
  }

  // ---- Exactly when a call is accepted, whatever calls there were before ----

  ghost predicate InOrder(calls: seq<Call>) {
    forall i, j :: 0 <= i < j < |calls| ==> calls[i].now <= calls[j].now
  }

  /** The last of the first `n` calls that counts and came after the issue. */
  ghost function LastCounted(s: Session, calls: seq<Call>, n: nat): Option<int>
    requires n <= |calls|
  {
    if n == 0 then None
    else if Counts(s, calls[n - 1]) && calls[n - 1].now >= s.issuedAt then Some(calls[n - 1].now)
    else LastCounted(s, calls, n - 1)
  }

  /** Until when the next call must come: the initial expiry, then eight hours after the last that counts. */
  ghost function Deadline(s: Session, calls: seq<Call>, n: nat): int
    requires n <= |calls|
  {
    match LastCounted(s, calls, n)
    case None => s.expiresAt
    case Some(last) => last + IDLE_TIMEOUT
  }

  /** A call that counts comes before its deadline; other calls, and those before the issue, may come when they like. */
  ghost predicate InTime(s: Session, calls: seq<Call>, j: int)
    requires 0 <= j < |calls|
  {
    Counts(s, calls[j]) && calls[j].now >= s.issuedAt ==> calls[j].now < Deadline(s, calls, j)
  }

  ghost predicate NoGap(s: Session, calls: seq<Call>, n: int)
    requires 0 <= n <= |calls|
  {
    forall j :: 0 <= j < n ==> InTime(s, calls, j)
  }

  /** A call with a bad membership or identity came after the deadline, and closed the session. */
  ghost predicate ClosedLate(s: Session, calls: seq<Call>, n: nat)
    requires n <= |calls|
  {
    exists j :: 0 <= j < n && calls[j].now >= Min(Deadline(s, calls, n), s.absoluteExpiresAt)
  }

  /** What is known of the session after `n` calls in order. */
  ghost predicate Tracks(s: Session, calls: seq<Call>, n: nat)
    requires n <= |calls|
  {
    var now := At(s, calls, n);
    && Allowed(now) && SameTerms(s, now)
    && (now.state == Active ==> NoGap(s, calls, n))
    && (NoGap(s, calls, n) && now.state != Active ==> ClosedLate(s, calls, n))
    && (now.state == Active ==> now.expiresAt == Min(Deadline(s, calls, n), s.absoluteExpiresAt))
  }

  /** One call on an active session. */
  lemma OneCall(now: Session, c: Call)
    requires Allowed(now) && now.state == Active
    ensures var next := Resolved(now, c).0;
      && Allowed(next) && SameTerms(now, next)
      && (next.state == Active <==> c.tokenVersion != now.tokenVersion || c.now < now.expiresAt)
      && (next.state == Active ==>
            next.expiresAt ==
            if Counts(now, c) && c.now >= now.issuedAt then Min(c.now + IDLE_TIMEOUT, now.absoluteExpiresAt)
            else now.expiresAt)
  {
  }

  lemma {:induction false} WindowTracks(s: Session, calls: seq<Call>, n: nat)
    requires n <= |calls| && Allowed(s) && InOrder(calls) && s.state == Active
    ensures Tracks(s, calls, n)
  {
    if n == 0 {
      assert calls[..0] == [];
    } else {
      WindowTracks(s, calls, n - 1);
      OneStep(s, calls, n - 1);
      if At(s, calls, n - 1).state == Active {
        TrackActive(s, calls, n - 1, At(s, calls, n - 1));
      } else {
        TrackClosed(s, calls, n - 1, At(s, calls, n - 1));
      }
    }
  }

  lemma {:induction false} TrackActive(s: Session, calls: seq<Call>, n: nat, now: Session)
    requires n < |calls| && Allowed(s) && InOrder(calls) && now == At(s, calls, n)
    requires Tracks(s, calls, n) && now.state == Active && At(s, calls, n + 1) == Resolved(now, calls[n]).0
    ensures Tracks(s, calls, n + 1)
  {
    OneCall(now, calls[n]);
    assert Counts(now, calls[n]) <==> Counts(s, calls[n]);
    if NoGap(s, calls, n + 1) && At(s, calls, n + 1).state != Active {
      assert InTime(s, calls, n);
      assert calls[n].now >= Min(Deadline(s, calls, n), s.absoluteExpiresAt);
      if Counts(s, calls[n]) {
        assert calls[n].now >= s.absoluteExpiresAt;
      }
      assert ClosedLate(s, calls, n + 1);
    }
  }

  lemma {:induction false} TrackClosed(s: Session, calls: seq<Call>, n: nat, now: Session)
    requires n < |calls| && Allowed(s) && InOrder(calls) && now == At(s, calls, n)
    requires Tracks(s, calls, n) && now.state != Active && At(s, calls, n + 1) == Resolved(now, calls[n]).0
    ensures Tracks(s, calls, n + 1)
  {
    assert At(s, calls, n + 1) == now;
    if NoGap(s, calls, n + 1) {
      assert NoGap(s, calls, n) && InTime(s, calls, n);
      var j :| 0 <= j < n && calls[j].now >= Min(Deadline(s, calls, n), s.absoluteExpiresAt);
      assert calls[j].now <= calls[n].now;
      if Counts(s, calls[n]) && calls[n].now >= s.issuedAt {
        assert calls[n].now >= s.absoluteExpiresAt;
        assert ClosedLate(s, calls, n + 1);
      } else {
        assert Deadline(s, calls, n + 1) == Deadline(s, calls, n);
        assert ClosedLate(s, calls, n + 1);
      }
    }
  }

  /**
   * With times in order, and whatever other calls there were: a call is accepted if and only if
   * its token, membership, identity and role are good, it comes after the issue and before the
   * absolute expiry, and among the calls with a good token, membership and identity the first came
   * before the initial expiry and every gap up to now was under eight hours.
   */
  lemma {:induction false} AcceptedExactly(s: Session, calls: seq<Call>, i: nat)
    requires i < |calls| && Allowed(s) && InOrder(calls) && s.state == Active
    ensures Accepted(s, calls, i) <==>
      && Counts(s, calls[i]) && calls[i].roleKnown
      && s.issuedAt <= calls[i].now < s.absoluteExpiresAt && NoGap(s, calls, i + 1)
  {
    WindowTracks(s, calls, i);
    AcceptanceNeeds(s, calls, i);
    var now := At(s, calls, i);
    if NoGap(s, calls, i + 1) && Counts(s, calls[i]) && s.issuedAt <= calls[i].now < s.absoluteExpiresAt {
      assert NoGap(s, calls, i) && InTime(s, calls, i);
      if ClosedLate(s, calls, i) {
        var j :| 0 <= j < i && calls[j].now >= Min(Deadline(s, calls, i), s.absoluteExpiresAt);
        assert calls[j].now <= calls[i].now;
      }
    }
    if Accepted(s, calls, i) {
      assert NoGap(s, calls, i);
      assert InTime(s, calls, i);
    }
  }
}
