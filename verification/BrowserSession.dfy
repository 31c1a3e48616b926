/** The sliding expiry of browser sessions, which the backend stores and compares as text. */
module BrowserSession {
  import opened Wrappers
  import opened UtcText

  // The columns of a browser session that decide whether it is still good.
  datatype Session = Session(primaryKey: bool, revokedAt: Option<string>, lastSeen: string, idleExpires: string,
                             absoluteExpires: string)

  // A request with the session's cookie, and a logout. `usable`: the user and identity rows allow the session.
  datatype Event =
    | Request(now: Moment, usable: bool)
    | Revoke(now: Moment)

  // Python's min of two strings.
  function MinText(a: string, b: string): string {
    if Before(b, a) then b else a
  }

  function AtOrBefore(a: string, b: string): bool {
    !Before(b, a)
  }

  predicate IsLive(s: Session, now: string) {
    s.primaryKey && s.revokedAt.None? && !AtOrBefore(s.idleExpires, now) && !AtOrBefore(s.absoluteExpires, now)
  }

  // The datetime arithmetic overflows after year 9999, which fails the request.
  predicate Fits(now: Moment, seconds: nat)
    requires now.Valid()
  {
    Plus(now, seconds).year <= 9999
  }

  predicate Accepts(s: Session, now: Moment, usable: bool, idleMinutes: nat)
    requires now.Printable()
  {
    IsLive(s, ToUtcZ(now)) && usable && Fits(now, 60 * idleMinutes)
  }

  lemma LaterIsPrintable(now: Moment, seconds: nat)
    requires now.Printable() && Fits(now, seconds)
    ensures Plus(now, seconds).Printable()
  {
    PlusAdds(now, seconds);
    SecondsFollowFields(now, Plus(now, seconds));
  }

  // A sum fits exactly if there is a moment with a four-digit year that many seconds later.
  lemma FitsIff(now: Moment, seconds: nat)
    requires now.Printable()
    ensures Fits(now, seconds) <==>
            exists later: Moment :: later.Valid() && later.year <= 9999 && Seconds(later) == Seconds(now) + seconds
  {
    PlusAdds(now, seconds);
    if later: Moment :| later.Valid() && later.year <= 9999 && Seconds(later) == Seconds(now) + seconds {
      SecondsFollowFields(later, Plus(now, seconds));
    }
  }

  function LaterText(now: Moment, seconds: nat): string
    requires now.Printable() && Fits(now, seconds)
  {
    LaterIsPrintable(now, seconds);
    ToUtcZ(Plus(now, seconds))
  }

  function Touched(s: Session, now: Moment, idleMinutes: nat): Session
    requires now.Printable() && Fits(now, 60 * idleMinutes)
  {
    s.(lastSeen := ToUtcZ(now), idleExpires := MinText(LaterText(now, 60 * idleMinutes), s.absoluteExpires))
  }

  function Step(s: Session, e: Event, idleMinutes: nat): Session
    requires e.now.Printable()
  {
    match e
    case Request(now, usable) => if Accepts(s, now, usable, idleMinutes) then Touched(s, now, idleMinutes) else s
    case Revoke(now) => s.(revokedAt := Some(ToUtcZ(now)))
  }

  // The row as the backend updates it.
  class BrowserSessionRow {
    var session: Session
    const idleMinutes: nat

    constructor (session: Session, idleMinutes: nat)
      ensures this.session == session && this.idleMinutes == idleMinutes
    {
      this.session, this.idleMinutes := session, idleMinutes;
    }

    // _browser_session_principal, once the row has been found
    method Authenticate(now: Moment, usable: bool) returns (accepted: bool)
      requires now.Printable()
      modifies this
      ensures accepted == Accepts(old(session), now, usable, idleMinutes)
      ensures session == Step(old(session), Request(now, usable), idleMinutes)
    {
      var text := ToUtcZ(now);
      if !session.primaryKey || session.revokedAt.Some? || AtOrBefore(session.idleExpires, text)
         || AtOrBefore(session.absoluteExpires, text)
      {
        return false;
      }
      if !usable {
        return false;
      }
      if !Fits(now, 60 * idleMinutes) {
        return false;
      }
      session := session.(lastSeen := text);
      session := session.(idleExpires := MinText(LaterText(now, 60 * idleMinutes), session.absoluteExpires));
      accepted := true;
    }
  }

  // The session a login creates.
  function Login(now: Moment, absoluteHours: nat, idleMinutes: nat): Session
    requires now.Printable() && Fits(now, 3600 * absoluteHours) && Fits(now, 60 * idleMinutes)
  {
    var absolute := LaterText(now, 3600 * absoluteHours);
    Session(true, None, ToUtcZ(now), MinText(LaterText(now, 60 * idleMinutes), absolute), absolute)
  }

  // ---- What the texts stand for ----

  // The session's texts are those of these moments; the idle expiry is bounded by both of the other two.
  ghost predicate Stands(s: Session, seen: Moment, idle: Moment, absolute: Moment, idleMinutes: nat) {
    && seen.Printable() && idle.Printable() && absolute.Printable()
    && s.lastSeen == ToUtcZ(seen) && s.idleExpires == ToUtcZ(idle) && s.absoluteExpires == ToUtcZ(absolute)
    && Seconds(idle) <= Seconds(absolute)
    && Seconds(idle) <= Seconds(seen) + 60 * idleMinutes
  }

  function Earliest(a: Moment, b: Moment): Moment
    requires a.Valid() && b.Valid()
  {
    if Seconds(b) < Seconds(a) then b else a
  }

  lemma MinTextIsEarliest(a: Moment, b: Moment)
    requires a.Printable() && b.Printable()
    ensures MinText(ToUtcZ(a), ToUtcZ(b)) == ToUtcZ(Earliest(a, b))
  {
    TextOrderIsTimeOrder(b, a);
  }

  lemma LoginStands(now: Moment, absoluteHours: nat, idleMinutes: nat)
    requires now.Printable() && Fits(now, 3600 * absoluteHours) && Fits(now, 60 * idleMinutes)
    ensures exists idle :: Stands(Login(now, absoluteHours, idleMinutes), now, idle, Plus(now, 3600 * absoluteHours), idleMinutes)
  {
    LaterIsPrintable(now, 3600 * absoluteHours);
    LaterIsPrintable(now, 60 * idleMinutes);
    PlusAdds(now, 3600 * absoluteHours);
    PlusAdds(now, 60 * idleMinutes);
    var later, absolute := Plus(now, 60 * idleMinutes), Plus(now, 3600 * absoluteHours);
    MinTextIsEarliest(later, absolute);
    EarliestStands(Login(now, absoluteHours, idleMinutes), now, later, absolute, idleMinutes);
  }

  lemma TextIsDue(due: Moment, now: Moment)
    requires due.Printable() && now.Printable()
    ensures AtOrBefore(ToUtcZ(due), ToUtcZ(now)) <==> Seconds(due) <= Seconds(now)
  {
    TextOrderIsTimeOrder(now, due);
  }

  // The text comparisons of a request are the comparisons of instants.
  lemma AcceptedIsInTime(s: Session, seen: Moment, idle: Moment, absolute: Moment, now: Moment, usable: bool, idleMinutes: nat)
    requires Stands(s, seen, idle, absolute, idleMinutes) && now.Printable()
    ensures Accepts(s, now, usable, idleMinutes) <==>
            && s.primaryKey && s.revokedAt.None? && usable && Fits(now, 60 * idleMinutes)
            && Seconds(now) < Seconds(idle) && Seconds(now) < Seconds(absolute)
  {
    TextsAreInTime(s, idle, absolute, now, usable, idleMinutes);
  }

  lemma TextsAreInTime(s: Session, idle: Moment, absolute: Moment, now: Moment, usable: bool, idleMinutes: nat)
    requires idle.Printable() && absolute.Printable() && now.Printable()
    requires s.idleExpires == ToUtcZ(idle) && s.absoluteExpires == ToUtcZ(absolute)
    ensures Accepts(s, now, usable, idleMinutes) <==>
            && s.primaryKey && s.revokedAt.None? && usable && Fits(now, 60 * idleMinutes)
            && Seconds(now) < Seconds(idle) && Seconds(now) < Seconds(absolute)
  {
    assert AtOrBefore(s.idleExpires, ToUtcZ(now)) <==> Seconds(idle) <= Seconds(now) by { TextIsDue(idle, now); }
    assert AtOrBefore(s.absoluteExpires, ToUtcZ(now)) <==> Seconds(absolute) <= Seconds(now) by { TextIsDue(absolute, now); }
  }

  lemma TouchedStands(s: Session, absolute: Moment, now: Moment, idleMinutes: nat)
    requires absolute.Printable() && s.absoluteExpires == ToUtcZ(absolute)
    requires now.Printable() && Fits(now, 60 * idleMinutes)
    ensures exists idle :: Stands(Touched(s, now, idleMinutes), now, idle, absolute, idleMinutes)
  {
    var later := Plus(now, 60 * idleMinutes);
    LaterIsPrintable(now, 60 * idleMinutes);
    assert Seconds(later) == Seconds(now) + 60 * idleMinutes by { PlusAdds(now, 60 * idleMinutes); }
    MinTextIsEarliest(later, absolute);
    EarliestStands(Touched(s, now, idleMinutes), now, later, absolute, idleMinutes);
  }

  lemma EarliestStands(s: Session, now: Moment, later: Moment, absolute: Moment, idleMinutes: nat)
    requires now.Printable() && later.Printable() && absolute.Printable()
    requires s.lastSeen == ToUtcZ(now) && s.absoluteExpires == ToUtcZ(absolute) && s.idleExpires == ToUtcZ(Earliest(later, absolute))
    requires Seconds(later) == Seconds(now) + 60 * idleMinutes
    ensures exists idle :: Stands(s, now, idle, absolute, idleMinutes)
  {
    assert Stands(s, now, Earliest(later, absolute), absolute, idleMinutes);
  }

  lemma StepStands(s: Session, seen: Moment, idle: Moment, absolute: Moment, e: Event, idleMinutes: nat)
    requires Stands(s, seen, idle, absolute, idleMinutes) && e.now.Printable()
    ensures exists newSeen, newIdle :: Stands(Step(s, e, idleMinutes), newSeen, newIdle, absolute, idleMinutes)
  {
    match e
    case Request(now, usable) =>
      if Accepts(s, now, usable, idleMinutes) {
        TouchedStands(s, absolute, now, idleMinutes);
      } else {
        assert Stands(Step(s, e, idleMinutes), seen, idle, absolute, idleMinutes);
      }
    case Revoke(now) =>
      assert Stands(Step(s, e, idleMinutes), seen, idle, absolute, idleMinutes);
  }

  // ---- Whole lifetimes ----

  // The session may live until `absolute`, and less if it is idle.
  ghost predicate ExpiresBy(s: Session, absolute: Moment, idleMinutes: nat) {
    exists seen, idle :: Stands(s, seen, idle, absolute, idleMinutes)
  }

  lemma StepKeepsExpiry(s: Session, absolute: Moment, e: Event, idleMinutes: nat)
    requires ExpiresBy(s, absolute, idleMinutes) && e.now.Printable()
    ensures ExpiresBy(Step(s, e, idleMinutes), absolute, idleMinutes)
  {
    var seen, idle :| Stands(s, seen, idle, absolute, idleMinutes);
    StepStands(s, seen, idle, absolute, e, idleMinutes);
  }

  // What has happened to a session, the latest event last.
  datatype History = Beginning | Then(earlier: History, last: Event)

  predicate AllPrintable(events: History) {
    events.Then? ==> AllPrintable(events.earlier) && events.last.now.Printable()
  }

  function After(s: Session, events: History, idleMinutes: nat): Session
    requires AllPrintable(events)
  {
    match events
    case Beginning => s
    case Then(earlier, last) => Step(After(s, earlier, idleMinutes), last, idleMinutes)
  }

  lemma {:induction false} EventsKeepExpiry(s: Session, absolute: Moment, events: History, idleMinutes: nat)
    requires ExpiresBy(s, absolute, idleMinutes) && AllPrintable(events)
    ensures ExpiresBy(After(s, events, idleMinutes), absolute, idleMinutes)
  {
    match events
    case Beginning =>
    case Then(earlier, last) =>
      EventsKeepExpiry(s, absolute, earlier, idleMinutes);
      StepKeepsExpiry(After(s, earlier, idleMinutes), absolute, last, idleMinutes);
  }

  // No series of touches keeps a session alive past the lifetime it was given at login, nor past an idle period.
  lemma LifetimeIsBounded(login: Moment, absoluteHours: nat, idleMinutes: nat, events: History, now: Moment, usable: bool)
    requires login.Printable() && now.Printable() && AllPrintable(events)
    requires Fits(login, 3600 * absoluteHours) && Fits(login, 60 * idleMinutes)
    requires Accepts(After(Login(login, absoluteHours, idleMinutes), events, idleMinutes), now, usable, idleMinutes)
    ensures Seconds(now) < Seconds(login) + 3600 * absoluteHours
    ensures exists seen: Moment :: && seen.Printable() && Seconds(now) < Seconds(seen) + 60 * idleMinutes
                                   && After(Login(login, absoluteHours, idleMinutes), events, idleMinutes).lastSeen == ToUtcZ(seen)
  {
    LoginStands(login, absoluteHours, idleMinutes);
    var start, absolute := Login(login, absoluteHours, idleMinutes), Plus(login, 3600 * absoluteHours);
    PlusAdds(login, 3600 * absoluteHours);
    EventsKeepExpiry(start, absolute, events, idleMinutes);
    var seen, idle :| Stands(After(start, events, idleMinutes), seen, idle, absolute, idleMinutes);
    AcceptedIsInTime(After(start, events, idleMinutes), seen, idle, absolute, now, usable, idleMinutes);
  }

  // ---- The session by the clock alone ----

  // When it was last used, in seconds, and whether it was revoked.
  datatype Ideal = Ideal(seen: int, revoked: bool)

  predicate IdealAccepts(i: Ideal, now: Moment, usable: bool, absolute: int, idleMinutes: nat)
    requires now.Valid()
  {
    && !i.revoked && usable
    && Seconds(now) < i.seen + 60 * idleMinutes && Seconds(now) < absolute
    && Fits(now, 60 * idleMinutes)
  }

  function IdealStep(i: Ideal, e: Event, absolute: int, idleMinutes: nat): Ideal
    requires e.now.Valid()
  {
    match e
    case Request(now, usable) => if IdealAccepts(i, now, usable, absolute, idleMinutes) then i.(seen := Seconds(now)) else i
    case Revoke(_) => i.(revoked := true)
  }

  function IdealAfter(i: Ideal, events: History, absolute: int, idleMinutes: nat): Ideal
    requires AllPrintable(events)
  {
    match events
    case Beginning => i
    case Then(earlier, last) => IdealStep(IdealAfter(i, earlier, absolute, idleMinutes), last, absolute, idleMinutes)
  }

  // The stored texts are those of these instants.
  ghost predicate IsStored(s: Session, i: Ideal, idle: Moment, absolute: Moment, idleMinutes: nat) {
    && idle.Printable() && absolute.Printable()
    && s.primaryKey && (s.revokedAt.Some? <==> i.revoked)
    && s.idleExpires == ToUtcZ(idle) && s.absoluteExpires == ToUtcZ(absolute)
    && (Seconds(idle) == i.seen + 60 * idleMinutes || Seconds(idle) == Seconds(absolute))
    && Seconds(idle) <= i.seen + 60 * idleMinutes && Seconds(idle) <= Seconds(absolute)
  }

  ghost predicate Stores(s: Session, i: Ideal, absolute: Moment, idleMinutes: nat) {
    exists idle :: IsStored(s, i, idle, absolute, idleMinutes)
  }

  lemma StoredIsIdeal(s: Session, i: Ideal, absolute: Moment, now: Moment, usable: bool, idleMinutes: nat)
    requires Stores(s, i, absolute, idleMinutes) && now.Printable()
    ensures absolute.Valid()
    ensures Accepts(s, now, usable, idleMinutes) <==> IdealAccepts(i, now, usable, Seconds(absolute), idleMinutes)
  {
    var idle :| IsStored(s, i, idle, absolute, idleMinutes);
    TextsAreInTime(s, idle, absolute, now, usable, idleMinutes);
  }

  lemma UsedIsStored(s: Session, absolute: Moment, now: Moment, idleMinutes: nat)
    requires s.primaryKey && s.revokedAt.None? && absolute.Printable() && s.absoluteExpires == ToUtcZ(absolute)
    requires now.Printable() && Fits(now, 60 * idleMinutes)
    ensures Stores(Touched(s, now, idleMinutes), Ideal(Seconds(now), false), absolute, idleMinutes)
  {
    var later := Plus(now, 60 * idleMinutes);
    LaterIsPrintable(now, 60 * idleMinutes);
    assert Seconds(later) == Seconds(now) + 60 * idleMinutes by { PlusAdds(now, 60 * idleMinutes); }
    MinTextIsEarliest(later, absolute);
    EarliestIsStored(Touched(s, now, idleMinutes), Seconds(now), later, absolute, idleMinutes);
  }

  lemma EarliestIsStored(s: Session, seen: int, later: Moment, absolute: Moment, idleMinutes: nat)
    requires s.primaryKey && s.revokedAt.None? && later.Printable() && absolute.Printable()
    requires s.absoluteExpires == ToUtcZ(absolute) && s.idleExpires == ToUtcZ(Earliest(later, absolute))
    requires Seconds(later) == seen + 60 * idleMinutes
    ensures Stores(s, Ideal(seen, false), absolute, idleMinutes)
  {
    assert IsStored(s, Ideal(seen, false), Earliest(later, absolute), absolute, idleMinutes);
  }

  lemma LoginIsStored(now: Moment, absoluteHours: nat, idleMinutes: nat)
    requires now.Printable() && Fits(now, 3600 * absoluteHours) && Fits(now, 60 * idleMinutes)
    ensures Stores(Login(now, absoluteHours, idleMinutes), Ideal(Seconds(now), false), Plus(now, 3600 * absoluteHours), idleMinutes)
  {
    var s := Login(now, absoluteHours, idleMinutes);
    LaterIsPrintable(now, 3600 * absoluteHours);
    UsedIsStored(s, Plus(now, 3600 * absoluteHours), now, idleMinutes);
    assert Touched(s, now, idleMinutes) == s;
  }

  lemma StepIsIdeal(s: Session, i: Ideal, absolute: Moment, e: Event, idleMinutes: nat)
    requires absolute.Valid() && Stores(s, i, absolute, idleMinutes) && e.now.Printable()
    ensures Stores(Step(s, e, idleMinutes), IdealStep(i, e, Seconds(absolute), idleMinutes), absolute, idleMinutes)
  {
    var idle :| IsStored(s, i, idle, absolute, idleMinutes);
    match e
    case Request(now, usable) =>
      StoredIsIdeal(s, i, absolute, now, usable, idleMinutes);
      if Accepts(s, now, usable, idleMinutes) {
        UsedIsStored(s, absolute, now, idleMinutes);
      }
    case Revoke(now) =>
      assert IsStored(Step(s, e, idleMinutes), i.(revoked := true), idle, absolute, idleMinutes);
  }

  lemma {:induction false} HistoryIsIdeal(s: Session, i: Ideal, absolute: Moment, events: History, idleMinutes: nat)
    requires absolute.Valid() && Stores(s, i, absolute, idleMinutes) && AllPrintable(events)
    ensures Stores(After(s, events, idleMinutes), IdealAfter(i, events, Seconds(absolute), idleMinutes), absolute, idleMinutes)
  {
    match events
    case Beginning =>
    case Then(earlier, last) =>
      HistoryIsIdeal(s, i, absolute, earlier, idleMinutes);
      StepIsIdeal(After(s, earlier, idleMinutes), IdealAfter(i, earlier, Seconds(absolute), idleMinutes), absolute, last, idleMinutes);
  }

  // After any history, whatever the clock did, the stored texts let in exactly the requests that the clock would: those of
  // a session that is not revoked, within an idle period of its last use and before the lifetime given at login ends.
  lemma SessionIsIdeal(login: Moment, absoluteHours: nat, idleMinutes: nat, start: Session, ends: int, events: History,
                       now: Moment, usable: bool)
    requires login.Printable() && Fits(login, 3600 * absoluteHours) && Fits(login, 60 * idleMinutes)
    requires start == Login(login, absoluteHours, idleMinutes) && ends == Seconds(login) + 3600 * absoluteHours
    requires AllPrintable(events) && now.Printable()
    ensures Accepts(After(start, events, idleMinutes), now, usable, idleMinutes) <==>
            IdealAccepts(IdealAfter(Ideal(Seconds(login), false), events, ends, idleMinutes), now, usable, ends, idleMinutes)
  {
    var absolute := Plus(login, 3600 * absoluteHours);
    assert absolute.Valid() && Seconds(absolute) == ends by { PlusAdds(login, 3600 * absoluteHours); }
    assert Stores(start, Ideal(Seconds(login), false), absolute, idleMinutes) by { LoginIsStored(login, absoluteHours, idleMinutes); }
    StoredSessionIsIdeal(start, Ideal(Seconds(login), false), absolute, ends, events, now, usable, idleMinutes);
  }

  lemma StoredSessionIsIdeal(
    s: Session, i: Ideal, absolute: Moment, ends: int, events: History, now: Moment, usable: bool, idleMinutes: nat)
    requires absolute.Valid() && ends == Seconds(absolute)
    requires Stores(s, i, absolute, idleMinutes) && AllPrintable(events) && now.Printable()
    ensures Accepts(After(s, events, idleMinutes), now, usable, idleMinutes) <==>
            IdealAccepts(IdealAfter(i, events, ends, idleMinutes), now, usable, ends, idleMinutes)
  {
    HistoryIsIdeal(s, i, absolute, events, idleMinutes);
    StoredIsIdeal(After(s, events, idleMinutes), IdealAfter(i, events, Seconds(absolute), idleMinutes), absolute, now, usable, idleMinutes);
  }

  // ---- Dead sessions ----

  // Revoked, or expired at this instant.
  predicate IsDead(s: Session, now: Moment)
    requires now.Printable()
  {
    !IsLive(s, ToUtcZ(now))
  }

  predicate NotBefore(a: Moment, b: Moment)
    requires a.Printable() && b.Printable()
  {
    Seconds(a) <= Seconds(b)
  }

  lemma DeadStaysDeadForOneStep(s: Session, absolute: Moment, dead: Moment, e: Event, idleMinutes: nat)
    requires ExpiresBy(s, absolute, idleMinutes)
    requires dead.Printable() && IsDead(s, dead) && e.now.Printable() && NotBefore(dead, e.now)
    ensures e.Request? ==> !Accepts(s, e.now, e.usable, idleMinutes)
    ensures IsDead(Step(s, e, idleMinutes), e.now)
  {
    var seen, idle :| Stands(s, seen, idle, absolute, idleMinutes);
    TextOrderIsTimeOrder(dead, idle);
    TextOrderIsTimeOrder(dead, absolute);
    TextOrderIsTimeOrder(e.now, idle);
    TextOrderIsTimeOrder(e.now, absolute);
  }

  // The time of the last event, or the time the events start from.
  function LastTime(start: Moment, events: History): Moment {
    if events.Beginning? then start else events.last.now
  }

  // The clock does not go back.
  predicate Timely(start: Moment, events: History)
    requires start.Printable() && AllPrintable(events)
  {
    events.Then? ==> Timely(start, events.earlier) && NotBefore(LastTime(start, events.earlier), events.last.now)
  }

  // No request of the history is accepted.
  predicate AllRejected(s: Session, events: History, idleMinutes: nat)
    requires AllPrintable(events)
  {
    match events
    case Beginning => true
    case Then(earlier, last) =>
      && AllRejected(s, earlier, idleMinutes)
      && (last.Request? ==> !Accepts(After(s, earlier, idleMinutes), last.now, last.usable, idleMinutes))
  }

  // Once a session is revoked or has expired, it is rejected ever after, as long as the clock does not go back.
  lemma {:induction false} DeadStaysDead(s: Session, absolute: Moment, dead: Moment, events: History, idleMinutes: nat)
    requires ExpiresBy(s, absolute, idleMinutes) && dead.Printable() && IsDead(s, dead)
    requires AllPrintable(events) && Timely(dead, events)
    ensures AllRejected(s, events, idleMinutes)
    ensures IsDead(After(s, events, idleMinutes), LastTime(dead, events))
  {
    match events
    case Beginning =>
    case Then(earlier, last) =>
      DeadStaysDead(s, absolute, dead, earlier, idleMinutes);
      EventsKeepExpiry(s, absolute, earlier, idleMinutes);
      DeadStaysDeadForOneStep(After(s, earlier, idleMinutes), absolute, LastTime(dead, earlier), last, idleMinutes);
  }
}
