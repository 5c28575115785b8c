// Reservations over every run: at most one is held for a capture of a workload or a
// restore of a checkpoint, and what ends one.
module Reservations {
  import opened Wrappers
  import opened Tables
  import opened Operations
  import opened Steps

  // No two reservations are held for the same scope.
  ghost predicate Exclusive(db: Db) {
    forall a, b | a in db.reservations && b in db.reservations && a != b ::
      db.reservations[a].state == Held && db.reservations[b].state == Held ==>
        db.reservations[a].scope != db.reservations[b].scope
  }

  // The last step of every operation that has reserved.
  predicate Releasing(op: Op) {
    match op
    case Capture(pc, _, _) => pc == CRelease
    case CaptureAbort(pc, _, _) => pc == ARelease
    case Restore(pc, _, _, _, _) => pc == RRelease
    case RestoreAbort(pc, _) => pc == BRelease
    case RecoverCapture(pc, _, _, _, _) => pc == KRelease
    case RecoverRestore(pc, _, _, _) => pc == QRelease
    case Retirement(_, _, _, _) => false
  }

  ghost predicate Releases(s: Sys, e: Event, a: AttemptId) {
    e.Advance? && e.a == a && !e.ans.fault && a in s.ops && Releasing(s.ops[a])
  }

  // What an operation about to reserve asks for.
  function Wanted(op: Op): Option<Reservation> {
    if op.Capture? && op.cpc == CReserve then Some(Reservation(CaptureOf(op.cplan.workload), Held, op.cplan.expiresAt))
    else if op.Restore? && op.rpc == RReserve then
      Some(Reservation(RestoreOf(op.rplan.checkpoint), Held, op.rplan.expiresAt))
    else None
  }

  ghost predicate Reserves(s: Sys, e: Event, a: AttemptId) {
    e.Advance? && e.a == a && !e.ans.fault && a in s.ops && Wanted(s.ops[a]).Some?
  }

  // ---------------- one step ----------------

  lemma ReservationActions(a: AttemptId, op: Op, ans: Answer, call: Call)
    requires ActionOf(a, op, ans) == Ask(call)
    ensures call.Release? <==> Releasing(op)
    ensures call.Release? ==> call.a == a
    ensures call.Reserve? <==> Wanted(op).Some?
    ensures call.Reserve? ==> call.a == a && Wanted(op).value == Reservation(call.scope, Held, call.expiresAt)
    ensures !call.Expire?
  {
    hide Scaffold, PersistedRow;
  }

  lemma OrdersReserveNothing(a: AttemptId, op: Op, ans: Answer)
    requires ActionOf(a, op, ans).Tell?
    ensures !Releasing(op) && Wanted(op).None?
  {
    hide Scaffold, PersistedRow;
  }

  lemma CallsOf(s: Sys, e: Event, a: AttemptId)
    ensures CallOf(s, e) == Some(Release(a)) <==> Releases(s, e, a)
    ensures Reserves(s, e, a) ==>
              var r := Wanted(s.ops[a]).value;
              r.state == Held && CallOf(s, e) == Some(Reserve(a, r.scope, r.expiresAt))
    ensures CallOf(s, e).Some? && CallOf(s, e).value.Reserve? && CallOf(s, e).value.a == a ==> Reserves(s, e, a)
    ensures CallOf(s, e).Some? && CallOf(s, e).value.Expire? <==> e.ExpireReservations?
    ensures e.ExpireReservations? ==> CallOf(s, e) == Some(Expire(e.before))
  {
    if e.Advance? && e.a in s.ops {
      match ActionOf(e.a, s.ops[e.a], e.ans)
      case Ask(call) => ReservationActions(e.a, s.ops[e.a], e.ans, call);
      case Tell(_) => OrdersReserveNothing(e.a, s.ops[e.a], e.ans);
    }
    hide ActionOf, Releasing;
  }

  // The reservations a call leaves.
  ghost function ReservationsAfter(db: Db, call: Call): map<AttemptId, Reservation> {
    match call
    case Reserve(a, scope, expiresAt) =>
      var tx := ReservationCreate(db, a, scope, expiresAt);
      if tx.Ok? then tx.value.reservations else db.reservations
    case Release(a) => ReservationRelease(db, a).reservations
    case Expire(before) => ReservationsExpire(db, before).reservations
    case _ => db.reservations
  }

  lemma ExecReservations(db: Db, call: Call)
    ensures Exec(db, call).0.reservations == ReservationsAfter(db, call)
  {
    match call
    case CommitCapture(c, a) => hide CommitRows;
    case CommitRestore(c, a, node, token, migration, rollback) => hide RestoredRows;
    case _ =>
  }

  // What one step makes of the reservation of attempt a.
  lemma ReservationMoves(s: Sys, e: Event, a: AttemptId)
    ensures var rs, rs' := s.db.reservations, Step(s, e).db.reservations;
            && (a in rs ==>
                  a in rs' && rs'[a] == rs[a].(state := rs'[a].state)
                  && rs'[a].state ==
                     (if rs[a].state != Held then rs[a].state
                      else if Releases(s, e, a) then Released
                      else if e.ExpireReservations? && rs[a].expiresAt < e.before then Expired else Held))
            && (a !in rs ==>
                  (a in rs' <==> Reserves(s, e, a) && !Reserved(s.db, Wanted(s.ops[a]).value.scope))
                  && (a in rs' ==> rs'[a] == Wanted(s.ops[a]).value))
  {
    StepDb(s, e);
    CallsOf(s, e, a);
    hide Step, CallOf, Exec, Releases, Reserves, Reserved;
    if CallOf(s, e).Some? { ExecReservations(s.db, CallOf(s, e).value); }
  }

  lemma StepKeepsExclusive(s: Sys, e: Event)
    requires Exclusive(s.db)
    ensures Exclusive(Step(s, e).db)
  {
    var rs, rs' := s.db.reservations, Step(s, e).db.reservations;
    forall a, b | a in rs' && b in rs' && a != b && rs'[a].state == Held && rs'[b].state == Held
      ensures rs'[a].scope != rs'[b].scope
    {
      ReservationMoves(s, e, a);
      ReservationMoves(s, e, b);
      assert a !in rs && b in rs ==> rs[b].state == Held && b in rs.Keys;
      assert b !in rs && a in rs ==> rs[a].state == Held && a in rs.Keys;
      hide Step, Releases;
    }
  }

  // In every run, at most one capture of a workload and one restore of a checkpoint is
  // reserved at any time.
  lemma {:induction false} ReservationsAreExclusive(events: seq<Event>)
    ensures Exclusive(Run(EmptySys, events).db)
    decreases |events|
  {
    if events != [] {
      ReservationsAreExclusive(events[..|events| - 1]);
      hide Step, Exclusive;
      StepKeepsExclusive(Run(EmptySys, events[..|events| - 1]), events[|events| - 1]);
    }
  }

  // A held reservation stays held, whatever crashes or is recovered for other attempts,
  // until its own attempt's last step, or an expiry after its time; and it is never held
  // again.
  lemma {:induction false} HeldUntilReleased(s: Sys, after: seq<Event>, a: AttemptId)
    requires a in s.db.reservations
    ensures var rs' := Run(s, after).db.reservations;
            a in rs' && rs'[a].scope == s.db.reservations[a].scope
            && rs'[a].expiresAt == s.db.reservations[a].expiresAt
            && (rs'[a].state == Held <==> s.db.reservations[a].state == Held && !EndsIn(s, after, a))
    decreases |after|
  {
    if after != [] {
      var prefix, last := after[..|after| - 1], after[|after| - 1];
      HeldUntilReleased(s, prefix, a);
      ReservationMoves(Run(s, prefix), last, a);
      hide Step, Releases;
    }
  }

  // Some step of the run releases the reservation, or expires it.
  ghost predicate EndsIn(s: Sys, after: seq<Event>, a: AttemptId)
    decreases |after|
  {
    after != [] && var prefix, last := after[..|after| - 1], after[|after| - 1];
                   var t := Run(s, prefix);
                   EndsIn(s, prefix, a) || Releases(t, last, a)
                   || (last.ExpireReservations? && a in t.db.reservations
                       && t.db.reservations[a].expiresAt < last.before)
  }
}
