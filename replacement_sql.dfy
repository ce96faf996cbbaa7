/** The Sequelize guard-replacement system (`backend/guard-replacement-system.ts`).
    Its four tables are maps from primary key to row. Unlike the MongoDB
    version, no-show detection only reads, and ignores attendance. */
module ReplacementSql {
  import opened Common

  const NO_SHOW_THRESHOLD_MINUTES: int := 15
  const REQUEST_TTL_MS: int := 30 * MINUTE_MS

  /** `ENUM('scheduled', 'in_progress', 'completed', 'no_show', 'replacement_assigned')`. */
  datatype ShiftStatus = Scheduled | InProgress | Completed | NoShow | ReplacementAssigned

  datatype Shift = Shift(
    guardId: nat,
    startTime: int,
    endTime: int,
    clientSite: string,
    status: ShiftStatus,
    replacementRequired: bool,
    replacementGuardId: Option<nat>,
    createdAt: int)

  /** `ENUM('pending', 'accepted', 'declined', 'expired')`. */
  datatype ReplacementStatus = Pending | Accepted | Declined | Expired

  datatype Replacement = Replacement(
    originalGuardId: nat,
    replacementGuardId: Option<nat>,
    originalShiftId: nat,
    clientSite: string,
    shiftTime: int,
    status: ReplacementStatus,
    acceptedGuardId: Option<nat>,
    acceptedAt: Option<int>,
    expiresAt: int,
    createdAt: int)

  datatype GuardAvailability = GuardAvailability(guardId: nat, date: int, available: bool, updatedAt: int)

  datatype Attendance = Attendance(guardId: nat, shiftId: nat, checkInTime: int, checkOutTime: Option<int>, createdAt: int)

  /** The `findAll` filter of `detectNoShows`: scheduled, started more than
      the grace period ago, and no replacement asked for yet. */
  predicate IsNoShow(sh: Shift, now: int) {
    sh.status == Scheduled
    && sh.startTime < now - NO_SHOW_THRESHOLD_MINUTES * MINUTE_MS
    && !sh.replacementRequired
  }

  /** The ids `detectNoShows` returns. */
  function NoShowIds(shifts: map<nat, Shift>, now: int): (r: set<nat>)
    ensures forall id :: id in r <==> id in shifts && IsNoShow(shifts[id], now)
  {
    set id | id in shifts && IsNoShow(shifts[id], now)
  }

  /** A no-show stays one as time goes on, as long as nothing touches it. */
  lemma NoShowIdsGrow(shifts: map<nat, Shift>, now1: int, now2: int)
    requires now1 <= now2
    ensures NoShowIds(shifts, now1) <= NoShowIds(shifts, now2)
  {
  }

  class System {
    var shifts: map<nat, Shift>
    var replacements: map<nat, Replacement>
    var availability: map<nat, GuardAvailability>
    var attendance: map<nat, Attendance>
    var nextId: nat

    predicate Valid()
      reads this
    {
      (forall id :: id in shifts ==> id < nextId)
      && (forall id :: id in replacements ==> id < nextId)
      && (forall id :: id in availability ==> id < nextId)
      && (forall id :: id in attendance ==> id < nextId)
      && (forall a, b ::
            a in availability && b in availability
            && availability[a].guardId == availability[b].guardId
            && availability[a].date == availability[b].date
            ==> a == b)
    }

    constructor ()
      ensures Valid()
      ensures shifts == map[] && replacements == map[] && availability == map[] && attendance == map[]
    {
      shifts, replacements, availability, attendance := map[], map[], map[], map[];
      nextId := 0;
    }

    /** `createShift`. */
    method CreateShift(guardId: nat, startTime: int, endTime: int, clientSite: string, now: int) returns (id: nat)
      requires Valid()
      modifies this
      ensures Valid()
      ensures id == old(nextId) && id !in old(shifts)
      ensures shifts == old(shifts)[id := Shift(guardId, startTime, endTime, clientSite, Scheduled, false, None, now)]
      ensures replacements == old(replacements) && availability == old(availability) && attendance == old(attendance)
    {
      id := nextId;
      shifts := shifts[id := Shift(guardId, startTime, endTime, clientSite, Scheduled, false, None, now)];
      nextId := nextId + 1;
    }

    /** `recordCheckIn`: throws 'Shift not found' for an unknown shift, before
        anything is written. */
    method RecordCheckIn(guardId: nat, shiftId: nat, now: int) returns (r: Result<nat>)
      requires Valid()
      modifies this
      ensures Valid()
      ensures shiftId !in old(shifts) ==> r == Err("Shift not found") && unchanged(this)
      ensures shiftId in old(shifts) ==>
        r == Ok(old(nextId))
        && attendance == old(attendance)[old(nextId) := Attendance(guardId, shiftId, now, None, now)]
        && shifts == old(shifts)[shiftId := old(shifts)[shiftId].(status := InProgress)]
      ensures replacements == old(replacements) && availability == old(availability)
    {
      if shiftId !in shifts {
        return Err("Shift not found");
      }
      var id := nextId;
      attendance := attendance[id := Attendance(guardId, shiftId, now, None, now)];
      nextId := nextId + 1;
      shifts := shifts[shiftId := shifts[shiftId].(status := InProgress)];
      return Ok(id);
    }

    /** `recordCheckOut(attendanceId)`: stamps the check-out and completes the
        linked shift when there is one. */
    method RecordCheckOut(attendanceId: nat, now: int) returns (r: Result<()>)
      requires Valid()
      modifies this
      ensures Valid()
      ensures attendanceId !in old(attendance) ==> r == Err("Attendance record not found") && unchanged(this)
      ensures attendanceId in old(attendance) ==>
        var a := old(attendance)[attendanceId];
        r == Ok(())
        && attendance == old(attendance)[attendanceId := a.(checkOutTime := Some(now))]
        && shifts == if a.shiftId in old(shifts)
                     then old(shifts)[a.shiftId := old(shifts)[a.shiftId].(status := Completed)]
                     else old(shifts)
      ensures replacements == old(replacements) && availability == old(availability) && nextId == old(nextId)
    {
      if attendanceId !in attendance {
        return Err("Attendance record not found");
      }
      var a := attendance[attendanceId];
      attendance := attendance[attendanceId := a.(checkOutTime := Some(now))];
      if a.shiftId in shifts {
        shifts := shifts[a.shiftId := shifts[a.shiftId].(status := Completed)];
      }
      return Ok(());
    }

    /** `detectNoShows`: reads the shifts and changes nothing. */
    method DetectNoShows(now: int) returns (ids: set<nat>)
      ensures forall id :: id in ids <==>
        (id in shifts && shifts[id].status == Scheduled
         && shifts[id].startTime < now - NO_SHOW_THRESHOLD_MINUTES * MINUTE_MS
         && !shifts[id].replacementRequired)
    {
      ids := NoShowIds(shifts, now);
    }

    /** `sendReplacementRequest(noShowShift)`: one pending request copying
        the given shift's id, guard, site and start, expiring 30 minutes after
        `now`; the candidate list is not stored. */
    method SendReplacementRequest(shiftId: nat, sh: Shift, now: int) returns (id: nat)
      requires Valid()
      modifies this
      ensures Valid()
      ensures id == old(nextId) && id !in old(replacements)
      ensures replacements == old(replacements)[id := Replacement(sh.guardId, None, shiftId, sh.clientSite, sh.startTime,
                                                                Pending, None, None, now + REQUEST_TTL_MS, now)]
      ensures shifts == old(shifts) && availability == old(availability) && attendance == old(attendance)
    {
      id := nextId;
      replacements := replacements[id := Replacement(sh.guardId, None, shiftId, sh.clientSite, sh.startTime,
                                                     Pending, None, None, now + REQUEST_TTL_MS, now)];
      nextId := nextId + 1;
    }

    /** `acceptReplacement(originalGuardId, replacementGuardId, shiftId)`:
        the request is found by original guard and shift. */
    method AcceptReplacement(originalGuardId: nat, replacementGuardId: nat, shiftId: nat, now: int)
      returns (r: Result<nat>)
      requires Valid()
      modifies this
      ensures Valid()
      ensures (forall k :: k in old(replacements) ==>
                 !(old(replacements)[k].originalGuardId == originalGuardId && old(replacements)[k].originalShiftId == shiftId)) ==>
        r == Err("Replacement not found") && unchanged(this)
      // a matching request is always accepted
      ensures (exists k :: k in old(replacements)
                 && old(replacements)[k].originalGuardId == originalGuardId && old(replacements)[k].originalShiftId == shiftId) ==>
        r.Ok?
      ensures r.Ok? ==>
        var k := r.value;
        k in old(replacements)
        && old(replacements)[k].originalGuardId == originalGuardId && old(replacements)[k].originalShiftId == shiftId
        && replacements == old(replacements)[k := old(replacements)[k].(status := Accepted,
                                                 replacementGuardId := Some(replacementGuardId), acceptedAt := Some(now))]
        && shifts == if shiftId in old(shifts)
                     then old(shifts)[shiftId := old(shifts)[shiftId].(replacementGuardId := Some(replacementGuardId),
                                                                      status := ReplacementAssigned, replacementRequired := true)]
                     else old(shifts)
      // once replaced, the shift is never reported as a no-show again
      ensures r.Ok? ==> forall t :: shiftId !in NoShowIds(shifts, t)
      ensures availability == old(availability) && attendance == old(attendance) && nextId == old(nextId)
    {
      if forall k :: k in replacements ==>
           !(replacements[k].originalGuardId == originalGuardId && replacements[k].originalShiftId == shiftId) {
        return Err("Replacement not found");
      }
      var k :| k in replacements && replacements[k].originalGuardId == originalGuardId && replacements[k].originalShiftId == shiftId;
      replacements := replacements[k := replacements[k].(status := Accepted,
                                    replacementGuardId := Some(replacementGuardId), acceptedAt := Some(now))];
      if shiftId in shifts {
        shifts := shifts[shiftId := shifts[shiftId].(replacementGuardId := Some(replacementGuardId),
                                                     status := ReplacementAssigned, replacementRequired := true)];
      }
      return Ok(k);
    }

    /** `setGuardAvailability(guardId, isAvailable, availableFrom, availableUntil)`:
        the row is always today's, at local midnight (`now` in a zone `offset`
        ms ahead of UTC); the two dates are not used. */
    method SetGuardAvailability(guardId: nat, isAvailable: bool, availableFrom: Option<int>, availableUntil: Option<int>,
                                now: int, offset: int)
      requires Valid()
      modifies this
      ensures Valid()
      ensures var today := Midnight(now, offset);
        // exactly one row for (guard, today), holding the new value
        (exists k :: k in availability && availability[k] == GuardAvailability(guardId, today, isAvailable, now))
        && (forall k :: k in availability && availability[k].guardId == guardId && availability[k].date == today ==>
              availability[k] == GuardAvailability(guardId, today, isAvailable, now))
        // every other row is kept
        && (forall k :: k in old(availability) && !(old(availability)[k].guardId == guardId && old(availability)[k].date == today) ==>
              k in availability && availability[k] == old(availability)[k])
        && (forall k :: k in availability && k !in old(availability) ==> k == old(nextId))
      ensures shifts == old(shifts) && replacements == old(replacements) && attendance == old(attendance)
    {
      var today := Midnight(now, offset);
      var rec := GuardAvailability(guardId, today, isAvailable, now);
      if exists k :: k in availability && availability[k].guardId == guardId && availability[k].date == today {
        var k :| k in availability && availability[k].guardId == guardId && availability[k].date == today;
        ghost var before := availability;
        availability := availability[k := rec];
        assert forall a :: a in availability ==>
          a in before && availability[a].guardId == before[a].guardId && availability[a].date == before[a].date;
        assert k in availability && availability[k] == rec;
      } else {
        var k := nextId;
        availability := availability[k := rec];
        nextId := nextId + 1;
        assert k in availability && availability[k] == rec;
      }
    }
  }

  /** Two calls on the same day under one clock reading leave one row with
      the second value. */
  method SetTwice(s: System, guardId: nat, first: bool, second: bool, now: int, offset: int)
    requires s.Valid()
    modifies s
    ensures s.Valid()
    ensures forall k :: k in s.availability && s.availability[k].guardId == guardId
                        && s.availability[k].date == Midnight(now, offset) ==>
              s.availability[k].available == second
  {
    s.SetGuardAvailability(guardId, first, None, None, now, offset);
    s.SetGuardAvailability(guardId, second, None, None, now, offset);
  }
}
