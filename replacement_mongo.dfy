/** The MongoDB guard-replacement system (`backend/guard-replacement-system.js`):
    shifts, check-ins, no-show detection with a 15-minute grace period,
    scoring of replacement guards, replacement requests and availability.
    Each collection is a sequence of documents in natural (insertion) order;
    `findOne` and `updateOne` act on the first match. */
module ReplacementMongo {
  import opened Common

  /** `NO_SHOW_THRESHOLD_MINUTES`. */
  const NO_SHOW_THRESHOLD_MINUTES: int := 15
  /** Replacement requests expire `30 * 60000` ms after they are made. */
  const REQUEST_TTL_MS: int := 30 * MINUTE_MS
  const DEFAULT_MAX_RESULTS: nat := 5

  /** `status` of a shift: scheduled, in-progress, completed, no-show,
      replacement-assigned. */
  datatype ShiftStatus = Scheduled | InProgress | Completed | NoShow | ReplacementAssigned

  datatype Shift = Shift(
    id: nat,
    guardId: nat,
    startTime: int,
    endTime: int,
    clientSite: string,
    status: ShiftStatus,
    createdAt: int,
    replacementRequired: bool,
    replacementGuardId: Option<nat>)

  datatype Attendance = Attendance(id: nat, guardId: nat, shiftId: nat, checkInTime: int, checkOutTime: Option<int>)

  /** A `guard_availability` document; `(guardId, date)` is its key. */
  datatype Availability = Availability(guardId: nat, date: int, available: bool, updatedAt: int)

  /** The fields of a `users` document the scoring reads. `hasLatitude` says
      whether `currentLocation.latitude` is truthy. */
  datatype GuardDoc = GuardDoc(
    id: nat,
    role: string,
    verified: bool,
    fullName: string,
    username: string,
    email: string,
    phoneNumber: string,
    hasLatitude: bool)

  /** One entry of the list `detectNoShows` returns. */
  datatype NoShowEntry = NoShowEntry(shiftId: nat, guardId: nat, clientSite: string, shiftStartTime: int)

  /** One scored guard of `findReplacementGuards`. */
  datatype Candidate = Candidate(
    guardId: nat,
    guardName: string,
    guardEmail: string,
    phoneNumber: string,
    reliabilityScore: real,
    proximityScore: real,
    finalScore: real)

  datatype ReplacementStatus = Pending | Accepted | Declined | Expired

  datatype CandidateEntry = CandidateEntry(guardId: nat, guardName: string, score: real, notified: bool, responded: bool)

  datatype Replacement = Replacement(
    id: nat,
    originalShiftId: nat,
    originalGuardId: nat,
    clientSite: string,
    shiftTime: int,
    status: ReplacementStatus,
    candidateGuards: seq<CandidateEntry>,
    acceptedGuardId: Option<nat>,
    acceptedAt: Option<int>,
    createdAt: int,
    expiresAt: int)

  // ---------------------------------------------------------------------
  // No-show detection
  // ---------------------------------------------------------------------

  /** Some attendance document names the shift (`findOne({ shiftId })`). */
  predicate HasAttendance(attendance: seq<Attendance>, shiftId: nat) {
    exists k :: 0 <= k < |attendance| && attendance[k].shiftId == shiftId
  }

  /** The `find` filter together with the missing attendance. */
  predicate IsNoShow(sh: Shift, attendance: seq<Attendance>, now: int) {
    sh.status == Scheduled
    && sh.startTime < now - NO_SHOW_THRESHOLD_MINUTES * MINUTE_MS
    && !sh.replacementRequired
    && !HasAttendance(attendance, sh.id)
  }

  function NoShowTest(attendance: seq<Attendance>, now: int): Shift -> bool {
    (sh: Shift) => IsNoShow(sh, attendance, now)
  }

  function MarkIfNoShow(attendance: seq<Attendance>, now: int): Shift -> Shift {
    (sh: Shift) => if IsNoShow(sh, attendance, now) then sh.(status := NoShow, replacementRequired := true) else sh
  }

  function EntryOf(sh: Shift): NoShowEntry {
    NoShowEntry(sh.id, sh.guardId, sh.clientSite, sh.startTime)
  }

  /** The shift list after `detectNoShows`: exactly the no-shows change, and
      they become `'no-show'` with `replacementRequired` set. */
  function MarkNoShows(shifts: seq<Shift>, attendance: seq<Attendance>, now: int): (r: seq<Shift>)
    ensures |r| == |shifts|
    ensures forall i :: 0 <= i < |shifts| ==>
      (r[i] != shifts[i] <==> IsNoShow(shifts[i], attendance, now))
    ensures forall i :: 0 <= i < |shifts| && IsNoShow(shifts[i], attendance, now) ==>
      r[i] == shifts[i].(status := NoShow, replacementRequired := true)
    ensures forall i :: 0 <= i < |shifts| ==> r[i].id == shifts[i].id
  {
    Map(shifts, MarkIfNoShow(attendance, now))
  }

  /** The list `detectNoShows` returns: one entry per no-show, in order. */
  function NoShowsOf(shifts: seq<Shift>, attendance: seq<Attendance>, now: int): seq<NoShowEntry> {
    Map(Filter(shifts, NoShowTest(attendance, now)), EntryOf)
  }

  /** The candidate filter of `detectNoShows` for one shift, then its
      `findOne({ shiftId })` among the attendance records. */
  method CheckShift(sh: Shift, attendance: seq<Attendance>, now: int) returns (noShow: bool)
    ensures noShow == IsNoShow(sh, attendance, now)
  {
    var threshold := now - NO_SHOW_THRESHOLD_MINUTES * MINUTE_MS;
    if sh.status == Scheduled && sh.startTime < threshold && !sh.replacementRequired {
      var att := FirstIndex(attendance, (a: Attendance) => a.shiftId == sh.id);
      noShow := att.None?;
      assert att.Some? ==> HasAttendance(attendance, sh.id);
    } else {
      noShow := false;
    }
  }

  /** Scanning one more shift adds its entry exactly when it is a no-show. */
  lemma NoShowsOfAppend(shifts: seq<Shift>, i: nat, attendance: seq<Attendance>, now: int)
    requires i < |shifts|
    ensures NoShowsOf(shifts[..i + 1], attendance, now) ==
      NoShowsOf(shifts[..i], attendance, now) + (if IsNoShow(shifts[i], attendance, now) then [EntryOf(shifts[i])] else [])
  {
    var test := NoShowTest(attendance, now);
    assert shifts[..i + 1] == shifts[..i] + [shifts[i]];
    FilterAppend(shifts[..i], shifts[i], test);
    MapAppend(Filter(shifts[..i], test), shifts[i], EntryOf);
  }

  /** One entry per shift marked. */
  lemma NoShowsCount(shifts: seq<Shift>, attendance: seq<Attendance>, now: int)
    ensures |NoShowsOf(shifts, attendance, now)| == Count(shifts, NoShowTest(attendance, now))
  {
  }

  /** Every entry comes from a shift that was a no-show. */
  lemma NoShowsAreNoShows(shifts: seq<Shift>, attendance: seq<Attendance>, now: int)
    ensures forall e :: e in NoShowsOf(shifts, attendance, now) ==>
      exists i :: 0 <= i < |shifts| && IsNoShow(shifts[i], attendance, now) && e == EntryOf(shifts[i])
  {
    var f := Filter(shifts, NoShowTest(attendance, now));
    FilterElements(shifts, NoShowTest(attendance, now));
    forall e | e in NoShowsOf(shifts, attendance, now)
      ensures exists i :: 0 <= i < |shifts| && IsNoShow(shifts[i], attendance, now) && e == EntryOf(shifts[i])
    {
      var k :| 0 <= k < |f| && e == EntryOf(f[k]);
      assert f[k] in shifts;
      var i :| 0 <= i < |shifts| && shifts[i] == f[k];
      assert NoShowTest(attendance, now)(f[k]);
    }
  }

  /** A second detection at the same instant finds nothing: every shift the
      first one marked is no longer `'scheduled'`. */
  lemma DetectNoShowsTwiceIsEmpty(shifts: seq<Shift>, attendance: seq<Attendance>, now: int)
    ensures NoShowsOf(MarkNoShows(shifts, attendance, now), attendance, now) == []
  {
    var m := MarkNoShows(shifts, attendance, now);
    FilterNone(m, NoShowTest(attendance, now));
  }

  // ---------------------------------------------------------------------
  // Replacement scoring
  // ---------------------------------------------------------------------

  /** The `users` query: role `'user'`, verified, and not the absent guard. */
  predicate Eligible(g: GuardDoc, originalGuard: nat) {
    g.role == "user" && g.verified && g.id != originalGuard
  }

  /** `findOne({ guardId, date: shiftStartTime, available: true })`: the date
      must equal the shift's start instant exactly. */
  predicate AvailableAt(availability: seq<Availability>, guardId: nat, date: int) {
    exists k :: 0 <= k < |availability| && availability[k].guardId == guardId
      && availability[k].date == date && availability[k].available
  }

  function CandidateTest(ns: NoShowEntry, availability: seq<Availability>): GuardDoc -> bool {
    (g: GuardDoc) => Eligible(g, ns.guardId) && AvailableAt(availability, g.id, ns.shiftStartTime)
  }

  function CountsTowardsTotal(guardId: nat): Shift -> bool {
    (sh: Shift) => sh.guardId == guardId && (sh.status == Completed || sh.status == InProgress)
  }

  function AttendedBy(guardId: nat): Attendance -> bool {
    (a: Attendance) => a.guardId == guardId
  }

  /** `(attendedShifts / totalShifts) * 100`, or 0 with no shifts. */
  function Reliability(g: GuardDoc, shifts: seq<Shift>, attendance: seq<Attendance>): real {
    var total := Count(shifts, CountsTowardsTotal(g.id));
    var attended := Count(attendance, AttendedBy(g.id));
    if total > 0 then (attended as real / total as real) * 100.0 else 0.0
  }

  /** The placeholder proximity: 80 with a location, 50 without. */
  function Proximity(g: GuardDoc): real {
    if g.hasLatitude then 80.0 else 50.0
  }

  function ScoreWith(shifts: seq<Shift>, attendance: seq<Attendance>): GuardDoc -> Candidate {
    (g: GuardDoc) =>
      var rel := Reliability(g, shifts, attendance);
      var prox := Proximity(g);
      Candidate(g.id, if g.fullName != "" then g.fullName else g.username, g.email, g.phoneNumber,
                rel, prox, rel * 0.5 + prox * 0.5)
  }

  function FinalScore(c: Candidate): real {
    c.finalScore
  }

  /** `scoredGuards` once the loop is over. */
  function Scored(ns: NoShowEntry, users: seq<GuardDoc>, availability: seq<Availability>,
                  shifts: seq<Shift>, attendance: seq<Attendance>): seq<Candidate> {
    Map(Filter(users, CandidateTest(ns, availability)), ScoreWith(shifts, attendance))
  }

  /** A candidate is the score of an eligible guard available at the shift start. */
  predicate IsCandidateFor(c: Candidate, ns: NoShowEntry, users: seq<GuardDoc>, availability: seq<Availability>,
                           shifts: seq<Shift>, attendance: seq<Attendance>) {
    exists i :: 0 <= i < |users| && Eligible(users[i], ns.guardId)
      && AvailableAt(availability, users[i].id, ns.shiftStartTime)
      && c == ScoreWith(shifts, attendance)(users[i])
  }

  /** The top `maxResults` by final score, best first, each a proper candidate. */
  lemma TopCandidates(ns: NoShowEntry, users: seq<GuardDoc>, availability: seq<Availability>,
                      shifts: seq<Shift>, attendance: seq<Attendance>, maxResults: nat)
    ensures var r := Take(SortDesc(Scored(ns, users, availability, shifts, attendance), FinalScore), maxResults);
      |r| <= maxResults
      && NonIncreasing(r, FinalScore)
      && forall c :: c in r ==> c.guardId != ns.guardId && IsCandidateFor(c, ns, users, availability, shifts, attendance)
  {
    var test := CandidateTest(ns, availability);
    var f := Filter(users, test);
    var scored := Scored(ns, users, availability, shifts, attendance);
    var sorted := SortDesc(scored, FinalScore);
    var r := Take(sorted, maxResults);
    SortDescSorted(scored, FinalScore);
    SortDescPermutation(scored, FinalScore);
    FilterElements(users, test);
    forall c | c in r
      ensures c.guardId != ns.guardId && IsCandidateFor(c, ns, users, availability, shifts, attendance)
    {
      assert c in multiset(sorted);
      assert c in scored;
      var k :| 0 <= k < |f| && c == ScoreWith(shifts, attendance)(f[k]);
      assert test(f[k]) && f[k] in users;
      var i :| 0 <= i < |users| && users[i] == f[k];
    }
  }

  /** Availability is stored at local midnight, and the lookup demands the
      shift's exact start: a shift that does not start at midnight finds no
      candidate. */
  lemma NoCandidateOffMidnight(ns: NoShowEntry, users: seq<GuardDoc>, availability: seq<Availability>,
                               shifts: seq<Shift>, attendance: seq<Attendance>, offset: int)
    requires forall k :: 0 <= k < |availability| ==> (availability[k].date + offset) % DAY_MS == 0
    requires (ns.shiftStartTime + offset) % DAY_MS != 0
    ensures Scored(ns, users, availability, shifts, attendance) == []
  {
    FilterNone(users, CandidateTest(ns, availability));
  }

  // ---------------------------------------------------------------------
  // Availability upsert
  // ---------------------------------------------------------------------

  function SameKey(guardId: nat, date: int): Availability -> bool {
    (a: Availability) => a.guardId == guardId && a.date == date
  }

  /** `updateOne({ guardId, date }, { $set }, { upsert: true })`. */
  function Upsert(s: seq<Availability>, rec: Availability): (r: seq<Availability>)
    ensures FirstIndex(s, SameKey(rec.guardId, rec.date)).None? ==> r == s + [rec]
    ensures FirstIndex(s, SameKey(rec.guardId, rec.date)).Some? ==>
      r == s[FirstIndex(s, SameKey(rec.guardId, rec.date)).value := rec]
  {
    match FirstIndex(s, SameKey(rec.guardId, rec.date))
    case None => s + [rec]
    case Some(i) => s[i := rec]
  }

  predicate KeysUnique(s: seq<Availability>) {
    forall i, j :: 0 <= i < j < |s| ==> !(s[i].guardId == s[j].guardId && s[i].date == s[j].date)
  }

  /** The upsert keeps one record per key; that record is the new one, and
      every record under another key is untouched. */
  lemma UpsertProperties(s: seq<Availability>, rec: Availability)
    requires KeysUnique(s)
    ensures var r := Upsert(s, rec);
      KeysUnique(r)
      && (exists k :: 0 <= k < |r| && r[k] == rec)
      && (forall k :: 0 <= k < |r| && r[k].guardId == rec.guardId && r[k].date == rec.date ==> r[k] == rec)
      && (forall k :: 0 <= k < |s| && !(s[k].guardId == rec.guardId && s[k].date == rec.date) ==> r[k] == s[k])
  {
    var r := Upsert(s, rec);
    var fi := FirstIndex(s, SameKey(rec.guardId, rec.date));
    if fi.None? {
      assert r[|s|] == rec;
    } else {
      assert r[fi.value] == rec;
    }
  }

  /** Two upserts under the same key are one upsert of the later value. */
  lemma UpsertLastWins(s: seq<Availability>, r1: Availability, r2: Availability)
    requires r1.guardId == r2.guardId && r1.date == r2.date
    ensures Upsert(Upsert(s, r1), r2) == Upsert(s, r2)
  {
    var key := SameKey(r1.guardId, r1.date);
    assert key == SameKey(r2.guardId, r2.date);
    var s1 := Upsert(s, r1);
    match FirstIndex(s, key)
    case None =>
      assert s1 == s + [r1];
      FirstIndexIs(s1, key, |s|);
    case Some(i) =>
      FirstIndexIs(s1, key, i);
  }

  // ---------------------------------------------------------------------
  // The collections
  // ---------------------------------------------------------------------

  function HasShiftId(id: nat): Shift -> bool {
    (sh: Shift) => sh.id == id
  }

  function HasReplacementId(id: nat): Replacement -> bool {
    (r: Replacement) => r.id == id
  }

  function ForGuardShift(guardId: nat, shiftId: nat): Attendance -> bool {
    (a: Attendance) => a.guardId == guardId && a.shiftId == shiftId
  }

  function WithStatus(st: ShiftStatus): Shift -> Shift {
    (sh: Shift) => sh.(status := st)
  }

  function CheckedOut(now: int): Attendance -> Attendance {
    (a: Attendance) => a.(checkOutTime := Some(now))
  }

  function Accept(guardId: nat, now: int): Replacement -> Replacement {
    (r: Replacement) => r.(status := Accepted, acceptedGuardId := Some(guardId), acceptedAt := Some(now))
  }

  function AssignReplacement(guardId: nat): Shift -> Shift {
    (sh: Shift) => sh.(replacementGuardId := Some(guardId), status := ReplacementAssigned)
  }

  function EntryFor(c: Candidate): CandidateEntry {
    CandidateEntry(c.guardId, c.guardName, c.finalScore, false, false)
  }

  /** The pending document `sendReplacementRequest` inserts for a no-show
      and the guards offered, expiring 30 minutes after `now`. */
  function PendingRequest(id: nat, ns: NoShowEntry, guards: seq<Candidate>, now: int): Replacement {
    Replacement(id, ns.shiftId, ns.guardId, ns.clientSite, ns.shiftStartTime,
                Pending, Map(guards, EntryFor), None, None, now, now + REQUEST_TTL_MS)
  }

  class System {
    var shifts: seq<Shift>
    var attendance: seq<Attendance>
    var availability: seq<Availability>
    var replacements: seq<Replacement>
    /** The `users` collection, read here and written elsewhere. */
    var users: seq<GuardDoc>
    /** The next fresh `_id`. */
    var nextId: nat

    /** `_id`s are unique and below the counter; availability keys are unique. */
    predicate Valid()
      reads this
    {
      (forall i :: 0 <= i < |shifts| ==> shifts[i].id < nextId)
      && (forall i, j :: 0 <= i < j < |shifts| ==> shifts[i].id != shifts[j].id)
      && (forall i :: 0 <= i < |attendance| ==> attendance[i].id < nextId)
      && (forall i :: 0 <= i < |replacements| ==> replacements[i].id < nextId)
      && KeysUnique(availability)
    }

    constructor (users: seq<GuardDoc>)
      ensures Valid()
      ensures shifts == [] && attendance == [] && availability == [] && replacements == []
      ensures this.users == users
    {
      shifts, attendance, availability, replacements := [], [], [], [];
      this.users := users;
      nextId := 0;
    }

    /** `createShift`. */
    method CreateShift(guardId: nat, startTime: int, endTime: int, clientSite: string, now: int)
      returns (id: nat)
      requires Valid()
      modifies this
      ensures Valid()
      ensures id == old(nextId)
      ensures shifts == old(shifts) + [Shift(id, guardId, startTime, endTime, clientSite, Scheduled, now, false, None)]
      ensures attendance == old(attendance) && availability == old(availability)
      ensures replacements == old(replacements) && users == old(users)
    {
      id := nextId;
      shifts := shifts + [Shift(id, guardId, startTime, endTime, clientSite, Scheduled, now, false, None)];
      nextId := nextId + 1;
    }

    /** `recordCheckIn`: the shift (if there is one) becomes in-progress,
        and an attendance document is inserted in any case. */
    method RecordCheckIn(guardId: nat, shiftId: nat, now: int) returns (id: nat)
      requires Valid()
      modifies this
      ensures Valid()
      ensures id == old(nextId)
      ensures shifts == UpdateFirst(old(shifts), HasShiftId(shiftId), WithStatus(InProgress))
      ensures attendance == old(attendance) + [Attendance(id, guardId, shiftId, now, None)]
      ensures availability == old(availability) && replacements == old(replacements) && users == old(users)
    {
      shifts := UpdateFirst(shifts, HasShiftId(shiftId), WithStatus(InProgress));
      id := nextId;
      attendance := attendance + [Attendance(id, guardId, shiftId, now, None)];
      nextId := nextId + 1;
    }

    /** `recordCheckOut`: the first attendance of this guard for this shift
        gets its check-out time, and the shift becomes completed. */
    method RecordCheckOut(guardId: nat, shiftId: nat, now: int)
      requires Valid()
      modifies this
      ensures Valid()
      ensures attendance == UpdateFirst(old(attendance), ForGuardShift(guardId, shiftId), CheckedOut(now))
      ensures shifts == UpdateFirst(old(shifts), HasShiftId(shiftId), WithStatus(Completed))
      ensures availability == old(availability) && replacements == old(replacements)
      ensures users == old(users) && nextId == old(nextId)
    {
      attendance := UpdateFirst(attendance, ForGuardShift(guardId, shiftId), CheckedOut(now));
      shifts := UpdateFirst(shifts, HasShiftId(shiftId), WithStatus(Completed));
    }

    /** `detectNoShows`: one pass over the shifts. The source first collects
        the candidates with `find` and then updates each by `_id`; with
        unique ids that is the same as updating each in place. */
    method DetectNoShows(now: int) returns (noShows: seq<NoShowEntry>)
      requires Valid()
      modifies this
      ensures Valid()
      ensures shifts == MarkNoShows(old(shifts), attendance, now)
      ensures noShows == NoShowsOf(old(shifts), attendance, now)
      ensures |noShows| == Count(old(shifts), NoShowTest(attendance, now))
      ensures attendance == old(attendance) && availability == old(availability)
      ensures replacements == old(replacements) && users == old(users) && nextId == old(nextId)
    {
      var s0, att0 := shifts, attendance;
      var updated := shifts;
      noShows := [];
      var i := 0;
      while i < |updated|
        invariant 0 <= i <= |updated| == |s0|
        invariant forall j :: 0 <= j < i ==> updated[j] == MarkIfNoShow(att0, now)(s0[j])
        invariant forall j :: i <= j < |s0| ==> updated[j] == s0[j]
        invariant noShows == NoShowsOf(s0[..i], att0, now)
        invariant unchanged(this)
      {
        var sh := updated[i];
        NoShowsOfAppend(s0, i, att0, now);
        var noShow := CheckShift(sh, att0, now);
        if noShow {
          updated := updated[i := sh.(status := NoShow, replacementRequired := true)];
          noShows := noShows + [EntryOf(sh)];
        }
        i := i + 1;
      }
      assert s0[..i] == s0;
      assert updated == MarkNoShows(s0, att0, now);
      NoShowsCount(s0, att0, now);
      shifts := updated;
    }

    /** `findReplacementGuards(noShowShift, maxResults)`: score every
        eligible, available guard, then sort best first and keep the top ones. */
    method FindReplacementGuards(ns: NoShowEntry, maxResults: nat) returns (result: seq<Candidate>)
      ensures result == Take(SortDesc(Scored(ns, users, availability, shifts, attendance), FinalScore), maxResults)
      ensures |result| <= maxResults && NonIncreasing(result, FinalScore)
      ensures forall c :: c in result ==> IsCandidateFor(c, ns, users, availability, shifts, attendance)
    {
      var test := CandidateTest(ns, availability);
      var score := ScoreWith(shifts, attendance);
      var scoredGuards: seq<Candidate> := [];
      var i := 0;
      while i < |users|
        invariant 0 <= i <= |users|
        invariant scoredGuards == Map(Filter(users[..i], test), score)
      {
        var g := users[i];
        assert users[..i + 1] == users[..i] + [g];
        FilterAppend(users[..i], g, test);
        MapAppend(Filter(users[..i], test), g, score);
        if Eligible(g, ns.guardId) {
          var av := FirstIndex(availability, (a: Availability) => a.guardId == g.id && a.date == ns.shiftStartTime && a.available);
          if av.Some? {
            scoredGuards := scoredGuards + [score(g)];
          } else {
            assert !AvailableAt(availability, g.id, ns.shiftStartTime);
          }
        }
        i := i + 1;
      }
      assert users[..i] == users;
      result := Take(SortDesc(scoredGuards, FinalScore), maxResults);
      TopCandidates(ns, users, availability, shifts, attendance, maxResults);
    }

    /** `sendReplacementRequest`: one pending request listing the candidates;
        it expires 30 minutes after `now`. */
    method SendReplacementRequest(ns: NoShowEntry, guards: seq<Candidate>, now: int) returns (id: nat)
      requires Valid()
      modifies this
      ensures Valid()
      ensures id == old(nextId)
      ensures replacements == old(replacements) + [PendingRequest(id, ns, guards, now)]
      ensures shifts == old(shifts) && attendance == old(attendance)
      ensures availability == old(availability) && users == old(users)
    {
      id := nextId;
      replacements := replacements + [PendingRequest(id, ns, guards, now)];
      nextId := nextId + 1;
    }

    /** `acceptReplacement`: the request is accepted by `guardId` and its
        shift is assigned to that guard. A missing request makes the second
        lookup `null`, so the call throws (`ok` is false) after a first
        update that matched nothing. */
    method AcceptReplacement(replacementId: nat, guardId: nat, now: int) returns (ok: bool)
      requires Valid()
      modifies this
      ensures Valid()
      ensures ok <==> FirstIndex(old(replacements), HasReplacementId(replacementId)).Some?
      ensures replacements == UpdateFirst(old(replacements), HasReplacementId(replacementId), Accept(guardId, now))
      ensures !ok ==> shifts == old(shifts)
      ensures ok ==>
        var shiftId := old(replacements)[FirstIndex(old(replacements), HasReplacementId(replacementId)).value].originalShiftId;
        shifts == UpdateFirst(old(shifts), HasShiftId(shiftId), AssignReplacement(guardId))
      ensures attendance == old(attendance) && availability == old(availability)
      ensures users == old(users) && nextId == old(nextId)
    {
      var before := FirstIndex(replacements, HasReplacementId(replacementId));
      replacements := UpdateFirst(replacements, HasReplacementId(replacementId), Accept(guardId, now));
      if before.Some? {
        FirstIndexIs(replacements, HasReplacementId(replacementId), before.value);
      }
      var found := FirstIndex(replacements, HasReplacementId(replacementId));
      if found.None? {
        return false;
      }
      var r := replacements[found.value];
      shifts := UpdateFirst(shifts, HasShiftId(r.originalShiftId), AssignReplacement(guardId));
      return true;
    }

    /** `setGuardAvailability`: the date is cut to local midnight
        (`setHours(0, 0, 0, 0)` in a zone `offset` ms ahead of UTC) and the
        record under `(guardId, midnight)` is upserted. */
    method SetGuardAvailability(guardId: nat, date: int, available: bool, offset: int, now: int)
      requires Valid()
      modifies this
      ensures Valid()
      ensures availability == Upsert(old(availability), Availability(guardId, Midnight(date, offset), available, now))
      ensures shifts == old(shifts) && attendance == old(attendance) && replacements == old(replacements)
      ensures users == old(users) && nextId == old(nextId)
    {
      var rec := Availability(guardId, Midnight(date, offset), available, now);
      UpsertProperties(availability, rec);
      availability := Upsert(availability, rec);
    }
  }
}
