/** The HTTP routes over the MongoDB replacement system
    (`backend/routes/guard-replacement.routes.js`): required-field guards in
    front of each operation, and the no-show sweep that looks for
    replacement guards and files a request for every no-show that has any.
    A missing body field is `None` (or `""` for a string). */
module ReplacementRoutes {
  import opened Common
  import opened ReplacementMongo

  /** One element of `replacementRequests`. */
  datatype RequestMade = RequestMade(noShowShift: NoShowEntry, replacementId: nat, candidateGuards: seq<Candidate>)

  function NoShowOf(r: RequestMade): NoShowEntry {
    r.noShowShift
  }

  /** The candidates `findReplacementGuards(noShow)` yields, with its default
      of five results. */
  function CandidatesFor(ns: NoShowEntry, users: seq<GuardDoc>, availability: seq<Availability>,
                         shifts: seq<Shift>, attendance: seq<Attendance>): seq<Candidate> {
    Take(SortDesc(Scored(ns, users, availability, shifts, attendance), FinalScore), DEFAULT_MAX_RESULTS)
  }

  function HasCandidates(users: seq<GuardDoc>, availability: seq<Availability>,
                         shifts: seq<Shift>, attendance: seq<Attendance>): NoShowEntry -> bool {
    (ns: NoShowEntry) => CandidatesFor(ns, users, availability, shifts, attendance) != []
  }

  /** `POST /shifts`. */
  method CreateShiftRoute(s: System, guardId: Option<nat>, startTime: Option<int>, endTime: Option<int>,
                          clientSite: string, now: int)
    returns (status: int, msg: string, shiftId: Option<nat>)
    requires s.Valid()
    modifies s
    ensures s.Valid()
    ensures guardId.None? || startTime.None? || endTime.None? || clientSite == "" ==>
      status == 400 && msg == "All fields are required" && shiftId.None? && unchanged(s)
    ensures guardId.Some? && startTime.Some? && endTime.Some? && clientSite != "" ==>
      status == 201 && shiftId == Some(old(s.nextId))
      && s.shifts == old(s.shifts) + [Shift(old(s.nextId), guardId.value, startTime.value, endTime.value,
                                           clientSite, Scheduled, now, false, None)]
      && s.attendance == old(s.attendance) && s.availability == old(s.availability)
      && s.replacements == old(s.replacements) && s.users == old(s.users)
  {
    if guardId.None? || startTime.None? || endTime.None? || clientSite == "" {
      return 400, "All fields are required", None;
    }
    var id := s.CreateShift(guardId.value, startTime.value, endTime.value, clientSite, now);
    return 201, "Shift created successfully", Some(id);
  }

  /** `POST /attendance/check-in`. */
  method CheckInRoute(s: System, guardId: Option<nat>, shiftId: Option<nat>, now: int)
    returns (status: int, msg: string, attendanceId: Option<nat>)
    requires s.Valid()
    modifies s
    ensures s.Valid()
    ensures guardId.None? || shiftId.None? ==>
      status == 400 && msg == "Guard ID and Shift ID are required" && attendanceId.None? && unchanged(s)
    ensures guardId.Some? && shiftId.Some? ==>
      status == 201 && attendanceId == Some(old(s.nextId))
      && s.attendance == old(s.attendance) + [ReplacementMongo.Attendance(old(s.nextId), guardId.value, shiftId.value, now, None)]
      && s.shifts == UpdateFirst(old(s.shifts), HasShiftId(shiftId.value), WithStatus(InProgress))
      && s.availability == old(s.availability) && s.replacements == old(s.replacements) && s.users == old(s.users)
  {
    if guardId.None? || shiftId.None? {
      return 400, "Guard ID and Shift ID are required", None;
    }
    var id := s.RecordCheckIn(guardId.value, shiftId.value, now);
    return 201, "Check-in recorded successfully", Some(id);
  }

  /** `POST /attendance/check-out`. */
  method CheckOutRoute(s: System, guardId: Option<nat>, shiftId: Option<nat>, now: int)
    returns (status: int, msg: string)
    requires s.Valid()
    modifies s
    ensures s.Valid()
    ensures guardId.None? || shiftId.None? ==>
      status == 400 && msg == "Guard ID and Shift ID are required" && unchanged(s)
    ensures guardId.Some? && shiftId.Some? ==>
      status == 200
      && s.attendance == UpdateFirst(old(s.attendance), ForGuardShift(guardId.value, shiftId.value), CheckedOut(now))
      && s.shifts == UpdateFirst(old(s.shifts), HasShiftId(shiftId.value), WithStatus(Completed))
      && s.availability == old(s.availability) && s.replacements == old(s.replacements)
      && s.users == old(s.users) && s.nextId == old(s.nextId)
  {
    if guardId.None? || shiftId.None? {
      return 400, "Guard ID and Shift ID are required";
    }
    s.RecordCheckOut(guardId.value, shiftId.value, now);
    return 200, "Check-out recorded successfully";
  }

  /** `POST /guard-availability`: only an `undefined` availability is
      refused; `false` is a value like any other. */
  method AvailabilityRoute(s: System, guardId: Option<nat>, date: Option<int>, available: Option<bool>,
                           offset: int, now: int)
    returns (status: int, msg: string)
    requires s.Valid()
    modifies s
    ensures s.Valid()
    ensures guardId.None? || date.None? || available.None? ==>
      status == 400 && msg == "Guard ID, date, and availability status are required" && unchanged(s)
    ensures guardId.Some? && date.Some? && available.Some? ==>
      status == 200
      && s.availability == Upsert(old(s.availability),
                                  Availability(guardId.value, Midnight(date.value, offset), available.value, now))
      && s.shifts == old(s.shifts) && s.attendance == old(s.attendance)
      && s.replacements == old(s.replacements) && s.users == old(s.users)
  {
    if guardId.None? || date.None? || available.None? {
      return 400, "Guard ID, date, and availability status are required";
    }
    s.SetGuardAvailability(guardId.value, date.value, available.value, offset, now);
    return 200, "Availability updated successfully";
  }

  /** A request as the sweep files it, without the id it is stored under. */
  datatype Filing = Filing(noShow: NoShowEntry, candidates: seq<Candidate>)

  function FilingOf(r: RequestMade): Filing {
    Filing(r.noShowShift, r.candidateGuards)
  }

  function NoShowOfFiling(f: Filing): NoShowEntry {
    f.noShow
  }

  /** The requests the sweep over `noShows` files, in order: one for every
      no-show for which the search finds some guard, naming what it found. */
  function Filings(noShows: seq<NoShowEntry>, users: seq<GuardDoc>, availability: seq<Availability>,
                   shifts: seq<Shift>, attendance: seq<Attendance>): seq<Filing>
  {
    if noShows == [] then []
    else
      var last := noShows[|noShows| - 1];
      var found := CandidatesFor(last, users, availability, shifts, attendance);
      Filings(noShows[..|noShows| - 1], users, availability, shifts, attendance)
        + (if found != [] then [Filing(last, found)] else [])
  }

  /** A request is filed for a no-show if and only if it has candidates,
      in the order of the no-shows, and each names exactly those candidates. */
  lemma {:induction false} FilingsExactly(noShows: seq<NoShowEntry>, users: seq<GuardDoc>, availability: seq<Availability>,
                                          shifts: seq<Shift>, attendance: seq<Attendance>)
    ensures Map(Filings(noShows, users, availability, shifts, attendance), NoShowOfFiling)
      == Filter(noShows, HasCandidates(users, availability, shifts, attendance))
    ensures var f := Filings(noShows, users, availability, shifts, attendance);
      forall k :: 0 <= k < |f| ==>
        f[k].candidates != [] && f[k].candidates == CandidatesFor(f[k].noShow, users, availability, shifts, attendance)
  {
    if noShows != [] {
      var init, last := noShows[..|noShows| - 1], noShows[|noShows| - 1];
      assert noShows == init + [last];
      FilingsExactly(init, users, availability, shifts, attendance);
      FilterAppend(init, last, HasCandidates(users, availability, shifts, attendance));
      var found := CandidatesFor(last, users, availability, shifts, attendance);
      if found != [] {
        MapAppend(Filings(init, users, availability, shifts, attendance), Filing(last, found), NoShowOfFiling);
      }
    }
  }

  /** One more no-show extends the filings by what its search finds. */
  lemma FilingsStep(noShows: seq<NoShowEntry>, i: nat, requests: seq<RequestMade>, filed: seq<RequestMade>,
                    users: seq<GuardDoc>, availability: seq<Availability>,
                    shifts: seq<Shift>, attendance: seq<Attendance>)
    requires i < |noShows|
    requires Map(requests, FilingOf) == Filings(noShows[..i], users, availability, shifts, attendance)
    requires var found := CandidatesFor(noShows[i], users, availability, shifts, attendance);
      Map(filed, FilingOf) == (if found != [] then [Filing(noShows[i], found)] else [])
    ensures Map(requests + filed, FilingOf) == Filings(noShows[..i + 1], users, availability, shifts, attendance)
  {
    assert noShows[..i + 1][..i] == noShows[..i];
    MapConcat(requests, filed, FilingOf);
  }

  /** The document stored for a filed request. */
  function StoredAs(now: int): RequestMade -> Replacement {
    (r: RequestMade) => PendingRequest(r.replacementId, r.noShowShift, r.candidateGuards, now)
  }

  /** Storing the requests of one more turn extends the stored documents. */
  lemma StoredStep(before: seq<Replacement>, requests: seq<RequestMade>, filed: seq<RequestMade>, now: int)
    ensures before + Map(requests, StoredAs(now)) + Map(filed, StoredAs(now))
      == before + Map(requests + filed, StoredAs(now))
  {
    MapConcat(requests, filed, StoredAs(now));
  }

  /** One turn of the sweep: look for replacement guards for one no-show
      and file a request when some were found. */
  method FileOne(s: System, ns: NoShowEntry, now: int) returns (filed: seq<RequestMade>)
    requires s.Valid()
    modifies s
    ensures s.Valid()
    ensures var found := CandidatesFor(ns, s.users, s.availability, s.shifts, s.attendance);
      Map(filed, FilingOf) == (if found != [] then [Filing(ns, found)] else [])
    ensures s.replacements == old(s.replacements) + Map(filed, StoredAs(now))
    ensures s.shifts == old(s.shifts) && s.attendance == old(s.attendance)
    ensures s.availability == old(s.availability) && s.users == old(s.users)
  {
    var guards := s.FindReplacementGuards(ns, DEFAULT_MAX_RESULTS);
    filed := [];
    if |guards| > 0 {
      var id := s.SendReplacementRequest(ns, guards, now);
      filed := [RequestMade(ns, id, guards)];
    }
  }

  /** The loop of `GET /no-shows`: for each no-show in turn, look for
      replacement guards and file a request exactly when some were found. */
  method FileRequests(s: System, noShows: seq<NoShowEntry>, now: int) returns (requests: seq<RequestMade>)
    requires s.Valid()
    modifies s
    ensures s.Valid()
    ensures Map(requests, FilingOf) == Filings(noShows, s.users, s.availability, s.shifts, s.attendance)
    ensures s.replacements == old(s.replacements) + Map(requests, StoredAs(now))
    ensures s.shifts == old(s.shifts) && s.attendance == old(s.attendance)
    ensures s.availability == old(s.availability) && s.users == old(s.users)
  {
    ghost var users0, availability0, shifts0, attendance0 := s.users, s.availability, s.shifts, s.attendance;
    ghost var replacements0 := s.replacements;
    requests := [];
    var i := 0;
    while i < |noShows|
      invariant 0 <= i <= |noShows|
      invariant s.Valid()
      invariant s.shifts == shifts0 && s.attendance == attendance0
      invariant s.availability == availability0 && s.users == users0
      invariant Map(requests, FilingOf) == Filings(noShows[..i], users0, availability0, shifts0, attendance0)
      invariant s.replacements == replacements0 + Map(requests, StoredAs(now))
    {
      var ns := noShows[i];
      var filed := FileOne(s, ns, now);
      FilingsStep(noShows, i, requests, filed, users0, availability0, shifts0, attendance0);
      StoredStep(replacements0, requests, filed, now);
      requests := requests + filed;
      i := i + 1;
    }
    assert noShows[..i] == noShows;
  }

  /** What `FilingOf` keeps of each request is what the route reports. */
  lemma RequestsOfFilings(requests: seq<RequestMade>, f: seq<Filing>)
    requires Map(requests, FilingOf) == f
    ensures Map(requests, NoShowOf) == Map(f, NoShowOfFiling)
    ensures forall j :: 0 <= j < |requests| ==> requests[j].candidateGuards == f[j].candidates
  {
    assert forall j :: 0 <= j < |requests| ==> FilingOf(requests[j]) == f[j];
  }

  /** `GET /no-shows`: detect, then file the requests. */
  method NoShowsRoute(s: System, now: int)
    returns (status: int, msg: string, noShowsDetected: nat, requests: seq<RequestMade>)
    requires s.Valid()
    modifies s
    ensures s.Valid()
    ensures status == 200
    ensures noShowsDetected == |NoShowsOf(old(s.shifts), old(s.attendance), now)|
    ensures s.shifts == MarkNoShows(old(s.shifts), old(s.attendance), now)
    ensures noShowsDetected == 0 ==> msg == "No no-shows detected" && requests == []
    ensures Map(requests, NoShowOf) ==
      Filter(NoShowsOf(old(s.shifts), old(s.attendance), now),
             HasCandidates(s.users, s.availability, s.shifts, s.attendance))
    ensures forall j :: 0 <= j < |requests| ==>
      requests[j].candidateGuards != []
      && requests[j].candidateGuards == CandidatesFor(requests[j].noShowShift, s.users, s.availability, s.shifts, s.attendance)
    ensures |requests| <= noShowsDetected
    ensures s.replacements == old(s.replacements) + Map(requests, StoredAs(now))
    ensures s.attendance == old(s.attendance) && s.availability == old(s.availability) && s.users == old(s.users)
  {
    var noShows := s.DetectNoShows(now);
    noShowsDetected := |noShows|;
    if |noShows| == 0 {
      return 200, "No no-shows detected", 0, [];
    }
    requests := FileRequests(s, noShows, now);
    FilingsExactly(noShows, s.users, s.availability, s.shifts, s.attendance);
    RequestsOfFilings(requests, Filings(noShows, s.users, s.availability, s.shifts, s.attendance));
    assert |requests| == |Map(requests, NoShowOf)|;
    msg := "Processed " + NatToString(|noShows|) + " no-shows";
    status := 200;
  }

  /** `POST /replacements/:replacementId/accept`: a missing guard id is
      refused; a failure inside the system answers 500. */
  method AcceptRoute(s: System, replacementId: nat, guardId: Option<nat>, now: int)
    returns (status: int, msg: string)
    requires s.Valid()
    modifies s
    ensures s.Valid()
    ensures guardId.None? ==> status == 400 && msg == "Guard ID is required" && unchanged(s)
    ensures guardId.Some? ==>
      s.replacements == UpdateFirst(old(s.replacements), HasReplacementId(replacementId), Accept(guardId.value, now))
      && (status == 200 <==> FirstIndex(old(s.replacements), HasReplacementId(replacementId)).Some?)
      && status in {200, 500}
      && s.attendance == old(s.attendance) && s.availability == old(s.availability) && s.users == old(s.users)
    ensures guardId.Some? && status == 200 ==>
      var shiftId := old(s.replacements)[FirstIndex(old(s.replacements), HasReplacementId(replacementId)).value].originalShiftId;
      s.shifts == UpdateFirst(old(s.shifts), HasShiftId(shiftId), AssignReplacement(guardId.value))
    ensures guardId.Some? && status == 500 ==> s.shifts == old(s.shifts)
  {
    if guardId.None? {
      return 400, "Guard ID is required";
    }
    var ok := s.AcceptReplacement(replacementId, guardId.value, now);
    if !ok {
      return 500, "Cannot read properties of null (reading 'originalShiftId')";
    }
    return 200, "Replacement assignment accepted successfully";
  }

  /** `POST /replacements/:replacementId/decline`: answers and changes nothing. */
  method DeclineRoute(s: System, replacementId: nat) returns (status: int, msg: string)
    ensures status == 200 && msg == "Replacement assignment declined"
  {
    return 200, "Replacement assignment declined";
  }
}
