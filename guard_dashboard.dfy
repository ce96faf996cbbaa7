/** A guard's own dashboard (`src/components/GuardDashboard.jsx`): permit
    expiry classes over whole days, current versus returned allocations, the
    counters on the cards, and the renewal requests already made. Dates are
    ms since the epoch; `today` is the clock reading. */
module GuardDashboard {
  import opened Common

  datatype PermitStatus = Expired | ExpiringSoon | Caution | Active

  /** What `getPermitStatus` returns: `{ status, color, daysLeft }`. */
  datatype PermitInfo = PermitInfo(status: PermitStatus, color: string, daysLeft: int)

  /** `Math.ceil((expiry - today) / (1000 * 60 * 60 * 24))`. */
  function DaysUntilExpiry(expiry: int, today: int): int {
    CeilDiv(expiry - today, DAY_MS)
  }

  function GetPermitStatus(expiry: int, today: int): (r: PermitInfo)
    ensures var days := DaysUntilExpiry(expiry, today);
      (r.status == Expired <==> days < 0)
      && (r.status == ExpiringSoon <==> 0 <= days <= 30)
      && (r.status == Caution <==> 30 < days <= 90)
      && (r.status == Active <==> days > 90)
      && r.daysLeft == (if days < 0 then 0 else days)
    ensures r.daysLeft >= 0
  {
    var days := DaysUntilExpiry(expiry, today);
    if days < 0 then PermitInfo(Expired, "#d32f2f", 0)
    else if days <= 30 then PermitInfo(ExpiringSoon, "#f57c00", days)
    else if days <= 90 then PermitInfo(Caution, "#fbc02d", days)
    else PermitInfo(Active, "#388e3c", days)
  }

  /** How pressing a status is: expired is the most urgent. */
  function Urgency(s: PermitStatus): nat {
    match s
    case Expired => 3
    case ExpiringSoon => 2
    case Caution => 1
    case Active => 0
  }

  /** A later expiry never gets a more urgent status. */
  lemma PermitStatusMonotone(expiry1: int, expiry2: int, today: int)
    requires expiry1 <= expiry2
    ensures Urgency(GetPermitStatus(expiry2, today).status) <= Urgency(GetPermitStatus(expiry1, today).status)
  {
    CeilDivMonotone(expiry1 - today, expiry2 - today, DAY_MS);
  }

  /** A permit expiring at this very instant, or within the last day, still
      counts zero days and is expiring soon, not expired. */
  lemma PermitExpiringToday(today: int)
    ensures GetPermitStatus(today, today).status == ExpiringSoon
    ensures GetPermitStatus(today - DAY_MS + 1, today).status == ExpiringSoon
    ensures GetPermitStatus(today - DAY_MS, today).status == Expired
  {
    assert DaysUntilExpiry(today - DAY_MS + 1, today) == 0;
    assert DaysUntilExpiry(today - DAY_MS, today) == -1;
  }

  // ---------------------------------------------------------------------
  // Allocations and permits
  // ---------------------------------------------------------------------

  datatype Allocation = Allocation(id: nat, firearmSerialNumber: string, returnDate: Option<int>)

  datatype Permit = Permit(id: nat, firearmSerialNumber: string, expiryDate: int)

  /** `!a.returnDate || new Date(a.returnDate) > new Date()`. */
  function IsCurrent(now: int): Allocation -> bool {
    (a: Allocation) => a.returnDate.None? || a.returnDate.value > now
  }

  /** `a.returnDate && new Date(a.returnDate) <= new Date()`. */
  function IsReturned(now: int): Allocation -> bool {
    (a: Allocation) => a.returnDate.Some? && a.returnDate.value <= now
  }

  function ActiveAllocations(allocations: seq<Allocation>, now: int): seq<Allocation> {
    Filter(allocations, IsCurrent(now))
  }

  function ReturnedAllocations(allocations: seq<Allocation>, now: int): seq<Allocation> {
    Filter(allocations, IsReturned(now))
  }

  /** Every allocation is in exactly one of the two tabs. */
  lemma AllocationsPartition(allocations: seq<Allocation>, now: int, a: Allocation)
    ensures |ActiveAllocations(allocations, now)| + |ReturnedAllocations(allocations, now)| == |allocations|
    ensures a in allocations ==> (a in ActiveAllocations(allocations, now) <==> a !in ReturnedAllocations(allocations, now))
  {
    FilterPartition(allocations, IsCurrent(now), IsReturned(now));
    FilterMembers(allocations, IsCurrent(now), a);
    FilterMembers(allocations, IsReturned(now), a);
  }

  function HasStatus(s: PermitStatus, today: int): Permit -> bool {
    (p: Permit) => GetPermitStatus(p.expiryDate, today).status == s
  }

  function ExpiredCount(permits: seq<Permit>, today: int): nat {
    Count(permits, HasStatus(Expired, today))
  }

  function ExpiringCount(permits: seq<Permit>, today: int): nat {
    Count(permits, HasStatus(ExpiringSoon, today))
  }

  /** The two warning cards never count a permit twice. */
  lemma PermitCountersBounded(permits: seq<Permit>, today: int)
    ensures ExpiredCount(permits, today) + ExpiringCount(permits, today) <= |permits|
  {
    FilterDisjointCount(permits, HasStatus(Expired, today), HasStatus(ExpiringSoon, today));
  }

  /** The renewal button shows for an expired or expiring permit that has
      no request yet. */
  predicate RenewalOffered(requested: map<nat, bool>, p: Permit, today: int) {
    !(p.id in requested && requested[p.id])
    && GetPermitStatus(p.expiryDate, today).status in {Expired, ExpiringSoon}
  }

  class Dashboard {
    var allocations: seq<Allocation>
    var permits: seq<Permit>
    /** `renewalRequests`: permit id to "requested". */
    var renewalRequests: map<nat, bool>
    var renewalLoading: bool

    constructor ()
      ensures allocations == [] && permits == [] && renewalRequests == map[] && !renewalLoading
    {
      allocations, permits, renewalRequests, renewalLoading := [], [], map[], false;
    }

    /** `requestPermitRenewal` once its request has been answered: success
        flags this permit and no other. */
    method RenewalAnswered(permitId: nat, ok: bool)
      modifies this
      ensures !renewalLoading
      ensures ok ==> renewalRequests == old(renewalRequests)[permitId := true]
      ensures !ok ==> renewalRequests == old(renewalRequests)
      ensures allocations == old(allocations) && permits == old(permits)
    {
      if ok {
        renewalRequests := renewalRequests[permitId := true];
      }
      renewalLoading := false;
    }
  }

  /** After a successful request the button of that permit is gone, and every
      other permit's button is as it was. */
  lemma RenewalOfferedAfterRequest(requested: map<nat, bool>, id: nat, p: Permit, today: int)
    ensures !RenewalOffered(requested[id := true], p, today) || p.id != id
    ensures p.id != id ==> (RenewalOffered(requested[id := true], p, today) <==> RenewalOffered(requested, p, today))
  {
  }
}
