/** The maintenance ledger of the bike-share system (the usage-tracking
    contract): per-bicycle maintenance schedules, immutable maintenance
    records, issue reports, and a bounded history of record and issue ids
    per bicycle. */
module Maintenance {
  import opened Common

  type BicycleId = string
  type RecordId = string
  type IssueId = string

  /** Roughly 144 blocks are mined per day. */
  const BLOCKS_PER_DAY: nat := 144
  /** Each history list keeps only its newest 100 ids. */
  const MAX_HISTORY: nat := 100

  datatype Error =
    | NotAuthorized | BicycleExists | BicycleNotFound | RecordExists | RecordNotFound
    | IssueExists | IssueNotFound | InvalidStatus | InvalidSeverity
  {
    /** The numeric code the contract returns. */
    function Code(): (c: nat)
      ensures 100 <= c <= 108
    {
      match this
      case NotAuthorized => 100
      case BicycleExists => 101
      case BicycleNotFound => 102
      case RecordExists => 103
      case RecordNotFound => 104
      case IssueExists => 105
      case IssueNotFound => 106
      case InvalidStatus => 107
      case InvalidSeverity => 108
    }
  }

  lemma CodesDistinct(a: Error, b: Error)
    ensures a.Code() == b.Code() ==> a == b
  {
  }

  // ---------------------------------------------------------------------------
  // Closed sets of statuses and severities, parsed from the strings callers pass

  datatype ScheduleStatus = UpToDate | DueSoon | Overdue | InMaintenance
  datatype Severity = Low | Medium | High | Critical
  datatype IssueStatus = Reported | Verified | InRepair | Resolved | Invalid

  function ScheduleStatusName(s: ScheduleStatus): string {
    match s
    case UpToDate => "up-to-date"
    case DueSoon => "due-soon"
    case Overdue => "overdue"
    case InMaintenance => "in-maintenance"
  }

  /** Accepts exactly the four schedule status names. */
  function ParseScheduleStatus(name: string): (r: Option<ScheduleStatus>)
    ensures r.Some? <==> name in {"up-to-date", "due-soon", "overdue", "in-maintenance"}
    ensures r.Some? ==> ScheduleStatusName(r.value) == name
  {
    if name == "up-to-date" then Some(UpToDate)
    else if name == "due-soon" then Some(DueSoon)
    else if name == "overdue" then Some(Overdue)
    else if name == "in-maintenance" then Some(InMaintenance)
    else None
  }

  lemma ScheduleStatusRoundTrip(s: ScheduleStatus)
    ensures ParseScheduleStatus(ScheduleStatusName(s)) == Some(s)
  {
  }

  function SeverityName(s: Severity): string {
    match s
    case Low => "low"
    case Medium => "medium"
    case High => "high"
    case Critical => "critical"
  }

  /** Accepts exactly the four severity names. */
  function ParseSeverity(name: string): (r: Option<Severity>)
    ensures r.Some? <==> name in {"low", "medium", "high", "critical"}
    ensures r.Some? ==> SeverityName(r.value) == name
  {
    if name == "low" then Some(Low)
    else if name == "medium" then Some(Medium)
    else if name == "high" then Some(High)
    else if name == "critical" then Some(Critical)
    else None
  }

  lemma SeverityRoundTrip(s: Severity)
    ensures ParseSeverity(SeverityName(s)) == Some(s)
  {
  }

  function IssueStatusName(s: IssueStatus): string {
    match s
    case Reported => "reported"
    case Verified => "verified"
    case InRepair => "in-repair"
    case Resolved => "resolved"
    case Invalid => "invalid"
  }

  /** Accepts exactly the five issue status names. */
  function ParseIssueStatus(name: string): (r: Option<IssueStatus>)
    ensures r.Some? <==> name in {"reported", "verified", "in-repair", "resolved", "invalid"}
    ensures r.Some? ==> IssueStatusName(r.value) == name
  {
    if name == "reported" then Some(Reported)
    else if name == "verified" then Some(Verified)
    else if name == "in-repair" then Some(InRepair)
    else if name == "resolved" then Some(Resolved)
    else if name == "invalid" then Some(Invalid)
    else None
  }

  lemma IssueStatusRoundTrip(s: IssueStatus)
    ensures ParseIssueStatus(IssueStatusName(s)) == Some(s)
  {
  }

  // ---------------------------------------------------------------------------
  // Records

  datatype Schedule = Schedule(
    lastMaintenanceBlock: nat,
    nextMaintenanceDue: nat,
    intervalRides: nat,
    intervalDistance: nat,
    intervalDays: nat,
    lifetimeMaintenanceCount: nat,
    status: ScheduleStatus)

  /** Written once by RecordMaintenance and never changed afterwards. */
  datatype MaintenanceRecord = MaintenanceRecord(
    maintenanceType: string,
    performedBy: Principal,
    performedAt: nat,
    partsReplaced: string,
    maintenanceNotes: string,
    cost: nat,
    durationMinutes: nat,
    nextMaintenanceDue: nat)

  datatype Issue = Issue(
    bicycleId: BicycleId,
    reportedBy: Principal,
    reportedAt: nat,
    issueType: string,
    description: string,
    severity: Severity,
    status: IssueStatus,
    resolutionNotes: string,
    resolvedAt: nat,
    resolvedBy: Principal)

  /** Ids of a bicycle's maintenance records and issues, oldest first. */
  datatype History = History(maintenanceRecords: seq<RecordId>, issueRecords: seq<IssueId>)

  datatype Stats = Stats(lifetimeCount: nat, blocksSinceLast: int, blocksUntilNext: int)

  /** The block at which maintenance falls due `days` days after `now`. */
  function DueAfter(now: nat, days: nat): nat {
    now + days * BLOCKS_PER_DAY
  }

  // ---------------------------------------------------------------------------
  // Bounded FIFO history

  /** The newest `n` elements of `s` (all of `s` when it is shorter). */
  function Newest<T>(s: seq<T>, n: nat): seq<T> {
    if |s| <= n then s else s[|s| - n..]
  }

  /** Pushes `x` and, once the list would exceed MAX_HISTORY, shifts out the
      oldest entry. */
  function AppendBounded<T>(h: seq<T>, x: T): (r: seq<T>)
    ensures r != [] && r[|r| - 1] == x
    ensures forall y | y in r :: y in h || y == x
    ensures |h| < MAX_HISTORY ==> r == h + [x]
    ensures |h| <= MAX_HISTORY ==> |r| <= MAX_HISTORY && r == Newest(h + [x], MAX_HISTORY)
  {
    var grown := h + [x];
    if |grown| > MAX_HISTORY then grown[1..] else grown
  }

  /** Pushes every element of `xs`, in order. */
  function AppendAll<T>(h: seq<T>, xs: seq<T>): seq<T>
    decreases |xs|
  {
    if xs == [] then h else AppendAll(AppendBounded(h, xs[0]), xs[1..])
  }

  /** Taking the newest elements of a suffix that is at least as long as the
      answer gives the same answer. */
  lemma NewestOfSuffix<T>(y: seq<T>, j: nat, n: nat)
    requires j <= |y|
    requires |y| - j >= n || j == 0
    ensures Newest(y[j..], n) == Newest(y, n)
  {
    if j == 0 {
      assert y[j..] == y;
    } else {
      var x := y[j..];
      if |x| > n {
        assert x[|x| - n..] == y[|y| - n..];
      }
    }
  }

  lemma NewestTwice<T>(a: seq<T>, b: seq<T>, n: nat)
    ensures Newest(Newest(a, n) + b, n) == Newest(a + b, n)
  {
    if |a| > n {
      var j := |a| - n;
      assert Newest(a, n) + b == (a + b)[j..];
      NewestOfSuffix(a + b, j, n);
    } else {
      assert Newest(a, n) == a;
    }
  }

  /** However many ids are pushed, the history holds exactly the newest
      MAX_HISTORY of everything pushed: the oldest are evicted first. */
  lemma {:induction false} AppendAllKeepsNewest<T>(h: seq<T>, xs: seq<T>)
    requires |h| <= MAX_HISTORY
    ensures AppendAll(h, xs) == Newest(h + xs, MAX_HISTORY)
    ensures |AppendAll(h, xs)| <= MAX_HISTORY
    decreases |xs|
  {
    if xs == [] {
      assert h + xs == h;
    } else {
      var h' := AppendBounded(h, xs[0]);
      AppendAllKeepsNewest(h', xs[1..]);
      NewestTwice(h + [xs[0]], xs[1..], MAX_HISTORY);
      assert h + [xs[0]] + xs[1..] == h + xs;
    }
  }

  // ---------------------------------------------------------------------------
  // Usage thresholds

  /** Usage has reached a maintenance interval. */
  predicate Reached(used: nat, interval: nat) {
    used >= interval
  }

  /** Usage has reached 80% of a maintenance interval (`used >= 0.8 * interval`
      over the naturals). */
  predicate Nearing(used: nat, interval: nat) {
    5 * used >= 4 * interval
  }

  /** The status a schedule takes after a usage report of `rides` rides and
      `distance` distance. */
  function StatusAfterUsage(s: Schedule, rides: nat, distance: nat): (r: ScheduleStatus)
    ensures Reached(rides, s.intervalRides) || Reached(distance, s.intervalDistance) ==> r == Overdue
    ensures r == Overdue ==>
      Reached(rides, s.intervalRides) || Reached(distance, s.intervalDistance) || s.status == Overdue
    ensures r == DueSoon ==>
      Nearing(rides, s.intervalRides) || Nearing(distance, s.intervalDistance) || s.status == DueSoon
    ensures !Nearing(rides, s.intervalRides) && !Nearing(distance, s.intervalDistance) ==> r == s.status
    ensures r == UpToDate ==> s.status == UpToDate
    ensures r == InMaintenance ==> s.status == InMaintenance
    ensures (!Reached(rides, s.intervalRides) && !Reached(distance, s.intervalDistance) &&
             (Nearing(rides, s.intervalRides) || Nearing(distance, s.intervalDistance))) ==> r == DueSoon
  {
    if Reached(rides, s.intervalRides) || Reached(distance, s.intervalDistance) then Overdue
    else if Nearing(rides, s.intervalRides) || Nearing(distance, s.intervalDistance) then DueSoon
    else s.status
  }

  /** Urgency ranks the tiers a usage report can produce. */
  function Urgency(st: ScheduleStatus): nat {
    match st
    case UpToDate => 0
    case InMaintenance => 0
    case DueSoon => 1
    case Overdue => 2
  }

  /** Once usage is at 80% of an interval, more usage never lowers urgency. */
  lemma UsageMonotone(s: Schedule, rides: nat, distance: nat, rides': nat, distance': nat)
    requires Nearing(rides, s.intervalRides) || Nearing(distance, s.intervalDistance)
    requires rides <= rides' && distance <= distance'
    ensures StatusAfterUsage(s, rides, distance) in {DueSoon, Overdue}
    ensures Urgency(StatusAfterUsage(s, rides, distance)) <= Urgency(StatusAfterUsage(s, rides', distance'))
  {
  }

  /** The boundaries are inclusive: exactly the interval escalates to overdue,
      exactly 80% of it (and below the interval) to due-soon. */
  lemma UsageBoundaries(s: Schedule)
    ensures StatusAfterUsage(s, s.intervalRides, 0) == Overdue
    ensures StatusAfterUsage(s, 0, s.intervalDistance) == Overdue
    ensures s.intervalRides > 0 && s.intervalDistance > 0 && s.intervalRides % 5 == 0 ==>
      StatusAfterUsage(s, 4 * s.intervalRides / 5, 0) == DueSoon
    ensures s.intervalRides > 0 && s.intervalDistance > 0 && s.intervalDistance % 5 == 0 ==>
      StatusAfterUsage(s, 0, 4 * s.intervalDistance / 5) == DueSoon
  {
  }

  /** A usage report below the interval but at 80% of it turns an overdue
      schedule (for instance one forced overdue by a critical issue) into
      due-soon. */
  lemma UsageMayLowerOverdue(s: Schedule, rides: nat, distance: nat)
    requires s.status == Overdue
    requires !Reached(rides, s.intervalRides) && !Reached(distance, s.intervalDistance)
    requires Nearing(rides, s.intervalRides) || Nearing(distance, s.intervalDistance)
    ensures StatusAfterUsage(s, rides, distance) == DueSoon
  {
  }

  // ---------------------------------------------------------------------------
  // The ledger invariant

  /** Schedules and histories are created together and never deleted; every
      id in a history names a record or issue of that bicycle; histories stay
      within MAX_HISTORY. */
  ghost predicate Consistent(schedules: map<BicycleId, Schedule>,
                             records: map<(BicycleId, RecordId), MaintenanceRecord>,
                             issues: map<IssueId, Issue>, history: map<BicycleId, History>)
  {
    && schedules.Keys == history.Keys
    && (forall b | b in history ::
          |history[b].maintenanceRecords| <= MAX_HISTORY && |history[b].issueRecords| <= MAX_HISTORY)
    && (forall key | key in records :: key.0 in schedules)
    && (forall i | i in issues :: issues[i].bicycleId in schedules)
    && (forall b, id | b in history && id in history[b].maintenanceRecords :: (b, id) in records)
    && (forall b, i | b in history && i in history[b].issueRecords ::
          i in issues && issues[i].bicycleId == b)
  }

  /** Storing a new record of a scheduled bicycle and pushing its id keeps the
      ledger consistent. */
  lemma RecordKeepsConsistent(schedules: map<BicycleId, Schedule>,
                              records: map<(BicycleId, RecordId), MaintenanceRecord>,
                              issues: map<IssueId, Issue>, history: map<BicycleId, History>,
                              b: BicycleId, id: RecordId, rec: MaintenanceRecord, s: Schedule)
    requires Consistent(schedules, records, issues, history)
    requires b in schedules
    ensures Consistent(schedules[b := s], records[(b, id) := rec], issues,
                       history[b := history[b].(maintenanceRecords :=
                                  AppendBounded(history[b].maintenanceRecords, id))])
  {
  }

  /** Storing a new issue of a scheduled bicycle and pushing its id keeps the
      ledger consistent. */
  lemma IssueKeepsConsistent(schedules: map<BicycleId, Schedule>,
                             records: map<(BicycleId, RecordId), MaintenanceRecord>,
                             issues: map<IssueId, Issue>, history: map<BicycleId, History>,
                             b: BicycleId, id: IssueId, issue: Issue, schedules': map<BicycleId, Schedule>)
    requires Consistent(schedules, records, issues, history)
    requires b in schedules && id !in issues && issue.bicycleId == b
    requires schedules'.Keys == schedules.Keys
    ensures Consistent(schedules', records, issues[id := issue],
                       history[b := history[b].(issueRecords := AppendBounded(history[b].issueRecords, id))])
  {
  }

  // ---------------------------------------------------------------------------
  // The ledger

  class MaintenanceLedger {
    var contractOwner: Principal
    var schedules: map<BicycleId, Schedule>
    var records: map<(BicycleId, RecordId), MaintenanceRecord>
    var issues: map<IssueId, Issue>
    var history: map<BicycleId, History>

    /** Schedules and histories are created together and never deleted; every
        id in a history names a record or issue of that bicycle; histories stay
        within MAX_HISTORY. */
    ghost predicate Valid()
      reads this
    {
      Consistent(schedules, records, issues, history)
    }

    constructor (owner: Principal)
      ensures Valid()
      ensures contractOwner == owner
      ensures schedules == map[] && records == map[] && issues == map[] && history == map[]
    {
      contractOwner := owner;
      schedules, records, issues, history := map[], map[], map[], map[];
    }

    method SetContractOwner(caller: Principal, newOwner: Principal) returns (r: Outcome<Error>)
      requires Valid()
      modifies this
      ensures Valid()
      ensures r == (if caller == old(contractOwner) then Pass else Fail(NotAuthorized))
      ensures contractOwner == (if r.Pass? then newOwner else old(contractOwner))
      ensures schedules == old(schedules) && records == old(records)
      ensures issues == old(issues) && history == old(history)
    {
      if caller != contractOwner {
        return Fail(NotAuthorized);
      }
      contractOwner := newOwner;
      return Pass;
    }

    method InitializeMaintenanceSchedule(caller: Principal, now: nat, bicycleId: BicycleId,
                                         intervalRides: nat, intervalDistance: nat, intervalDays: nat)
      returns (r: Result<BicycleId, Error>)
      requires Valid()
      modifies this
      ensures Valid()
      ensures caller != old(contractOwner) ==> r == Err(NotAuthorized)
      ensures caller == old(contractOwner) && bicycleId in old(schedules) ==> r == Err(BicycleExists)
      ensures r.Ok? <==> caller == old(contractOwner) && bicycleId !in old(schedules)
      ensures r.Err? ==> unchanged(this)
      ensures r.Ok? ==>
        && r.value == bicycleId
        && schedules == old(schedules)[bicycleId := Schedule(now, DueAfter(now, intervalDays),
             intervalRides, intervalDistance, intervalDays, 0, UpToDate)]
        && history == old(history)[bicycleId := History([], [])]
        && records == old(records) && issues == old(issues) && contractOwner == old(contractOwner)
    {
      if caller != contractOwner {
        return Err(NotAuthorized);
      }
      if bicycleId in schedules {
        return Err(BicycleExists);
      }
      schedules := schedules[bicycleId := Schedule(now, DueAfter(now, intervalDays),
                                                   intervalRides, intervalDistance, intervalDays, 0, UpToDate)];
      history := history[bicycleId := History([], [])];
      return Ok(bicycleId);
    }

    method UpdateMaintenanceSchedule(caller: Principal, now: nat, bicycleId: BicycleId,
                                     intervalRides: nat, intervalDistance: nat, intervalDays: nat)
      returns (r: Outcome<Error>)
      requires Valid()
      modifies this
      ensures Valid()
      ensures caller != old(contractOwner) ==> r == Fail(NotAuthorized)
      ensures caller == old(contractOwner) && bicycleId !in old(schedules) ==> r == Fail(BicycleNotFound)
      ensures r.Pass? <==> caller == old(contractOwner) && bicycleId in old(schedules)
      ensures r.Fail? ==> unchanged(this)
      ensures r.Pass? ==>
        && schedules == old(schedules)[bicycleId := old(schedules)[bicycleId].(
             intervalRides := intervalRides, intervalDistance := intervalDistance,
             intervalDays := intervalDays, nextMaintenanceDue := DueAfter(now, intervalDays))]
        && history == old(history) && records == old(records) && issues == old(issues)
        && contractOwner == old(contractOwner)
    {
      if caller != contractOwner {
        return Fail(NotAuthorized);
      }
      if bicycleId !in schedules {
        return Fail(BicycleNotFound);
      }
      var s := schedules[bicycleId];
      schedules := schedules[bicycleId := s.(intervalRides := intervalRides,
                                             intervalDistance := intervalDistance,
                                             intervalDays := intervalDays,
                                             nextMaintenanceDue := DueAfter(now, intervalDays))];
      return Pass;
    }

    method UpdateMaintenanceStatus(caller: Principal, bicycleId: BicycleId, status: string)
      returns (r: Result<ScheduleStatus, Error>)
      requires Valid()
      modifies this
      ensures Valid()
      ensures caller != old(contractOwner) ==> r == Err(NotAuthorized)
      ensures caller == old(contractOwner) && bicycleId !in old(schedules) ==> r == Err(BicycleNotFound)
      ensures caller == old(contractOwner) && bicycleId in old(schedules) && ParseScheduleStatus(status).None? ==>
        r == Err(InvalidStatus)
      ensures r.Ok? <==>
        caller == old(contractOwner) && bicycleId in old(schedules) && ParseScheduleStatus(status).Some?
      ensures r.Err? ==> unchanged(this)
      ensures r.Ok? ==>
        && r.value == ParseScheduleStatus(status).value
        && schedules == old(schedules)[bicycleId := old(schedules)[bicycleId].(status := r.value)]
        && history == old(history) && records == old(records) && issues == old(issues)
        && contractOwner == old(contractOwner)
      ensures r.Ok? ==> (IsMaintenanceDue(bicycleId) <==> status in {"due-soon", "overdue"})
    {
      if caller != contractOwner {
        return Err(NotAuthorized);
      }
      if bicycleId !in schedules {
        return Err(BicycleNotFound);
      }
      var parsed := ParseScheduleStatus(status);
      if parsed.None? {
        return Err(InvalidStatus);
      }
      schedules := schedules[bicycleId := schedules[bicycleId].(status := parsed.value)];
      return Ok(parsed.value);
    }

    method RecordMaintenance(caller: Principal, now: nat, bicycleId: BicycleId, recordId: RecordId,
                             maintenanceType: string, partsReplaced: string, maintenanceNotes: string,
                             cost: nat, durationMinutes: nat)
      returns (r: Result<RecordId, Error>)
      requires Valid()
      modifies this
      ensures Valid()
      ensures caller != old(contractOwner) ==> r == Err(NotAuthorized)
      ensures caller == old(contractOwner) && bicycleId !in old(schedules) ==> r == Err(BicycleNotFound)
      ensures caller == old(contractOwner) && bicycleId in old(schedules) && (bicycleId, recordId) in old(records) ==>
        r == Err(RecordExists)
      ensures r.Ok? <==>
        caller == old(contractOwner) && bicycleId in old(schedules) && (bicycleId, recordId) !in old(records)
      ensures r.Err? ==> unchanged(this)
      ensures r.Ok? ==>
        var s := old(schedules)[bicycleId];
        var due := DueAfter(now, s.intervalDays);
        var h := old(history)[bicycleId];
        && r.value == recordId
        && records == old(records)[(bicycleId, recordId) := MaintenanceRecord(maintenanceType, caller, now,
             partsReplaced, maintenanceNotes, cost, durationMinutes, due)]
        && schedules == old(schedules)[bicycleId := s.(lastMaintenanceBlock := now, nextMaintenanceDue := due,
             lifetimeMaintenanceCount := s.lifetimeMaintenanceCount + 1, status := UpToDate)]
        && history == old(history)[bicycleId := h.(maintenanceRecords := AppendBounded(h.maintenanceRecords, recordId))]
        && issues == old(issues) && contractOwner == old(contractOwner)
      ensures r.Ok? ==> !IsMaintenanceDue(bicycleId)
    {
      if caller != contractOwner {
        return Err(NotAuthorized);
      }
      if bicycleId !in schedules {
        return Err(BicycleNotFound);
      }
      if (bicycleId, recordId) in records {
        return Err(RecordExists);
      }
      var s := schedules[bicycleId];
      var due := DueAfter(now, s.intervalDays);
      var rec := MaintenanceRecord(maintenanceType, caller, now, partsReplaced, maintenanceNotes, cost,
                                   durationMinutes, due);
      var s' := s.(lastMaintenanceBlock := now, nextMaintenanceDue := due,
                   lifetimeMaintenanceCount := s.lifetimeMaintenanceCount + 1, status := UpToDate);
      RecordKeepsConsistent(schedules, records, issues, history, bicycleId, recordId, rec, s');
      if bicycleId !in history {
        // Schedules and histories share their keys, so the contract's late
        // bicycle-not-found branch cannot be taken.
        assert false;
      }
      var h := history[bicycleId];
      Commit(schedules[bicycleId := s'], records[(bicycleId, recordId) := rec], issues,
             history[bicycleId := h.(maintenanceRecords := AppendBounded(h.maintenanceRecords, recordId))]);
      return Ok(recordId);
    }

    /** Anyone may report an issue. */
    method ReportIssue(caller: Principal, now: nat, bicycleId: BicycleId, issueId: IssueId,
                       issueType: string, description: string, severity: string)
      returns (r: Result<IssueId, Error>)
      requires Valid()
      modifies this
      ensures Valid()
      ensures bicycleId !in old(schedules) ==> r == Err(BicycleNotFound)
      ensures bicycleId in old(schedules) && issueId in old(issues) ==> r == Err(IssueExists)
      ensures bicycleId in old(schedules) && issueId !in old(issues) && ParseSeverity(severity).None? ==>
        r == Err(InvalidSeverity)
      ensures r.Ok? <==>
        bicycleId in old(schedules) && issueId !in old(issues) && ParseSeverity(severity).Some?
      ensures r.Err? ==> unchanged(this)
      ensures r.Ok? ==>
        var sev := ParseSeverity(severity).value;
        var s := old(schedules)[bicycleId];
        var h := old(history)[bicycleId];
        && r.value == issueId
        && issues == old(issues)[issueId := Issue(bicycleId, caller, now, issueType, description, sev,
             Reported, "", 0, caller)]
        && history == old(history)[bicycleId := h.(issueRecords := AppendBounded(h.issueRecords, issueId))]
        && schedules == (if sev == Critical then old(schedules)[bicycleId := s.(status := Overdue)]
                         else old(schedules))
        && records == old(records) && contractOwner == old(contractOwner)
      ensures r.Ok? ==> issueId in history[bicycleId].issueRecords && issues[issueId].status == Reported
      ensures r.Ok? && ParseSeverity(severity) == Some(Critical) ==>
        IsMaintenanceDue(bicycleId) && OpenCritical(issueId)
    {
      if bicycleId !in schedules {
        return Err(BicycleNotFound);
      }
      if issueId in issues {
        return Err(IssueExists);
      }
      var parsed := ParseSeverity(severity);
      if parsed.None? {
        return Err(InvalidSeverity);
      }
      var sev := parsed.value;
      var issue := Issue(bicycleId, caller, now, issueType, description, sev, Reported, "", 0, caller);
      var schedules' := if sev == Critical
                        then schedules[bicycleId := schedules[bicycleId].(status := Overdue)]
                        else schedules;
      IssueKeepsConsistent(schedules, records, issues, history, bicycleId, issueId, issue, schedules');
      if bicycleId !in history {
        // Schedules and histories share their keys, so the contract's late
        // bicycle-not-found branch cannot be taken.
        assert false;
      }
      var h := history[bicycleId];
      var pushed := AppendBounded(h.issueRecords, issueId);
      assert issueId in pushed by {
        assert pushed[|pushed| - 1] == issueId;
      }
      // A critical report forces the schedule overdue in the same step.
      Commit(schedules', records, issues[issueId := issue], history[bicycleId := h.(issueRecords := pushed)]);
      return Ok(issueId);
    }

    /** Replaces the four tables by ones already shown consistent. */
    method Commit(schedules': map<BicycleId, Schedule>, records': map<(BicycleId, RecordId), MaintenanceRecord>,
                  issues': map<IssueId, Issue>, history': map<BicycleId, History>)
      requires Consistent(schedules', records', issues', history')
      modifies this
      ensures Valid()
      ensures schedules == schedules' && records == records' && issues == issues' && history == history'
      ensures contractOwner == old(contractOwner)
    {
      schedules, records, issues, history := schedules', records', issues', history';
    }

    method UpdateIssueStatus(caller: Principal, issueId: IssueId, status: string)
      returns (r: Result<IssueStatus, Error>)
      requires Valid()
      modifies this
      ensures Valid()
      ensures caller != old(contractOwner) ==> r == Err(NotAuthorized)
      ensures caller == old(contractOwner) && issueId !in old(issues) ==> r == Err(IssueNotFound)
      ensures caller == old(contractOwner) && issueId in old(issues) && ParseIssueStatus(status).None? ==>
        r == Err(InvalidStatus)
      ensures r.Ok? <==> caller == old(contractOwner) && issueId in old(issues) && ParseIssueStatus(status).Some?
      ensures r.Err? ==> unchanged(this)
      ensures r.Ok? ==>
        && r.value == ParseIssueStatus(status).value
        && issues == old(issues)[issueId := old(issues)[issueId].(status := r.value)]
        && schedules == old(schedules) && history == old(history) && records == old(records)
        && contractOwner == old(contractOwner)
    {
      if caller != contractOwner {
        return Err(NotAuthorized);
      }
      if issueId !in issues {
        return Err(IssueNotFound);
      }
      var parsed := ParseIssueStatus(status);
      if parsed.None? {
        return Err(InvalidStatus);
      }
      issues := issues[issueId := issues[issueId].(status := parsed.value)];
      return Ok(parsed.value);
    }

    method ResolveIssue(caller: Principal, now: nat, issueId: IssueId, resolutionNotes: string)
      returns (r: Outcome<Error>)
      requires Valid()
      modifies this
      ensures Valid()
      ensures caller != old(contractOwner) ==> r == Fail(NotAuthorized)
      ensures caller == old(contractOwner) && issueId !in old(issues) ==> r == Fail(IssueNotFound)
      ensures r.Pass? <==> caller == old(contractOwner) && issueId in old(issues)
      ensures r.Fail? ==> unchanged(this)
      ensures r.Pass? ==>
        && issues == old(issues)[issueId := old(issues)[issueId].(status := Resolved,
             resolutionNotes := resolutionNotes, resolvedAt := now, resolvedBy := caller)]
        && schedules == old(schedules) && history == old(history) && records == old(records)
        && contractOwner == old(contractOwner)
      ensures r.Pass? ==> !OpenCritical(issueId)
    {
      if caller != contractOwner {
        return Fail(NotAuthorized);
      }
      if issueId !in issues {
        return Fail(IssueNotFound);
      }
      issues := issues[issueId := issues[issueId].(status := Resolved, resolutionNotes := resolutionNotes,
                                                   resolvedAt := now, resolvedBy := caller)];
      return Pass;
    }

    /** Fails with NotAuthorized (the contract reuses that code) while the
        schedule is not yet due. */
    method FlagOverdueMaintenance(caller: Principal, now: nat, bicycleId: BicycleId)
      returns (r: Outcome<Error>)
      requires Valid()
      modifies this
      ensures Valid()
      ensures caller != old(contractOwner) ==> r == Fail(NotAuthorized)
      ensures caller == old(contractOwner) && bicycleId !in old(schedules) ==> r == Fail(BicycleNotFound)
      ensures (caller == old(contractOwner) && bicycleId in old(schedules) &&
               now < old(schedules)[bicycleId].nextMaintenanceDue) ==> r == Fail(NotAuthorized)
      ensures r.Pass? <==>
        caller == old(contractOwner) && bicycleId in old(schedules) &&
        now >= old(schedules)[bicycleId].nextMaintenanceDue
      ensures r.Fail? ==> unchanged(this)
      ensures r.Pass? ==>
        && schedules == old(schedules)[bicycleId := old(schedules)[bicycleId].(status := Overdue)]
        && history == old(history) && records == old(records) && issues == old(issues)
        && contractOwner == old(contractOwner)
      ensures r.Pass? ==> IsMaintenanceDue(bicycleId)
    {
      if caller != contractOwner {
        return Fail(NotAuthorized);
      }
      if bicycleId !in schedules {
        return Fail(BicycleNotFound);
      }
      var s := schedules[bicycleId];
      if now < s.nextMaintenanceDue {
        return Fail(NotAuthorized);
      }
      schedules := schedules[bicycleId := s.(status := Overdue)];
      return Pass;
    }

    method UpdateMaintenanceDueToUsage(caller: Principal, bicycleId: BicycleId, ridesCompleted: nat,
                                       distanceTraveled: nat)
      returns (r: Outcome<Error>)
      requires Valid()
      modifies this
      ensures Valid()
      ensures caller != old(contractOwner) ==> r == Fail(NotAuthorized)
      ensures caller == old(contractOwner) && bicycleId !in old(schedules) ==> r == Fail(BicycleNotFound)
      ensures r.Pass? <==> caller == old(contractOwner) && bicycleId in old(schedules)
      ensures r.Fail? ==> unchanged(this)
      ensures r.Pass? ==>
        var s := old(schedules)[bicycleId];
        && schedules == old(schedules)[bicycleId := s.(status := StatusAfterUsage(s, ridesCompleted, distanceTraveled))]
        && history == old(history) && records == old(records) && issues == old(issues)
        && contractOwner == old(contractOwner)
      ensures r.Pass? && (Nearing(ridesCompleted, old(schedules)[bicycleId].intervalRides) ||
                          Nearing(distanceTraveled, old(schedules)[bicycleId].intervalDistance)) ==>
        IsMaintenanceDue(bicycleId)
    {
      if caller != contractOwner {
        return Fail(NotAuthorized);
      }
      if bicycleId !in schedules {
        return Fail(BicycleNotFound);
      }
      var s := schedules[bicycleId];
      schedules := schedules[bicycleId := s.(status := StatusAfterUsage(s, ridesCompleted, distanceTraveled))];
      return Pass;
    }

    // -------------------------------------------------------------------------
    // Read-only queries

    /** Found exactly when the bicycle's history is, since the two are created
        together. */
    function GetMaintenanceSchedule(bicycleId: BicycleId): (r: Option<Schedule>)
      requires Valid()
      reads this
      ensures r.Some? <==> bicycleId in history
    {
      if bicycleId in schedules then Some(schedules[bicycleId]) else None
    }

    /** A record exists only for a bicycle that has a schedule. */
    function GetMaintenanceRecord(bicycleId: BicycleId, recordId: RecordId): (r: Option<MaintenanceRecord>)
      requires Valid()
      reads this
      ensures r.Some? ==> bicycleId in schedules
    {
      if (bicycleId, recordId) in records then Some(records[(bicycleId, recordId)]) else None
    }

    /** An issue exists only for a bicycle that has a schedule. */
    function GetIssueDetails(issueId: IssueId): (r: Option<Issue>)
      requires Valid()
      reads this
      ensures r.Some? ==> r.value.bicycleId in schedules
    {
      if issueId in issues then Some(issues[issueId]) else None
    }

    /** At most MAX_HISTORY record ids, each naming a stored record of this
        bicycle; not found exactly when the bicycle has no schedule. */
    function GetBicycleMaintenanceHistory(bicycleId: BicycleId): (r: Result<seq<RecordId>, Error>)
      requires Valid()
      reads this
      ensures r.Err? <==> bicycleId !in schedules
      ensures r.Err? ==> r.error == BicycleNotFound
      ensures r.Ok? ==> |r.value| <= MAX_HISTORY
      ensures r.Ok? ==> forall k :: 0 <= k < |r.value| ==> (bicycleId, r.value[k]) in records
    {
      if bicycleId !in history then Err(BicycleNotFound) else Ok(history[bicycleId].maintenanceRecords)
    }

    /** At most MAX_HISTORY issue ids, each naming a stored issue of this
        bicycle; not found exactly when the bicycle has no schedule. */
    function GetBicycleIssueHistory(bicycleId: BicycleId): (r: Result<seq<IssueId>, Error>)
      requires Valid()
      reads this
      ensures r.Err? <==> bicycleId !in schedules
      ensures r.Err? ==> r.error == BicycleNotFound
      ensures r.Ok? ==> |r.value| <= MAX_HISTORY
      ensures r.Ok? ==> forall k :: 0 <= k < |r.value| ==>
                          r.value[k] in issues && issues[r.value[k]].bicycleId == bicycleId
    {
      if bicycleId !in history then Err(BicycleNotFound) else Ok(history[bicycleId].issueRecords)
    }

    /** Due when the schedule is in one of the two urgent tiers. */
    function IsMaintenanceDue(bicycleId: BicycleId): (r: bool)
      reads this
      ensures r <==> bicycleId in schedules && Urgency(schedules[bicycleId].status) > 0
    {
      bicycleId in schedules && schedules[bicycleId].status in {Overdue, DueSoon}
    }

    /** The blocks since the last maintenance and until the next one add up to
        the span of the current schedule, whatever the clock reads. */
    function GetMaintenanceStats(bicycleId: BicycleId, now: nat): (r: Result<Stats, Error>)
      reads this
      ensures r.Err? <==> bicycleId !in schedules
      ensures r.Err? ==> r.error == BicycleNotFound
      ensures r.Ok? ==>
        var s := schedules[bicycleId];
        && r.value.lifetimeCount == s.lifetimeMaintenanceCount
        && r.value.blocksSinceLast + r.value.blocksUntilNext == s.nextMaintenanceDue - s.lastMaintenanceBlock
        && (r.value.blocksUntilNext < 0 <==> now > s.nextMaintenanceDue)
    {
      if bicycleId !in schedules then Err(BicycleNotFound)
      else
        var s := schedules[bicycleId];
        Ok(Stats(s.lifetimeMaintenanceCount, now - s.lastMaintenanceBlock, s.nextMaintenanceDue - now))
    }

    /** A critical issue that is neither resolved nor invalid. */
    ghost predicate OpenCritical(issueId: IssueId)
      reads this
    {
      issueId in issues && issues[issueId].severity == Critical &&
      issues[issueId].status != Resolved && issues[issueId].status != Invalid
    }

    /** Scans the bicycle's issue history for an open critical issue. */
    method HasCriticalIssues(bicycleId: BicycleId) returns (r: bool)
      ensures r <==> bicycleId in history &&
                     exists k :: 0 <= k < |history[bicycleId].issueRecords| &&
                                 OpenCritical(history[bicycleId].issueRecords[k])
    {
      if bicycleId !in history {
        return false;
      }
      var ids := history[bicycleId].issueRecords;
      var k := 0;
      while k < |ids|
        invariant 0 <= k <= |ids|
        invariant forall j :: 0 <= j < k ==> !OpenCritical(ids[j])
      {
        var id := ids[k];
        if id in issues && issues[id].severity == Critical &&
           issues[id].status != Resolved && issues[id].status != Invalid {
          return true;
        }
        k := k + 1;
      }
      return false;
    }
  }
}
