/**
 Lifecycle: the transitions that end a scan report. Every transition is a method on the report and
 a function on its value; the properties of the transitions are lemmas about the functions.
 Cancellation and the deadline are two instants on a clock that the code can only look at.
 */
module Lifecycle {
  import opened Wrappers
  import Exposure
  import Findings

  datatype Status = NotStarted | Completed | Partial | Interrupted | Failed

  datatype Stage = Preflight | DnsStage | PortStage | ServiceStage | HttpStage | TlsStage | FindingStage

  datatype ErrorKind =
    Configuration | Resolution | Timeout | Network | HttpProtocol | TlsProtocol | Cancelled | Authorization | Other

  datatype ScanError = ScanError(stage: Stage, kind: ErrorKind, recoverable: bool)

  datatype Check =
    | Dns | DnssecValidation | AuthoritativeAxfr | WildcardDns | DanglingCname
    | Ports | Services | Http | Tls
    | IntelligenceCheck | SubdomainDns | Dkim | OfflineNetworks | OfflineCves
    | NetworkRegistration | BgpOrigin | CertificateTransparency | RelatedDomains

  datatype Moment =
    | BeforeDns | DuringDns | DuringDnssec | DuringAxfr | DuringWildcard | DuringDangling
    | BeforePorts | DuringPorts | BeforeServices | DuringServices | DuringSsh
    | BeforeHttp | DuringHttp | BeforeTls | DuringTls
    | BeforeFindings | DuringFindings | AfterFindings

  /** The texts of reports and of skipped checks, by what they say. */
  datatype Message =
    | HasNotStarted | Started | FamilyConflict | ExcludedByOnly | Stopped(kind: ErrorKind, moment: Moment)
    | Analyzed | NoAddresses | NoHostname | DnssecIndeterminate | NoRrset | NoEndpoints | NoZone
    | NoBaseline | WildcardIndeterminate | NoCname | DanglingIndeterminate | TlsNeedsHostname
    | IncompleteIntelligence | ScanInterrupted | DeadlineExpired | NoEligibleAddress | LookupFailures
    | CtNeedsHostname | NothingSupplied | NotConfigured | SourceFailed

  datatype Skip = Skip(check: Check, reason: Message)

  datatype Selection = Selection(ports: bool, services: bool, http: bool, tls: bool) {
    /** HTTP and TLS need services, services need ports. */
    predicate Closed() {
      (http || tls ==> services) && (services ==> ports)
    }
  }

  const EVERYTHING := Selection(true, true, true, true)

  datatype DnssecStatus = Secure | Insecure | Bogus | IndeterminateProof | NotApplicable

  datatype WildcardStatus = Detected | NotDetected | IndeterminateWildcard | WildcardNotApplicable

  datatype DanglingStatus = Resolved | NxDomain | NoAddress | IndeterminateDestination

  datatype TransferOutcome =
    Allowed | Refused | NotAuthoritative | Incomplete | LimitExceeded | Unreachable
    | TransferTimeout | TransferCancelled

  datatype DnsObservation = DnsObservation(
    addresses: set<nat>, aliases: nat, dnssec: Option<DnssecStatus>, transfers: Option<seq<TransferOutcome>>,
    wildcard: Option<WildcardStatus>, dangling: seq<DanglingStatus>)

  datatype Observed = Observed(
    dns: Option<DnsObservation>, hosts: seq<Findings.Host>, services: seq<Findings.Service>,
    http: seq<Findings.Http>, tls: seq<Findings.Tls>)

  datatype Intelligence = Intelligence(complete: bool, errors: seq<Skip>)

  datatype Report = Report(
    status: Status, message: Message, observed: Observed, errors: seq<ScanError>, skipped: seq<Skip>,
    findings: seq<Findings.Finding>, score: Option<Exposure.Score>,
    intelligence: Option<Intelligence>, finished: bool)

  // ----- Skipped checks -----

  function Names(skipped: seq<Skip>): set<Check> {
    set s | s in skipped :: s.check
  }

  ghost predicate Distinct(skipped: seq<Skip>) {
    forall i, j :: 0 <= i < j < |skipped| ==> skipped[i].check != skipped[j].check
  }

  function AddSkip(skipped: seq<Skip>, check: Check, reason: Message): seq<Skip> {
    if check in Names(skipped) then skipped else skipped + [Skip(check, reason)]
  }

  function AddSkips(skipped: seq<Skip>, checks: seq<Check>, reason: Message): seq<Skip> {
    if checks == [] then skipped
    else AddSkip(AddSkips(skipped, checks[..|checks| - 1], reason), checks[|checks| - 1], reason)
  }

  lemma NamesStep(skipped: seq<Skip>, s: Skip)
    ensures Names(skipped + [s]) == Names(skipped) + {s.check}
  {
    forall c ensures c in Names(skipped + [s]) <==> c in Names(skipped) + {s.check} {
      if c in Names(skipped) {
        var t :| t in skipped && t.check == c;
        assert t in skipped + [s];
      }
      assert s in skipped + [s];
    }
  }

  /** Adding a check keeps every entry, and only appends the check when it has none. */
  lemma AddSkipKeeps(skipped: seq<Skip>, check: Check, reason: Message)
    ensures skipped <= AddSkip(skipped, check, reason)
    ensures Names(AddSkip(skipped, check, reason)) == Names(skipped) + {check}
    ensures Distinct(skipped) ==> Distinct(AddSkip(skipped, check, reason))
    ensures forall s :: s in AddSkip(skipped, check, reason) ==>
            s in skipped || (s == Skip(check, reason) && check !in Names(skipped))
  {
    NamesStep(skipped, Skip(check, reason));
    if check !in Names(skipped) {
      forall i | 0 <= i < |skipped| ensures skipped[i].check != check {
        assert skipped[i] in skipped;
      }
    }
  }

  /** Adding checks keeps every first reason and leaves one entry per check. */
  lemma {:induction false} AddSkipsKeep(skipped: seq<Skip>, checks: seq<Check>, reason: Message)
    ensures skipped <= AddSkips(skipped, checks, reason)
    ensures Names(AddSkips(skipped, checks, reason)) == Names(skipped) + (set c | c in checks)
    ensures Distinct(skipped) ==> Distinct(AddSkips(skipped, checks, reason))
    ensures forall s :: s in AddSkips(skipped, checks, reason) ==>
      s in skipped || (s.reason == reason && s.check in checks && s.check !in Names(skipped))
  {
    hide Names, Distinct, AddSkip;
    if checks != [] {
      var front, last := checks[..|checks| - 1], checks[|checks| - 1];
      assert checks == front + [last];
      AddSkipsKeep(skipped, front, reason);
      AddSkipKeeps(AddSkips(skipped, front, reason), last, reason);
    }
  }

  // ----- The stage table -----

  datatype Row = Row(check: Check, stage: Stage, selected: bool)

  function StageRank(stage: Stage): nat {
    match stage
    case Preflight => 0 case DnsStage => 1 case PortStage => 2 case ServiceStage => 3
    case HttpStage => 4 case TlsStage => 5 case FindingStage => 6
  }

  function StageTable(selection: Selection): seq<Row> {
    [Row(Dns, DnsStage, true), Row(DnssecValidation, DnsStage, true), Row(AuthoritativeAxfr, DnsStage, true),
     Row(WildcardDns, DnsStage, true), Row(DanglingCname, DnsStage, true), Row(Ports, PortStage, selection.ports),
     Row(Services, ServiceStage, selection.services), Row(Http, HttpStage, selection.http),
     Row(Tls, TlsStage, selection.tls)]
  }

  function FromRank(table: seq<Row>, rank: nat): seq<Check> {
    if table == [] then []
    else
      var front, last := FromRank(table[..|table| - 1], rank), table[|table| - 1];
      if last.selected && StageRank(last.stage) >= rank then front + [last.check] else front
  }

  function Unfinished(stage: Stage, selection: Selection): seq<Check> {
    FromRank(StageTable(selection), StageRank(stage))
  }

  /** The stage a core check belongs to; the intelligence checks belong to none. */
  function StageOf(check: Check): Option<Stage> {
    match check
    case Dns | DnssecValidation | AuthoritativeAxfr | WildcardDns | DanglingCname => Some(DnsStage)
    case Ports => Some(PortStage) case Services => Some(ServiceStage)
    case Http => Some(HttpStage) case Tls => Some(TlsStage)
    case _ => None
  }

  predicate Selects(selection: Selection, check: Check) {
    match check
    case Ports => selection.ports case Services => selection.services
    case Http => selection.http case Tls => selection.tls
    case _ => true
  }

  /** The checks of a stage and of all later ones. */
  function ChecksFrom(stage: Stage): set<Check> {
    match stage
    case Preflight | DnsStage =>
      {Dns, DnssecValidation, AuthoritativeAxfr, WildcardDns, DanglingCname, Ports, Services, Http, Tls}
    case PortStage => {Ports, Services, Http, Tls}
    case ServiceStage => {Services, Http, Tls}
    case HttpStage => {Http, Tls}
    case TlsStage => {Tls}
    case FindingStage => {}
  }

  /** A stop at this stage leaves the check undone. */
  predicate LeftUndone(stage: Stage, selection: Selection, check: Check) {
    check in ChecksFrom(stage) && Selects(selection, check)
  }

  lemma ChecksFromRank(stage: Stage, check: Check)
    ensures check in ChecksFrom(stage) <==>
            StageOf(check).Some? && StageRank(StageOf(check).value) >= StageRank(stage)
  {
  }

  lemma {:induction false} InFromRank(table: seq<Row>, rank: nat, check: Check)
    ensures check in FromRank(table, rank) <==>
      exists row :: row in table && row.check == check && row.selected && StageRank(row.stage) >= rank
  {
    hide StageRank;
    if table != [] {
      var front, last := table[..|table| - 1], table[|table| - 1];
      assert table == front + [last];
      InFromRank(front, rank, check);
    }
  }

  lemma TableExactly(selection: Selection, row: Row)
    ensures row in StageTable(selection) <==>
      StageOf(row.check) == Some(row.stage) && (row.selected <==> Selects(selection, row.check))
  {
    var table := StageTable(selection);
    assert table[0].check == Dns && table[1].check == DnssecValidation && table[2].check == AuthoritativeAxfr;
    assert table[3].check == WildcardDns && table[4].check == DanglingCname && table[5].check == Ports;
    assert table[6].check == Services && table[7].check == Http && table[8].check == Tls;
  }

  lemma UnfinishedExactly(stage: Stage, selection: Selection, check: Check)
    ensures check in Unfinished(stage, selection) <==> LeftUndone(stage, selection, check)
  {
    ChecksFromRank(stage, check);
    hide FromRank, StageTable, StageRank, StageOf, Selects, ChecksFrom;
    InFromRank(StageTable(selection), StageRank(stage), check);
    forall row ensures row in StageTable(selection) <==>
        StageOf(row.check) == Some(row.stage) && (row.selected <==> Selects(selection, row.check)) {
      TableExactly(selection, row);
    }
    if LeftUndone(stage, selection, check) {
      assert Row(check, StageOf(check).value, true) in StageTable(selection);
    }
  }

  // ----- The transitions, on values -----

  function Blank(): Report {
    Report(NotStarted, HasNotStarted, Observed(None, [], [], [], []), [], [], [], None, None, false)
  }

  predicate HasObservations(o: Observed) {
    o.dns.Some? || o.hosts != [] || o.services != [] || o.http != [] || o.tls != []
  }

  predicate Indeterminate(dns: Option<DnsObservation>) {
    dns.Some? && (dns.value.dnssec == Some(IndeterminateProof) || dns.value.wildcard == Some(IndeterminateWildcard)
                  || IndeterminateDestination in dns.value.dangling)
  }

  function StatusAfter(kind: ErrorKind, observed: bool): Status {
    if kind == Configuration then Failed
    else if kind == Cancelled then Interrupted
    else if kind == Timeout && !observed then Failed
    else Partial
  }

  /** Nothing more to say: an interruption is recorded once, a failure outlives a timeout. */
  predicate AlreadyEnded(status: Status, kind: ErrorKind) {
    (status == Interrupted && kind == Cancelled) || (status == Failed && kind == Timeout)
  }

  function TerminateOf(v: Report, stage: Stage, selection: Selection, kind: ErrorKind, message: Message): Report {
    if AlreadyEnded(v.status, kind) then v
    else
      var status := StatusAfter(kind, HasObservations(v.observed));
      v.(status := status, message := message,
         errors := v.errors + [ScanError(stage, kind, status != Failed)],
         skipped := AddSkips(v.skipped, Unfinished(stage, selection), message))
  }

  function SettleOf(v: Report): Report {
    if v.status == Interrupted || v.status == Failed || v.status == Partial then v
    else
      v.(status := if v.errors == [] && !Indeterminate(v.observed.dns) then Completed else Partial,
         message := Analyzed)
  }

  predicate HasPreflightError(errors: seq<ScanError>) {
    exists e :: e in errors && e.stage == Preflight
  }

  function StopOf(v: Report, stop: Option<ErrorKind>, moment: Moment): Report {
    if stop.Some? then TerminateOf(v, FindingStage, EVERYTHING, stop.value, Stopped(stop.value, moment)) else v
  }

  /** The report when the findings are committed: stopped by the first look at the clock, or settled. */
  function Committed(v: Report, first: Option<ErrorKind>): Report {
    if first.Some? then StopOf(v, first, DuringFindings) else SettleOf(v)
  }

  function Scored(v: Report, findings: seq<Findings.Finding>): Report {
    v.(findings := findings,
       score := Some(Exposure.ScoreFor(findings, v.status != Completed || v.skipped != [])))
  }

  function FinalizeOf(v: Report, first: Option<ErrorKind>, second: Option<ErrorKind>,
                      findings: seq<Findings.Finding>): Report {
    if v.finished then v
    else if HasPreflightError(v.errors) then v.(finished := true)
    else StopOf(Scored(Committed(v, first), findings), second, AfterFindings).(finished := true)
  }

  // ----- The clock -----

  /** Cancellation and deadline as instants; every look at the clock lets time pass. */
  class Signals {
    const cancelAt: nat
    const expireAt: nat
    var now: nat

    constructor (cancelAt: nat, expireAt: nat)
      ensures this.cancelAt == cancelAt && this.expireAt == expireAt && now == 0
    {
      this.cancelAt, this.expireAt, now := cancelAt, expireAt, 0;
    }

    ghost predicate IsCancelled() reads this {
      now >= cancelAt
    }

    ghost predicate IsExpired() reads this {
      now >= expireAt
    }

    method Cancelled() returns (yes: bool)
      modifies this
      ensures now == old(now) + 1 && yes == IsCancelled()
    {
      now := now + 1;
      yes := now >= cancelAt;
    }

    method Expired() returns (yes: bool)
      modifies this
      ensures now == old(now) + 1 && yes == IsExpired()
    {
      now := now + 1;
      yes := now >= expireAt;
    }

    /** Looks at the cancellation first and at the deadline only when there is none. */
    method Stop() returns (stop: Option<ErrorKind>)
      modifies this
      ensures now >= old(now)
      ensures stop == None || stop == Some(ErrorKind.Cancelled) || stop == Some(Timeout)
      ensures stop == Some(ErrorKind.Cancelled) ==> IsCancelled()
      ensures stop == Some(Timeout) ==> IsExpired()
      ensures old(IsCancelled()) ==> stop == Some(ErrorKind.Cancelled)
      ensures old(IsExpired()) ==> stop.Some?
    {
      var cancelled := Cancelled();
      if cancelled { return Some(ErrorKind.Cancelled); }
      var expired := Expired();
      return if expired then Some(Timeout) else None;
    }
  }

  // ----- The tables, row by row -----

  function SelectionRows(selection: Selection): seq<(Check, bool)> {
    [(Ports, selection.ports), (Services, selection.services), (Http, selection.http), (Tls, selection.tls)]
  }

  function Unselected(rows: seq<(Check, bool)>): seq<Check> {
    if rows == [] then []
    else
      var front, last := Unselected(rows[..|rows| - 1]), rows[|rows| - 1];
      if last.1 then front else front + [last.0]
  }

  function Excluded(selection: Selection): seq<Check> {
    Unselected(SelectionRows(selection))
  }

  lemma OneSkipMore(skipped: seq<Skip>, checks: seq<Check>, check: Check, reason: Message)
    ensures AddSkips(skipped, checks + [check], reason) == AddSkip(AddSkips(skipped, checks, reason), check, reason)
  {
    assert (checks + [check])[..|checks|] == checks;
  }

  lemma NoRows(skipped: seq<Skip>)
    ensures AddSkips(skipped, Unselected([]), ExcludedByOnly) == skipped
  {
  }

  lemma OneRow(skipped: seq<Skip>, rows: seq<(Check, bool)>, row: (Check, bool))
    ensures AddSkips(skipped, Unselected(rows + [row]), ExcludedByOnly)
      == if row.1 then AddSkips(skipped, Unselected(rows), ExcludedByOnly)
         else AddSkip(AddSkips(skipped, Unselected(rows), ExcludedByOnly), row.0, ExcludedByOnly)
  {
    hide AddSkips, AddSkip;
    assert (rows + [row])[..|rows|] == rows;
    OneSkipMore(skipped, Unselected(rows), row.0, ExcludedByOnly);
  }

  lemma NoStages(skipped: seq<Skip>, rank: nat, reason: Message)
    ensures AddSkips(skipped, FromRank([], rank), reason) == skipped
  {
  }

  lemma OneStage(skipped: seq<Skip>, rows: seq<Row>, row: Row, rank: nat, reason: Message)
    ensures AddSkips(skipped, FromRank(rows + [row], rank), reason)
      == if row.selected && StageRank(row.stage) >= rank
         then AddSkip(AddSkips(skipped, FromRank(rows, rank), reason), row.check, reason)
         else AddSkips(skipped, FromRank(rows, rank), reason)
  {
    hide AddSkips, AddSkip, StageRank;
    assert (rows + [row])[..|rows|] == rows;
    OneSkipMore(skipped, FromRank(rows, rank), row.check, reason);
  }

  // ----- The report -----

  class ScanReport {
    var status: Status
    var message: Message
    var observed: Observed
    var errors: seq<ScanError>
    var skipped: seq<Skip>
    var findings: seq<Findings.Finding>
    var score: Option<Exposure.Score>
    var intelligence: Option<Intelligence>
    var finished: bool

    function View(): Report reads this {
      Report(status, message, observed, errors, skipped, findings, score, intelligence, finished)
    }

    constructor NotStarted()
      ensures View() == Blank()
    {
      status, message, observed := Status.NotStarted, HasNotStarted, Observed(None, [], [], [], []);
      errors, skipped, findings, score, intelligence, finished := [], [], [], None, None, false;
    }

    method AddSkippedCheck(check: Check, reason: Message)
      modifies this
      ensures View() == old(View()).(skipped := AddSkip(old(skipped), check, reason))
    {
      if forall s :: s in skipped ==> s.check != check {
        skipped := skipped + [Skip(check, reason)];
      }
    }

    method RecordSelectionSkips(selection: Selection)
      modifies this
      ensures View() == old(View()).(skipped := AddSkips(old(skipped), Excluded(selection), ExcludedByOnly))
    {
      hide AddSkip, AddSkips, Unselected;
      var rows := SelectionRows(selection);
      NoRows(skipped);
      for i := 0 to |rows|
        invariant View() == old(View()).(skipped := AddSkips(old(skipped), Unselected(rows[..i]), ExcludedByOnly))
      {
        OneRow(old(skipped), rows[..i], rows[i]);
        assert rows[..i + 1] == rows[..i] + [rows[i]];
        if !rows[i].1 {
          AddSkippedCheck(rows[i].0, ExcludedByOnly);
        }
      }
      assert rows[..|rows|] == rows;
    }

    method Terminate(stage: Stage, selection: Selection, kind: ErrorKind, message: Message)
      modifies this
      ensures View() == TerminateOf(old(View()), stage, selection, kind, message)
    {
      hide AddSkips, Unfinished, HasObservations, StatusAfter;
      if status == Interrupted && kind == Cancelled { return; }
      if status == Failed && kind == Timeout { return; }
      status := StatusAfter(kind, HasObservations(observed));
      this.message := message;
      errors := errors + [ScanError(stage, kind, status != Failed)];
      RecordUnfinishedChecks(stage, selection, message);
    }

    method RecordUnfinishedChecks(failedStage: Stage, selection: Selection, reason: Message)
      modifies this
      ensures View() == old(View()).(skipped := AddSkips(old(skipped), Unfinished(failedStage, selection), reason))
    {
      hide AddSkip, AddSkips, FromRank, StageTable, StageRank;
      var failedRank := StageRank(failedStage);
      var rows := StageTable(selection);
      NoStages(skipped, failedRank, reason);
      for i := 0 to |rows|
        invariant View() == old(View()).(skipped := AddSkips(old(skipped), FromRank(rows[..i], failedRank), reason))
      {
        OneStage(old(skipped), rows[..i], rows[i], failedRank, reason);
        assert rows[..i + 1] == rows[..i] + [rows[i]];
        if rows[i].selected && StageRank(rows[i].stage) >= failedRank {
          AddSkippedCheck(rows[i].check, reason);
        }
      }
      assert rows[..|rows|] == rows;
    }

    method Settle()
      modifies this
      ensures View() == SettleOf(old(View()))
    {
      if status == Interrupted || status == Failed || status == Partial { return; }
      var dnssec := observed.dns.Some? && observed.dns.value.dnssec == Some(IndeterminateProof);
      var wildcard := observed.dns.Some? && observed.dns.value.wildcard == Some(IndeterminateWildcard);
      var dangling := observed.dns.Some? && IndeterminateDestination in observed.dns.value.dangling;
      status := if errors == [] && !dnssec && !wildcard && !dangling then Completed else Partial;
      message := Analyzed;
    }

    /** Commits findings and score between two looks at the clock. */
    method Finalize(signals: Signals, rules: Observed -> seq<Findings.Finding>)
      returns (ghost first: Option<ErrorKind>, ghost second: Option<ErrorKind>)
      modifies this, signals
      ensures signals.now >= old(signals.now)
      ensures View() == FinalizeOf(old(View()), first, second, rules(old(observed)))
      ensures !old(finished) && !HasPreflightError(old(errors)) ==>
        Answers(first, second, old(signals.IsCancelled()), signals.IsCancelled(), old(signals.IsExpired()),
                signals.IsExpired())
    {
      hide AddSkips, Unfinished, HasObservations, StatusAfter, Exposure.ScoreFor;
      first, second := None, None;
      if finished { return; }
      if exists e :: e in errors && e.stage == Preflight {
        finished := true;
        return;
      }
      var early := signals.Stop();
      first := early;
      if early.Some? {
        Terminate(FindingStage, EVERYTHING, early.value, Stopped(early.value, DuringFindings));
      } else {
        Settle();
      }
      Commit(rules);
      var late := signals.Stop();
      second := late;
      if late.Some? {
        Terminate(FindingStage, EVERYTHING, late.value, Stopped(late.value, AfterFindings));
      }
      finished := true;
    }

    method Commit(rules: Observed -> seq<Findings.Finding>)
      modifies this
      ensures View() == Scored(old(View()), rules(old(observed)))
    {
      hide Exposure.ScoreFor;
      findings := rules(observed);
      var computed := Exposure.CalculateExposure(findings, status == Completed, skipped != []);
      score := Some(computed);
    }
  }

  /** What the two looks at the clock can have seen. */
  ghost predicate Answers(first: Option<ErrorKind>, second: Option<ErrorKind>, wasCancelled: bool, isCancelled: bool,
                          wasExpired: bool, isExpired: bool)
  {
    && first in {None, Some(Cancelled), Some(Timeout)} && second in {None, Some(Cancelled), Some(Timeout)}
    && (wasCancelled ==> first == Some(Cancelled))
    && (wasExpired ==> first.Some?)
    && (first == Some(Cancelled) ==> second == Some(Cancelled))
    && (first.Some? ==> second.Some?)
    && (second == Some(Cancelled) ==> isCancelled)
    && (first == Some(Timeout) || second == Some(Timeout) ==> isExpired)
  }

  // ----- Properties of the transitions -----

  function Count(errors: seq<ScanError>, kind: ErrorKind): nat {
    if errors == [] then 0
    else Count(errors[..|errors| - 1], kind) + if errors[|errors| - 1].kind == kind then 1 else 0
  }

  /** What holds of a report at any time after its first stop, and is never lost again. */
  ghost predicate Sound(v: Report, cancelled: bool) {
    && Distinct(v.skipped)
    && (v.status == Interrupted ==> cancelled)
    && Count(v.errors, Cancelled) <= 1
    && (Count(v.errors, Cancelled) == 1 ==> v.status == Interrupted)
    && (v.status == Completed ==> v.errors == [] && !Indeterminate(v.observed.dns))
    && (v.status == Failed ==> HasPreflightError(v.errors) || !HasObservations(v.observed))
    && (HasPreflightError(v.errors) ==> v.status == Failed)
  }

  /** The interruption has its own error. */
  predicate InterruptionRecorded(v: Report) {
    v.status == Interrupted ==> Count(v.errors, Cancelled) == 1
  }

  lemma CountStep(errors: seq<ScanError>, e: ScanError, kind: ErrorKind)
    ensures Count(errors + [e], kind) == Count(errors, kind) + if e.kind == kind then 1 else 0
  {
    assert (errors + [e])[..|errors|] == errors;
  }

  lemma PreflightStep(errors: seq<ScanError>, e: ScanError)
    ensures HasPreflightError(errors + [e]) <==> HasPreflightError(errors) || e.stage == Preflight
  {
    if HasPreflightError(errors) {
      var f :| f in errors && f.stage == Preflight;
      assert f in errors + [e];
    }
    assert e in errors + [e];
  }

  /**
   When a stop takes effect, every selected check of its stage or later has exactly one entry, earlier
   entries stay as they are, and what is new carries the reason of the stop.
   */
  lemma TerminateRecords(v: Report, stage: Stage, selection: Selection, kind: ErrorKind, message: Message)
    requires Distinct(v.skipped) && !AlreadyEnded(v.status, kind)
    ensures v.skipped <= TerminateOf(v, stage, selection, kind, message).skipped
    ensures Distinct(TerminateOf(v, stage, selection, kind, message).skipped)
    ensures forall s :: s in TerminateOf(v, stage, selection, kind, message).skipped <==>
      s in v.skipped || (s.reason == message && s.check !in Names(v.skipped) && LeftUndone(stage, selection, s.check))
  {
    hide AddSkips, Unfinished, LeftUndone, StatusAfter, Distinct;
    var checks := Unfinished(stage, selection);
    var after := AddSkips(v.skipped, checks, message);
    AddSkipsKeep(v.skipped, checks, message);
    forall c ensures c in checks <==> LeftUndone(stage, selection, c) {
      UnfinishedExactly(stage, selection, c);
    }
    forall s: Skip | s.reason == message && s.check !in Names(v.skipped) && s.check in checks ensures s in after {
      assert s.check in Names(after);
    }
  }

  /** A stop keeps the report sound if it can have been seen: an interrupted report only sees its cancellation. */
  lemma TerminateSound(v: Report, stage: Stage, selection: Selection, kind: ErrorKind, message: Message,
                       cancelled: bool)
    requires Sound(v, cancelled) && !HasPreflightError(v.errors)
    requires kind == Configuration <==> stage == Preflight
    requires kind == Cancelled ==> cancelled
    requires v.status == Interrupted ==> kind == Cancelled
    ensures Sound(TerminateOf(v, stage, selection, kind, message), cancelled)
    ensures InterruptionRecorded(v) ==> InterruptionRecorded(TerminateOf(v, stage, selection, kind, message))
  {
    hide AddSkips, Unfinished, Count, HasPreflightError, HasObservations, Distinct, Indeterminate;
    if !AlreadyEnded(v.status, kind) {
      TerminateRecords(v, stage, selection, kind, message);
      var after := TerminateOf(v, stage, selection, kind, message);
      var e := after.errors[|v.errors|];
      CountStep(v.errors, e, Cancelled);
      PreflightStep(v.errors, e);
    }
  }

  /** Why monotone cancellation matters: a timeout would turn an interrupted report into another status. */
  lemma OnlyCancellationKeepsInterruption(v: Report, stage: Stage, selection: Selection, kind: ErrorKind,
                                          message: Message)
    requires v.status == Interrupted
    ensures TerminateOf(v, stage, selection, kind, message).status == Interrupted <==> kind == Cancelled
    ensures kind == Cancelled ==> TerminateOf(v, stage, selection, kind, message) == v
  {
  }

  lemma NothingAfterFindings(selection: Selection)
    ensures Unfinished(FindingStage, selection) == []
  {
    var checks := Unfinished(FindingStage, selection);
    if checks != [] {
      UnfinishedExactly(FindingStage, selection, checks[0]);
    }
  }

  lemma StopKeeps(v: Report, stop: Option<ErrorKind>, moment: Moment)
    ensures StopOf(v, stop, moment).skipped == v.skipped
    ensures StopOf(v, stop, moment).observed == v.observed
    ensures StopOf(v, stop, moment).finished == v.finished
    ensures StopOf(v, stop, moment).intelligence == v.intelligence
  {
    hide Unfinished, StatusAfter;
    NothingAfterFindings(EVERYTHING);
  }

  lemma StopSound(v: Report, stop: Option<ErrorKind>, moment: Moment, cancelled: bool)
    requires Sound(v, cancelled) && !HasPreflightError(v.errors)
    requires stop in {None, Some(Cancelled), Some(Timeout)} && (stop == Some(Cancelled) ==> cancelled)
    requires v.status == Interrupted ==> stop != Some(Timeout)
    ensures Sound(StopOf(v, stop, moment), cancelled)
    ensures InterruptionRecorded(v) ==> InterruptionRecorded(StopOf(v, stop, moment))
    ensures v.status == Interrupted ==> StopOf(v, stop, moment).status == Interrupted
    ensures stop == Some(Cancelled) ==> StopOf(v, stop, moment).status == Interrupted
    ensures stop == Some(Timeout) ==> StopOf(v, stop, moment).status in {Partial, Failed}
    ensures stop.Some? ==> StopOf(v, stop, moment).status != Completed
    ensures !HasPreflightError(StopOf(v, stop, moment).errors)
  {
    hide Sound, InterruptionRecorded, HasPreflightError, AddSkips, Unfinished;
    if stop.Some? {
      TerminateSound(v, FindingStage, EVERYTHING, stop.value, Stopped(stop.value, moment), cancelled);
      PreflightStep(v.errors, ScanError(FindingStage, stop.value,
                                        StatusAfter(stop.value, HasObservations(v.observed)) != Failed));
    }
  }

  lemma StopNone(v: Report)
    ensures StopOf(v, None, AfterFindings) == v
  {
  }

  /**
   Finalizing an open report: it is finished and started, an interruption stays one, and the report
   is sound however the two looks at the clock turn out.
   */
  lemma FinalizeSound(v: Report, first: Option<ErrorKind>, second: Option<ErrorKind>, findings: seq<Findings.Finding>,
                      wasCancelled: bool, isCancelled: bool, wasExpired: bool, isExpired: bool)
    requires Sound(v, wasCancelled) && !v.finished && (wasCancelled ==> isCancelled)
    requires HasPreflightError(v.errors) || Answers(first, second, wasCancelled, isCancelled, wasExpired, isExpired)
    ensures Sound(FinalizeOf(v, first, second, findings), isCancelled)
    ensures InterruptionRecorded(v) ==> InterruptionRecorded(FinalizeOf(v, first, second, findings))
    ensures v.status == Interrupted ==> FinalizeOf(v, first, second, findings).status == Interrupted
    ensures wasCancelled && !HasPreflightError(v.errors) ==>
            FinalizeOf(v, first, second, findings).status == Interrupted
    ensures wasExpired && !HasPreflightError(v.errors) ==> FinalizeOf(v, first, second, findings).status != Completed
    ensures FinalizeOf(v, first, second, findings).status != NotStarted
    ensures FinalizeOf(v, first, second, findings).finished
    ensures FinalizeOf(v, first, second, findings).skipped == v.skipped
    ensures FinalizeOf(v, first, second, findings).observed == v.observed
    ensures FinalizeOf(v, first, second, findings).intelligence == v.intelligence
  {
    hide HasPreflightError, StopOf, Count, HasObservations, Indeterminate, Distinct, Exposure.ScoreFor;
    if !HasPreflightError(v.errors) {
      StopKeeps(v, first, DuringFindings);
      StopSound(v, first, DuringFindings, isCancelled);
      var committed := Committed(v, first);
      assert Sound(committed, isCancelled);
      var scored := Scored(committed, findings);
      assert Sound(scored, isCancelled);
      StopKeeps(scored, second, AfterFindings);
      StopSound(scored, second, AfterFindings, isCancelled);
      assert StopOf(scored, None, AfterFindings) == scored by { StopNone(scored); }
    }
  }

  /** A second finalization changes nothing, whatever the clock says. */
  lemma FinalizeIdempotent(v: Report, first: Option<ErrorKind>, second: Option<ErrorKind>,
                           findings: seq<Findings.Finding>,
                           third: Option<ErrorKind>, fourth: Option<ErrorKind>, again: seq<Findings.Finding>)
    ensures FinalizeOf(FinalizeOf(v, first, second, findings), third, fourth, again) ==
            FinalizeOf(v, first, second, findings)
  {
    hide StopOf, Scored, Committed, HasPreflightError;
  }

  /**
   The score is taken before the last look at the clock: it says incomplete exactly when the report
   had not settled as completed or had a skipped check, and a report that leaves finalization
   uncompleted with a score that calls itself complete was stopped by that last look.
   */
  lemma ScoreBeforeLastStop(v: Report, first: Option<ErrorKind>, second: Option<ErrorKind>,
                            findings: seq<Findings.Finding>)
    requires !v.finished && !HasPreflightError(v.errors)
    requires first.Some? ==> second.Some?
    requires first in {None, Some(Cancelled), Some(Timeout)} && second in {None, Some(Cancelled), Some(Timeout)}
    ensures FinalizeOf(v, first, second, findings).score.Some?
    ensures FinalizeOf(v, first, second, findings).score.value.incomplete <==>
      Committed(v, first).status != Completed || v.skipped != []
    ensures FinalizeOf(v, first, second, findings).status == Completed <==>
      Committed(v, first).status == Completed && second.None?
    ensures !FinalizeOf(v, first, second, findings).score.value.incomplete
            && FinalizeOf(v, first, second, findings).status != Completed
            <==> v.skipped == [] && first.None? && SettleOf(v).status == Completed && second.Some?
  {
    hide Unfinished, HasObservations, HasPreflightError, Indeterminate, Exposure.Classify, Exposure.Charges,
         Exposure.Points;
    NothingAfterFindings(EVERYTHING);
  }
}
