/**
 Engine: the stages of a scan, in order, with an early return wherever a stop can be seen. What the
 network would answer is a World; how each wait ends is part of it. A run is then determined by the
 world, the selection and the cut, and the whole-run properties are proved of that form.
 */
module Engine {
  import opened Wrappers
  import opened Lifecycle
  import Exposure
  import Findings

  /** How a wait ends: with its result, at the deadline, or because of the cancellation. */
  datatype Ending = Done | RanOut | Abandoned

  datatype LookupError = LookupFailed | LookupTimedOut | RecordsTruncated

  datatype Baseline = Baseline(addresses: set<nat>, aliases: nat, errors: seq<LookupError>, authority: bool)

  datatype World = World(
    familyConflict: bool, hasHostname: bool, explicitIp: bool,
    baselineEnd: Ending, baseline: Option<Baseline>,
    dnssecEnd: Ending, dnssec: DnssecStatus,
    transferEnd: Ending, transfers: Option<seq<TransferOutcome>>,
    wildcardEnd: Ending, wildcard: WildcardStatus,
    danglingEnd: Ending, dangling: seq<DanglingStatus>,
    hosts: seq<Findings.Host>, services: seq<Findings.Service>,
    sshEnd: Ending, inspected: seq<Findings.Service>,
    http: seq<Findings.Http>, tls: seq<Findings.Tls>)
  {
    /** The target is a name, so that name-based checks apply. */
    predicate Named() {
      hasHostname && !explicitIp
    }

    predicate HasAuthority() {
      baseline.Some? && baseline.value.authority
    }
  }

  /** Where a run was stopped, and by what. */
  datatype Cut = Cut(kind: ErrorKind, moment: Moment)

  const MAX_ACTIVE_ENDPOINTS := 256

  // ----- What a stage adds -----

  function LookupErrorOf(e: LookupError): ScanError {
    ScanError(DnsStage, if e.LookupFailed? then Resolution else if e.LookupTimedOut? then Timeout else Other, true)
  }

  function LookupErrors(errors: seq<LookupError>): seq<ScanError> {
    seq(|errors|, i requires 0 <= i < |errors| => LookupErrorOf(errors[i]))
  }

  function TransferError(outcome: TransferOutcome): seq<ScanError> {
    match outcome
    case Incomplete | LimitExceeded => [ScanError(DnsStage, Resolution, true)]
    case Unreachable => [ScanError(DnsStage, Network, true)]
    case TransferTimeout => [ScanError(DnsStage, Timeout, true)]
    case _ => []
  }

  function TransferErrors(outcomes: seq<TransferOutcome>): seq<ScanError> {
    if outcomes == [] then []
    else TransferErrors(outcomes[..|outcomes| - 1]) + TransferError(outcomes[|outcomes| - 1])
  }

  /** The outcomes that count as errors, in their order. */
  function Faults(outcomes: seq<TransferOutcome>): seq<TransferOutcome> {
    if outcomes == [] then []
    else
      var before, last := Faults(outcomes[..|outcomes| - 1]), outcomes[|outcomes| - 1];
      if last.Incomplete? || last.LimitExceeded? || last.Unreachable? || last.TransferTimeout? then before + [last]
      else before
  }

  /** The outcomes that are no errors. */
  predicate Harmless(outcome: TransferOutcome) {
    outcome.Allowed? || outcome.Refused? || outcome.NotAuthoritative? || outcome.TransferCancelled?
  }

  /** The error that tells of a failed transfer. */
  predicate TellsTransfer(e: ScanError, outcome: TransferOutcome) {
    && e.stage == DnsStage && e.recoverable
    && (outcome == Unreachable ==> e.kind == Network)
    && (outcome == TransferTimeout ==> e.kind == Timeout)
    && (outcome in {Incomplete, LimitExceeded} ==> e.kind == Resolution)
  }

  /** One error per fault, in order, and no other. */
  ghost predicate TellTransfers(errors: seq<ScanError>, outcomes: seq<TransferOutcome>) {
    && |errors| == |Faults(outcomes)|
    && forall i :: 0 <= i < |errors| ==> TellsTransfer(errors[i], Faults(outcomes)[i])
  }

  lemma {:induction false} TransferErrorsTell(outcomes: seq<TransferOutcome>)
    ensures TellTransfers(TransferErrors(outcomes), outcomes)
  {
    if outcomes != [] {
      TransferErrorsTell(outcomes[..|outcomes| - 1]);
    }
  }

  /** Without a fault there is no error, and the other way round. */
  lemma {:induction false} FaultlessExactly(outcomes: seq<TransferOutcome>)
    ensures Faults(outcomes) == [] <==>
            forall o :: o in outcomes ==> Harmless(o)
  {
    if outcomes != [] {
      var front, last := outcomes[..|outcomes| - 1], outcomes[|outcomes| - 1];
      FaultlessExactly(front);
      assert outcomes == front + [last];
      assert last in outcomes && forall o :: o in outcomes <==> o in front || o == last;
    }
  }

  /** The error that tells of a failed lookup. */
  predicate TellsLookup(e: ScanError, lookup: LookupError) {
    && e.stage == DnsStage && e.recoverable
    && (lookup == LookupFailed ==> e.kind == Resolution)
    && (lookup == LookupTimedOut ==> e.kind == Timeout)
    && (lookup == RecordsTruncated ==> e.kind == Other)
  }

  /** The places of the open ports. */
  ghost function OpenPlaces(hosts: seq<Findings.Host>): set<(int, int)> {
    set i, j | 0 <= i < |hosts| && 0 <= j < |hosts[i].ports| && hosts[i].ports[j].open :: (i, j)
  }

  lemma {:induction false} OpenPortsExactly(ports: seq<Findings.Port>, i: int)
    ensures OpenPorts(ports) == |set j | 0 <= j < |ports| && ports[j].open :: (i, j)|
  {
    var places := set j | 0 <= j < |ports| && ports[j].open :: (i, j);
    if ports == [] {
      assert places == {};
    } else {
      var n := |ports| - 1;
      OpenPortsExactly(ports[..n], i);
      var before := set j | 0 <= j < n && ports[..n][j].open :: (i, j);
      assert places == before + if ports[n].open then {(i, n)} else {};
    }
  }

  /** The count of endpoints is the number of open ports of all hosts. */
  lemma {:induction false} OpenEndpointsExactly(hosts: seq<Findings.Host>)
    ensures OpenEndpoints(hosts) == |OpenPlaces(hosts)|
  {
    if hosts == [] {
      assert OpenPlaces(hosts) == {};
    } else {
      var n := |hosts| - 1;
      OpenEndpointsExactly(hosts[..n]);
      OpenPortsExactly(hosts[n].ports, n);
      var last := set j | 0 <= j < |hosts[n].ports| && hosts[n].ports[j].open :: (n, j);
      assert OpenPlaces(hosts) == OpenPlaces(hosts[..n]) + last;
      assert OpenPlaces(hosts[..n]) !! last;
    }
  }

  function OpenEndpoints(hosts: seq<Findings.Host>): nat {
    if hosts == [] then 0
    else OpenEndpoints(hosts[..|hosts| - 1]) + OpenPorts(hosts[|hosts| - 1].ports)
  }

  function OpenPorts(ports: seq<Findings.Port>): nat {
    if ports == [] then 0
    else OpenPorts(ports[..|ports| - 1]) + if ports[|ports| - 1].open then 1 else 0
  }

  function BaselineErrors(w: World): seq<ScanError> {
    if w.baseline.Some? then LookupErrors(w.baseline.value.errors) else [ScanError(DnsStage, Resolution, true)]
  }

  function ServiceErrors(w: World): seq<ScanError> {
    if OpenEndpoints(w.hosts) > MAX_ACTIVE_ENDPOINTS then [ScanError(ServiceStage, Other, true)] else []
  }

  function BaselineDns(w: World): Option<DnsObservation> {
    if w.baseline.Some?
    then Some(DnsObservation(w.baseline.value.addresses, w.baseline.value.aliases, None, None, None, []))
    else None
  }

  function WithDnssec(v: Report, status: DnssecStatus): Report {
    if v.observed.dns.None? then v
    else v.(observed := v.observed.(dns := Some(v.observed.dns.value.(dnssec := Some(status)))))
  }

  function WithTransfers(v: Report, transfers: Option<seq<TransferOutcome>>): Report {
    if v.observed.dns.None? || transfers.None? then v
    else v.(observed := v.observed.(dns := Some(v.observed.dns.value.(transfers := transfers))))
  }

  function WithWildcard(v: Report, status: WildcardStatus): Report {
    if v.observed.dns.None? then v
    else v.(observed := v.observed.(dns := Some(v.observed.dns.value.(wildcard := Some(status)))))
  }

  function WithDangling(v: Report, dangling: seq<DanglingStatus>): Report {
    if v.observed.dns.None? then v
    else v.(observed := v.observed.(dns := Some(v.observed.dns.value.(dangling := dangling))))
  }

  function WithSkip(v: Report, check: Check, reason: Option<Message>): Report {
    if reason.None? then v else v.(skipped := AddSkip(v.skipped, check, reason.value))
  }

  /** Why a check is skipped in a run that is not stopped, if it is. */
  function DnssecSkip(w: World): Option<Message> {
    if !w.Named() then Some(NoHostname)
    else if w.dnssec == IndeterminateProof then Some(DnssecIndeterminate)
    else if w.dnssec == NotApplicable then Some(NoRrset)
    else None
  }

  function TransferSkip(w: World): Option<Message> {
    if !w.Named() then Some(NoHostname)
    else if !w.HasAuthority() then Some(NoZone)
    else if w.transfers.None? then Some(NoEndpoints)
    else None
  }

  function WildcardSkip(w: World): Option<Message> {
    if !w.Named() then Some(NoHostname)
    else if w.baseline.None? then Some(NoBaseline)
    else if w.wildcard == IndeterminateWildcard then Some(WildcardIndeterminate)
    else None
  }

  function DanglingSkip(w: World): Option<Message> {
    if !w.Named() then Some(NoHostname)
    else if w.baseline.None? || w.baseline.value.aliases == 0 then Some(NoCname)
    else if IndeterminateDestination in w.dangling then Some(DanglingIndeterminate)
    else None
  }

  function TlsSkip(w: World, selection: Selection): Option<Message> {
    if selection.tls && !w.Named() then Some(TlsNeedsHostname) else None
  }

  // ----- The report at each point of a run -----

  function Created(selection: Selection): Report {
    Blank().(skipped := AddSkips([], Excluded(selection), ExcludedByOnly))
  }

  function Begun(selection: Selection): Report {
    Created(selection).(message := Started)
  }

  function AfterBaseline(w: World, selection: Selection): Report {
    var v := Begun(selection);
    v.(errors := BaselineErrors(w), observed := v.observed.(dns := BaselineDns(w)))
  }

  function AfterDnssec(w: World, selection: Selection): Report {
    var v := WithSkip(AfterBaseline(w, selection), DnssecValidation, DnssecSkip(w));
    if w.Named() then WithDnssec(v, w.dnssec) else v
  }

  function AfterTransfers(w: World, selection: Selection): Report {
    var v := AfterDnssec(w, selection);
    var checked := w.Named() && w.HasAuthority();
    var found := if checked && w.transfers.Some? then v.(errors := v.errors + TransferErrors(w.transfers.value)) else v;
    WithSkip(if checked then WithTransfers(found, w.transfers) else found, AuthoritativeAxfr, TransferSkip(w))
  }

  function AfterWildcard(w: World, selection: Selection): Report {
    var v := AfterTransfers(w, selection);
    WithSkip(if w.Named() then WithWildcard(v, w.wildcard) else v, WildcardDns, WildcardSkip(w))
  }

  predicate HasAliases(w: World) {
    w.baseline.Some? && w.baseline.value.aliases > 0
  }

  function AfterDangling(w: World, selection: Selection): Report {
    var v := AfterWildcard(w, selection);
    WithSkip(if w.Named() && HasAliases(w) then WithDangling(v, w.dangling) else v, DanglingCname, DanglingSkip(w))
  }

  predicate NoAddressFound(w: World) {
    w.baseline.None? || w.baseline.value.addresses == {}
  }

  function AfterPorts(w: World, selection: Selection): Report {
    var v := AfterDangling(w, selection);
    v.(observed := v.observed.(hosts := w.hosts))
  }

  function AfterServices(w: World, selection: Selection): Report {
    var v := AfterPorts(w, selection);
    v.(errors := v.errors + ServiceErrors(w), observed := v.observed.(services := w.services))
  }

  function AfterSsh(w: World, selection: Selection): Report {
    var v := AfterServices(w, selection);
    v.(observed := v.observed.(services := w.inspected))
  }

  function AfterHttp(w: World, selection: Selection): Report {
    var v := AfterSsh(w, selection);
    if selection.http then v.(observed := v.observed.(http := w.http)) else v
  }

  function AfterTls(w: World, selection: Selection): Report {
    var v := AfterHttp(w, selection);
    if selection.tls && w.Named() then v.(observed := v.observed.(tls := w.tls)) else v
  }

  /** All selected stages done, before the last look at the cancellation. */
  function Unsettled(w: World, selection: Selection): Report {
    if NoAddressFound(w) then AfterDangling(w, selection).(status := Partial, message := NoAddresses)
    else if !selection.ports then AfterDangling(w, selection)
    else if !selection.services then AfterPorts(w, selection)
    else WithSkip(AfterTls(w, selection), Tls, TlsSkip(w, selection))
  }

  /** What has been collected when a cut takes effect. */
  function Collected(w: World, selection: Selection, moment: Moment): Report {
    match moment
    case BeforeDns | DuringDns => Begun(selection)
    case DuringDnssec => WithDnssec(AfterBaseline(w, selection), IndeterminateProof)
    case DuringAxfr => WithTransfers(AfterDnssec(w, selection), w.transfers)
    case DuringWildcard => WithWildcard(AfterTransfers(w, selection), w.wildcard)
    case DuringDangling => WithDangling(AfterWildcard(w, selection), w.dangling)
    case BeforePorts => AfterDangling(w, selection)
    case DuringPorts | BeforeServices => AfterPorts(w, selection)
    case DuringServices => AfterServices(w, selection)
    case DuringSsh => AfterSsh(w, selection)
    case BeforeHttp => AfterSsh(w, selection)
    case DuringHttp => AfterHttp(w, selection)
    case BeforeTls => AfterHttp(w, selection)
    case DuringTls => AfterTls(w, selection)
    case BeforeFindings | DuringFindings | AfterFindings => Unsettled(w, selection)
  }

  /** The stage a cut is booked on. */
  function StageAt(w: World, moment: Moment): Stage {
    match moment
    case BeforeDns | DuringDns | DuringDnssec | DuringAxfr | DuringWildcard | DuringDangling => DnsStage
    case BeforePorts | DuringPorts => PortStage
    case BeforeServices | DuringServices | DuringSsh => ServiceStage
    case BeforeHttp | DuringHttp => HttpStage
    case BeforeTls | DuringTls => TlsStage
    case BeforeFindings | DuringFindings | AfterFindings => if NoAddressFound(w) then PortStage else FindingStage
  }

  function CutReport(w: World, selection: Selection, cut: Cut): Report {
    TerminateOf(Collected(w, selection, cut.moment), StageAt(w, cut.moment), selection, cut.kind,
                Stopped(cut.kind, cut.moment))
  }

  /** The report of the stages, before finalization. */
  function Outcome(w: World, selection: Selection, cut: Option<Cut>): Report {
    if w.familyConflict then TerminateOf(Created(selection), Preflight, selection, Configuration, FamilyConflict)
    else if cut.Some? then CutReport(w, selection, cut.value)
    else SettleOf(Unsettled(w, selection))
  }

  /** A run can come to this moment: its stage is selected and there is something for it to do. */
  predicate Reached(w: World, selection: Selection, moment: Moment) {
    match moment
    case BeforeDns | DuringDns => true
    case DuringDnssec => w.Named()
    case DuringAxfr => w.Named() && w.HasAuthority()
    case DuringWildcard => w.Named() && w.baseline.Some?
    case DuringDangling => w.Named() && HasAliases(w)
    case BeforePorts | DuringPorts => !NoAddressFound(w) && selection.ports
    case BeforeServices | DuringServices | DuringSsh => !NoAddressFound(w) && selection.ports && selection.services
    case BeforeHttp | DuringHttp =>
      !NoAddressFound(w) && selection.ports && selection.services && selection.http
    case BeforeTls | DuringTls =>
      !NoAddressFound(w) && selection.ports && selection.services && selection.tls && w.Named()
    case BeforeFindings => true
    case DuringFindings | AfterFindings => false
  }

  /** A cut is a cancellation or a deadline that has really passed. */
  ghost predicate Grounded(cut: Option<Cut>, signals: Signals) reads signals {
    cut.Some? ==>
      || (cut.value.kind == Cancelled && signals.IsCancelled())
      || (cut.value.kind == Timeout && signals.IsExpired())
  }

  // ----- The stages -----

  /** A wait that watches the cancellation first, or one that reports its own ending. */
  method Await(signals: Signals, wish: Ending, watches: bool) returns (ending: Ending)
    modifies signals
    ensures signals.now >= old(signals.now)
    ensures ending == Abandoned ==> signals.IsCancelled()
    ensures ending == RanOut ==> signals.IsExpired()
    ensures ending == wish || (watches && ending == Abandoned)
    ensures watches && old(signals.IsCancelled()) ==> ending == Abandoned
  {
    var cancelled := signals.Cancelled();
    if watches && cancelled { return Abandoned; }
    ending := wish;
    var target :=
      if wish == Abandoned then signals.cancelAt else if wish == RanOut then signals.expireAt else signals.now;
    if signals.now < target {
      signals.now := target;
    }
  }

  function CutAt(ending: Ending, moment: Moment): Option<Cut> {
    match ending
    case Done => None
    case RanOut => Some(Cut(Timeout, moment))
    case Abandoned => Some(Cut(Cancelled, moment))
  }

  method Stop(report: ScanReport, cut: Cut, stage: Stage, selection: Selection)
    modifies report
    ensures report.View() == TerminateOf(old(report.View()), stage, selection, cut.kind, Stopped(cut.kind, cut.moment))
  {
    report.Terminate(stage, selection, cut.kind, Stopped(cut.kind, cut.moment));
  }

  method ReadBaseline(report: ScanReport, signals: Signals, w: World, selection: Selection)
    returns (cut: Option<Cut>, authority: bool)
    requires report.View() == Begun(selection)
    modifies report, signals
    ensures signals.now >= old(signals.now) && Grounded(cut, signals)
    ensures cut.Some? ==>
            cut.value.moment in {BeforeDns, DuringDns} && report.View() == CutReport(w, selection, cut.value)
    ensures cut.None? ==> report.View() == AfterBaseline(w, selection) && authority == w.HasAuthority()
    ensures old(signals.IsExpired()) ==> cut == Some(Cut(Timeout, BeforeDns))
    ensures old(signals.IsCancelled()) ==> cut.Some?
  {
    hide TerminateOf, AddSkips, LookupErrors;
    authority := false;
    var expired := signals.Expired();
    if expired {
      cut := Some(Cut(Timeout, BeforeDns));
      Stop(report, cut.value, DnsStage, selection);
      return;
    }
    var ending := Await(signals, w.baselineEnd, true);
    cut := CutAt(ending, DuringDns);
    if cut.Some? {
      Stop(report, cut.value, DnsStage, selection);
      return;
    }
    if w.baseline.Some? {
      report.errors := report.errors + LookupErrors(w.baseline.value.errors);
      report.observed := report.observed.(dns :=
        Some(DnsObservation(w.baseline.value.addresses, w.baseline.value.aliases, None, None, None, [])));
      authority := w.baseline.value.authority;
    } else {
      report.errors := report.errors + [ScanError(DnsStage, Resolution, true)];
    }
  }

  method SetDnssec(report: ScanReport, status: DnssecStatus)
    modifies report
    ensures report.View() == WithDnssec(old(report.View()), status)
  {
    if report.observed.dns.Some? {
      report.observed := report.observed.(dns := Some(report.observed.dns.value.(dnssec := Some(status))));
    }
  }

  method ValidateDnssec(report: ScanReport, signals: Signals, w: World, selection: Selection) returns (cut: Option<Cut>)
    requires report.View() == AfterBaseline(w, selection)
    modifies report, signals
    ensures signals.now >= old(signals.now) && Grounded(cut, signals)
    ensures cut.Some? ==> cut.value.moment == DuringDnssec && report.View() == CutReport(w, selection, cut.value)
    ensures cut.Some? ==> w.Named()
    ensures cut.None? ==> report.View() == AfterDnssec(w, selection)
    ensures w.Named() && old(signals.IsCancelled()) ==> cut == Some(Cut(Cancelled, DuringDnssec))
  {
    hide TerminateOf, AddSkip, AfterBaseline;
    cut := None;
    if !w.Named() {
      report.AddSkippedCheck(DnssecValidation, NoHostname);
      return;
    }
    var ending := Await(signals, w.dnssecEnd, true);
    cut := CutAt(ending, DuringDnssec);
    if cut.Some? {
      SetDnssec(report, IndeterminateProof);
      Stop(report, cut.value, DnsStage, selection);
      return;
    }
    if w.dnssec == IndeterminateProof || w.dnssec == NotApplicable {
      report.AddSkippedCheck(DnssecValidation, if w.dnssec == IndeterminateProof then DnssecIndeterminate else NoRrset);
    }
    SetDnssec(report, w.dnssec);
  }

  method RecordAttempts(report: ScanReport, outcomes: seq<TransferOutcome>)
    modifies report
    ensures report.View() == old(report.View()).(errors := old(report.errors) + TransferErrors(outcomes))
  {
    hide TransferError;
    for i := 0 to |outcomes|
      invariant report.View() == old(report.View()).(errors := old(report.errors) + TransferErrors(outcomes[..i]))
    {
      assert outcomes[..i + 1][..i] == outcomes[..i];
      report.errors := report.errors + TransferError(outcomes[i]);
    }
    assert outcomes[..|outcomes|] == outcomes;
  }

  method SetTransfers(report: ScanReport, transfers: Option<seq<TransferOutcome>>)
    requires transfers.Some?
    modifies report
    ensures report.View() == WithTransfers(old(report.View()), transfers)
  {
    if report.observed.dns.Some? {
      report.observed := report.observed.(dns := Some(report.observed.dns.value.(transfers := transfers)));
    }
  }

  method CheckTransfers(report: ScanReport, signals: Signals, w: World, selection: Selection, authority: bool)
    returns (cut: Option<Cut>)
    requires report.View() == AfterDnssec(w, selection) && authority == w.HasAuthority()
    modifies report, signals
    ensures signals.now >= old(signals.now) && Grounded(cut, signals)
    ensures cut.Some? ==> cut.value.moment == DuringAxfr && report.View() == CutReport(w, selection, cut.value)
    ensures cut.None? ==> report.View() == AfterTransfers(w, selection)
    ensures cut.None? && w.Named() && authority && w.transfers.Some? ==>
              exists added :: report.errors == old(report.errors) + added && TellTransfers(added, w.transfers.value)
    ensures cut == if w.Named() && authority then CutAt(w.transferEnd, DuringAxfr) else None
  {
    hide TerminateOf, AddSkip, AfterDnssec, TransferErrors, TellTransfers;
    if w.transfers.Some? {
      TransferErrorsTell(w.transfers.value);
    }
    cut := None;
    if !w.Named() {
      report.AddSkippedCheck(AuthoritativeAxfr, NoHostname);
    } else if authority {
      var ending := Await(signals, w.transferEnd, false);
      cut := CutAt(ending, DuringAxfr);
      if w.transfers.Some? {
        if cut.None? {
          RecordAttempts(report, w.transfers.value);
        }
        SetTransfers(report, w.transfers);
      }
      if cut.Some? {
        Stop(report, cut.value, DnsStage, selection);
      } else if w.transfers.None? {
        report.AddSkippedCheck(AuthoritativeAxfr, NoEndpoints);
      }
    } else {
      report.AddSkippedCheck(AuthoritativeAxfr, NoZone);
    }
  }

  lemma TransfersFitBaseline(w: World, selection: Selection)
    ensures FitsBaseline(AfterTransfers(w, selection), w)
  {
    hide AddSkip, Begun, BaselineErrors, TransferErrors;
  }

  method DetectWildcard(report: ScanReport, signals: Signals, w: World, selection: Selection) returns (cut: Option<Cut>)
    requires report.View() == AfterTransfers(w, selection)
    modifies report, signals
    ensures signals.now >= old(signals.now) && Grounded(cut, signals)
    ensures cut.Some? ==> cut.value.moment == DuringWildcard && report.View() == CutReport(w, selection, cut.value)
    ensures cut.None? ==> report.View() == AfterWildcard(w, selection)
    ensures cut == if w.Named() && w.baseline.Some? then CutAt(w.wildcardEnd, DuringWildcard) else None
  {
    hide TerminateOf, AddSkip, AfterTransfers;
    cut := None;
    TransfersFitBaseline(w, selection);
    if !w.Named() {
      report.AddSkippedCheck(WildcardDns, NoHostname);
    } else if report.observed.dns.None? {
      report.AddSkippedCheck(WildcardDns, NoBaseline);
    } else {
      var ending := Await(signals, w.wildcardEnd, false);
      cut := CutAt(ending, DuringWildcard);
      report.observed := report.observed.(dns := Some(report.observed.dns.value.(wildcard := Some(w.wildcard))));
      if cut.Some? {
        Stop(report, cut.value, DnsStage, selection);
      } else if w.wildcard == IndeterminateWildcard {
        report.AddSkippedCheck(WildcardDns, WildcardIndeterminate);
      }
    }
  }

  lemma WildcardFitsBaseline(w: World, selection: Selection)
    ensures FitsBaseline(AfterWildcard(w, selection), w)
  {
    hide AddSkip, AfterTransfers;
    TransfersFitBaseline(w, selection);
  }

  method CheckDangling(report: ScanReport, signals: Signals, w: World, selection: Selection) returns (cut: Option<Cut>)
    requires report.View() == AfterWildcard(w, selection)
    modifies report, signals
    ensures signals.now >= old(signals.now) && Grounded(cut, signals)
    ensures cut.Some? ==> cut.value.moment == DuringDangling && report.View() == CutReport(w, selection, cut.value)
    ensures cut.None? ==> report.View() == AfterDangling(w, selection)
    ensures cut == if w.Named() && HasAliases(w) then CutAt(w.danglingEnd, DuringDangling) else None
  {
    hide TerminateOf, AddSkip, AfterWildcard;
    cut := None;
    WildcardFitsBaseline(w, selection);
    if !w.Named() {
      report.AddSkippedCheck(DanglingCname, NoHostname);
      return;
    }
    var aliases := if report.observed.dns.Some? then report.observed.dns.value.aliases else 0;
    if aliases == 0 {
      report.AddSkippedCheck(DanglingCname, NoCname);
      return;
    }
    var ending := Await(signals, w.danglingEnd, false);
    cut := CutAt(ending, DuringDangling);
    report.observed := report.observed.(dns := Some(report.observed.dns.value.(dangling := w.dangling)));
    if cut.Some? {
      Stop(report, cut.value, DnsStage, selection);
    } else if IndeterminateDestination in w.dangling {
      report.AddSkippedCheck(DanglingCname, DanglingIndeterminate);
    }
  }

  /** The later DNS checks fill in the observation and neither make nor drop it. */
  predicate FitsBaseline(v: Report, w: World) {
    && (v.observed.dns.Some? <==> w.baseline.Some?)
    && (v.observed.dns.Some? ==> v.observed.dns.value.aliases == w.baseline.value.aliases
                                 && v.observed.dns.value.addresses == w.baseline.value.addresses)
  }

  lemma DanglingFitsBaseline(w: World, selection: Selection)
    ensures FitsBaseline(AfterDangling(w, selection), w)
  {
    hide AddSkip, AfterWildcard;
    WildcardFitsBaseline(w, selection);
  }

  /** The two looks at the clock that follow an active stage. */
  method StopAfter(report: ScanReport, signals: Signals, ghost w: World, selection: Selection, moment: Moment,
                   stage: Stage)
    returns (cut: Option<Cut>)
    requires report.View() == Collected(w, selection, moment) && stage == StageAt(w, moment)
    modifies report, signals
    ensures signals.now >= old(signals.now) && Grounded(cut, signals)
    ensures cut.Some? ==> cut.value.moment == moment && report.View() == CutReport(w, selection, cut.value)
    ensures cut.None? ==> report.View() == old(report.View())
    ensures old(signals.IsCancelled()) ==> cut == Some(Cut(Cancelled, moment))
    ensures old(signals.IsExpired()) ==> cut.Some?
  {
    hide TerminateOf, Collected, StageAt;
    cut := None;
    var stop := signals.Stop();
    if stop.Some? {
      cut := Some(Cut(stop.value, moment));
      Stop(report, cut.value, stage, selection);
    }
  }

  method ScanPorts(report: ScanReport, signals: Signals, w: World, selection: Selection) returns (cut: Option<Cut>)
    requires report.View() == AfterDangling(w, selection)
    modifies report, signals
    ensures signals.now >= old(signals.now) && Grounded(cut, signals)
    ensures cut.Some? ==>
            cut.value.moment in {BeforePorts, DuringPorts} && report.View() == CutReport(w, selection, cut.value)
    ensures cut.None? ==> report.View() == AfterPorts(w, selection)
    ensures old(signals.IsExpired()) ==> cut == Some(Cut(Timeout, BeforePorts))
    ensures old(signals.IsCancelled()) ==> cut.Some?
  {
    hide TerminateOf, AfterDangling;
    cut := None;
    var expired := signals.Expired();
    if expired {
      cut := Some(Cut(Timeout, BeforePorts));
      Stop(report, cut.value, PortStage, selection);
      return;
    }
    report.observed := report.observed.(hosts := w.hosts);
    cut := StopAfter(report, signals, w, selection, DuringPorts, PortStage);
  }

  method Probe(report: ScanReport, w: World, selection: Selection)
    requires report.View() == AfterPorts(w, selection)
    modifies report
    ensures report.View() == AfterServices(w, selection)
  {
    hide AfterDangling, OpenEndpoints;
    if OpenEndpoints(report.observed.hosts) > MAX_ACTIVE_ENDPOINTS {
      report.errors := report.errors + [ScanError(ServiceStage, Other, true)];
    }
    report.observed := report.observed.(services := w.services);
  }

  method DetectServices(report: ScanReport, signals: Signals, w: World, selection: Selection) returns (cut: Option<Cut>)
    requires report.View() == AfterPorts(w, selection)
    modifies report, signals
    ensures signals.now >= old(signals.now) && Grounded(cut, signals)
    ensures cut.Some? ==> cut.value.moment in {BeforeServices, DuringServices}
                          && report.View() == CutReport(w, selection, cut.value)
    ensures cut.None? ==> report.View() == AfterServices(w, selection)
    ensures old(signals.IsExpired()) ==> cut == Some(Cut(Timeout, BeforeServices))
    ensures old(signals.IsCancelled()) ==> cut.Some?
  {
    hide TerminateOf, AfterDangling, OpenEndpoints;
    cut := None;
    var expired := signals.Expired();
    if expired {
      cut := Some(Cut(Timeout, BeforeServices));
      Stop(report, cut.value, ServiceStage, selection);
      return;
    }
    Probe(report, w, selection);
    cut := StopAfter(report, signals, w, selection, DuringServices, ServiceStage);
  }

  method AnalyzeSsh(report: ScanReport, signals: Signals, w: World, selection: Selection) returns (cut: Option<Cut>)
    requires report.View() == AfterServices(w, selection)
    modifies report, signals
    ensures signals.now >= old(signals.now) && Grounded(cut, signals)
    ensures cut.Some? ==> cut.value.moment == DuringSsh && report.View() == CutReport(w, selection, cut.value)
    ensures cut.None? ==> report.View() == AfterSsh(w, selection)
    ensures cut == CutAt(w.sshEnd, DuringSsh)
  {
    hide TerminateOf, AfterServices;
    var ending := Await(signals, w.sshEnd, false);
    report.observed := report.observed.(services := w.inspected);
    cut := CutAt(ending, DuringSsh);
    if cut.Some? {
      Stop(report, cut.value, ServiceStage, selection);
    }
  }

  method AnalyzeHttp(report: ScanReport, signals: Signals, w: World, selection: Selection) returns (cut: Option<Cut>)
    requires report.View() == AfterSsh(w, selection)
    modifies report, signals
    ensures signals.now >= old(signals.now) && Grounded(cut, signals)
    ensures cut.Some? ==>
            cut.value.moment in {BeforeHttp, DuringHttp} && report.View() == CutReport(w, selection, cut.value)
    ensures cut.Some? ==> selection.http
    ensures cut.None? ==> report.View() == AfterHttp(w, selection)
    ensures selection.http && old(signals.IsExpired()) ==> cut == Some(Cut(Timeout, BeforeHttp))
    ensures selection.http && old(signals.IsCancelled()) ==> cut.Some?
  {
    hide TerminateOf, AfterSsh;
    cut := None;
    if !selection.http { return; }
    var expired := signals.Expired();
    if expired {
      cut := Some(Cut(Timeout, BeforeHttp));
      Stop(report, cut.value, HttpStage, selection);
      return;
    }
    report.observed := report.observed.(http := w.http);
    cut := StopAfter(report, signals, w, selection, DuringHttp, HttpStage);
  }

  method AnalyzeTls(report: ScanReport, signals: Signals, w: World, selection: Selection) returns (cut: Option<Cut>)
    requires report.View() == AfterHttp(w, selection)
    modifies report, signals
    ensures signals.now >= old(signals.now) && Grounded(cut, signals)
    ensures cut.Some? ==>
            cut.value.moment in {BeforeTls, DuringTls} && report.View() == CutReport(w, selection, cut.value)
    ensures cut.Some? ==> selection.tls && w.Named()
    ensures cut.None? ==> report.View() == AfterTls(w, selection)
    ensures selection.tls && w.Named() && old(signals.IsExpired()) ==> cut == Some(Cut(Timeout, BeforeTls))
    ensures selection.tls && w.Named() && old(signals.IsCancelled()) ==> cut.Some?
  {
    hide TerminateOf, AfterHttp;
    cut := None;
    if !(selection.tls && w.Named()) { return; }
    var expired := signals.Expired();
    if expired {
      cut := Some(Cut(Timeout, BeforeTls));
      Stop(report, cut.value, TlsStage, selection);
      return;
    }
    report.observed := report.observed.(tls := w.tls);
    cut := StopAfter(report, signals, w, selection, DuringTls, TlsStage);
  }

  method FinishSelectedReport(report: ScanReport, signals: Signals, w: World, selection: Selection, unfinished: Stage)
    returns (cut: Option<Cut>)
    requires report.View() == Unsettled(w, selection) && unfinished == StageAt(w, BeforeFindings)
    modifies report, signals
    ensures signals.now >= old(signals.now) && Grounded(cut, signals)
    ensures cut.Some? ==> cut.value.moment == BeforeFindings && report.View() == CutReport(w, selection, cut.value)
    ensures cut.None? ==> report.View() == SettleOf(Unsettled(w, selection))
    ensures old(signals.IsCancelled()) ==> cut == Some(Cut(Cancelled, BeforeFindings))
  {
    hide TerminateOf, Unsettled, SettleOf;
    cut := None;
    var cancelled := signals.Cancelled();
    if cancelled {
      cut := Some(Cut(Cancelled, BeforeFindings));
      Stop(report, cut.value, unfinished, selection);
    } else {
      report.Settle();
    }
  }

  method AnalyzeDns(report: ScanReport, signals: Signals, w: World, selection: Selection) returns (cut: Option<Cut>)
    requires report.View() == Begun(selection)
    modifies report, signals
    ensures signals.now >= old(signals.now) && Grounded(cut, signals)
    ensures cut.Some? ==> report.View() == CutReport(w, selection, cut.value)
    ensures cut.Some? ==> Reached(w, selection, cut.value.moment)
    ensures cut.None? ==> report.View() == AfterDangling(w, selection)
    ensures old(signals.IsCancelled() || signals.IsExpired()) ==> cut.Some?
  {
    hide CutReport, Begun, AfterBaseline, AfterDnssec, AfterTransfers, AfterWildcard, AfterDangling;
    var authority;
    cut, authority := ReadBaseline(report, signals, w, selection);
    if cut.Some? { return; }
    cut := ValidateDnssec(report, signals, w, selection);
    if cut.Some? { return; }
    cut := CheckTransfers(report, signals, w, selection, authority);
    if cut.Some? { return; }
    cut := DetectWildcard(report, signals, w, selection);
    if cut.Some? { return; }
    cut := CheckDangling(report, signals, w, selection);
  }

  lemma PortsReached(w: World, selection: Selection, moment: Moment)
    requires !NoAddressFound(w) && selection.ports && moment in {BeforePorts, DuringPorts}
    ensures Reached(w, selection, moment)
  {
  }

  lemma ActiveReached(w: World, selection: Selection, moment: Moment)
    requires !NoAddressFound(w) && selection.ports && selection.services
    requires || moment in {BeforeServices, DuringServices, DuringSsh}
             || (moment in {BeforeHttp, DuringHttp} && selection.http)
             || (moment in {BeforeTls, DuringTls} && selection.tls && w.Named())
    ensures Reached(w, selection, moment)
  {
  }

  lemma EndReached(w: World, selection: Selection)
    ensures Reached(w, selection, BeforeFindings)
  {
  }

  method AnalyzeHosts(report: ScanReport, signals: Signals, w: World, selection: Selection) returns (cut: Option<Cut>)
    requires report.View() == AfterDangling(w, selection) && !NoAddressFound(w)
    modifies report, signals
    ensures signals.now >= old(signals.now) && Grounded(cut, signals)
    ensures cut.Some? ==> report.View() == CutReport(w, selection, cut.value)
    ensures cut.Some? ==> Reached(w, selection, cut.value.moment)
    ensures cut.None? ==> report.View() == SettleOf(Unsettled(w, selection))
  {
    hide CutReport, SettleOf, AfterDangling, AfterPorts, AfterSsh, AfterHttp, AfterTls, NoAddressFound, AddSkip,
         Reached;
    if !selection.ports {
      EndReached(w, selection);
      cut := FinishSelectedReport(report, signals, w, selection, FindingStage);
      return;
    }
    cut := ScanPorts(report, signals, w, selection);
    if cut.Some? {
      PortsReached(w, selection, cut.value.moment);
      return;
    }
    if !selection.services {
      EndReached(w, selection);
      cut := FinishSelectedReport(report, signals, w, selection, FindingStage);
      return;
    }
    cut := DetectServices(report, signals, w, selection);
    if cut.Some? {
      ActiveReached(w, selection, cut.value.moment);
      return;
    }
    cut := AnalyzeSsh(report, signals, w, selection);
    if cut.Some? {
      ActiveReached(w, selection, cut.value.moment);
      return;
    }
    cut := AnalyzeHttp(report, signals, w, selection);
    if cut.Some? {
      ActiveReached(w, selection, cut.value.moment);
      return;
    }
    cut := AnalyzeTls(report, signals, w, selection);
    if cut.Some? {
      ActiveReached(w, selection, cut.value.moment);
      return;
    }
    if selection.tls && !w.Named() {
      report.AddSkippedCheck(Tls, TlsNeedsHostname);
    }
    EndReached(w, selection);
    cut := FinishSelectedReport(report, signals, w, selection, FindingStage);
  }

  method FinishDns(report: ScanReport, signals: Signals, w: World, selection: Selection) returns (cut: Option<Cut>)
    requires report.View() == AfterDangling(w, selection)
    modifies report, signals
    ensures signals.now >= old(signals.now) && Grounded(cut, signals)
    ensures cut.Some? ==> report.View() == CutReport(w, selection, cut.value)
    ensures cut.Some? ==> Reached(w, selection, cut.value.moment)
    ensures cut.None? ==> report.View() == SettleOf(Unsettled(w, selection))
  {
    hide CutReport, SettleOf, AfterDangling;
    DanglingFitsBaseline(w, selection);
    var addresses := if report.observed.dns.Some? then report.observed.dns.value.addresses else {};
    if addresses == {} {
      report.status := Partial;
      report.message := NoAddresses;
      cut := FinishSelectedReport(report, signals, w, selection, PortStage);
    } else {
      cut := AnalyzeHosts(report, signals, w, selection);
    }
  }

  /** The stages of a run: the report is the outcome of the cut, and the cut is grounded in the clock. */
  method RunStages(w: World, selection: Selection, signals: Signals) returns (report: ScanReport, cut: Option<Cut>)
    modifies signals
    ensures fresh(report)
    ensures signals.now >= old(signals.now) && Grounded(cut, signals)
    ensures report.View() == Outcome(w, selection, cut)
    ensures cut.Some? ==> Reached(w, selection, cut.value.moment)
    ensures w.familyConflict ==> cut.None?
    ensures old(signals.IsCancelled() || signals.IsExpired()) && !w.familyConflict ==> cut.Some?
  {
    hide CutReport, SettleOf, TerminateOf, AddSkips, AfterDangling, Unsettled;
    cut := None;
    report := new ScanReport.NotStarted();
    report.RecordSelectionSkips(selection);
    if w.familyConflict {
      report.Terminate(Preflight, selection, Configuration, FamilyConflict);
      return;
    }
    report.message := Started;
    cut := AnalyzeDns(report, signals, w, selection);
    if cut.Some? { return; }
    cut := FinishDns(report, signals, w, selection);
  }
}
