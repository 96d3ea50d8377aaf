/**
 ScanCommand: what the scan command does to the report between the stages and the finalization. Some
 of its steps push a skipped check without looking for an earlier entry, and some set the status
 without recording an error; the run invariant holds all the same.
 */
module ScanCommand {
  import opened Wrappers
  import opened Lifecycle
  import opened Engine
  import opened ScanRuns
  import Findings

  datatype Part = DnsPart | PortsPart | ServicesPart | HttpPart | TlsPart | IntelligencePart

  /** The arguments that decide which intelligence is gathered; a blank key counts as none. */
  datatype Arguments = Arguments(
    only: set<Part>, subdomains: bool, selectors: bool, bundle: bool, relatedKey: bool)
  {
    predicate IntelligenceSelected() {
      only == {} || IntelligencePart in only
    }

    predicate RelatedConfigured() {
      IntelligenceSelected() && relatedKey
    }

    predicate ExplicitInput() {
      IntelligenceSelected() && (subdomains || selectors || bundle)
    }

    function Selected(): Selection {
      if only == {} then EVERYTHING else OnlyStages(RequestedStages(only))
    }
  }

  function RequestedStages(only: set<Part>): set<Stage> {
    (if PortsPart in only then {PortStage} else {}) + (if ServicesPart in only then {ServiceStage} else {})
    + (if HttpPart in only then {HttpStage} else {}) + (if TlsPart in only then {TlsStage} else {})
  }

  function OnlyStages(stages: set<Stage>): Selection {
    var http := HttpStage in stages;
    var tls := TlsStage in stages;
    var services := ServiceStage in stages || http || tls;
    Selection(PortStage in stages || services, services, http, tls)
  }

  predicate Requests(selection: Selection, stages: set<Stage>) {
    && (PortStage in stages ==> selection.ports) && (ServiceStage in stages ==> selection.services)
    && (HttpStage in stages ==> selection.http) && (TlsStage in stages ==> selection.tls)
  }

  predicate Within(a: Selection, b: Selection) {
    (a.ports ==> b.ports) && (a.services ==> b.services) && (a.http ==> b.http) && (a.tls ==> b.tls)
  }

  /** The least selection that has the requested stages and everything they need. */
  lemma OnlyIsLeast(stages: set<Stage>, selection: Selection)
    ensures OnlyStages(stages).Closed() && Requests(OnlyStages(stages), stages)
    ensures selection.Closed() && Requests(selection, stages) ==> Within(OnlyStages(stages), selection)
    ensures OnlyStages(stages) == selection <==>
      selection.Closed() && Requests(selection, stages)
      && forall s: Selection :: s.Closed() && Requests(s, stages) ==> Within(selection, s)
  {
    var least := OnlyStages(stages);
    if forall s: Selection :: s.Closed() && Requests(s, stages) ==> Within(selection, s) {
      assert Within(selection, least);
    }
  }

  /** The stages that the parts of `--only` select, with what they need; no part selects everything. */
  lemma SelectedExactly(arguments: Arguments)
    ensures arguments.Selected().ports <==>
            arguments.only == {} || PortsPart in arguments.only || ServicesPart in arguments.only
            || HttpPart in arguments.only || TlsPart in arguments.only
    ensures arguments.Selected().services <==>
            arguments.only == {} || ServicesPart in arguments.only || HttpPart in arguments.only
            || TlsPart in arguments.only
    ensures arguments.Selected().http <==> arguments.only == {} || HttpPart in arguments.only
    ensures arguments.Selected().tls <==> arguments.only == {} || TlsPart in arguments.only
    ensures arguments.Selected().Closed()
  {
  }

  // ----- What the intelligence sources answer -----

  /** Address lookups: none possible, or ended with observations, failures and a stop. */
  datatype Lookups = NoAddress | Lookups(observed: bool, failed: bool, ending: Ending)

  datatype Sources = Sources(
    explicitEnd: Ending, explicitAnswer: Result<bool, ()>,
    registrations: Lookups, routes: Lookups,
    transparency: Option<bool>, related: Option<bool>)

  // ----- The steps, on values -----

  function Demote(v: Report): Report {
    if v.status == Completed then v.(status := Partial, message := IncompleteIntelligence) else v
  }

  /** Puts the reason into the entry of the check, or appends an entry. */
  function PutSkip(skipped: seq<Skip>, check: Check, reason: Message): seq<Skip> {
    if skipped == [] then [Skip(check, reason)]
    else if skipped[0].check == check then [Skip(check, reason)] + skipped[1..]
    else [skipped[0]] + PutSkip(skipped[1..], check, reason)
  }

  function Gathered(v: Report): Intelligence {
    if v.intelligence.Some? then v.intelligence.value else Intelligence(true, [])
  }

  /** A source answered, completely or not. */
  function Answered(v: Report, complete: bool): Report {
    var i := Gathered(v);
    var u := v.(intelligence := Some(i.(complete := i.complete && complete)));
    if complete then u else Demote(u)
  }

  function SourceError(v: Report, check: Check): Report {
    var i := Gathered(v);
    var e := Skip(check, SourceFailed);
    var errors := if e in i.errors then i.errors else i.errors + [e];
    Demote(v.(intelligence := Some(Intelligence(false, errors)), skipped := AddSkip(v.skipped, check, SourceFailed)))
  }

  function Applicable(checks: seq<(Check, bool)>): seq<Check> {
    if checks == [] then []
    else
      var front, last := Applicable(checks[..|checks| - 1]), checks[|checks| - 1];
      if last.1 then front + [last.0] else front
  }

  function StoppedIntelligence(v: Report, cancelled: bool, checks: seq<(Check, bool)>): Report {
    var reason := if cancelled then ScanInterrupted else DeadlineExpired;
    v.(status := if cancelled || v.status == Interrupted then Interrupted else Partial,
       message := reason, skipped := AddSkips(v.skipped, Applicable(checks), reason))
  }

  /** The lookups leave a trace as soon as there is an observation, a failure or a stop. */
  function Kept(v: Report, l: Lookups): Report
    requires l.Lookups?
  {
    var i := Gathered(v);
    if !l.observed && !l.failed && l.ending.Done? then v
    else v.(intelligence := Some(i.(complete := i.complete && !l.failed && l.ending.Done?)))
  }

  function Interrupt(v: Report): Report {
    v.(status := Interrupted, message := ScanInterrupted)
  }

  function MovedBy(v: Report, l: Lookups): Report
    requires l.Lookups?
  {
    if l.ending.Abandoned? then if v.status == Failed then v else Interrupt(v)
    else if l.ending.RanOut? || l.failed then Demote(v)
    else v
  }

  /** Why the lookups of a check have an entry, if they have one. */
  function LookupReason(l: Lookups): Option<Message> {
    if l.NoAddress? then Some(NoEligibleAddress)
    else if l.ending.Abandoned? then Some(ScanInterrupted)
    else if l.ending.RanOut? then Some(DeadlineExpired)
    else if l.failed then Some(LookupFailures)
    else None
  }

  /** The finishers of the registration and of the route lookups. */
  function FinishedLookups(v: Report, check: Check, l: Lookups): Report {
    if l.NoAddress? then v.(skipped := PutSkip(v.skipped, check, NoEligibleAddress))
    else
      var u := MovedBy(Kept(v, l), l);
      if LookupReason(l).None? then u else u.(skipped := PutSkip(u.skipped, check, LookupReason(l).value))
  }

  function PushIf(skipped: seq<Skip>, wanted: bool, check: Check, reason: Message): seq<Skip> {
    if wanted then skipped + [Skip(check, reason)] else skipped
  }

  /** The entries of the inputs that were supplied neither by argument nor by environment. */
  function PushUnsupplied(skipped: seq<Skip>, arguments: Arguments): seq<Skip> {
    var a := PushIf(skipped, !arguments.subdomains, SubdomainDns, NothingSupplied);
    var b := PushIf(a, !arguments.selectors, Dkim, NothingSupplied);
    var c := PushIf(b, !arguments.bundle, OfflineNetworks, NothingSupplied);
    var d := PushIf(c, !arguments.bundle, OfflineCves, NothingSupplied);
    PushIf(d, !arguments.RelatedConfigured(), RelatedDomains, NotConfigured)
  }

  function PushMissing(skipped: seq<Skip>, arguments: Arguments, transparent: bool): seq<Skip> {
    if !arguments.IntelligenceSelected() then skipped + [Skip(IntelligenceCheck, ExcludedByOnly)]
    else PushUnsupplied(PushIf(skipped, !transparent, CertificateTransparency, CtNeedsHostname), arguments)
  }

  // ----- The steps, in place -----

  method MarkIntelligencePartial(report: ScanReport)
    modifies report
    ensures report.View() == Demote(old(report.View()))
  {
    if report.status == Completed {
      report.status := Partial;
      report.message := IncompleteIntelligence;
    }
  }

  method Insert(report: ScanReport) returns (intelligence: Intelligence)
    ensures intelligence == Gathered(report.View())
  {
    intelligence := if report.intelligence.Some? then report.intelligence.value else Intelligence(true, []);
  }

  method RecordAnswer(report: ScanReport, complete: bool)
    modifies report
    ensures report.View() == Answered(old(report.View()), complete)
  {
    var intelligence := Insert(report);
    report.intelligence := Some(intelligence.(complete := intelligence.complete && complete));
    if !complete {
      MarkIntelligencePartial(report);
    }
  }

  method MarkIntelligenceSourceError(report: ScanReport, check: Check)
    modifies report
    ensures report.View() == SourceError(old(report.View()), check)
  {
    hide AddSkip;
    var intelligence := Insert(report);
    var error := Skip(check, SourceFailed);
    if error !in intelligence.errors {
      intelligence := intelligence.(errors := intelligence.errors + [error]);
    }
    report.intelligence := Some(intelligence.(complete := false));
    report.AddSkippedCheck(check, SourceFailed);
    MarkIntelligencePartial(report);
  }

  lemma NothingApplicable(skipped: seq<Skip>, reason: Message)
    ensures AddSkips(skipped, Applicable([]), reason) == skipped
  {
  }

  lemma OneApplicable(skipped: seq<Skip>, checks: seq<(Check, bool)>, row: (Check, bool), reason: Message)
    ensures AddSkips(skipped, Applicable(checks + [row]), reason)
      == if row.1 then AddSkip(AddSkips(skipped, Applicable(checks), reason), row.0, reason)
         else AddSkips(skipped, Applicable(checks), reason)
  {
    hide AddSkips, AddSkip;
    assert (checks + [row])[..|checks|] == checks;
    OneSkipMore(skipped, Applicable(checks), row.0, reason);
  }

  method MarkIntelligenceStopped(report: ScanReport, cancelled: bool, checks: seq<(Check, bool)>)
    modifies report
    ensures report.View() == StoppedIntelligence(old(report.View()), cancelled, checks)
  {
    hide AddSkip, AddSkips, Applicable;
    var reason;
    if cancelled {
      report.status := Interrupted;
      reason := ScanInterrupted;
    } else {
      if report.status != Interrupted {
        report.status := Partial;
      }
      reason := DeadlineExpired;
    }
    report.message := reason;
    ghost var v := report.View();
    NothingApplicable(v.skipped, reason);
    for i := 0 to |checks|
      invariant report.View() == v.(skipped := AddSkips(v.skipped, Applicable(checks[..i]), reason))
    {
      OneApplicable(v.skipped, checks[..i], checks[i], reason);
      assert checks[..i + 1] == checks[..i] + [checks[i]];
      if checks[i].1 {
        report.AddSkippedCheck(checks[i].0, reason);
      }
    }
    assert checks[..|checks|] == checks;
  }

  /** The first entry of the check, or the length of the list. */
  method Find(skipped: seq<Skip>, check: Check) returns (i: nat)
    ensures i <= |skipped| && forall k :: 0 <= k < i ==> skipped[k].check != check
    ensures i < |skipped| ==> skipped[i].check == check
  {
    i := 0;
    while i < |skipped| && skipped[i].check != check
      invariant i <= |skipped| && forall k :: 0 <= k < i ==> skipped[k].check != check
    {
      i := i + 1;
    }
  }

  lemma {:induction false} PutAt(skipped: seq<Skip>, check: Check, reason: Message, i: nat)
    requires i <= |skipped| && (forall k :: 0 <= k < i ==> skipped[k].check != check)
    requires i < |skipped| ==> skipped[i].check == check
    ensures PutSkip(skipped, check, reason)
      == if i < |skipped| then skipped[i := Skip(check, reason)] else skipped + [Skip(check, reason)]
  {
    if i > 0 {
      PutAt(skipped[1..], check, reason, i - 1);
    }
  }

  method RecordSkip(report: ScanReport, check: Check, reason: Message)
    modifies report
    ensures report.View() == old(report.View()).(skipped := PutSkip(old(report.skipped), check, reason))
  {
    hide PutSkip;
    var i := Find(report.skipped, check);
    PutAt(report.skipped, check, reason, i);
    if i < |report.skipped| {
      report.skipped := report.skipped[i := Skip(check, reason)];
    } else {
      report.skipped := report.skipped + [Skip(check, reason)];
    }
  }

  method Keep(report: ScanReport, l: Lookups)
    requires l.Lookups?
    modifies report
    ensures report.View() == Kept(old(report.View()), l)
  {
    if l.observed || l.failed || !l.ending.Done? {
      var intelligence := Insert(report);
      report.intelligence := Some(intelligence.(complete := intelligence.complete && !l.failed && l.ending.Done?));
    }
  }

  method Move(report: ScanReport, l: Lookups) returns (reason: Option<Message>)
    requires l.Lookups?
    modifies report
    ensures report.View() == MovedBy(old(report.View()), l) && reason == LookupReason(l)
  {
    reason := None;
    if l.ending.Abandoned? {
      if report.status != Failed {
        report.status := Interrupted;
        report.message := ScanInterrupted;
      }
      reason := Some(ScanInterrupted);
    } else if l.ending.RanOut? {
      MarkIntelligencePartial(report);
      reason := Some(DeadlineExpired);
    } else if l.failed {
      MarkIntelligencePartial(report);
      reason := Some(LookupFailures);
    }
  }

  method FinishStopped(report: ScanReport, check: Check, l: Lookups)
    requires l.Lookups?
    modifies report
    ensures report.View() == FinishedLookups(old(report.View()), check, l)
  {
    hide PutSkip, Kept, MovedBy, LookupReason;
    Keep(report, l);
    var reason := Move(report, l);
    if reason.Some? {
      RecordSkip(report, check, reason.value);
    }
  }

  method FinishLookups(report: ScanReport, signals: Signals, check: Check, l: Lookups)
    modifies report, signals
    ensures signals.now >= old(signals.now)
    ensures report.View() == FinishedLookups(old(report.View()), check, l)
    ensures LookupsEnd(l, signals.IsCancelled(), signals.IsExpired())
  {
    hide PutSkip;
    if l.NoAddress? {
      RecordSkip(report, check, NoEligibleAddress);
      return;
    }
    var ending := Await(signals, l.ending, false);
    FinishStopped(report, check, l);
  }

  ghost predicate LookupsEnd(l: Lookups, cancelled: bool, expired: bool) {
    l.Lookups? ==> (l.ending.Abandoned? ==> cancelled) && (l.ending.RanOut? ==> expired)
  }

  /** The explicit inputs, watched by the cancellation; a refused input ends the command. */
  method GatherExplicit(report: ScanReport, signals: Signals, arguments: Arguments, sources: Sources)
    returns (accepted: bool, ghost stop: Option<ErrorKind>)
    modifies report, signals
    ensures signals.now >= old(signals.now)
    ensures accepted ==> report.View() == Explicit(old(report.View()), arguments, sources.explicitAnswer, stop)
    ensures accepted ==> ExplicitEnd(stop, sources, signals.IsCancelled(), signals.IsExpired())
    ensures !accepted ==> sources.explicitAnswer.Err?
  {
    hide StoppedIntelligence;
    accepted, stop := true, None;
    var ending := Await(signals, sources.explicitEnd, true);
    if ending.Done? {
      if sources.explicitAnswer.Err? {
        accepted := false;
        return;
      }
      if !sources.explicitAnswer.value {
        MarkIntelligencePartial(report);
      }
      report.intelligence := Some(Intelligence(sources.explicitAnswer.value, []));
    } else {
      var cancelled := signals.Cancelled();
      MarkIntelligenceStopped(report, cancelled, ExplicitChecks(arguments));
      stop := Some(if cancelled then Cancelled else Timeout);
    }
  }

  /** The explicit inputs are stopped by what has happened, or end with an accepted answer. */
  ghost predicate ExplicitEnd(stop: Option<ErrorKind>, sources: Sources, cancelled: bool, expired: bool) {
    || (stop == Some(Cancelled) && cancelled)
    || (stop == Some(Timeout) && expired)
    || (stop == None && sources.explicitEnd.Done? && sources.explicitAnswer.Ok?)
  }

  function ExplicitChecks(arguments: Arguments): seq<(Check, bool)> {
    [(SubdomainDns, arguments.subdomains), (Dkim, arguments.selectors),
     (OfflineNetworks, arguments.bundle), (OfflineCves, arguments.bundle)]
  }

  function Explicit(v: Report, arguments: Arguments, answer: Result<bool, ()>, stop: Option<ErrorKind>): Report {
    if stop.Some? then StoppedIntelligence(v, stop == Some(Cancelled), ExplicitChecks(arguments))
    else if answer.Err? then v
    else (if answer.value then v else Demote(v)).(intelligence := Some(Intelligence(answer.value, [])))
  }

  method RecordSource(report: ScanReport, check: Check, answer: Option<bool>)
    modifies report
    ensures report.View() == SourceOf(old(report.View()), check, answer)
  {
    if answer.Some? {
      RecordAnswer(report, answer.value);
    } else {
      MarkIntelligenceSourceError(report, check);
    }
  }

  function SourceOf(v: Report, check: Check, answer: Option<bool>): Report {
    if answer.Some? then Answered(v, answer.value) else SourceError(v, check)
  }

  /** The report when every source has been asked. */
  function AfterSources(v: Report, arguments: Arguments, sources: Sources, transparent: bool,
                        stop: Option<ErrorKind>): Report {
    var a := if arguments.ExplicitInput() then Explicit(v, arguments, sources.explicitAnswer, stop) else v;
    var b := if !arguments.IntelligenceSelected() then a
             else FinishedLookups(FinishedLookups(a, NetworkRegistration, sources.registrations), BgpOrigin,
                                  sources.routes);
    var c := if transparent then SourceOf(b, CertificateTransparency, sources.transparency) else b;
    if arguments.RelatedConfigured() then SourceOf(c, RelatedDomains, sources.related) else c
  }

  /** Every source that was asked ended as the clock allows. */
  ghost predicate SourcesEnd(arguments: Arguments, sources: Sources, stop: Option<ErrorKind>, cancelled: bool,
                             expired: bool) {
    && (if arguments.ExplicitInput() then ExplicitEnd(stop, sources, cancelled, expired) else stop.None?)
    && (arguments.IntelligenceSelected() ==>
          LookupsEnd(sources.registrations, cancelled, expired) && LookupsEnd(sources.routes, cancelled, expired))
  }

  method GatherIntelligence(report: ScanReport, signals: Signals, arguments: Arguments, sources: Sources,
                            transparent: bool)
    returns (accepted: bool, ghost stop: Option<ErrorKind>)
    modifies report, signals
    ensures signals.now >= old(signals.now)
    ensures accepted ==> report.View() == AfterSources(old(report.View()), arguments, sources, transparent, stop)
    ensures accepted ==> SourcesEnd(arguments, sources, stop, signals.IsCancelled(), signals.IsExpired())
    ensures !accepted ==> arguments.ExplicitInput() && sources.explicitAnswer.Err?
  {
    hide Explicit, FinishedLookups, SourceOf;
    accepted, stop := true, None;
    if arguments.ExplicitInput() {
      accepted, stop := GatherExplicit(report, signals, arguments, sources);
      if !accepted { return; }
    }
    if arguments.IntelligenceSelected() {
      FinishLookups(report, signals, NetworkRegistration, sources.registrations);
      FinishLookups(report, signals, BgpOrigin, sources.routes);
    }
    if transparent {
      RecordSource(report, CertificateTransparency, sources.transparency);
    }
    if arguments.RelatedConfigured() {
      RecordSource(report, RelatedDomains, sources.related);
    }
  }

  lemma NothingPushed(skipped: seq<Skip>)
    ensures PushIf(skipped, false, CertificateTransparency, CtNeedsHostname) == skipped
  {
  }

  method Push(report: ScanReport, wanted: bool, check: Check, reason: Message)
    modifies report
    ensures report.View() == old(report.View()).(skipped := PushIf(old(report.skipped), wanted, check, reason))
  {
    if wanted {
      report.skipped := report.skipped + [Skip(check, reason)];
    }
  }

  method RecordUnsupplied(report: ScanReport, arguments: Arguments)
    modifies report
    ensures report.View() == old(report.View()).(skipped := PushUnsupplied(old(report.skipped), arguments))
  {
    hide PushIf;
    Push(report, !arguments.subdomains, SubdomainDns, NothingSupplied);
    Push(report, !arguments.selectors, Dkim, NothingSupplied);
    Push(report, !arguments.bundle, OfflineNetworks, NothingSupplied);
    Push(report, !arguments.bundle, OfflineCves, NothingSupplied);
    Push(report, !arguments.RelatedConfigured(), RelatedDomains, NotConfigured);
  }

  /** Pushes the entries of what was not asked for, without looking for earlier ones. */
  method RecordIntelligenceSkips(report: ScanReport, arguments: Arguments, transparent: bool)
    modifies report
    ensures report.View() == old(report.View()).(skipped := PushMissing(old(report.skipped), arguments, transparent))
  {
    hide PushUnsupplied, PushIf;
    NothingPushed(report.skipped);
    Push(report, arguments.IntelligenceSelected() && !transparent, CertificateTransparency, CtNeedsHostname);
    if !arguments.IntelligenceSelected() {
      report.skipped := report.skipped + [Skip(IntelligenceCheck, ExcludedByOnly)];
      return;
    }
    RecordUnsupplied(report, arguments);
  }
}
