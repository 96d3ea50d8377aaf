/**
 CommandRuns: what holds of every run of the scan command. The entries stay distinct although some
 are pushed without a look at the list, because a check is pushed only if no earlier step could have
 recorded it.
 */
module CommandRuns {
  import opened Wrappers
  import opened Lifecycle
  import opened Engine
  import opened ScanRuns
  import opened ScanCommand
  import opened SourceRecords
  import Findings

  /** The checks that may have an entry before the last pushes. */
  predicate Allowed(arguments: Arguments, transparent: bool, check: Check) {
    match check
    case IntelligenceCheck => false
    case SubdomainDns => arguments.IntelligenceSelected() && arguments.subdomains
    case Dkim => arguments.IntelligenceSelected() && arguments.selectors
    case OfflineNetworks => arguments.IntelligenceSelected() && arguments.bundle
    case OfflineCves => arguments.IntelligenceSelected() && arguments.bundle
    case CertificateTransparency => transparent
    case RelatedDomains => arguments.RelatedConfigured()
    case NetworkRegistration => arguments.IntelligenceSelected()
    case BgpOrigin => arguments.IntelligenceSelected()
    case _ => true
  }

  /** The checks whose entry is pushed at the end. */
  predicate Unsupplied(arguments: Arguments, transparent: bool, check: Check) {
    if !arguments.IntelligenceSelected() then check == IntelligenceCheck
    else
      || (check == CertificateTransparency && !transparent)
      || (check == SubdomainDns && !arguments.subdomains)
      || (check == Dkim && !arguments.selectors)
      || (check in {OfflineNetworks, OfflineCves} && !arguments.bundle)
      || (check == RelatedDomains && !arguments.RelatedConfigured())
  }

  /** Everything the stages recorded is still there, and nothing else than the allowed entries was added. */
  ghost predicate Grown(core: seq<Skip>, skipped: seq<Skip>, arguments: Arguments, transparent: bool) {
    && Distinct(skipped)
    && (forall s :: s in core ==> s in skipped)
    && (forall s :: s in skipped ==> Allowed(arguments, transparent, s.check))
  }

  ghost predicate Live(v: Report, core: Report, arguments: Arguments, transparent: bool, cancelled: bool) {
    && Sound(v, cancelled) && !HasPreflightError(v.errors)
    && v.status != NotStarted && !v.finished
    && v.errors == core.errors && v.observed == core.observed
    && (core.status == Interrupted ==> v.status == Interrupted)
    && (v.intelligence.Some? && !v.intelligence.value.complete ==> v.status != Completed)
    && OnlyCoreChecks(core.skipped)
    && Grown(core.skipped, v.skipped, arguments, transparent)
  }

  /** A step may demote a completed or failed report to partial, and interrupt one when the scan is cancelled. */
  predicate LegalMove(before: Status, after: Status, cancelled: bool) {
    after == before || (after == Partial && before in {Completed, Failed}) || (after == Interrupted && cancelled)
  }

  lemma GrownIsDistinct(core: seq<Skip>, skipped: seq<Skip>, arguments: Arguments, transparent: bool)
    requires Grown(core, skipped, arguments, transparent)
    ensures Distinct(skipped)
  {
  }

  lemma MoveStaysLive(v: Report, u: Report, core: Report, arguments: Arguments, transparent: bool, cancelled: bool)
    requires Live(v, core, arguments, transparent, cancelled)
    requires u.errors == v.errors && u.observed == v.observed && u.finished == v.finished
    requires LegalMove(v.status, u.status, cancelled)
    requires u.intelligence.Some? && !u.intelligence.value.complete ==> u.status != Completed
    requires Grown(core.skipped, u.skipped, arguments, transparent)
    ensures Live(u, core, arguments, transparent, cancelled)
  {
    hide Count, HasPreflightError, HasObservations, Indeterminate, Allowed, Distinct, OnlyCoreChecks;
    assert Distinct(u.skipped) by { GrownIsDistinct(core.skipped, u.skipped, arguments, transparent); }
  }

  lemma AddsStayGrown(core: seq<Skip>, skipped: seq<Skip>, checks: seq<Check>, reason: Message, arguments: Arguments,
                      transparent: bool)
    requires Grown(core, skipped, arguments, transparent)
    requires forall c :: c in checks ==> Allowed(arguments, transparent, c)
    ensures Grown(core, AddSkips(skipped, checks, reason), arguments, transparent)
  {
    hide Allowed, Distinct, AddSkips;
    AddSkipsKeep(skipped, checks, reason);
  }

  lemma AddStaysGrown(core: seq<Skip>, skipped: seq<Skip>, check: Check, reason: Message, arguments: Arguments,
                      transparent: bool)
    requires Grown(core, skipped, arguments, transparent) && Allowed(arguments, transparent, check)
    ensures Grown(core, AddSkip(skipped, check, reason), arguments, transparent)
  {
    hide Allowed, Distinct, AddSkip;
    AddSkipKeeps(skipped, check, reason);
  }

  lemma PutStaysGrown(core: seq<Skip>, skipped: seq<Skip>, check: Check, reason: Message, arguments: Arguments,
                      transparent: bool)
    requires Grown(core, skipped, arguments, transparent) && OnlyCoreChecks(core)
    requires Allowed(arguments, transparent, check) && StageOf(check).None?
    ensures Grown(core, PutSkip(skipped, check, reason), arguments, transparent)
  {
    hide Allowed, Distinct, PutSkip, StageOf;
    GrownIsDistinct(core, skipped, arguments, transparent);
    PutKeeps(skipped, check, reason);
  }

  // ----- Every step keeps the report live -----

  lemma {:induction false} InApplicable(checks: seq<(Check, bool)>, c: Check)
    ensures c in Applicable(checks) <==> (c, true) in checks
  {
    if checks != [] {
      var front, last := checks[..|checks| - 1], checks[|checks| - 1];
      assert checks == front + [last];
      InApplicable(front, c);
    }
  }

  lemma ExplicitStaysLive(v: Report, core: Report, arguments: Arguments, transparent: bool, cancelled: bool,
                          answer: Result<bool, ()>, stop: Option<ErrorKind>)
    requires Live(v, core, arguments, transparent, cancelled) && arguments.IntelligenceSelected()
    requires stop == Some(Cancelled) ==> cancelled
    requires stop.Some? || answer.Ok?
    ensures Live(Explicit(v, arguments, answer, stop), core, arguments, transparent, cancelled)
  {
    hide Sound, HasPreflightError, Grown, OnlyCoreChecks, AddSkips, Applicable;
    var u := Explicit(v, arguments, answer, stop);
    if stop.Some? {
      var checks := ExplicitChecks(arguments);
      forall c | c in Applicable(checks) ensures Allowed(arguments, transparent, c) {
        InApplicable(checks, c);
      }
      AddsStayGrown(core.skipped, v.skipped, Applicable(checks),
                    if stop == Some(Cancelled) then ScanInterrupted else DeadlineExpired, arguments, transparent);
      assert v.status != NotStarted;
    }
    MoveStaysLive(v, u, core, arguments, transparent, cancelled);
  }

  lemma LookupsStayLive(v: Report, core: Report, arguments: Arguments, transparent: bool, cancelled: bool, check: Check,
                        l: Lookups)
    requires Live(v, core, arguments, transparent, cancelled) && arguments.IntelligenceSelected()
    requires check in {NetworkRegistration, BgpOrigin}
    requires l.Lookups? && l.ending.Abandoned? ==> cancelled
    ensures Live(FinishedLookups(v, check, l), core, arguments, transparent, cancelled)
  {
    hide Sound, HasPreflightError, Grown, OnlyCoreChecks, PutSkip;
    var u := FinishedLookups(v, check, l);
    var reason := LookupReason(l);
    if reason.Some? {
      PutStaysGrown(core.skipped, v.skipped, check, reason.value, arguments, transparent);
    }
    MoveStaysLive(v, u, core, arguments, transparent, cancelled);
  }

  lemma SourceStaysLive(v: Report, core: Report, arguments: Arguments, transparent: bool, cancelled: bool, check: Check,
                        answer: Option<bool>)
    requires Live(v, core, arguments, transparent, cancelled) && Allowed(arguments, transparent, check)
    ensures Live(SourceOf(v, check, answer), core, arguments, transparent, cancelled)
  {
    hide Sound, HasPreflightError, Grown, OnlyCoreChecks, AddSkip, Allowed;
    AddStaysGrown(core.skipped, v.skipped, check, SourceFailed, arguments, transparent);
    MoveStaysLive(v, SourceOf(v, check, answer), core, arguments, transparent, cancelled);
  }

  lemma InterruptStaysLive(v: Report, core: Report, arguments: Arguments, transparent: bool)
    requires Live(v, core, arguments, transparent, true)
    ensures Live(Interrupt(v), core, arguments, transparent, true)
  {
    hide Sound, HasPreflightError, Grown, OnlyCoreChecks;
    MoveStaysLive(v, Interrupt(v), core, arguments, transparent, true);
  }

  lemma CoreIsLive(core: Report, selection: Selection, arguments: Arguments, transparent: bool, cancelled: bool)
    requires Ended(core, selection, cancelled) && !HasPreflightError(core.errors)
    ensures Live(core, core, arguments, transparent, cancelled)
  {
    hide Count, Indeterminate, HasObservations, HasPreflightError, Distinct, ExcludedRecorded, InterruptionRecorded;
  }

  lemma LiveIsUnfinished(v: Report, core: Report, arguments: Arguments, transparent: bool, cancelled: bool)
    requires Live(v, core, arguments, transparent, cancelled)
    ensures !v.finished && !HasPreflightError(v.errors) && v.observed == core.observed
  {
  }

  // ----- The last pushes -----

  lemma PushStaysDistinct(skipped: seq<Skip>, wanted: bool, check: Check, reason: Message)
    requires Distinct(skipped) && (wanted ==> check !in Names(skipped))
    ensures Distinct(PushIf(skipped, wanted, check, reason))
    ensures Names(PushIf(skipped, wanted, check, reason)) == Names(skipped) + if wanted then {check} else {}
    ensures skipped <= PushIf(skipped, wanted, check, reason)
  {
    hide Distinct, Names;
    if wanted {
      AddSkipKeeps(skipped, check, reason);
    }
  }

  lemma UnsuppliedStayDistinct(skipped: seq<Skip>, arguments: Arguments)
    requires Distinct(skipped) && arguments.IntelligenceSelected()
    requires forall c :: c != CertificateTransparency && Unsupplied(arguments, true, c) ==> c !in Names(skipped)
    ensures Distinct(PushUnsupplied(skipped, arguments)) && skipped <= PushUnsupplied(skipped, arguments)
    ensures forall c :: c in Names(PushUnsupplied(skipped, arguments)) <==>
      c in Names(skipped) || (c != CertificateTransparency && Unsupplied(arguments, true, c))
  {
    hide Distinct, Names, PushIf;
    var a := PushIf(skipped, !arguments.subdomains, SubdomainDns, NothingSupplied);
    var b := PushIf(a, !arguments.selectors, Dkim, NothingSupplied);
    var c := PushIf(b, !arguments.bundle, OfflineNetworks, NothingSupplied);
    var d := PushIf(c, !arguments.bundle, OfflineCves, NothingSupplied);
    PushStaysDistinct(skipped, !arguments.subdomains, SubdomainDns, NothingSupplied);
    PushStaysDistinct(a, !arguments.selectors, Dkim, NothingSupplied);
    PushStaysDistinct(b, !arguments.bundle, OfflineNetworks, NothingSupplied);
    PushStaysDistinct(c, !arguments.bundle, OfflineCves, NothingSupplied);
    PushStaysDistinct(d, !arguments.RelatedConfigured(), RelatedDomains, NotConfigured);
  }

  /** The last pushes leave one entry per check, and record every unsupplied input. */
  lemma MissingStayDistinct(skipped: seq<Skip>, arguments: Arguments, transparent: bool)
    requires Distinct(skipped) && forall s :: s in skipped ==> Allowed(arguments, transparent, s.check)
    ensures Distinct(PushMissing(skipped, arguments, transparent))
    ensures skipped <= PushMissing(skipped, arguments, transparent)
    ensures forall c :: c in Names(PushMissing(skipped, arguments, transparent)) <==>
      c in Names(skipped) || Unsupplied(arguments, transparent, c)
  {
    hide Distinct, PushUnsupplied, PushIf;
    if !arguments.IntelligenceSelected() {
      AddSkipKeeps(skipped, IntelligenceCheck, ExcludedByOnly);
    } else {
      PushStaysDistinct(skipped, !transparent, CertificateTransparency, CtNeedsHostname);
      var pushed := PushIf(skipped, !transparent, CertificateTransparency, CtNeedsHostname);
      UnsuppliedStayDistinct(pushed, arguments);
    }
  }

  // ----- What the sources leave -----

  lemma SourcesStayLive(v: Report, core: Report, arguments: Arguments, sources: Sources, transparent: bool,
                        stop: Option<ErrorKind>, cancelled: bool, expired: bool)
    requires Live(v, core, arguments, transparent, cancelled)
    requires SourcesEnd(arguments, sources, stop, cancelled, expired)
    ensures Live(AfterSources(v, arguments, sources, transparent, stop), core, arguments, transparent, cancelled)
  {
    hide Live, Explicit, FinishedLookups, SourceOf;
    var a := if arguments.ExplicitInput() then Explicit(v, arguments, sources.explicitAnswer, stop) else v;
    if arguments.ExplicitInput() {
      ExplicitStaysLive(v, core, arguments, transparent, cancelled, sources.explicitAnswer, stop);
    }
    var b := if !arguments.IntelligenceSelected() then a
             else FinishedLookups(FinishedLookups(a, NetworkRegistration, sources.registrations), BgpOrigin,
                                  sources.routes);
    if arguments.IntelligenceSelected() {
      LookupsStayLive(a, core, arguments, transparent, cancelled, NetworkRegistration, sources.registrations);
      LookupsStayLive(FinishedLookups(a, NetworkRegistration, sources.registrations), core, arguments, transparent,
                      cancelled, BgpOrigin, sources.routes);
    }
    var c := if transparent then SourceOf(b, CertificateTransparency, sources.transparency) else b;
    if transparent {
      SourceStaysLive(b, core, arguments, transparent, cancelled, CertificateTransparency, sources.transparency);
    }
    if arguments.RelatedConfigured() {
      SourceStaysLive(c, core, arguments, transparent, cancelled, RelatedDomains, sources.related);
    }
  }

  /** Every source that was asked answered completely, and no stop came between. */
  predicate AllComplete(arguments: Arguments, sources: Sources, transparent: bool, stop: Option<ErrorKind>) {
    && (arguments.ExplicitInput() ==> stop.None? && sources.explicitAnswer != Ok(false))
    && (arguments.IntelligenceSelected() ==> LookupsComplete(sources.registrations) && LookupsComplete(sources.routes))
    && (transparent ==> sources.transparency == Some(true))
    && (arguments.RelatedConfigured() ==> sources.related == Some(true))
  }

  lemma ExplicitCompletes(v: Report, arguments: Arguments, answer: Result<bool, ()>, stop: Option<ErrorKind>)
    ensures Explicit(v, arguments, answer, stop).status == Completed <==>
      v.status == Completed && stop.None? && answer != Ok(false)
  {
    hide AddSkips, Applicable;
  }

  lemma LookupsCompleteExactly(v: Report, check: Check, l: Lookups)
    ensures FinishedLookups(v, check, l).status == Completed <==> v.status == Completed && LookupsComplete(l)
  {
    hide PutSkip;
  }

  lemma SourceCompletes(v: Report, check: Check, answer: Option<bool>)
    ensures SourceOf(v, check, answer).status == Completed <==> v.status == Completed && answer == Some(true)
  {
    hide AddSkip;
  }

  /** The sources leave a report completed exactly when it was and all of them are complete. */
  lemma CompletedExactly(v: Report, arguments: Arguments, sources: Sources, transparent: bool, stop: Option<ErrorKind>)
    ensures AfterSources(v, arguments, sources, transparent, stop).status == Completed <==>
      v.status == Completed && AllComplete(arguments, sources, transparent, stop)
  {
    hide PutSkip, AddSkip, AddSkips, Applicable;
    hide Explicit, FinishedLookups, SourceOf;
    var a := if arguments.ExplicitInput() then Explicit(v, arguments, sources.explicitAnswer, stop) else v;
    ExplicitCompletes(v, arguments, sources.explicitAnswer, stop);
    LookupsCompleteExactly(a, NetworkRegistration, sources.registrations);
    LookupsCompleteExactly(FinishedLookups(a, NetworkRegistration, sources.registrations), BgpOrigin, sources.routes);
    var b := if !arguments.IntelligenceSelected() then a
             else FinishedLookups(FinishedLookups(a, NetworkRegistration, sources.registrations), BgpOrigin,
                                  sources.routes);
    SourceCompletes(b, CertificateTransparency, sources.transparency);
    var c := if transparent then SourceOf(b, CertificateTransparency, sources.transparency) else b;
    SourceCompletes(c, RelatedDomains, sources.related);
  }

  /** The lookups that did not run or failed have their entry, with the reason. */
  ghost predicate LookupsRecorded(skipped: seq<Skip>, arguments: Arguments, sources: Sources) {
    arguments.IntelligenceSelected() ==>
      && (LookupReason(sources.registrations).Some? ==>
          Skip(NetworkRegistration, LookupReason(sources.registrations).value) in skipped)
      && (LookupReason(sources.routes).Some? ==> Skip(BgpOrigin, LookupReason(sources.routes).value) in skipped)
  }

  lemma ExplicitStaysDistinct(v: Report, arguments: Arguments, answer: Result<bool, ()>, stop: Option<ErrorKind>)
    requires Distinct(v.skipped)
    ensures Distinct(Explicit(v, arguments, answer, stop).skipped)
  {
    hide AddSkips, Applicable, Distinct;
    AddSkipsKeep(v.skipped, Applicable(ExplicitChecks(arguments)), ScanInterrupted);
    AddSkipsKeep(v.skipped, Applicable(ExplicitChecks(arguments)), DeadlineExpired);
  }

  lemma LookupIsRecorded(v: Report, check: Check, l: Lookups)
    requires Distinct(v.skipped)
    ensures Distinct(FinishedLookups(v, check, l).skipped)
    ensures LookupReason(l).Some? ==> Skip(check, LookupReason(l).value) in FinishedLookups(v, check, l).skipped
    ensures forall s :: s in v.skipped && s.check != check ==> s in FinishedLookups(v, check, l).skipped
  {
    hide PutSkip, Distinct;
    if LookupReason(l).Some? {
      PutKeeps(v.skipped, check, LookupReason(l).value);
    }
  }

  lemma SourceKeepsEntries(v: Report, check: Check, answer: Option<bool>)
    ensures v.skipped <= SourceOf(v, check, answer).skipped
  {
    hide AddSkip;
    AddSkipKeeps(v.skipped, check, SourceFailed);
  }

  lemma LookupsAreRecorded(v: Report, arguments: Arguments, sources: Sources, transparent: bool,
                           stop: Option<ErrorKind>)
    requires Distinct(v.skipped)
    ensures LookupsRecorded(AfterSources(v, arguments, sources, transparent, stop).skipped, arguments, sources)
  {
    hide Explicit, FinishedLookups, SourceOf, Distinct, LookupReason;
    var a := if arguments.ExplicitInput() then Explicit(v, arguments, sources.explicitAnswer, stop) else v;
    ExplicitStaysDistinct(v, arguments, sources.explicitAnswer, stop);
    LookupIsRecorded(a, NetworkRegistration, sources.registrations);
    LookupIsRecorded(FinishedLookups(a, NetworkRegistration, sources.registrations), BgpOrigin, sources.routes);
    var b := if !arguments.IntelligenceSelected() then a
             else FinishedLookups(FinishedLookups(a, NetworkRegistration, sources.registrations), BgpOrigin,
                                  sources.routes);
    SourceKeepsEntries(b, CertificateTransparency, sources.transparency);
    var c := if transparent then SourceOf(b, CertificateTransparency, sources.transparency) else b;
    SourceKeepsEntries(c, RelatedDomains, sources.related);
  }

  // ----- A whole run of the command -----

  /** What the command returns: the invariants of a run, after all its steps. */
  ghost predicate CommandReport(v: Report, core: Report, selection: Selection, arguments: Arguments, sources: Sources,
                                transparent: bool, stop: Option<ErrorKind>, noticed: bool, cancelled: bool,
                                expired: bool)
  {
    && v.finished && v.status != NotStarted
    && Sound(v, cancelled)
    && (v.intelligence.Some? && !v.intelligence.value.complete ==> v.status != Completed)
    && (core.status == Interrupted ==> v.status == Interrupted && Count(v.errors, Cancelled) == 1)
    // An interruption has its error unless it was first noticed after the sources.
    && (v.status == Interrupted ==> (Count(v.errors, Cancelled) == 1 <==> core.status == Interrupted || !noticed))
    && (noticed ==> v.status == Interrupted)
    && (forall s :: s in core.skipped ==> s in v.skipped)
    && ExcludedRecorded(v.skipped, selection)
    && LookupsRecorded(v.skipped, arguments, sources)
    && (forall c :: Unsupplied(arguments, transparent, c) ==> c in Names(v.skipped))
    && (v.status == Completed ==> core.status == Completed && AllComplete(arguments, sources, transparent, stop))
    && (!cancelled && !expired && core.status == Completed && AllComplete(arguments, sources, transparent, stop) ==>
          v.status == Completed)
  }

  /** How a run went: where the stages were cut, what stopped the explicit inputs, what the look after
      the sources saw of cancellation and deadline, and what the two looks of the finalization saw. */
  datatype Course = Course(cut: Option<Cut>, stop: Option<ErrorKind>, noticed: bool, overdue: bool,
                           first: Option<ErrorKind>, second: Option<ErrorKind>)

  /** Whatever stopped a step had happened by the look that followed, and nothing is withdrawn. */
  ghost predicate Happens(c: Course, w: World, arguments: Arguments, sources: Sources, cancelled: bool, expired: bool) {
    && Possible(c.cut, c.noticed, c.overdue)
    && (c.cut.Some? ==> Reached(w, arguments.Selected(), c.cut.value.moment))
    && SourcesEnd(arguments, sources, c.stop, c.noticed, c.overdue)
    && Answers(c.first, c.second, c.noticed, cancelled, c.overdue, expired)
  }

  function Transparent(arguments: Arguments, w: World): bool {
    arguments.IntelligenceSelected() && w.hasHostname
  }

  /** The report of the stages, and the report in which the whole run ends. */
  function CoreOf(c: Course, w: World, arguments: Arguments): Report {
    Outcome(w, arguments.Selected(), c.cut)
  }

  function ReportOf(c: Course, w: World, arguments: Arguments, sources: Sources,
                    rules: Observed -> seq<Findings.Finding>): Report {
    var core := CoreOf(c, w, arguments);
    FinalizeOf(Prepared(core, arguments, sources, Transparent(arguments, w), c.stop, c.noticed), c.first, c.second,
               rules(core.observed))
  }

  lemma AfterSourcesIsLive(c: Course, w: World, arguments: Arguments, sources: Sources)
    requires Possible(c.cut, c.noticed, c.overdue) && !w.familyConflict
    requires SourcesEnd(arguments, sources, c.stop, c.noticed, c.overdue)
    ensures var core, transparent := CoreOf(c, w, arguments), Transparent(arguments, w);
      && Ended(core, arguments.Selected(), c.noticed)
      && Live(AfterSources(core, arguments, sources, transparent, c.stop), core, arguments, transparent, c.noticed)
  {
    hide Outcome, Ended, Live, AfterSources, SourcesEnd, HasPreflightError, Possible;
    var core, selection, transparent := CoreOf(c, w, arguments), arguments.Selected(), Transparent(arguments, w);
    OutcomeEnds(w, selection, c.cut, c.noticed, c.overdue);
    CoreIsLive(core, selection, arguments, transparent, c.noticed);
    SourcesStayLive(core, core, arguments, sources, transparent, c.stop, c.noticed, c.overdue);
  }

  lemma NoticeStaysLive(v: Report, core: Report, arguments: Arguments, transparent: bool, cancelled: bool)
    requires Live(v, core, arguments, transparent, cancelled)
    ensures Live(Noticed(v, cancelled), core, arguments, transparent, cancelled)
  {
    hide Live;
    if cancelled {
      InterruptStaysLive(v, core, arguments, transparent);
    }
  }

  lemma EndedLater(core: Report, selection: Selection, cancelled: bool, later: bool)
    requires Ended(core, selection, cancelled) && (cancelled ==> later)
    ensures Ended(core, selection, later)
  {
    hide Count, Indeterminate, HasObservations, HasPreflightError, Distinct, ExcludedRecorded, InterruptionRecorded,
         OnlyCoreChecks;
  }

  /** Finalization completes no report that the command has demoted, and adds no second error to an interruption. */
  lemma StaysUncompleted(v: Report, first: Option<ErrorKind>, second: Option<ErrorKind>,
                         findings: seq<Findings.Finding>)
    requires v.status != NotStarted
    requires first in {None, Some(Cancelled), Some(Timeout)} && second in {None, Some(Cancelled), Some(Timeout)}
    ensures v.status != Completed ==> FinalizeOf(v, first, second, findings).status != Completed
    ensures v.status == Interrupted && first == second == Some(Cancelled) ==>
            FinalizeOf(v, first, second, findings).errors == v.errors
  {
    hide HasPreflightError, AddSkips, Unfinished, HasObservations, Indeterminate;
  }

  lemma UnstoppedKeepsCompleted(v: Report, findings: seq<Findings.Finding>)
    requires v.status == Completed ==> v.errors == [] && !Indeterminate(v.observed.dns)
    ensures v.status == Completed ==> FinalizeOf(v, None, None, findings).status == Completed
  {
    hide HasPreflightError, Indeterminate;
  }

  lemma StopCounts(v: Report, stop: Option<ErrorKind>, moment: Moment)
    requires stop in {None, Some(Cancelled), Some(Timeout)}
    ensures var u := StopOf(v, stop, moment);
      && (stop.None? ==> u == v)
      && (stop == Some(Cancelled) ==> u.status == Interrupted)
      && (stop == Some(Cancelled) ==>
            Count(u.errors, Cancelled) == Count(v.errors, Cancelled) + if v.status == Interrupted then 0 else 1)
      && (stop == Some(Timeout) ==>
          u.status in {Partial, Failed} && Count(u.errors, Cancelled) == Count(v.errors, Cancelled))
  {
    hide HasObservations, AddSkips, Unfinished, Count;
    if stop.Some? && !AlreadyEnded(v.status, stop.value) {
      CountStep(v.errors, StopOf(v, stop, moment).errors[|v.errors|], Cancelled);
    }
  }

  /** An interruption that only finalization brings has its error. */
  lemma FinalizationRecords(v: Report, first: Option<ErrorKind>, second: Option<ErrorKind>,
                            findings: seq<Findings.Finding>)
    requires v.status != Interrupted && !v.finished && !HasPreflightError(v.errors)
    requires first in {None, Some(Cancelled), Some(Timeout)} && second in {None, Some(Cancelled), Some(Timeout)}
    requires first == Some(Cancelled) ==> second == Some(Cancelled)
    ensures FinalizeOf(v, first, second, findings).status == Interrupted ==>
              Count(FinalizeOf(v, first, second, findings).errors, Cancelled) == Count(v.errors, Cancelled) + 1
  {
    hide HasPreflightError, HasObservations, Indeterminate, Count, StopOf;
    var committed := Committed(v, first);
    StopCounts(v, first, DuringFindings);
    StopCounts(Scored(committed, findings), second, AfterFindings);
  }

  lemma CommandEnds(core: Report, selection: Selection, arguments: Arguments, sources: Sources, transparent: bool,
                    stop: Option<ErrorKind>,
                    first: Option<ErrorKind>, second: Option<ErrorKind>, findings: seq<Findings.Finding>,
                    wasCancelled: bool, isCancelled: bool, wasExpired: bool, isExpired: bool)
    requires Live(Noticed(AfterSources(core, arguments, sources, transparent, stop), wasCancelled), core, arguments,
                  transparent, wasCancelled)
    requires Ended(core, selection, isCancelled)
    requires Answers(first, second, wasCancelled, isCancelled, wasExpired, isExpired) && (wasCancelled ==> isCancelled)
    ensures CommandReport(FinalizeOf(Prepared(core, arguments, sources, transparent, stop, wasCancelled), first, second,
                                     findings),
                          core, selection, arguments, sources, transparent, stop, wasCancelled, isCancelled, isExpired)
  {
    var after := AfterSources(core, arguments, sources, transparent, stop);
    var v := Noticed(after, wasCancelled);
    var pushed := Prepared(core, arguments, sources, transparent, stop, wasCancelled);
    hide AfterSources, HasPreflightError, PushMissing, Count, HasObservations, Indeterminate, FinalizeOf, Distinct,
         Names, Selects,
      Allowed, Unsupplied, OnlyCoreChecks, AllComplete, LookupReason;
    MissingStayDistinct(v.skipped, arguments, transparent);
    FinalizeSound(pushed, first, second, findings, wasCancelled, isCancelled, wasExpired, isExpired);
    StaysUncompleted(pushed, first, second, findings);
    CompletedExactly(core, arguments, sources, transparent, stop);
    LookupsAreRecorded(core, arguments, sources, transparent, stop);
    if first.None? && second.None? {
      UnstoppedKeepsCompleted(pushed, findings);
    }
    if v.status != Interrupted {
      FinalizationRecords(pushed, first, second, findings);
    }
  }

  /** Every course that can happen ends in a report with all the invariants of a run. */
  lemma CourseKeeps(c: Course, w: World, arguments: Arguments, sources: Sources,
                    rules: Observed -> seq<Findings.Finding>, cancelled: bool, expired: bool)
    requires Happens(c, w, arguments, sources, cancelled, expired) && !w.familyConflict
    requires c.noticed ==> cancelled
    ensures CommandReport(ReportOf(c, w, arguments, sources, rules), CoreOf(c, w, arguments), arguments.Selected(),
                          arguments, sources, Transparent(arguments, w), c.stop, c.noticed, cancelled, expired)
  {
    hide Outcome, Ended, Live, CommandReport, AfterSources, SourcesEnd, HasPreflightError, FinalizeOf, Prepared,
         Noticed, Possible;
    var core, selection, transparent := CoreOf(c, w, arguments), arguments.Selected(), Transparent(arguments, w);
    AfterSourcesIsLive(c, w, arguments, sources);
    NoticeStaysLive(AfterSources(core, arguments, sources, transparent, c.stop), core, arguments, transparent,
                    c.noticed);
    EndedLater(core, selection, c.noticed, cancelled);
    CommandEnds(core, selection, arguments, sources, transparent, c.stop, c.first, c.second, rules(core.observed),
                c.noticed, cancelled, c.overdue, expired);
  }

  /** A part that `--only` leaves out is neither observed nor without its entry. */
  ghost predicate PartsFit(v: Report, only: set<Part>) {
    only != {} ==>
      && (HttpPart !in only ==> v.observed.http == [] && Skip(Http, ExcludedByOnly) in v.skipped)
      && (TlsPart !in only ==> v.observed.tls == [] && Skip(Tls, ExcludedByOnly) in v.skipped)
      && (only !! {ServicesPart, HttpPart, TlsPart} ==>
            v.observed.services == [] && Skip(Services, ExcludedByOnly) in v.skipped)
      && (only !! {PortsPart, ServicesPart, HttpPart, TlsPart} ==>
            v.observed.hosts == [] && Skip(Ports, ExcludedByOnly) in v.skipped)
  }

  /** What is in the report of a run, said of world, arguments, answers and the stops that were seen. */
  ghost predicate ContentsFit(v: Report, core: Report, c: Course, w: World, arguments: Arguments, sources: Sources,
                              rules: Observed -> seq<Findings.Finding>)
  {
    && v.observed == core.observed && PartsFit(v, arguments.only)
    && EntriesFit(v.skipped, core.skipped, arguments, w.hasHostname, sources, c.stop)
    && IntelligenceFits(v.intelligence, arguments, w.hasHostname, sources, c.stop)
    && v.findings == rules(v.observed) && ScoreFits(v, c.second)
    && (v.status == Interrupted <==> c.second == Some(Cancelled))
    && (v.status == Failed <==> c.second == Some(Timeout) && v.observed == Observed(None, [], [], [], []))
    && (v.status == Completed <==>
        && c.second.None? && Untroubled(w, arguments.Selected())
        && AllAnswered(arguments, w.hasHostname, sources, c.stop))
    && v.status != NotStarted
  }

  lemma ExplicitFailsNone(v: Report, arguments: Arguments, answer: Result<bool, ()>, stop: Option<ErrorKind>)
    requires v.status != Failed
    ensures Explicit(v, arguments, answer, stop).status != Failed
  {
    hide AddSkips, Applicable, ExplicitChecks;
  }

  lemma LookupsFailNone(v: Report, check: Check, l: Lookups)
    requires v.status != Failed
    ensures FinishedLookups(v, check, l).status != Failed
  {
    hide PutSkip, LookupReason, Gathered;
  }

  lemma SourceFailsNone(v: Report, check: Check, answer: Option<bool>)
    requires v.status != Failed
    ensures SourceOf(v, check, answer).status != Failed
  {
    hide AddSkip, Gathered;
  }

  /** Sources interrupt, demote or leave a report, but fail none. */
  lemma SourcesFailNone(v: Report, arguments: Arguments, sources: Sources, transparent: bool, stop: Option<ErrorKind>)
    requires v.status != Failed
    ensures AfterSources(v, arguments, sources, transparent, stop).status != Failed
  {
    hide Explicit, FinishedLookups, SourceOf;
    ExplicitFailsNone(v, arguments, sources.explicitAnswer, stop);
    var a := if arguments.ExplicitInput() then Explicit(v, arguments, sources.explicitAnswer, stop) else v;
    LookupsFailNone(a, NetworkRegistration, sources.registrations);
    LookupsFailNone(FinishedLookups(a, NetworkRegistration, sources.registrations), BgpOrigin, sources.routes);
    var b := if !arguments.IntelligenceSelected() then a
             else FinishedLookups(FinishedLookups(a, NetworkRegistration, sources.registrations), BgpOrigin,
                                  sources.routes);
    SourceFailsNone(b, CertificateTransparency, sources.transparency);
    var c := if transparent then SourceOf(b, CertificateTransparency, sources.transparency) else b;
    SourceFailsNone(c, RelatedDomains, sources.related);
  }

  lemma CompleteExactly(arguments: Arguments, w: World, sources: Sources, stop: Option<ErrorKind>)
    ensures AllComplete(arguments, sources, Transparent(arguments, w), stop) <==>
            AllAnswered(arguments, w.hasHostname, sources, stop)
  {
  }

  lemma PartsExactly(v: Report, core: Report, w: World, arguments: Arguments, cut: Option<Cut>)
    requires core == Outcome(w, arguments.Selected(), cut)
    requires cut.Some? ==> Reached(w, arguments.Selected(), cut.value.moment)
    requires v.observed == core.observed && ExcludedRecorded(v.skipped, arguments.Selected())
    ensures PartsFit(v, arguments.only)
  {
    hide Outcome, Reached;
    SelectedExactly(arguments);
    ExcludedObservesNothing(w, arguments.Selected(), cut);
  }

  /** The report that is finalized, with what it owes to the stages, the sources and the last look. */
  ghost predicate PreparedFits(v: Report, core: Report, after: Report, arguments: Arguments, transparent: bool,
                               noticed: bool)
  {
    && Sound(v, noticed) && !v.finished && !HasPreflightError(v.errors) && v.status != NotStarted
    && v.observed == core.observed && v.intelligence == after.intelligence
    && v.skipped == PushMissing(after.skipped, arguments, transparent)
    && v.status == if noticed then Interrupted else after.status
  }

  lemma PreparedExactly(core: Report, arguments: Arguments, sources: Sources, transparent: bool,
                        stop: Option<ErrorKind>, noticed: bool)
    requires Live(AfterSources(core, arguments, sources, transparent, stop), core, arguments, transparent, noticed)
    ensures PreparedFits(Prepared(core, arguments, sources, transparent, stop, noticed), core,
                         AfterSources(core, arguments, sources, transparent, stop), arguments, transparent, noticed)
  {
    hide AfterSources, PushMissing, HasPreflightError, Distinct, Allowed, Names, Unsupplied, OnlyCoreChecks, Count,
         Indeterminate, HasObservations;
    var after := AfterSources(core, arguments, sources, transparent, stop);
    NoticeStaysLive(after, core, arguments, transparent, noticed);
    MissingStayDistinct(Noticed(after, noticed).skipped, arguments, transparent);
  }

  lemma CourseIsPrepared(c: Course, w: World, arguments: Arguments, sources: Sources, cancelled: bool, expired: bool)
    requires Happens(c, w, arguments, sources, cancelled, expired) && !w.familyConflict
    ensures var core, transparent := CoreOf(c, w, arguments), Transparent(arguments, w);
      && Ended(core, arguments.Selected(), c.noticed)
      && PreparedFits(Prepared(core, arguments, sources, transparent, c.stop, c.noticed), core,
                      AfterSources(core, arguments, sources, transparent, c.stop), arguments, transparent, c.noticed)
  {
    hide Outcome, Ended, Live, AfterSources, SourcesEnd, Prepared, Possible, PreparedFits, Reached, Answers;
    AfterSourcesIsLive(c, w, arguments, sources);
    PreparedExactly(CoreOf(c, w, arguments), arguments, sources, Transparent(arguments, w), c.stop, c.noticed);
  }

  /** What finalization keeps and adds. */
  lemma FinalizedExactly(v: Report, c: Course, findings: seq<Findings.Finding>, cancelled: bool, expired: bool)
    requires Sound(v, c.noticed) && !v.finished && !HasPreflightError(v.errors)
    requires Answers(c.first, c.second, c.noticed, cancelled, c.overdue, expired) && (c.noticed ==> cancelled)
    ensures var u := FinalizeOf(v, c.first, c.second, findings);
      && u.skipped == v.skipped && u.observed == v.observed && u.intelligence == v.intelligence
      && u.findings == findings && ScoreFits(u, c.second)
  {
    hide Sound, HasPreflightError, FinalizeOf, Answers, ScoreFits;
    FinalizeSound(v, c.first, c.second, findings, c.noticed, cancelled, c.overdue, expired);
    ScoredFits(v, c.first, c.second, findings);
  }

  lemma CourseEntries(c: Course, w: World, arguments: Arguments, sources: Sources, cancelled: bool, expired: bool)
    requires Happens(c, w, arguments, sources, cancelled, expired) && !w.familyConflict
    requires Ended(CoreOf(c, w, arguments), arguments.Selected(), c.noticed)
    ensures var core, transparent := CoreOf(c, w, arguments), Transparent(arguments, w);
      var after := AfterSources(core, arguments, sources, transparent, c.stop);
      && EntriesFit(PushMissing(after.skipped, arguments, transparent), core.skipped, arguments, w.hasHostname, sources,
                    c.stop)
      && IntelligenceFits(after.intelligence, arguments, w.hasHostname, sources, c.stop)
  {
    hide Outcome, AfterSources, PushMissing, EntriesFit, IntelligenceFits, Possible, Reached, Answers, Distinct,
         OnlyCoreChecks, Count, Indeterminate, HasObservations, HasPreflightError, ExcludedRecorded;
    var core, transparent := CoreOf(c, w, arguments), Transparent(arguments, w);
    EntriesExactly(core, arguments, w.hasHostname, sources, c.stop, transparent);
    IntelligenceExactly(core, arguments, w.hasHostname, sources, c.stop, transparent);
  }

  /** A run that sees no stop at the end is completed when nothing was amiss, and partial otherwise. */
  lemma UnstoppedCourse(c: Course, w: World, arguments: Arguments, sources: Sources, findings: seq<Findings.Finding>)
    requires c.cut.None? && !c.noticed && !w.familyConflict
    requires var core, transparent := CoreOf(c, w, arguments), Transparent(arguments, w);
      PreparedFits(Prepared(core, arguments, sources, transparent, c.stop, false), core,
                   AfterSources(core, arguments, sources, transparent, c.stop), arguments, transparent, false)
    ensures var v := Prepared(CoreOf(c, w, arguments), arguments, sources, Transparent(arguments, w), c.stop, false);
      var status := FinalizeOf(v, None, None, findings).status;
      && status in {Completed, Partial}
      && (status == Completed <==>
          Untroubled(w, arguments.Selected()) && AllAnswered(arguments, w.hasHostname, sources, c.stop))
  {
    hide AfterSources, PushMissing, HasPreflightError, Indeterminate, HasObservations, Distinct, Count, Untroubled,
         AllAnswered, AllComplete, Unsettled, Prepared, Exposure.ScoreFor;
    var selection := arguments.Selected();
    SelectedExactly(arguments);
    var core, transparent := CoreOf(c, w, arguments), Transparent(arguments, w);
    StatusesExactly(w, selection);
    CompletesExactly(w, selection);
    CompletedExactly(core, arguments, sources, transparent, c.stop);
    CompleteExactly(arguments, w, sources, c.stop);
    SourcesFailNone(core, arguments, sources, transparent, c.stop);
  }

  lemma CourseExcludes(c: Course, w: World, arguments: Arguments, sources: Sources,
                       rules: Observed -> seq<Findings.Finding>, cancelled: bool, expired: bool)
    requires Happens(c, w, arguments, sources, cancelled, expired) && !w.familyConflict
    requires c.noticed ==> cancelled
    ensures ExcludedRecorded(ReportOf(c, w, arguments, sources, rules).skipped, arguments.Selected())
  {
    hide Happens, ReportOf, Sound, ExcludedRecorded, LookupsRecorded, Unsupplied, AllComplete;
    CourseKeeps(c, w, arguments, sources, rules, cancelled, expired);
  }

  /** Contents and status of the report in which a course ends. */
  lemma CourseContains(c: Course, w: World, arguments: Arguments, sources: Sources,
                       rules: Observed -> seq<Findings.Finding>, cancelled: bool, expired: bool)
    requires Happens(c, w, arguments, sources, cancelled, expired) && !w.familyConflict
    requires c.noticed ==> cancelled
    ensures ContentsFit(ReportOf(c, w, arguments, sources, rules), CoreOf(c, w, arguments), c, w, arguments, sources,
                        rules)
  {
    hide Outcome, Ended, AfterSources, PushMissing, SourcesEnd, HasPreflightError, FinalizeOf, Prepared, Sound,
         EntriesFit, IntelligenceFits, PartsFit, ScoreFits, Untroubled, AllAnswered, Reached, HasObservations,
         ExcludedRecorded;
    var core, transparent := CoreOf(c, w, arguments), Transparent(arguments, w);
    var v := Prepared(core, arguments, sources, transparent, c.stop, c.noticed);
    var findings := rules(core.observed);
    CourseIsPrepared(c, w, arguments, sources, cancelled, expired);
    FinalizedExactly(v, c, findings, cancelled, expired);
    CourseEntries(c, w, arguments, sources, cancelled, expired);
    CourseExcludes(c, w, arguments, sources, rules, cancelled, expired);
    PartsExactly(FinalizeOf(v, c.first, c.second, findings), core, w, arguments, c.cut);
    NothingObserved(core.observed);
    if c.second.Some? {
      StoppedStatus(v, c.first, c.second, findings, c.noticed, cancelled, c.overdue, expired);
    } else {
      UnstoppedCourse(c, w, arguments, sources, findings);
    }
  }

  lemma GroundedIsPossible(cut: Option<Cut>, signals: Signals)
    requires Grounded(cut, signals)
    ensures Possible(cut, signals.IsCancelled(), signals.IsExpired())
  {
  }

  lemma PossibleLater(cut: Option<Cut>, cancelled: bool, expired: bool, later: bool, overdue: bool)
    requires Possible(cut, cancelled, expired) && (cancelled ==> later) && (expired ==> overdue)
    ensures Possible(cut, later, overdue)
  {
  }

  method Prepare(report: ScanReport, signals: Signals, arguments: Arguments, sources: Sources, transparent: bool,
                 ghost core: Report, ghost stop: Option<ErrorKind>)
    requires report.View() == AfterSources(core, arguments, sources, transparent, stop)
    modifies report, signals
    ensures signals.now >= old(signals.now)
    ensures report.View() == Prepared(core, arguments, sources, transparent, stop, signals.IsCancelled())
  {
    hide AfterSources, PushMissing;
    var cancelled := signals.Cancelled();
    if cancelled {
      report.status := Interrupted;
      report.message := ScanInterrupted;
    }
    RecordIntelligenceSkips(report, arguments, transparent);
  }

  lemma PreparedIsUnfinished(core: Report, arguments: Arguments, sources: Sources, transparent: bool,
                             stop: Option<ErrorKind>, cancelled: bool)
    requires Live(Noticed(AfterSources(core, arguments, sources, transparent, stop), cancelled), core, arguments,
                  transparent, cancelled)
    ensures var v := Prepared(core, arguments, sources, transparent, stop, cancelled);
      !v.finished && !HasPreflightError(v.errors) && v.observed == core.observed
  {
    hide Live, AfterSources, HasPreflightError, Noticed;
    LiveIsUnfinished(Noticed(AfterSources(core, arguments, sources, transparent, stop), cancelled), core, arguments,
                     transparent, cancelled);
  }

  lemma SourcesEndLater(arguments: Arguments, sources: Sources, stop: Option<ErrorKind>, cancelled: bool, expired: bool,
                        later: bool, overdue: bool)
    requires SourcesEnd(arguments, sources, stop, cancelled, expired) && (cancelled ==> later) && (expired ==> overdue)
    ensures SourcesEnd(arguments, sources, stop, later, overdue)
  {
  }

  /** From the last look at the cancellation to the finalized report. */
  method End(report: ScanReport, signals: Signals, w: World, arguments: Arguments, sources: Sources,
             ghost cut: Option<Cut>, ghost stop: Option<ErrorKind>, rules: Observed -> seq<Findings.Finding>)
    returns (ghost course: Course)
    requires report.View() == AfterSources(Outcome(w, arguments.Selected(), cut), arguments, sources,
                                           Transparent(arguments, w), stop)
    requires !w.familyConflict && Possible(cut, signals.IsCancelled(), signals.IsExpired())
    requires cut.Some? ==> Reached(w, arguments.Selected(), cut.value.moment)
    requires SourcesEnd(arguments, sources, stop, signals.IsCancelled(), signals.IsExpired())
    modifies report, signals
    ensures signals.now >= old(signals.now)
    ensures Happens(course, w, arguments, sources, signals.IsCancelled(), signals.IsExpired())
    ensures course.noticed ==> signals.IsCancelled()
    ensures old(signals.IsCancelled()) ==> course.noticed
    ensures old(signals.IsExpired()) ==> course.overdue
    ensures course.cut == cut && course.stop == stop
    ensures report.View() == ReportOf(course, w, arguments, sources, rules)
  {
    hide Outcome, AfterSources, SourcesEnd, FinalizeOf, Prepared, Possible, HasPreflightError, Ended, Live, Answers;
    ghost var core, transparent := Outcome(w, arguments.Selected(), cut), Transparent(arguments, w);
    ghost var before, expired := signals.IsCancelled(), signals.IsExpired();
    Prepare(report, signals, arguments, sources, Transparent(arguments, w), core, stop);
    course := Course(cut, stop, signals.IsCancelled(), signals.IsExpired(), None, None);
    PossibleLater(cut, before, expired, course.noticed, course.overdue);
    SourcesEndLater(arguments, sources, stop, before, expired, course.noticed, course.overdue);
    AfterSourcesIsLive(course, w, arguments, sources);
    NoticeStaysLive(AfterSources(core, arguments, sources, transparent, stop), core, arguments, transparent,
                    course.noticed);
    PreparedIsUnfinished(core, arguments, sources, transparent, stop, course.noticed);
    ghost var first, second;
    first, second := report.Finalize(signals, rules);
    course := course.(first := first, second := second);
  }

  /**
   The scan command: no report when the command is refused, and otherwise a finished one with one
   entry per check, whatever the sources answer and whenever cancellation and deadline arrive. It is
   the report of a course that has really happened.
   */
  method RunCommand(arguments: Arguments, w: World, sources: Sources, signals: Signals,
                    rules: Observed -> seq<Findings.Finding>)
    returns (outcome: Option<ScanReport>, ghost course: Course)
    modifies signals
    ensures outcome.None? ==> w.familyConflict || (arguments.ExplicitInput() && sources.explicitAnswer.Err?)
    ensures w.familyConflict ==> outcome.None?
    ensures outcome.Some? ==>
              && Happens(course, w, arguments, sources, signals.IsCancelled(), signals.IsExpired())
              && (old(signals.IsCancelled()) ==> course.cut.Some? && course.noticed)
              && (old(signals.IsExpired()) ==> course.cut.Some? && course.overdue)
    ensures outcome.Some? ==> outcome.value.View() == ReportOf(course, w, arguments, sources, rules)
    ensures outcome.Some? ==> CommandReport(
      outcome.value.View(), CoreOf(course, w, arguments), arguments.Selected(), arguments, sources,
      Transparent(arguments, w), course.stop, course.noticed, signals.IsCancelled(), signals.IsExpired())
    ensures outcome.Some? ==>
              ContentsFit(outcome.value.View(), CoreOf(course, w, arguments), course, w, arguments, sources, rules)
  {
    hide Outcome, CommandReport, ContentsFit, Happens, Reached, AfterSources, SourcesEnd, Possible, ReportOf, Answers;
    course := Course(None, None, false, false, None, None);
    if w.familyConflict { return None, course; }
    var report, cut := RunStages(w, arguments.Selected(), signals);
    GroundedIsPossible(cut, signals);
    ghost var before, overdue := signals.IsCancelled(), signals.IsExpired();
    var transparent := Transparent(arguments, w);
    var accepted;
    ghost var stop;
    accepted, stop := GatherIntelligence(report, signals, arguments, sources, transparent);
    if !accepted { return None, course; }
    PossibleLater(cut, before, overdue, signals.IsCancelled(), signals.IsExpired());
    course := End(report, signals, w, arguments, sources, cut, stop, rules);
    CourseKeeps(course, w, arguments, sources, rules, signals.IsCancelled(), signals.IsExpired());
    CourseContains(course, w, arguments, sources, rules, signals.IsCancelled(), signals.IsExpired());
    outcome := Some(report);
  }

  /** The look at the cancellation after the sources: it interrupts without an error. */
  function Noticed(v: Report, cancelled: bool): Report {
    if cancelled then Interrupt(v) else v
  }

  /** The report that is finalized. */
  function Prepared(core: Report, arguments: Arguments, sources: Sources, transparent: bool, stop: Option<ErrorKind>,
                    cancelled: bool): Report {
    var v := Noticed(AfterSources(core, arguments, sources, transparent, stop), cancelled);
    v.(skipped := PushMissing(v.skipped, arguments, transparent))
  }

  // ----- A run that occurs -----

  lemma NothingAsked(core: Report, arguments: Arguments, sources: Sources)
    requires !arguments.ExplicitInput() && !arguments.IntelligenceSelected() && !arguments.RelatedConfigured()
    ensures AfterSources(core, arguments, sources, false, None) == core
  {
    hide Explicit, FinishedLookups, SourceOf;
  }

  /** Without any source to ask nothing records the cancellation of a completed scan. */
  lemma NoticedLate(core: Report, arguments: Arguments, sources: Sources)
    requires core.status == Completed && core.errors == []
    requires arguments == Arguments({PortsPart, ServicesPart, HttpPart, TlsPart}, false, false, false, false)
    ensures Prepared(core, arguments, sources, false, None, true).status == Interrupted
    ensures Prepared(core, arguments, sources, false, None, true).errors == []
  {
    hide AfterSources, PushMissing;
    assert AfterSources(core, arguments, sources, false, None) == core by {
      NothingAsked(core, arguments, sources);
    }
  }

  lemma FinalStatus(v: Report, findings: seq<Findings.Finding>)
    requires v.status == Interrupted
    ensures FinalizeOf(v, Some(Cancelled), Some(Cancelled), findings).status == Interrupted
  {
    hide HasPreflightError;
  }

  /** A scan of the stages alone that is cancelled after them: interrupted, without any error. */
  lemma InterruptedWithoutError(sources: Sources, rules: Observed -> seq<Findings.Finding>)
    ensures var arguments := Arguments({PortsPart, ServicesPart, HttpPart, TlsPart}, false, false, false, false);
      var course := Course(None, None, true, false, Some(Cancelled), Some(Cancelled));
      var v := ReportOf(course, QuietWorld(), arguments, sources, rules);
      && Happens(course, QuietWorld(), arguments, sources, true, false)
      && CoreOf(course, QuietWorld(), arguments).status == Completed && v.status == Interrupted && v.errors == []
  {
    hide QuietWorld, Outcome, HasPreflightError, Prepared, FinalizeOf;
    var arguments := Arguments({PortsPart, ServicesPart, HttpPart, TlsPart}, false, false, false, false);
    assert arguments.Selected() == EVERYTHING && !Transparent(arguments, QuietWorld());
    QuietWorldCompletes();
    var core := Outcome(QuietWorld(), EVERYTHING, None);
    var prepared := Prepared(core, arguments, sources, false, None, true);
    NoticedLate(core, arguments, sources);
    StaysUncompleted(prepared, Some(Cancelled), Some(Cancelled), rules(core.observed));
    FinalStatus(prepared, rules(core.observed));
  }

  /**
   A cancellation that is first noticed after the sources interrupts the report for good, but it has an
   error only if the stages had recorded one.
   */
  lemma LateCancellation(v: Report, first: Option<ErrorKind>, second: Option<ErrorKind>,
                         findings: seq<Findings.Finding>)
    requires Sound(v, true) && !v.finished
    requires first == second == Some(Cancelled)
    ensures var final := FinalizeOf(Interrupt(v), first, second, findings);
      && final.status == Interrupted && final.errors == v.errors
      && (InterruptionRecorded(final) <==> v.status == Interrupted && InterruptionRecorded(v))
  {
    hide HasPreflightError, AddSkips, Unfinished, HasObservations, Indeterminate, Count, Distinct;
    StaysUncompleted(Interrupt(v), first, second, findings);
  }
}
