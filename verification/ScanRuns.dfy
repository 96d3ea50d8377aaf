/**
 ScanRuns: what holds of every core run, from the first stage to the finalized report, whatever the
 network answers and whenever cancellation and deadline arrive.
 */
module ScanRuns {
  import opened Wrappers
  import opened Lifecycle
  import opened Engine
  import Findings

  // ----- Before the end of a run -----

  ghost predicate ExcludedRecorded(skipped: seq<Skip>, selection: Selection) {
    forall c :: !Selects(selection, c) ==> Skip(c, ExcludedByOnly) in skipped
  }

  ghost predicate OnlyCoreChecks(skipped: seq<Skip>) {
    forall s :: s in skipped ==> StageOf(s.check).Some?
  }

  /** Neither a stop nor a preflight conflict is among the errors. */
  ghost predicate NoStop(errors: seq<ScanError>) {
    forall e :: e in errors ==> e.kind != Cancelled && e.stage != Preflight
  }

  ghost predicate Open(v: Report, selection: Selection) {
    && v.status in {NotStarted, Partial} && !v.finished && v.intelligence.None?
    && NoStop(v.errors)
    && Distinct(v.skipped) && OnlyCoreChecks(v.skipped) && ExcludedRecorded(v.skipped, selection)
  }

  lemma {:induction false} NoStopCounts(errors: seq<ScanError>)
    requires NoStop(errors)
    ensures Count(errors, Cancelled) == 0 && !HasPreflightError(errors)
  {
    if errors != [] {
      var front, last := errors[..|errors| - 1], errors[|errors| - 1];
      assert errors == front + [last];
      assert last in errors;
      forall e | e in front ensures e.kind != Cancelled && e.stage != Preflight {
        assert e in errors;
      }
      NoStopCounts(front);
    }
  }

  lemma {:induction false} TransfersDoNotStop(outcomes: seq<TransferOutcome>)
    ensures NoStop(TransferErrors(outcomes))
  {
    if outcomes != [] {
      TransfersDoNotStop(outcomes[..|outcomes| - 1]);
    }
  }

  lemma NoStopJoins(a: seq<ScanError>, b: seq<ScanError>)
    requires NoStop(a) && NoStop(b)
    ensures NoStop(a + b)
  {
  }

  lemma SkipStaysOpen(v: Report, selection: Selection, check: Check, reason: Option<Message>)
    requires Open(v, selection) && StageOf(check).Some?
    ensures Open(WithSkip(v, check, reason), selection)
  {
    hide Distinct, AddSkip, Names, NoStop, Selects, StageOf;
    if reason.Some? {
      AddSkipKeeps(v.skipped, check, reason.value);
    }
  }

  lemma {:induction false} InUnselected(rows: seq<(Check, bool)>, c: Check)
    ensures c in Unselected(rows) <==> (c, false) in rows
  {
    if rows != [] {
      var front, last := rows[..|rows| - 1], rows[|rows| - 1];
      assert rows == front + [last];
      InUnselected(front, c);
    }
  }

  lemma ExcludedExactly(selection: Selection, c: Check)
    ensures c in Excluded(selection) <==> !Selects(selection, c)
  {
    hide Unselected;
    var rows := SelectionRows(selection);
    InUnselected(rows, c);
    assert rows[0].0 == Ports && rows[1].0 == Services && rows[2].0 == Http && rows[3].0 == Tls;
    if !Selects(selection, c) {
      var i := if c == Ports then 0 else if c == Services then 1 else if c == Http then 2 else 3;
      assert rows[i] == (c, false);
    }
  }

  /** The selection is recorded exactly: one entry for every excluded stage and no other. */
  lemma SelectionRecorded(selection: Selection, s: Skip)
    ensures s in Created(selection).skipped <==> s.reason == ExcludedByOnly && !Selects(selection, s.check)
    ensures Distinct(Created(selection).skipped)
  {
    hide AddSkips, Excluded, Selects;
    AddSkipsKeep([], Excluded(selection), ExcludedByOnly);
    ExcludedExactly(selection, s.check);
    var skipped := Created(selection).skipped;
    assert Names(skipped) == set c | c in Excluded(selection);
    if s.check in Names(skipped) {
      var t :| t in skipped && t.check == s.check;
    }
  }

  lemma CreatedOpen(selection: Selection)
    ensures Open(Created(selection), selection) && Open(Begun(selection), selection)
  {
    hide AddSkips, Distinct;
    forall s ensures s in Created(selection).skipped <==> s.reason == ExcludedByOnly && !Selects(selection, s.check) {
      SelectionRecorded(selection, s);
    }
    SelectionRecorded(selection, Skip(Dns, ExcludedByOnly));
  }

  lemma BeginsClean(selection: Selection)
    ensures Begun(selection).errors == [] && Begun(selection).observed == Observed(None, [], [], [], [])
  {
    hide AddSkips;
  }

  lemma BaselineOpen(w: World, selection: Selection)
    ensures Open(AfterBaseline(w, selection), selection)
  {
    hide Begun, Distinct, OnlyCoreChecks, ExcludedRecorded;
    CreatedOpen(selection);
    BeginsClean(selection);
  }

  lemma DnssecOpen(w: World, selection: Selection)
    ensures Open(AfterDnssec(w, selection), selection)
  {
    hide WithSkip, AfterBaseline, NoStop, Distinct, OnlyCoreChecks, ExcludedRecorded;
    BaselineOpen(w, selection);
    SkipStaysOpen(AfterBaseline(w, selection), selection, DnssecValidation, DnssecSkip(w));
  }

  lemma TransfersOpen(w: World, selection: Selection)
    ensures Open(AfterTransfers(w, selection), selection)
  {
    hide WithSkip, AfterDnssec, NoStop, Distinct, OnlyCoreChecks, ExcludedRecorded;
    DnssecOpen(w, selection);
    var v := AfterDnssec(w, selection);
    var checked := w.Named() && w.HasAuthority();
    if checked && w.transfers.Some? {
      TransfersDoNotStop(w.transfers.value);
      NoStopJoins(v.errors, TransferErrors(w.transfers.value));
    }
    var found := if checked && w.transfers.Some? then v.(errors := v.errors + TransferErrors(w.transfers.value)) else v;
    SkipStaysOpen(if checked then WithTransfers(found, w.transfers) else found, selection,
                  AuthoritativeAxfr, TransferSkip(w));
  }

  lemma WildcardOpen(w: World, selection: Selection)
    ensures Open(AfterWildcard(w, selection), selection)
  {
    hide WithSkip, AfterTransfers, NoStop, Distinct, OnlyCoreChecks, ExcludedRecorded;
    TransfersOpen(w, selection);
    var v := AfterTransfers(w, selection);
    SkipStaysOpen(if w.Named() then WithWildcard(v, w.wildcard) else v, selection, WildcardDns, WildcardSkip(w));
  }

  lemma DanglingOpen(w: World, selection: Selection)
    ensures Open(AfterDangling(w, selection), selection)
  {
    hide WithSkip, AfterWildcard, NoStop, Distinct, OnlyCoreChecks, ExcludedRecorded;
    WildcardOpen(w, selection);
    var v := AfterWildcard(w, selection);
    SkipStaysOpen(if w.Named() && HasAliases(w) then WithDangling(v, w.dangling) else v, selection,
                  DanglingCname, DanglingSkip(w));
  }

  lemma ServicesDoNotStop(w: World)
    ensures NoStop(ServiceErrors(w))
  {
  }

  lemma ServicesOpen(w: World, selection: Selection)
    ensures Open(AfterServices(w, selection), selection)
  {
    hide AfterDangling, NoStop, Distinct, OnlyCoreChecks, ExcludedRecorded, OpenEndpoints;
    DanglingOpen(w, selection);
    assert NoStop(ServiceErrors(w)) by { ServicesDoNotStop(w); }
    NoStopJoins(AfterDangling(w, selection).errors, ServiceErrors(w));
  }

  lemma UnsettledOpen(w: World, selection: Selection)
    ensures Open(Unsettled(w, selection), selection)
  {
    hide WithSkip, AfterDangling, AfterServices, NoStop, Distinct, OnlyCoreChecks, ExcludedRecorded;
    DanglingOpen(w, selection);
    ServicesOpen(w, selection);
    SkipStaysOpen(AfterTls(w, selection), selection, Tls, TlsSkip(w, selection));
  }

  /** Observations do not matter to that. */
  lemma ObservedStaysOpen(v: Report, u: Report, selection: Selection)
    requires Open(v, selection) && u == v.(observed := u.observed)
    ensures Open(u, selection)
  {
    hide NoStop, Distinct, OnlyCoreChecks, ExcludedRecorded;
  }

  lemma DnsCutOpen(w: World, selection: Selection, moment: Moment)
    requires moment in {DuringDnssec, DuringAxfr, DuringWildcard, DuringDangling}
    ensures Open(Collected(w, selection, moment), selection)
  {
    hide AfterBaseline, AfterDnssec, AfterTransfers, AfterWildcard, Open;
    match moment
    case DuringDnssec =>
      BaselineOpen(w, selection);
      ObservedStaysOpen(AfterBaseline(w, selection), Collected(w, selection, moment), selection);
    case DuringAxfr =>
      DnssecOpen(w, selection);
      ObservedStaysOpen(AfterDnssec(w, selection), Collected(w, selection, moment), selection);
    case DuringWildcard =>
      TransfersOpen(w, selection);
      ObservedStaysOpen(AfterTransfers(w, selection), Collected(w, selection, moment), selection);
    case DuringDangling =>
      WildcardOpen(w, selection);
      ObservedStaysOpen(AfterWildcard(w, selection), Collected(w, selection, moment), selection);
  }

  lemma HostCutOpen(w: World, selection: Selection)
    ensures Open(AfterPorts(w, selection), selection) && Open(AfterSsh(w, selection), selection)
    ensures Open(AfterHttp(w, selection), selection) && Open(AfterTls(w, selection), selection)
  {
    hide AfterDangling, AfterServices, Open;
    DanglingOpen(w, selection);
    ServicesOpen(w, selection);
    ObservedStaysOpen(AfterDangling(w, selection), AfterPorts(w, selection), selection);
    ObservedStaysOpen(AfterServices(w, selection), AfterSsh(w, selection), selection);
    ObservedStaysOpen(AfterSsh(w, selection), AfterHttp(w, selection), selection);
    ObservedStaysOpen(AfterHttp(w, selection), AfterTls(w, selection), selection);
  }

  /** Wherever a run is cut, what it has collected is open. */
  lemma CollectedOpen(w: World, selection: Selection, moment: Moment)
    ensures Open(Collected(w, selection, moment), selection)
  {
    hide Begun, AfterDangling, AfterPorts, AfterServices, AfterSsh, AfterHttp, AfterTls, Unsettled, Open,
      WithDnssec, WithTransfers, WithWildcard, WithDangling;
    if moment in {DuringDnssec, DuringAxfr, DuringWildcard, DuringDangling} {
      DnsCutOpen(w, selection, moment);
    } else {
      CreatedOpen(selection);
      DanglingOpen(w, selection);
      ServicesOpen(w, selection);
      HostCutOpen(w, selection);
      UnsettledOpen(w, selection);
    }
  }

  // ----- The end of the stages -----

  lemma OpenIsSound(v: Report, selection: Selection, cancelled: bool)
    requires Open(v, selection)
    ensures Sound(v, cancelled) && InterruptionRecorded(v) && !HasPreflightError(v.errors)
    ensures Sound(SettleOf(v), cancelled) && InterruptionRecorded(SettleOf(v))
  {
    hide NoStop, Distinct, OnlyCoreChecks, ExcludedRecorded, Count, HasPreflightError, Indeterminate, HasObservations;
    NoStopCounts(v.errors);
  }

  /** What stays of a report once its stages have ended. */
  ghost predicate Ended(v: Report, selection: Selection, cancelled: bool) {
    && Sound(v, cancelled) && InterruptionRecorded(v)
    && v.status != NotStarted && !v.finished && v.intelligence.None?
    && OnlyCoreChecks(v.skipped) && ExcludedRecorded(v.skipped, selection)
  }

  lemma UndoneIsCore(stage: Stage, selection: Selection, c: Check)
    requires LeftUndone(stage, selection, c)
    ensures StageOf(c).Some?
  {
  }

  lemma AfterIsStarted(kind: ErrorKind, observed: bool)
    ensures StatusAfter(kind, observed) != NotStarted
  {
  }

  lemma StoppedEnds(v: Report, stage: Stage, selection: Selection, kind: ErrorKind, message: Message, cancelled: bool)
    requires Open(v, selection)
    requires kind == Configuration <==> stage == Preflight
    requires kind == Cancelled ==> cancelled
    ensures Ended(TerminateOf(v, stage, selection, kind, message), selection, cancelled)
    ensures forall c :: LeftUndone(stage, selection, c) ==>
            c in Names(TerminateOf(v, stage, selection, kind, message).skipped)
  {
    hide Sound, InterruptionRecorded, Distinct, NoStop, AddSkips, Unfinished, LeftUndone, StatusAfter,
         HasPreflightError, Selects, StageOf;
    OpenIsSound(v, selection, cancelled);
    TerminateSound(v, stage, selection, kind, message, cancelled);
    TerminateRecords(v, stage, selection, kind, message);
    var after := TerminateOf(v, stage, selection, kind, message);
    forall c | LeftUndone(stage, selection, c) ensures c in Names(after.skipped) {
      if c !in Names(v.skipped) {
        assert Skip(c, message) in after.skipped;
      } else {
        var s :| s in v.skipped && s.check == c;
        assert s in after.skipped;
      }
    }
    forall s | s in after.skipped ensures StageOf(s.check).Some? {
      if s !in v.skipped {
        UndoneIsCore(stage, selection, s.check);
      }
    }
    assert StatusAfter(kind, HasObservations(v.observed)) != NotStarted by {
      AfterIsStarted(kind, HasObservations(v.observed));
    }
  }

  /** The cut has been seen: a cancellation or a deadline that has really passed. */
  predicate Possible(cut: Option<Cut>, cancelled: bool, expired: bool) {
    cut.Some? ==> (cut.value.kind == Cancelled && cancelled) || (cut.value.kind == Timeout && expired)
  }

  lemma StopErrors(v: Report, stage: Stage, selection: Selection, kind: ErrorKind, message: Message)
    requires Open(v, selection)
    ensures HasPreflightError(TerminateOf(v, stage, selection, kind, message).errors) <==> stage == Preflight
  {
    hide NoStop, Distinct, OnlyCoreChecks, ExcludedRecorded, Count, HasPreflightError, AddSkips, StatusAfter;
    NoStopCounts(v.errors);
    PreflightStep(v.errors, ScanError(stage, kind, StatusAfter(kind, HasObservations(v.observed)) != Failed));
  }

  lemma SettledEnds(v: Report, selection: Selection, cancelled: bool)
    requires Open(v, selection)
    ensures Ended(SettleOf(v), selection, cancelled)
    ensures !HasPreflightError(SettleOf(v).errors)
  {
    hide Sound, InterruptionRecorded, NoStop, Distinct, OnlyCoreChecks, ExcludedRecorded, HasPreflightError,
         Indeterminate;
    OpenIsSound(v, selection, cancelled);
  }

  lemma OutcomeEnds(w: World, selection: Selection, cut: Option<Cut>, cancelled: bool, expired: bool)
    requires Possible(cut, cancelled, expired)
    ensures Ended(Outcome(w, selection, cut), selection, cancelled)
    ensures HasPreflightError(Outcome(w, selection, cut).errors) <==> w.familyConflict
    ensures cut.Some? && !w.familyConflict ==>
      forall c :: LeftUndone(StageAt(w, cut.value.moment), selection, c) ==>
             c in Names(Outcome(w, selection, cut).skipped)
  {
    hide Collected, Unsettled, Created, TerminateOf, SettleOf, Open, Ended, LeftUndone, HasPreflightError, Names;
    if w.familyConflict {
      CreatedOpen(selection);
      StoppedEnds(Created(selection), Preflight, selection, Configuration, FamilyConflict, cancelled);
      StopErrors(Created(selection), Preflight, selection, Configuration, FamilyConflict);
    } else if cut.Some? {
      CollectedOpen(w, selection, cut.value.moment);
      var v, stage := Collected(w, selection, cut.value.moment), StageAt(w, cut.value.moment);
      StoppedEnds(v, stage, selection, cut.value.kind, Stopped(cut.value.kind, cut.value.moment), cancelled);
      StopErrors(v, stage, selection, cut.value.kind, Stopped(cut.value.kind, cut.value.moment));
    } else {
      UnsettledOpen(w, selection);
      SettledEnds(Unsettled(w, selection), selection, cancelled);
    }
  }

  // ----- A whole run -----

  predicate CutBy(cut: Option<Cut>, kind: ErrorKind) {
    cut.Some? && cut.value.kind == kind
  }

  lemma EndedIsUnfinished(v: Report, selection: Selection)
    requires Ended(v, selection, false)
    ensures !v.finished
  {
  }

  /** Settling twice is settling once, so an undisturbed run is its last stage settled and scored. */
  lemma Undisturbed(w: World, selection: Selection, findings: seq<Findings.Finding>)
    requires !w.familyConflict
    ensures FinalizeOf(Outcome(w, selection, None), None, None, findings)
      == Scored(SettleOf(Unsettled(w, selection)), findings).(finished := true)
  {
    hide Unsettled, Indeterminate, HasPreflightError, Open, Ended;
    UnsettledOpen(w, selection);
    SettledEnds(Unsettled(w, selection), selection, false);
    EndedIsUnfinished(SettleOf(Unsettled(w, selection)), selection);
  }

  // ----- What an undisturbed run reports -----

  function FullDns(w: World): Option<DnsObservation> {
    if w.baseline.None? then None
    else Some(DnsObservation(
      w.baseline.value.addresses, w.baseline.value.aliases,
      if ByName(w) then Some(w.dnssec) else None,
      if ByName(w) && w.baseline.value.authority then w.transfers else None,
      if ByName(w) then Some(w.wildcard) else None,
      if ByName(w) && w.baseline.value.aliases > 0 then w.dangling else []))
  }

  /** Why a check has an entry after a run that was not stopped, if it has one. */
  function SkipReason(w: World, selection: Selection, check: Check): Option<Message> {
    match check
    case DnssecValidation => DnssecSkip(w)
    case AuthoritativeAxfr => TransferSkip(w)
    case WildcardDns => WildcardSkip(w)
    case DanglingCname => DanglingSkip(w)
    case Tls =>
      if !selection.tls then Some(ExcludedByOnly) else if NoAddressFound(w) then None else TlsSkip(w, selection)
    case Ports => if selection.ports then None else Some(ExcludedByOnly)
    case Services => if selection.services then None else Some(ExcludedByOnly)
    case Http => if selection.http then None else Some(ExcludedByOnly)
    case _ => None
  }

  /** The entries are those of the checks dealt with so far. */
  ghost predicate RecordsExactly(skipped: seq<Skip>, w: World, selection: Selection, dealt: set<Check>) {
    forall s :: s in skipped <==> s.check in dealt && SkipReason(w, selection, s.check) == Some(s.reason)
  }

  lemma SkipRecords(v: Report, w: World, selection: Selection, dealt: set<Check>, check: Check)
    requires RecordsExactly(v.skipped, w, selection, dealt) && check !in dealt
    ensures RecordsExactly(WithSkip(v, check, SkipReason(w, selection, check)).skipped, w, selection, dealt + {check})
  {
    hide SkipReason;
  }

  function FirstDealt(selection: Selection): set<Check> {
    {Ports, Services, Http} + if selection.tls then {} else {Tls}
  }

  lemma BeginRecords(w: World, selection: Selection)
    ensures RecordsExactly(Begun(selection).skipped, w, selection, FirstDealt(selection))
  {
    hide Created, DnssecSkip, TransferSkip, WildcardSkip, DanglingSkip, TlsSkip, NoAddressFound;
    var dealt := FirstDealt(selection);
    forall s ensures s in Begun(selection).skipped <==>
           s.check in dealt && SkipReason(w, selection, s.check) == Some(s.reason) {
      SelectionRecorded(selection, s);
    }
  }

  lemma FirstDealtOnly(selection: Selection)
    ensures FirstDealt(selection) !! {DnssecValidation, AuthoritativeAxfr, WildcardDns, DanglingCname}
  {
  }

  lemma DnsRecords(w: World, selection: Selection)
    ensures RecordsExactly(AfterDangling(w, selection).skipped, w, selection,
                           FirstDealt(selection) + {DnssecValidation, AuthoritativeAxfr, WildcardDns, DanglingCname})
  {
    hide RecordsExactly, FirstDealt, WithSkip, AddSkips, DnssecSkip, TransferSkip, WildcardSkip, DanglingSkip,
         TransferErrors, Begun;
    var dealt := FirstDealt(selection);
    assert dealt !! {DnssecValidation, AuthoritativeAxfr, WildcardDns, DanglingCname} by { FirstDealtOnly(selection); }
    BeginRecords(w, selection);
    SkipRecords(AfterBaseline(w, selection), w, selection, dealt, DnssecValidation);
    assert AfterDnssec(w, selection).skipped ==
           WithSkip(AfterBaseline(w, selection), DnssecValidation, DnssecSkip(w)).skipped;
    var v := AfterDnssec(w, selection);
    var checked := w.Named() && w.HasAuthority();
    var found := if checked && w.transfers.Some? then v.(errors := v.errors + TransferErrors(w.transfers.value)) else v;
    hide AfterBaseline, AfterDnssec;
    SkipRecords(if checked then WithTransfers(found, w.transfers) else found, w, selection,
                dealt + {DnssecValidation}, AuthoritativeAxfr);
    var u := AfterTransfers(w, selection);
    hide AfterTransfers;
    SkipRecords(if w.Named() then WithWildcard(u, w.wildcard) else u, w, selection,
                dealt + {DnssecValidation} + {AuthoritativeAxfr}, WildcardDns);
    var x := AfterWildcard(w, selection);
    hide AfterWildcard;
    SkipRecords(if w.Named() && HasAliases(w) then WithDangling(x, w.dangling) else x, w, selection,
                dealt + {DnssecValidation} + {AuthoritativeAxfr} + {WildcardDns}, DanglingCname);
    assert dealt + {DnssecValidation} + {AuthoritativeAxfr} + {WildcardDns} + {DanglingCname}
      == dealt + {DnssecValidation, AuthoritativeAxfr, WildcardDns, DanglingCname};
  }

  /** A check that is never dealt with has no reason to be skipped. */
  lemma DealtIsEverything(w: World, selection: Selection, skipped: seq<Skip>, dealt: set<Check>)
    requires RecordsExactly(skipped, w, selection, dealt)
    requires forall c :: SkipReason(w, selection, c).Some? ==> c in dealt
    ensures forall s :: s in skipped <==> SkipReason(w, selection, s.check) == Some(s.reason)
  {
    hide SkipReason;
  }

  /**
   The entries of an undisturbed run: one per excluded stage, one per check that does not apply or
   stayed indeterminate, and nothing else.
   */
  lemma SkipsExactly(w: World, selection: Selection)
    requires selection.Closed()
    ensures forall s :: s in Unsettled(w, selection).skipped <==> SkipReason(w, selection, s.check) == Some(s.reason)
  {
    hide RecordsExactly, AfterDangling, AddSkip, NoAddressFound, DnssecSkip, TransferSkip, WildcardSkip, DanglingSkip;
    var dealt := FirstDealt(selection) + {DnssecValidation, AuthoritativeAxfr, WildcardDns, DanglingCname};
    DnsRecords(w, selection);
    if selection.tls && !NoAddressFound(w) {
      SkipRecords(AfterTls(w, selection), w, selection, dealt, Tls);
      DealtIsEverything(w, selection, Unsettled(w, selection).skipped, dealt + {Tls});
    } else {
      DealtIsEverything(w, selection, Unsettled(w, selection).skipped, dealt);
    }
  }

  lemma BeginsOpen(selection: Selection)
    ensures Begun(selection).status == NotStarted
  {
  }

  lemma BaselineExactly(w: World, selection: Selection)
    ensures AfterBaseline(w, selection).observed == Observed(BaselineDns(w), [], [], [], [])
  {
    hide Begun;
    BeginsClean(selection);
  }

  lemma DnssecExactly(w: World, selection: Selection)
    ensures AfterDnssec(w, selection).observed == Observed(PartialDns(w, false, false), [], [], [], [])
    ensures AfterDnssec(w, selection).errors == BaselineErrors(w)
    ensures AfterDnssec(w, selection).status == NotStarted
  {
    hide Begun, BaselineErrors, AddSkip;
    BeginsClean(selection);
    BeginsOpen(selection);
  }

  lemma TransfersExactly(w: World, selection: Selection)
    ensures AfterTransfers(w, selection).observed == Observed(PartialDns(w, true, false), [], [], [], [])
    ensures AfterTransfers(w, selection).errors == DnsErrors(w)
    ensures AfterTransfers(w, selection).status == NotStarted
  {
    hide AfterDnssec, BaselineErrors, TransferErrors, AddSkip;
    DnssecExactly(w, selection);
  }

  lemma WildcardExactly(w: World, selection: Selection)
    ensures AfterWildcard(w, selection).observed == Observed(PartialDns(w, true, true), [], [], [], [])
    ensures AfterWildcard(w, selection).errors == DnsErrors(w)
    ensures AfterWildcard(w, selection).status == NotStarted
  {
    hide AfterTransfers, DnsErrors, AddSkip;
    TransfersExactly(w, selection);
  }

  lemma DnsExactly(w: World, selection: Selection)
    ensures AfterDangling(w, selection).observed == Observed(FullDns(w), [], [], [], [])
    ensures AfterDangling(w, selection).errors == DnsErrors(w)
    ensures AfterDangling(w, selection).status == NotStarted
  {
    hide AfterWildcard, DnsErrors, AddSkip;
    WildcardExactly(w, selection);
  }

  /** The target has a name that was not given as an address. */
  predicate ByName(w: World) { w.hasHostname && !w.explicitIp }

  /** The baseline found an address to scan. */
  predicate FoundAddress(w: World) {
    w.baseline.Some? && exists a :: a in w.baseline.value.addresses
  }

  /** The outcomes of the transfer check, if one was performed. */
  function Transferred(w: World): seq<TransferOutcome> {
    if ByName(w) && w.baseline.Some? && w.baseline.value.authority && w.transfers.Some? then w.transfers.value else []
  }

  /** There are more open ports than the service stage looks at. */
  ghost predicate TooManyEndpoints(w: World, selection: Selection) {
    FoundAddress(w) && selection.services && |OpenPlaces(w.hosts)| > 256
  }

  /** The errors of a run, in order: those of the baseline or that there was none, one per transfer fault,
      and one for too many endpoints. */
  ghost predicate ErrorsOfRun(errors: seq<ScanError>, w: World, selection: Selection) {
    exists first, second, third ::
      && errors == first + second + third
      && BaselineTold(first, w) && TellTransfers(second, Transferred(w))
      && third == if TooManyEndpoints(w, selection) then [ScanError(ServiceStage, Other, true)] else []
  }

  ghost predicate BaselineTold(errors: seq<ScanError>, w: World) {
    if w.baseline.None? then errors == [ScanError(DnsStage, Resolution, true)]
    else
      && |errors| == |w.baseline.value.errors|
      && forall i :: 0 <= i < |errors| ==> TellsLookup(errors[i], w.baseline.value.errors[i])
  }

  lemma BaselineErrorsTold(w: World)
    ensures BaselineTold(BaselineErrors(w), w)
  {
  }

  lemma FoundExactly(w: World)
    ensures FoundAddress(w) <==> !NoAddressFound(w)
  {
    if w.baseline.Some? && w.baseline.value.addresses != {} {
      var a :| a in w.baseline.value.addresses;
    }
  }

  lemma ServiceErrorsTold(w: World, selection: Selection)
    ensures (if !NoAddressFound(w) && selection.services then ServiceErrors(w) else [])
      == if TooManyEndpoints(w, selection) then [ScanError(ServiceStage, Other, true)] else []
  {
    hide OpenEndpoints, OpenPlaces, NoAddressFound, FoundAddress;
    FoundExactly(w);
    OpenEndpointsExactly(w.hosts);
  }

  lemma ErrorsAre(w: World, selection: Selection)
    requires selection.Closed()
    ensures Unsettled(w, selection).errors ==
            DnsErrors(w) + (if !NoAddressFound(w) && selection.services then ServiceErrors(w) else [])
  {
    hide AfterDangling, NoAddressFound, ServiceErrors, DnsErrors, FullDns, AddSkip;
    DnsExactly(w, selection);
  }

  lemma NoTransferErrors()
    ensures TransferErrors([]) == []
  {
  }

  lemma ErrorsTold(w: World, selection: Selection)
    ensures ErrorsOfRun(DnsErrors(w) + (if !NoAddressFound(w) && selection.services then ServiceErrors(w) else []),
                        w, selection)
  {
    hide BaselineErrors, TransferErrors, ServiceErrors, NoAddressFound, TooManyEndpoints, TellTransfers, BaselineTold,
         Faults;
    BaselineErrorsTold(w);
    ServiceErrorsTold(w, selection);
    TransferErrorsTell(Transferred(w));
    assert TransferErrors([]) == [] by { NoTransferErrors(); }
    assert DnsErrors(w) == BaselineErrors(w) + TransferErrors(Transferred(w));
  }

  /** The observations and errors of an undisturbed run: everything that was selected and applies. */
  lemma ObservedExactly(w: World, selection: Selection)
    requires selection.Closed()
    ensures Unsettled(w, selection).observed ==
      if !FoundAddress(w) then Observed(FullDns(w), [], [], [], [])
      else Observed(FullDns(w),
                    if selection.ports then w.hosts else [],
                    if selection.services then w.inspected else [],
                    if selection.http then w.http else [],
                    if selection.tls && ByName(w) then w.tls else [])
    ensures ErrorsOfRun(Unsettled(w, selection).errors, w, selection)
  {
    hide AfterDangling, NoAddressFound, FoundAddress, ServiceErrors, DnsErrors, FullDns, AddSkip, ErrorsOfRun,
         TooManyEndpoints;
    FoundExactly(w);
    DnsExactly(w, selection);
    ErrorsAre(w, selection);
    ErrorsTold(w, selection);
  }

  function DnsErrors(w: World): seq<ScanError> {
    BaselineErrors(w)
    + if w.Named() && w.HasAuthority() && w.transfers.Some? then TransferErrors(w.transfers.value) else []
  }

  /** The observation when the first checks have filled in their part. */
  function PartialDns(w: World, transfers: bool, wildcard: bool): Option<DnsObservation> {
    if w.baseline.None? then None
    else Some(DnsObservation(
      w.baseline.value.addresses, w.baseline.value.aliases,
      if w.Named() then Some(w.dnssec) else None,
      if transfers && w.Named() && w.HasAuthority() then w.transfers else None,
      if wildcard && w.Named() then Some(w.wildcard) else None, []))
  }

  /** The network gave a run nothing to complain of: addresses, no failed lookup or transfer, not too many
      endpoints, and no check without a conclusion. */
  ghost predicate Untroubled(w: World, selection: Selection) {
    && FoundAddress(w) && w.baseline.value.errors == []
    && (forall t :: t in Transferred(w) ==> Harmless(t))
    && !TooManyEndpoints(w, selection)
    && (ByName(w) ==> w.dnssec != IndeterminateProof && w.wildcard != IndeterminateWildcard)
    && (ByName(w) && w.baseline.value.aliases > 0 ==> IndeterminateDestination !in w.dangling)
  }

  lemma NoErrorsExactly(errors: seq<ScanError>, w: World, selection: Selection)
    requires ErrorsOfRun(errors, w, selection)
    ensures errors == [] <==>
            && w.baseline.Some? && w.baseline.value.errors == [] && !TooManyEndpoints(w, selection)
            && forall t :: t in Transferred(w) ==> Harmless(t)
  {
    hide TooManyEndpoints, Faults, Transferred;
    FaultlessExactly(Transferred(w));
  }

  lemma IndeterminateExactly(w: World)
    ensures Indeterminate(FullDns(w)) <==>
            && w.baseline.Some? && ByName(w)
            && (|| w.dnssec == IndeterminateProof || w.wildcard == IndeterminateWildcard
                || (w.baseline.value.aliases > 0 && IndeterminateDestination in w.dangling))
  {
  }

  lemma StatusesExactly(w: World, selection: Selection)
    ensures Unsettled(w, selection).status == if NoAddressFound(w) then Partial else NotStarted
    ensures Unsettled(w, selection).observed.dns == FullDns(w)
  {
    hide AfterDangling, NoAddressFound, FullDns, AddSkip, DnsErrors;
    DnsExactly(w, selection);
  }

  /** An undisturbed run completes exactly when the network gave it nothing to complain of. */
  lemma CompletesExactly(w: World, selection: Selection)
    requires selection.Closed()
    ensures SettleOf(Unsettled(w, selection)).status == Completed <==> Untroubled(w, selection)
  {
    hide AfterDangling, Indeterminate, NoAddressFound, DnsErrors, FullDns, TooManyEndpoints, AddSkip, ErrorsOfRun,
         Transferred;
    ObservedExactly(w, selection);
    NoErrorsExactly(Unsettled(w, selection).errors, w, selection);
    IndeterminateExactly(w);
    FoundExactly(w);
    StatusesExactly(w, selection);
  }

  // ----- How every run ends -----

  /** Interrupted by a cancellation seen at the last look, failed by a deadline without anything observed,
      completed without a stop and without trouble, and partial otherwise. */
  ghost predicate StatusFits(v: Report, w: World, selection: Selection, second: Option<ErrorKind>) {
    var nothing := v.observed == Observed(None, [], [], [], []);
    && (v.status == Interrupted <==> second == Some(Cancelled))
    && (v.status == Failed <==> second == Some(Timeout) && nothing)
    && (selection.Closed() ==> (v.status == Completed <==> second.None? && Untroubled(w, selection)))
    && v.status != NotStarted
  }

  /** The score is that of the findings; it is that of a complete scan exactly when the report was complete and
      nothing skipped at the commit. */
  predicate ScoreFits(v: Report, second: Option<ErrorKind>) {
    && v.score.Some? && v.score == Some(Exposure.ScoreFor(v.findings, v.score.value.incomplete))
    && (second.None? ==> (v.score.value.incomplete <==> v.status != Completed || v.skipped != []))
  }

  lemma NothingObserved(o: Observed)
    ensures HasObservations(o) <==> o != Observed(None, [], [], [], [])
  {
  }

  lemma ConflictFails(v: Report, first: Option<ErrorKind>, second: Option<ErrorKind>, findings: seq<Findings.Finding>,
                      cancelled: bool)
    requires Sound(v, cancelled) && !v.finished && HasPreflightError(v.errors)
    ensures FinalizeOf(v, first, second, findings).status == Failed
  {
    hide HasPreflightError, Indeterminate, HasObservations;
  }

  lemma StoppedStatus(v: Report, first: Option<ErrorKind>, second: Option<ErrorKind>, findings: seq<Findings.Finding>,
                      wasCancelled: bool, isCancelled: bool, wasExpired: bool, isExpired: bool)
    requires Sound(v, wasCancelled) && !v.finished && !HasPreflightError(v.errors)
    requires Answers(first, second, wasCancelled, isCancelled, wasExpired, isExpired) && second.Some?
    ensures var u := FinalizeOf(v, first, second, findings);
      && u.observed == v.observed && u.findings == findings
      && (u.status == Interrupted <==> second == Some(Cancelled))
      && (u.status == Failed <==> second == Some(Timeout) && !HasObservations(v.observed))
      && u.status in {Interrupted, Failed, Partial}
  {
    hide HasPreflightError, HasObservations, Indeterminate, AddSkips, Unfinished, Distinct, Count, Exposure.ScoreFor;
  }

  lemma ScoredFits(v: Report, first: Option<ErrorKind>, second: Option<ErrorKind>, findings: seq<Findings.Finding>)
    requires !v.finished && !HasPreflightError(v.errors)
    ensures FinalizeOf(v, first, second, findings).findings == findings
    ensures ScoreFits(FinalizeOf(v, first, second, findings), second)
  {
    hide HasPreflightError, HasObservations, Indeterminate, AddSkips, Unfinished, StatusAfter, Exposure.Points,
         Exposure.Charges, Exposure.Classify;
  }

  lemma EndedIsSound(v: Report, selection: Selection, cancelled: bool)
    requires Ended(v, selection, cancelled)
    ensures Sound(v, cancelled) && !v.finished && InterruptionRecorded(v) && v.status != NotStarted
    ensures ExcludedRecorded(v.skipped, selection)
  {
  }

  lemma UnstoppedStatus(w: World, selection: Selection, findings: seq<Findings.Finding>)
    requires !w.familyConflict
    ensures var v := FinalizeOf(Outcome(w, selection, None), None, None, findings);
      && v.status in {Completed, Partial}
      && (selection.Closed() ==> (v.status == Completed <==> Untroubled(w, selection)))
  {
    hide Untroubled, Unsettled, FinalizeOf, Indeterminate, Exposure.ScoreFor;
    Undisturbed(w, selection, findings);
    StatusesExactly(w, selection);
    if selection.Closed() {
      CompletesExactly(w, selection);
    }
  }

  /** The status of every run, by the world and the last look at the clock. */
  lemma StatusExactly(w: World, selection: Selection, cut: Option<Cut>, first: Option<ErrorKind>,
                      second: Option<ErrorKind>, findings: seq<Findings.Finding>,
                      wasCancelled: bool, isCancelled: bool, wasExpired: bool, isExpired: bool)
    requires !w.familyConflict && Possible(cut, wasCancelled, wasExpired)
    requires Answers(first, second, wasCancelled, isCancelled, wasExpired, isExpired)
    ensures var v := FinalizeOf(Outcome(w, selection, cut), first, second, findings);
      && StatusFits(v, w, selection, second)
      && v.findings == findings && ScoreFits(v, second)
  {
    hide Outcome, FinalizeOf, HasPreflightError, Untroubled, HasObservations, ScoreFits;
    OutcomeEnds(w, selection, cut, wasCancelled, wasExpired);
    var v := Outcome(w, selection, cut);
    EndedIsSound(v, selection, wasCancelled);
    ScoredFits(v, first, second, findings);
    NothingObserved(v.observed);
    if second.Some? {
      StoppedStatus(v, first, second, findings, wasCancelled, isCancelled, wasExpired, isExpired);
    } else {
      UnstoppedStatus(w, selection, findings);
    }
  }

  /**
   A run with finalization. The report is finished and sound: completed only without errors and
   without an indeterminate check, failed only with a preflight conflict or without observations, and
   interrupted only, then always with exactly one error of its own, when the scan was cancelled.
   Every excluded stage has its entry, and so has every selected check of the stage of a cut or later.
   Status, findings and score are determined by the world and the last look at the clock.
   The report is the finalized outcome of a cut and of two looks at the clock that have really happened.
   */
  method Scan(w: World, selection: Selection, signals: Signals, rules: Observed -> seq<Findings.Finding>)
    returns (report: ScanReport, cut: Option<Cut>, ghost first: Option<ErrorKind>, ghost second: Option<ErrorKind>)
    modifies signals
    ensures signals.now >= old(signals.now)
    ensures report.View() ==
            FinalizeOf(Outcome(w, selection, cut), first, second, rules(Outcome(w, selection, cut).observed))
    ensures Possible(cut, signals.IsCancelled(), signals.IsExpired())
    ensures !w.familyConflict ==>
              Answers(first, second, old(signals.IsCancelled()) || CutBy(cut, Cancelled), signals.IsCancelled(),
                      old(signals.IsExpired()) || CutBy(cut, Timeout), signals.IsExpired())
    ensures report.finished && report.status != NotStarted
    ensures Sound(report.View(), signals.IsCancelled()) && InterruptionRecorded(report.View())
    ensures old(signals.IsCancelled()) && !w.familyConflict ==> report.status == Interrupted
    ensures old(signals.IsExpired()) && !w.familyConflict ==> cut.Some? && report.status != Completed
    ensures ExcludedRecorded(report.skipped, selection)
    ensures w.familyConflict ==> report.status == Failed
    ensures !w.familyConflict ==> StatusFits(report.View(), w, selection, second)
    ensures !w.familyConflict ==> report.findings == rules(report.observed) && ScoreFits(report.View(), second)
    ensures report.skipped == Outcome(w, selection, cut).skipped
    ensures report.observed == Outcome(w, selection, cut).observed
    ensures cut.Some? ==>
              forall c :: LeftUndone(StageAt(w, cut.value.moment), selection, c) ==> c in Names(report.skipped)
    ensures !signals.IsCancelled() && !signals.IsExpired() && !w.familyConflict ==>
      cut.None? && report.View() == Scored(SettleOf(Unsettled(w, selection)), rules(report.observed)).(finished := true)
  {
    hide Outcome, Sound, InterruptionRecorded, ExcludedRecorded, LeftUndone, Names, FinalizeOf, HasPreflightError,
         Unsettled, StatusFits, Untroubled, Ended;
    report, cut := RunStages(w, selection, signals);
    ghost var v := report.View();
    ghost var wasCancelled, wasExpired := signals.IsCancelled(), signals.IsExpired();
    OutcomeEnds(w, selection, cut, wasCancelled, wasExpired);
    EndedIsSound(v, selection, wasCancelled);
    first, second := report.Finalize(signals, rules);
    FinalizeSound(v, first, second, rules(v.observed), wasCancelled, signals.IsCancelled(), wasExpired,
                  signals.IsExpired());
    if w.familyConflict {
      ConflictFails(v, first, second, rules(v.observed), wasCancelled);
    } else {
      StatusExactly(w, selection, cut, first, second, rules(v.observed), wasCancelled, signals.IsCancelled(),
                    wasExpired, signals.IsExpired());
    }
    if !signals.IsCancelled() && !signals.IsExpired() && !w.familyConflict {
      Undisturbed(w, selection, rules(v.observed));
    }
  }

  // ----- Stops and later stages -----

  /** Nothing was observed of the stages that are excluded. */
  predicate OnlySelected(o: Observed, selection: Selection) {
    && (!selection.ports ==> o.hosts == []) && (!selection.services ==> o.services == [])
    && (!selection.http ==> o.http == []) && (!selection.tls ==> o.tls == [])
  }

  predicate DnsOnly(o: Observed) {
    o.hosts == [] && o.services == [] && o.http == [] && o.tls == []
  }

  lemma DnsMomentsObserve(w: World, selection: Selection)
    ensures DnsOnly(Begun(selection).observed) && DnsOnly(AfterBaseline(w, selection).observed)
    ensures DnsOnly(AfterDnssec(w, selection).observed) && DnsOnly(AfterTransfers(w, selection).observed)
    ensures DnsOnly(AfterWildcard(w, selection).observed) && DnsOnly(AfterDangling(w, selection).observed)
  {
    BeginsClean(selection);
    BaselineExactly(w, selection);
    DnssecExactly(w, selection);
    TransfersExactly(w, selection);
    WildcardExactly(w, selection);
    DnsExactly(w, selection);
    hide AfterBaseline, AfterDnssec, AfterTransfers, AfterWildcard, AfterDangling, Begun, FullDns, PartialDns;
  }

  lemma CollectedObserves(w: World, selection: Selection, moment: Moment)
    requires Reached(w, selection, moment) && selection.Closed()
    ensures OnlySelected(Collected(w, selection, moment).observed, selection)
  {
    hide AfterBaseline, AfterDnssec, AfterTransfers, AfterWildcard, AfterDangling, Begun, AddSkip, NoAddressFound,
         ServiceErrors, FullDns;
    DnsMomentsObserve(w, selection);
    if moment == BeforeFindings {
      hide Unsettled;
      ObservedExactly(w, selection);
    }
  }

  lemma UnsettledObserves(w: World, selection: Selection)
    requires selection.Closed()
    ensures OnlySelected(Unsettled(w, selection).observed, selection)
  {
    hide Unsettled, FullDns, FoundAddress, ErrorsOfRun;
    ObservedExactly(w, selection);
  }

  lemma CreatedClean(selection: Selection)
    ensures DnsOnly(Created(selection).observed)
  {
    hide AddSkips;
  }

  /** An excluded stage observes nothing, wherever the run is cut. */
  lemma ExcludedObservesNothing(w: World, selection: Selection, cut: Option<Cut>)
    requires cut.Some? ==> Reached(w, selection, cut.value.moment)
    requires selection.Closed()
    ensures OnlySelected(Outcome(w, selection, cut).observed, selection)
  {
    hide Collected, Unsettled, Created, StatusAfter, Unfinished, AddSkips, Indeterminate;
    if w.familyConflict {
      CreatedClean(selection);
    } else if cut.Some? {
      CollectedObserves(w, selection, cut.value.moment);
    } else {
      UnsettledObserves(w, selection);
    }
  }

  lemma CancelledIsRecorded(w: World, selection: Selection, c: Check)
    requires c in {Ports, Services, Http, Tls} && Selects(selection, c)
    requires !w.familyConflict
    ensures NoAddressFound(w) ==> c in Names(Outcome(w, selection, Some(Cut(Cancelled, BeforeFindings))).skipped)
  {
    hide Outcome, NoAddressFound, Ended;
    OutcomeEnds(w, selection, Some(Cut(Cancelled, BeforeFindings)), true, false);
  }

  /**
   Without addresses the selected later stages end with neither an observation nor an entry, unless
   the scan is cancelled: then they are all recorded. With addresses only a selected TLS stage is
   recorded, when there is no name to validate.
   */
  lemma LaterStagesWithoutStop(w: World, selection: Selection, c: Check)
    requires selection.Closed() && c in {Ports, Services, Http, Tls} && Selects(selection, c)
    requires !w.familyConflict
    ensures c in Names(Outcome(w, selection, None).skipped) <==> c == Tls && !NoAddressFound(w) && !w.Named()
    ensures NoAddressFound(w) ==> c in Names(Outcome(w, selection, Some(Cut(Cancelled, BeforeFindings))).skipped)
  {
    hide Unsettled, NoAddressFound, TerminateOf, Collected, AddSkips;
    SkipsExactly(w, selection);
    var skipped := Unsettled(w, selection).skipped;
    if c == Tls && !NoAddressFound(w) && !w.Named() {
      assert Skip(c, TlsNeedsHostname) in skipped;
    }
    CancelledIsRecorded(w, selection, c);
  }

  lemma CollectedKeepsEarlierStages(w: World, selection: Selection, moment: Moment)
    requires moment in {BeforePorts, DuringPorts, BeforeServices, DuringServices, DuringSsh, BeforeHttp, DuringHttp,
                        BeforeTls, DuringTls}
    ensures var o := Collected(w, selection, moment).observed; var rank := StageRank(StageAt(w, moment));
      && o.dns == FullDns(w)
      && (rank > 2 ==> o.hosts == w.hosts) && (rank > 3 ==> o.services == w.inspected)
      && (rank > 4 && selection.http ==> o.http == w.http)
      && (rank < 3 ==> o.services == []) && (rank < 4 ==> o.http == []) && (moment != DuringTls ==> o.tls == [])
  {
    hide AfterDangling, FullDns, ServiceErrors;
    DnsExactly(w, selection);
  }

  /** A cut keeps everything the earlier stages observed and nothing of the later ones. */
  lemma CutKeepsEarlierStages(w: World, selection: Selection, cut: Cut)
    requires selection.Closed() && !w.familyConflict
    requires cut.moment in {BeforePorts, DuringPorts, BeforeServices, DuringServices, DuringSsh, BeforeHttp, DuringHttp,
                            BeforeTls, DuringTls}
    ensures Outcome(w, selection, Some(cut)).observed.dns == FullDns(w)
    ensures StageRank(StageAt(w, cut.moment)) > 2 ==> Outcome(w, selection, Some(cut)).observed.hosts == w.hosts
    ensures StageRank(StageAt(w, cut.moment)) > 3 ==> Outcome(w, selection, Some(cut)).observed.services == w.inspected
    ensures StageRank(StageAt(w, cut.moment)) > 4 && selection.http ==>
            Outcome(w, selection, Some(cut)).observed.http == w.http
    ensures StageRank(StageAt(w, cut.moment)) < 3 ==> Outcome(w, selection, Some(cut)).observed.services == []
    ensures StageRank(StageAt(w, cut.moment)) < 4 ==> Outcome(w, selection, Some(cut)).observed.http == []
    ensures StageRank(StageAt(w, cut.moment)) < 5 ==> Outcome(w, selection, Some(cut)).observed.tls == []
  {
    hide Collected, FullDns, StatusAfter, AddSkips, Unfinished;
    CollectedKeepsEarlierStages(w, selection, cut.moment);
  }

  // ----- Runs that occur -----

  /** A named target for which every check applies and is conclusive. */
  function QuietWorld(): World {
    World(false, true, false,
          Done, Some(Baseline({1}, 1, [], true)), Done, Secure, Done, Some([Refused]), Done, NotDetected, Done,
          [Resolved], [], [], Done, [], [], [])
  }

  lemma RefusalIsNoError()
    ensures TransferErrors([Refused]) == []
  {
    assert [Refused][..0] == [];
  }

  lemma HasEntry(skipped: seq<Skip>)
    requires skipped != []
    ensures exists s :: s in skipped
  {
    assert skipped[0] in skipped;
  }

  /** Such a run completes, with nothing skipped. */
  lemma QuietWorldCompletes()
    ensures var v := Outcome(QuietWorld(), EVERYTHING, None);
      v.status == Completed && v.skipped == [] && v.errors == [] && !v.finished && HasObservations(v.observed)
  {
    hide Unsettled;
    var w := QuietWorld();
    CompletesExactly(w, EVERYTHING);
    SkipsExactly(w, EVERYTHING);
    ObservedExactly(w, EVERYTHING);
    UnsettledOpen(w, EVERYTHING);
    var skipped := Unsettled(w, EVERYTHING).skipped;
    assert TransferErrors([Refused]) == [] by { RefusalIsNoError(); }
    assert forall c :: SkipReason(w, EVERYTHING, c) == None;
    if skipped != [] {
      HasEntry(skipped);
    }
  }

  /** A deadline that passes during the commit leaves a partial report with a score that calls itself complete. */
  lemma CompleteScoreOfStoppedRun(findings: seq<Findings.Finding>)
    ensures Answers(None, Some(Timeout), false, false, false, true)
    ensures var v := FinalizeOf(Outcome(QuietWorld(), EVERYTHING, None), None, Some(Timeout), findings);
      v.status == Partial && v.score.Some? && !v.score.value.incomplete
  {
    hide QuietWorld, Outcome, HasObservations, Unfinished, AddSkips, Indeterminate;
    QuietWorldCompletes();
    var core := Outcome(QuietWorld(), EVERYTHING, None);
    assert !HasPreflightError(core.errors);
    ScoreBeforeLastStop(core, None, Some(Timeout), findings);
    OutcomeEnds(QuietWorld(), EVERYTHING, None, false, false);
  }
}
