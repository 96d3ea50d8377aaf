/**
 SourceRecords: what the sources of the scan command leave in the report, said of the arguments and of
 the answers alone: the entry of every intelligence check with its reason, and the intelligence part.
 */
module SourceRecords {
  import opened Wrappers
  import opened Lifecycle
  import opened Engine
  import opened ScanRuns
  import opened ScanCommand

  // ----- What was asked for -----

  /** Nothing was singled out, or intelligence was. */
  predicate WantsIntelligence(a: Arguments) {
    a.only == {} || IntelligencePart in a.only
  }

  /** Some input was supplied that is looked at first. */
  predicate Supplies(a: Arguments) {
    WantsIntelligence(a) && (a.subdomains || a.selectors || a.bundle)
  }

  predicate LookupsComplete(l: Lookups) {
    l.NoAddress? || (!l.failed && l.ending.Done?)
  }

  /** Every source that was asked answered completely, and no stop came between. */
  predicate AllAnswered(a: Arguments, named: bool, sources: Sources, stop: Option<ErrorKind>) {
    && (Supplies(a) ==> stop.None? && sources.explicitAnswer != Ok(false))
    && (WantsIntelligence(a) ==>
          && LookupsComplete(sources.registrations) && LookupsComplete(sources.routes)
          && (named ==> sources.transparency == Some(true)) && (a.relatedKey ==> sources.related == Some(true)))
  }

  // ----- Why a check has an entry -----

  /** An input that was not supplied, or was stopped. */
  function InputReason(supplied: bool, stop: Option<ErrorKind>): Option<Message> {
    if !supplied then Some(NothingSupplied)
    else if stop.None? then None
    else if stop == Some(Cancelled) then Some(ScanInterrupted)
    else Some(DeadlineExpired)
  }

  /** The reason of an intelligence check that has an entry after a run of the command. */
  function Why(a: Arguments, named: bool, sources: Sources, stop: Option<ErrorKind>, check: Check): Option<Message> {
    if !WantsIntelligence(a) then if check == IntelligenceCheck then Some(ExcludedByOnly) else None
    else
      match check
      case SubdomainDns => InputReason(a.subdomains, stop)
      case Dkim => InputReason(a.selectors, stop)
      case OfflineNetworks => InputReason(a.bundle, stop)
      case OfflineCves => InputReason(a.bundle, stop)
      case NetworkRegistration => LookupReason(sources.registrations)
      case BgpOrigin => LookupReason(sources.routes)
      case CertificateTransparency =>
        if !named then Some(CtNeedsHostname) else if sources.transparency.None? then Some(SourceFailed) else None
      case RelatedDomains =>
        if !a.relatedKey then Some(NotConfigured) else if sources.related.None? then Some(SourceFailed) else None
      case _ => None
  }

  /** The entries of the stages, and those of the checks dealt with so far. */
  ghost predicate Entries(skipped: seq<Skip>, core: seq<Skip>, a: Arguments, named: bool, sources: Sources,
                          stop: Option<ErrorKind>, dealt: set<Check>) {
    && Distinct(skipped)
    && forall s :: s in skipped <==>
         s in core || (s.check in dealt && Why(a, named, sources, stop, s.check) == Some(s.reason))
  }

  lemma DistinctCons(first: Skip, rest: seq<Skip>)
    ensures Distinct([]) && (Distinct([first] + rest) <==> Distinct(rest) && forall s :: s in rest ==>
                             s.check != first.check)
    ensures forall s :: s in [first] + rest <==> s == first || s in rest
  {
    var all := [first] + rest;
    assert forall i :: 0 <= i < |rest| ==> all[i + 1] == rest[i];
    if Distinct(all) {
      forall s | s in rest ensures s.check != first.check {
        var i :| 0 <= i < |rest| && rest[i] == s;
        assert all[0].check != all[i + 1].check;
      }
    }
  }

  /** Overwriting touches the entry of the check alone. */
  lemma {:induction false} PutKeeps(skipped: seq<Skip>, check: Check, reason: Message)
    requires Distinct(skipped)
    ensures Distinct(PutSkip(skipped, check, reason))
    ensures forall s :: s in PutSkip(skipped, check, reason) <==>
            s == Skip(check, reason) || (s in skipped && s.check != check)
  {
    hide Distinct;
    if skipped == [] {
      DistinctCons(Skip(check, reason), []);
      assert [Skip(check, reason)] + [] == [Skip(check, reason)];
    } else {
      var first, rest := skipped[0], skipped[1..];
      assert skipped == [first] + rest;
      DistinctCons(first, rest);
      if first.check == check {
        DistinctCons(Skip(check, reason), rest);
      } else {
        PutKeeps(rest, check, reason);
        DistinctCons(first, PutSkip(rest, check, reason));
      }
    }
  }

  lemma NotNamed(skipped: seq<Skip>, core: seq<Skip>, a: Arguments, named: bool, sources: Sources,
                 stop: Option<ErrorKind>, dealt: set<Check>, check: Check)
    requires Entries(skipped, core, a, named, sources, stop, dealt) && OnlyCoreChecks(core)
    requires check !in dealt && StageOf(check).None?
    ensures check !in Names(skipped)
  {
    hide Why, StageOf, Distinct;
  }

  /** A check without an entry gets one, or none is called for. */
  lemma AddEntry(skipped: seq<Skip>, core: seq<Skip>, a: Arguments, named: bool, sources: Sources,
                 stop: Option<ErrorKind>, dealt: set<Check>, check: Check, reason: Message)
    requires Entries(skipped, core, a, named, sources, stop, dealt) && OnlyCoreChecks(core)
    requires check !in dealt && StageOf(check).None? && Why(a, named, sources, stop, check) == Some(reason)
    ensures Entries(skipped + [Skip(check, reason)], core, a, named, sources, stop, dealt + {check})
    ensures AddSkip(skipped, check, reason) == skipped + [Skip(check, reason)]
    ensures Entries(PutSkip(skipped, check, reason), core, a, named, sources, stop, dealt + {check})
  {
    NotNamed(skipped, core, a, named, sources, stop, dealt, check);
    AddSkipKeeps(skipped, check, reason);
    PutKeeps(skipped, check, reason);
    hide Why, StageOf, Distinct, PutSkip;
    assert forall s :: s in skipped ==> s.check != check;
  }

  lemma NoEntry(skipped: seq<Skip>, core: seq<Skip>, a: Arguments, named: bool, sources: Sources,
                stop: Option<ErrorKind>, dealt: set<Check>, check: Check)
    requires Entries(skipped, core, a, named, sources, stop, dealt)
    requires Why(a, named, sources, stop, check).None?
    ensures Entries(skipped, core, a, named, sources, stop, dealt + {check})
  {
    hide Why, Distinct;
  }

  // ----- The entries, step by step -----

  lemma {:induction false} StoppedEntries(skipped: seq<Skip>, core: seq<Skip>, a: Arguments, named: bool,
                                          sources: Sources, stop: Option<ErrorKind>, dealt: set<Check>,
                                          checks: seq<(Check, bool)>, reason: Message)
    requires Entries(skipped, core, a, named, sources, stop, dealt) && OnlyCoreChecks(core)
    requires forall i, j :: 0 <= i < j < |checks| ==> checks[i].0 != checks[j].0
    requires forall i :: 0 <= i < |checks| ==> checks[i].0 !in dealt && StageOf(checks[i].0).None?
    requires forall i :: 0 <= i < |checks| && checks[i].1 ==> Why(a, named, sources, stop, checks[i].0) == Some(reason)
    ensures Entries(AddSkips(skipped, Applicable(checks), reason), core, a, named, sources, stop,
                    dealt + set i | 0 <= i < |checks| && checks[i].1 :: checks[i].0)
  {
    hide Entries, Why, StageOf, AddSkips, Applicable, AddSkip, OnlyCoreChecks;
    var given := set i | 0 <= i < |checks| && checks[i].1 :: checks[i].0;
    if checks == [] {
      NothingApplicable(skipped, reason);
      assert dealt + given == dealt;
    } else {
      var n := |checks| - 1;
      var front, last := checks[..n], checks[n];
      StoppedEntries(skipped, core, a, named, sources, stop, dealt, front, reason);
      var before := set i | 0 <= i < |front| && front[i].1 :: front[i].0;
      assert given == before + if last.1 then {last.0} else {};
      assert checks == front + [last];
      OneApplicable(skipped, front, last, reason);
      if last.1 {
        AddEntry(AddSkips(skipped, Applicable(front), reason), core, a, named, sources, stop, dealt + before, last.0,
                 reason);
        assert dealt + before + {last.0} == dealt + given;
      } else {
        assert dealt + before == dealt + given;
      }
    }
  }

  /** The inputs that were supplied. */
  function Given(a: Arguments): set<Check> {
    (if a.subdomains then {SubdomainDns} else {}) + (if a.selectors then {Dkim} else {})
    + (if a.bundle then {OfflineNetworks, OfflineCves} else {})
  }

  lemma ExplicitChecksGive(a: Arguments)
    ensures var checks := ExplicitChecks(a);
      && (forall i, j :: 0 <= i < j < |checks| ==> checks[i].0 != checks[j].0)
      && (forall i :: 0 <= i < |checks| ==> StageOf(checks[i].0).None?)
      && (set i | 0 <= i < |checks| && checks[i].1 :: checks[i].0) == Given(a)
  {
    var checks := ExplicitChecks(a);
    assert checks[0] == (SubdomainDns, a.subdomains) && checks[1] == (Dkim, a.selectors);
    assert checks[2] == (OfflineNetworks, a.bundle) && checks[3] == (OfflineCves, a.bundle);
  }

  lemma GivenIsStopped(a: Arguments, named: bool, sources: Sources, stop: Option<ErrorKind>)
    requires WantsIntelligence(a) && stop in {Some(Cancelled), Some(Timeout)}
    ensures var checks := ExplicitChecks(a);
      forall i :: 0 <= i < |checks| && checks[i].1 ==>
        Why(a, named, sources, stop, checks[i].0) ==
        Some(if stop == Some(Cancelled) then ScanInterrupted else DeadlineExpired)
  {
  }

  lemma GivenHasNoEntry(skipped: seq<Skip>, core: seq<Skip>, a: Arguments, named: bool, sources: Sources,
                        stop: Option<ErrorKind>)
    requires Entries(skipped, core, a, named, sources, stop, {}) && WantsIntelligence(a)
    requires !Supplies(a) || stop.None?
    ensures Entries(skipped, core, a, named, sources, stop, Given(a))
  {
    hide Distinct;
    assert forall c :: c in Given(a) ==> Why(a, named, sources, stop, c).None?;
  }

  lemma ExplicitEntries(v: Report, core: seq<Skip>, a: Arguments, named: bool, sources: Sources,
                        stop: Option<ErrorKind>)
    requires Entries(v.skipped, core, a, named, sources, stop, {}) && OnlyCoreChecks(core)
    requires WantsIntelligence(a) && stop in {None, Some(Cancelled), Some(Timeout)}
    ensures var u := if Supplies(a) then Explicit(v, a, sources.explicitAnswer, stop) else v;
      Entries(u.skipped, core, a, named, sources, stop, Given(a))
  {
    hide Entries, AddSkips, Applicable, StageOf, OnlyCoreChecks, ExplicitChecks;
    if Supplies(a) && stop.Some? {
      ExplicitChecksGive(a);
      var reason := if stop == Some(Cancelled) then ScanInterrupted else DeadlineExpired;
      GivenIsStopped(a, named, sources, stop);
      StoppedEntries(v.skipped, core, a, named, sources, stop, {}, ExplicitChecks(a), reason);
      assert {} + Given(a) == Given(a);
    } else {
      GivenHasNoEntry(v.skipped, core, a, named, sources, stop);
    }
  }

  lemma LookupEntries(v: Report, core: seq<Skip>, a: Arguments, named: bool, sources: Sources,
                      stop: Option<ErrorKind>, dealt: set<Check>, check: Check, l: Lookups)
    requires Entries(v.skipped, core, a, named, sources, stop, dealt) && OnlyCoreChecks(core)
    requires check !in dealt && StageOf(check).None? && Why(a, named, sources, stop, check) == LookupReason(l)
    ensures Entries(FinishedLookups(v, check, l).skipped, core, a, named, sources, stop, dealt + {check})
  {
    hide Entries, Why, StageOf, OnlyCoreChecks, PutSkip;
    if LookupReason(l).Some? {
      AddEntry(v.skipped, core, a, named, sources, stop, dealt, check, LookupReason(l).value);
    } else {
      NoEntry(v.skipped, core, a, named, sources, stop, dealt, check);
    }
  }

  lemma SourceEntries(v: Report, core: seq<Skip>, a: Arguments, named: bool, sources: Sources,
                      stop: Option<ErrorKind>, dealt: set<Check>, check: Check, answer: Option<bool>)
    requires Entries(v.skipped, core, a, named, sources, stop, dealt) && OnlyCoreChecks(core)
    requires check !in dealt && StageOf(check).None?
    requires Why(a, named, sources, stop, check) == if answer.None? then Some(SourceFailed) else None
    ensures Entries(SourceOf(v, check, answer).skipped, core, a, named, sources, stop, dealt + {check})
  {
    hide Entries, Why, StageOf, OnlyCoreChecks, AddSkip;
    if answer.None? {
      AddEntry(v.skipped, core, a, named, sources, stop, dealt, check, SourceFailed);
    } else {
      NoEntry(v.skipped, core, a, named, sources, stop, dealt, check);
    }
  }

  lemma PushEntries(skipped: seq<Skip>, core: seq<Skip>, a: Arguments, named: bool, sources: Sources,
                    stop: Option<ErrorKind>, dealt: set<Check>, wanted: bool, check: Check, reason: Message)
    requires Entries(skipped, core, a, named, sources, stop, dealt) && OnlyCoreChecks(core)
    requires wanted ==>
               check !in dealt && StageOf(check).None? && Why(a, named, sources, stop, check) == Some(reason)
    requires !wanted ==> check in dealt
    ensures Entries(PushIf(skipped, wanted, check, reason), core, a, named, sources, stop, dealt + {check})
  {
    hide Entries, Why, StageOf, OnlyCoreChecks;
    if wanted {
      AddEntry(skipped, core, a, named, sources, stop, dealt, check, reason);
    } else {
      assert dealt + {check} == dealt;
    }
  }

  /** The checks of the sources that are asked, after those of the supplied inputs. */
  function Asked(a: Arguments, named: bool): set<Check> {
    Given(a) + {NetworkRegistration} + {BgpOrigin} + (if named then {CertificateTransparency} else {})
    + (if a.relatedKey then {RelatedDomains} else {})
  }

  lemma WhyAsked(a: Arguments, named: bool, sources: Sources, stop: Option<ErrorKind>)
    requires WantsIntelligence(a)
    ensures Why(a, named, sources, stop, NetworkRegistration) == LookupReason(sources.registrations)
    ensures Why(a, named, sources, stop, BgpOrigin) == LookupReason(sources.routes)
    ensures named ==> Why(a, named, sources, stop, CertificateTransparency) ==
                      if sources.transparency.None? then Some(SourceFailed) else None
    ensures a.relatedKey ==> Why(a, named, sources, stop, RelatedDomains) ==
                             if sources.related.None? then Some(SourceFailed) else None
  {
  }

  lemma GivenExactly(a: Arguments)
    ensures Given(a) !! {NetworkRegistration, BgpOrigin, CertificateTransparency, RelatedDomains}
  {
  }

  lemma NoStage()
    ensures StageOf(IntelligenceCheck).None? && StageOf(SubdomainDns).None? && StageOf(Dkim).None?
    ensures StageOf(OfflineNetworks).None? && StageOf(OfflineCves).None? && StageOf(NetworkRegistration).None?
    ensures StageOf(BgpOrigin).None? && StageOf(CertificateTransparency).None? && StageOf(RelatedDomains).None?
  {
  }

  lemma AskedEntries(v: Report, core: seq<Skip>, a: Arguments, named: bool, sources: Sources, stop: Option<ErrorKind>)
    requires Entries(v.skipped, core, a, named, sources, stop, {}) && OnlyCoreChecks(core)
    requires WantsIntelligence(a) && stop in {None, Some(Cancelled), Some(Timeout)}
    ensures Entries(AfterSources(v, a, sources, named, stop).skipped, core, a, named, sources, stop, Asked(a, named))
  {
    hide Entries, StageOf, OnlyCoreChecks, Explicit, FinishedLookups, SourceOf, Why, Given;
    WhyAsked(a, named, sources, stop);
    GivenExactly(a);
    ExplicitEntries(v, core, a, named, sources, stop);
    var u := if Supplies(a) then Explicit(v, a, sources.explicitAnswer, stop) else v;
    var dealt := Given(a);
    assert StageOf(NetworkRegistration).None? && StageOf(BgpOrigin).None? by { NoStage(); }
    assert StageOf(CertificateTransparency).None? && StageOf(RelatedDomains).None? by { NoStage(); }
    LookupEntries(u, core, a, named, sources, stop, dealt, NetworkRegistration, sources.registrations);
    u := FinishedLookups(u, NetworkRegistration, sources.registrations);
    dealt := dealt + {NetworkRegistration};
    LookupEntries(u, core, a, named, sources, stop, dealt, BgpOrigin, sources.routes);
    u := FinishedLookups(u, BgpOrigin, sources.routes);
    dealt := dealt + {BgpOrigin};
    if named {
      SourceEntries(u, core, a, named, sources, stop, dealt, CertificateTransparency, sources.transparency);
      u := SourceOf(u, CertificateTransparency, sources.transparency);
      dealt := dealt + {CertificateTransparency};
    }
    if a.relatedKey {
      SourceEntries(u, core, a, named, sources, stop, dealt, RelatedDomains, sources.related);
      dealt := dealt + {RelatedDomains};
    }
    assert dealt == Asked(a, named);
  }

  /** What was not asked for has its reason in that. */
  lemma WhyMissing(a: Arguments, named: bool, sources: Sources, stop: Option<ErrorKind>)
    requires WantsIntelligence(a)
    ensures !named ==> Why(a, named, sources, stop, CertificateTransparency) == Some(CtNeedsHostname)
    ensures !a.subdomains ==> Why(a, named, sources, stop, SubdomainDns) == Some(NothingSupplied)
    ensures !a.selectors ==> Why(a, named, sources, stop, Dkim) == Some(NothingSupplied)
    ensures !a.bundle ==> Why(a, named, sources, stop, OfflineNetworks) == Some(NothingSupplied)
    ensures !a.bundle ==> Why(a, named, sources, stop, OfflineCves) == Some(NothingSupplied)
    ensures !a.relatedKey ==> Why(a, named, sources, stop, RelatedDomains) == Some(NotConfigured)
  {
  }

  lemma AskedExactly(a: Arguments, named: bool)
    ensures CertificateTransparency in Asked(a, named) <==> named
    ensures SubdomainDns in Asked(a, named) <==> a.subdomains
    ensures Dkim in Asked(a, named) <==> a.selectors
    ensures OfflineNetworks in Asked(a, named) <==> a.bundle
    ensures OfflineCves in Asked(a, named) <==> a.bundle
    ensures RelatedDomains in Asked(a, named) <==> a.relatedKey
  {
  }

  lemma PushedInOrder(skipped: seq<Skip>, a: Arguments, named: bool)
    requires WantsIntelligence(a)
    ensures var t := PushIf(skipped, !named, CertificateTransparency, CtNeedsHostname);
      var u := PushIf(t, !a.subdomains, SubdomainDns, NothingSupplied);
      var v := PushIf(u, !a.selectors, Dkim, NothingSupplied);
      var x := PushIf(v, !a.bundle, OfflineNetworks, NothingSupplied);
      var y := PushIf(x, !a.bundle, OfflineCves, NothingSupplied);
      PushMissing(skipped, a, named) == PushIf(y, !a.relatedKey, RelatedDomains, NotConfigured)
  {
    hide PushIf;
  }

  lemma MissingEntries(skipped: seq<Skip>, core: seq<Skip>, a: Arguments, named: bool, sources: Sources,
                       stop: Option<ErrorKind>)
    requires Entries(skipped, core, a, named, sources, stop, Asked(a, named)) && OnlyCoreChecks(core)
    requires WantsIntelligence(a)
    ensures Entries(PushMissing(skipped, a, named), core, a, named, sources, stop,
                    Asked(a, named) + {CertificateTransparency} + {SubdomainDns} + {Dkim} + {OfflineNetworks}
                    + {OfflineCves} + {RelatedDomains})
  {
    hide Entries, StageOf, OnlyCoreChecks, PushIf, Why, Asked, WantsIntelligence;
    NoStage();
    WhyMissing(a, named, sources, stop);
    AskedExactly(a, named);
    PushedInOrder(skipped, a, named);
    var u, dealt := skipped, Asked(a, named);
    PushEntries(u, core, a, named, sources, stop, dealt, !named, CertificateTransparency, CtNeedsHostname);
    u, dealt := PushIf(u, !named, CertificateTransparency, CtNeedsHostname), dealt + {CertificateTransparency};
    PushEntries(u, core, a, named, sources, stop, dealt, !a.subdomains, SubdomainDns, NothingSupplied);
    u, dealt := PushIf(u, !a.subdomains, SubdomainDns, NothingSupplied), dealt + {SubdomainDns};
    PushEntries(u, core, a, named, sources, stop, dealt, !a.selectors, Dkim, NothingSupplied);
    u, dealt := PushIf(u, !a.selectors, Dkim, NothingSupplied), dealt + {Dkim};
    PushEntries(u, core, a, named, sources, stop, dealt, !a.bundle, OfflineNetworks, NothingSupplied);
    u, dealt := PushIf(u, !a.bundle, OfflineNetworks, NothingSupplied), dealt + {OfflineNetworks};
    PushEntries(u, core, a, named, sources, stop, dealt, !a.bundle, OfflineCves, NothingSupplied);
    u, dealt := PushIf(u, !a.bundle, OfflineCves, NothingSupplied), dealt + {OfflineCves};
    PushEntries(u, core, a, named, sources, stop, dealt, !a.relatedKey, RelatedDomains, NotConfigured);
  }

  /** The entries after a run of the command: those of the stages, and one for every intelligence check
      with a reason, with that reason. */
  ghost predicate EntriesFit(skipped: seq<Skip>, core: seq<Skip>, a: Arguments, named: bool, sources: Sources,
                             stop: Option<ErrorKind>)
  {
    forall s :: s in skipped <==> s in core || Why(a, named, sources, stop, s.check) == Some(s.reason)
  }

  lemma DealtFits(skipped: seq<Skip>, core: seq<Skip>, a: Arguments, named: bool, sources: Sources,
                  stop: Option<ErrorKind>, dealt: set<Check>)
    requires Entries(skipped, core, a, named, sources, stop, dealt)
    requires forall c :: Why(a, named, sources, stop, c).Some? ==> c in dealt
    ensures EntriesFit(skipped, core, a, named, sources, stop)
  {
    hide Why, Distinct;
  }

  /** No check has a reason but those that are asked or pushed. */
  lemma EverythingDealt(a: Arguments, named: bool, sources: Sources, stop: Option<ErrorKind>, c: Check)
    requires Why(a, named, sources, stop, c).Some?
    ensures WantsIntelligence(a) ==>
              c in Asked(a, named) + {CertificateTransparency} + {SubdomainDns} + {Dkim} + {OfflineNetworks}
                   + {OfflineCves} + {RelatedDomains}
    ensures !WantsIntelligence(a) ==> c == IntelligenceCheck
  {
    hide LookupReason, InputReason;
  }

  lemma NothingAsked(v: Report, a: Arguments, sources: Sources, named: bool, stop: Option<ErrorKind>)
    requires !WantsIntelligence(a)
    ensures AfterSources(v, a, sources, false, stop) == v
    ensures PushMissing(v.skipped, a, false) == v.skipped + [Skip(IntelligenceCheck, ExcludedByOnly)]
  {
    hide Explicit, FinishedLookups, SourceOf, PushUnsupplied, PushIf;
  }

  lemma EntriesExactly(v: Report, a: Arguments, named: bool, sources: Sources, stop: Option<ErrorKind>,
                       transparent: bool)
    requires Distinct(v.skipped) && OnlyCoreChecks(v.skipped)
    requires transparent <==> WantsIntelligence(a) && named
    requires stop in {None, Some(Cancelled), Some(Timeout)}
    ensures EntriesFit(PushMissing(AfterSources(v, a, sources, transparent, stop).skipped, a, transparent), v.skipped,
                       a, named, sources, stop)
  {
    assert Entries(v.skipped, v.skipped, a, named, sources, stop, {}) by { hide Distinct; }
    assert !WantsIntelligence(a) ==> Why(a, named, sources, stop, IntelligenceCheck) == Some(ExcludedByOnly);
    hide StageOf, OnlyCoreChecks, AfterSources, PushMissing, Distinct, Entries, Why, Asked, WantsIntelligence,
         EntriesFit;
    forall c | Why(a, named, sources, stop, c).Some?
      ensures WantsIntelligence(a) ==>
                c in Asked(a, named) + {CertificateTransparency} + {SubdomainDns} + {Dkim} + {OfflineNetworks}
                     + {OfflineCves} + {RelatedDomains}
      ensures !WantsIntelligence(a) ==> c in {IntelligenceCheck}
    {
      EverythingDealt(a, named, sources, stop, c);
    }
    if WantsIntelligence(a) {
      AskedEntries(v, v.skipped, a, named, sources, stop);
      var asked := AfterSources(v, a, sources, named, stop).skipped;
      MissingEntries(asked, v.skipped, a, named, sources, stop);
      DealtFits(PushMissing(asked, a, named), v.skipped, a, named, sources, stop,
                Asked(a, named) + {CertificateTransparency} + {SubdomainDns} + {Dkim} + {OfflineNetworks}
                + {OfflineCves} + {RelatedDomains});
    } else {
      NothingAsked(v, a, sources, named, stop);
      NoStage();
      AddEntry(v.skipped, v.skipped, a, named, sources, stop, {}, IntelligenceCheck, ExcludedByOnly);
      DealtFits(v.skipped + [Skip(IntelligenceCheck, ExcludedByOnly)], v.skipped, a, named, sources, stop,
                {} + {IntelligenceCheck});
    }
  }

  // ----- The intelligence part -----

  /** Lookups leave a trace as soon as there is an observation, a failure or a stop. */
  predicate LeavesTrace(l: Lookups) {
    l.Lookups? && (l.observed || l.failed || !l.ending.Done?)
  }

  /** The intelligence part exists when something was gathered, it is complete when everything that was asked
      answered completely, and it tells of the sources that failed. */
  ghost predicate IntelligenceFits(i: Option<Intelligence>, a: Arguments, named: bool, sources: Sources,
                                   stop: Option<ErrorKind>)
  {
    var answered := Supplies(a) && stop.None?;
    && (i.Some? <==>
        && WantsIntelligence(a)
        && (answered || LeavesTrace(sources.registrations) || LeavesTrace(sources.routes) || named || a.relatedKey))
    && (i.Some? ==>
        && (i.value.complete <==>
            && (answered ==> sources.explicitAnswer == Ok(true))
            && LookupsComplete(sources.registrations) && LookupsComplete(sources.routes)
            && (named ==> sources.transparency == Some(true)) && (a.relatedKey ==> sources.related == Some(true)))
        && i.value.errors ==
           (if named && sources.transparency.None? then [Skip(CertificateTransparency, SourceFailed)] else [])
           + (if a.relatedKey && sources.related.None? then [Skip(RelatedDomains, SourceFailed)] else []))
  }

  /** The intelligence after the supplied inputs. */
  lemma ExplicitIntelligence(v: Report, a: Arguments, sources: Sources, stop: Option<ErrorKind>)
    requires v.intelligence.None? && (Supplies(a) && stop.None? ==> sources.explicitAnswer.Ok?)
    ensures var u := if Supplies(a) then Explicit(v, a, sources.explicitAnswer, stop) else v;
      u.intelligence == if Supplies(a) && stop.None?
                        then Some(Intelligence(sources.explicitAnswer == Ok(true), [])) else None
  {
    hide AddSkips, Applicable, ExplicitChecks;
  }

  lemma LookupIntelligence(v: Report, check: Check, l: Lookups)
    ensures FinishedLookups(v, check, l).intelligence ==
      if !LeavesTrace(l) then v.intelligence
      else Some(Gathered(v).(complete := Gathered(v).complete && LookupsComplete(l)))
  {
    hide PutSkip;
  }

  lemma SourceIntelligence(v: Report, check: Check, answer: Option<bool>)
    ensures SourceOf(v, check, answer).intelligence.Some?
    ensures SourceOf(v, check, answer).intelligence.value.complete <==> Gathered(v).complete && answer == Some(true)
    ensures Skip(check, SourceFailed) !in Gathered(v).errors ==>
              SourceOf(v, check, answer).intelligence.value.errors ==
              Gathered(v).errors + if answer.None? then [Skip(check, SourceFailed)] else []
  {
    hide AddSkip;
  }

  lemma IntelligenceExactly(v: Report, a: Arguments, named: bool, sources: Sources, stop: Option<ErrorKind>,
                            transparent: bool)
    requires v.intelligence.None? && (transparent <==> WantsIntelligence(a) && named)
    requires Supplies(a) && stop.None? ==> sources.explicitAnswer.Ok?
    ensures IntelligenceFits(AfterSources(v, a, sources, transparent, stop).intelligence, a, named, sources, stop)
  {
    hide Explicit, FinishedLookups, SourceOf;
    if WantsIntelligence(a) {
      ExplicitIntelligence(v, a, sources, stop);
      var u := if Supplies(a) then Explicit(v, a, sources.explicitAnswer, stop) else v;
      LookupIntelligence(u, NetworkRegistration, sources.registrations);
      var x := FinishedLookups(u, NetworkRegistration, sources.registrations);
      LookupIntelligence(x, BgpOrigin, sources.routes);
      var y := FinishedLookups(x, BgpOrigin, sources.routes);
      SourceIntelligence(y, CertificateTransparency, sources.transparency);
      var z := if named then SourceOf(y, CertificateTransparency, sources.transparency) else y;
      SourceIntelligence(z, RelatedDomains, sources.related);
    } else {
      NothingAsked(v, a, sources, named, stop);
    }
  }
}
