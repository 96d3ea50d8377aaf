/**
 The CNAME pipeline: ordering the observed edges into a chain, classifying each destination once,
 and reporting the destinations that do not exist.
 */
module Cname {
  import opened Wrappers

  const MAX_CNAME_CHAIN_HOPS: nat := 16
  const MAX_MESSAGES: nat := 8
  const MAX_MESSAGE_CHARS: nat := 256

  datatype Hop = Hop(source: string, target: string)

  function FoldChar(c: char): char {
    if 'A' <= c <= 'Z' then ((c as int) + 32) as char else c
  }

  /** `to_ascii_lowercase`; two names match when they fold to the same text. */
  function Fold(s: string): (r: string)
    ensures |r| == |s|
  {
    seq(|s|, i requires 0 <= i < |s| => FoldChar(s[i]))
  }

  /** The same letter, in whatever ASCII case. */
  predicate SameLetter(c: char, d: char) {
    || c == d
    || ('A' <= c <= 'Z' && 'a' <= d <= 'z' && d as int - 'a' as int == c as int - 'A' as int)
    || ('A' <= d <= 'Z' && 'a' <= c <= 'z' && c as int - 'a' as int == d as int - 'A' as int)
  }

  /** Two names fold to the same text exactly when they agree letter by letter but for the case. */
  lemma FoldExactly(a: string, b: string)
    ensures Fold(a) == Fold(b) <==> |a| == |b| && forall i :: 0 <= i < |a| ==> SameLetter(a[i], b[i])
  {
    if Fold(a) == Fold(b) {
      forall i | 0 <= i < |a| ensures SameLetter(a[i], b[i]) {
        assert FoldChar(a[i]) == Fold(a)[i] == Fold(b)[i] == FoldChar(b[i]);
      }
    }
  }

  // ----- The chain -----

  /** The name reached after n hops. */
  function NameAfter(hostname: string, chain: seq<Hop>, n: nat): string
    requires n <= |chain|
  {
    if n == 0 then hostname else chain[n - 1].target
  }

  predicate Linked(hostname: string, chain: seq<Hop>) {
    forall i :: 0 <= i < |chain| ==> Fold(chain[i].source) == Fold(NameAfter(hostname, chain, i))
  }

  predicate DistinctNames(hostname: string, chain: seq<Hop>, n: nat)
    requires n <= |chain|
  {
    forall i, j :: 0 <= i < j < n ==> NameAfter(hostname, chain, i) != NameAfter(hostname, chain, j)
  }

  predicate Visited(hostname: string, chain: seq<Hop>) {
    exists i :: 0 <= i < |chain| && NameAfter(hostname, chain, i) == NameAfter(hostname, chain, |chain|)
  }

  predicate DistinctHops(hops: seq<Hop>) {
    forall i, j :: 0 <= i < j < |hops| ==> hops[i] != hops[j]
  }

  /** Hop n is the first edge, in the set's order, that leaves the name reached and is not used yet. */
  predicate TakesFirst(hostname: string, edges: seq<Hop>, chain: seq<Hop>, n: nat)
    requires n < |chain|
  {
    exists k :: 0 <= k < |edges| && edges[k] == chain[n]
      && forall j :: 0 <= j < k && edges[j] !in chain[..n] ==>
           Fold(edges[j].source) != Fold(NameAfter(hostname, chain, n))
  }

  /** The chain ends at the bound, at a name seen before, or where no unused edge leaves. */
  predicate Ends(hostname: string, edges: seq<Hop>, chain: seq<Hop>) {
    || |chain| == MAX_CNAME_CHAIN_HOPS
    || Visited(hostname, chain)
    || forall k :: 0 <= k < |edges| && edges[k] !in chain ==>
         Fold(edges[k].source) != Fold(NameAfter(hostname, chain, |chain|))
  }

  /** A linked path over distinct names and distinct edges, each the first that could be taken. */
  predicate IsPath(hostname: string, edges: seq<Hop>, chain: seq<Hop>) {
    && Linked(hostname, chain) && DistinctHops(chain) && DistinctNames(hostname, chain, |chain|)
    && forall n :: 0 <= n < |chain| ==> TakesFirst(hostname, edges, chain, n)
  }

  ghost function NamesBefore(hostname: string, chain: seq<Hop>): set<string> {
    set i: nat | i < |chain| :: NameAfter(hostname, chain, i)
  }

  lemma EmptyPath(hostname: string, edges: seq<Hop>)
    ensures IsPath(hostname, edges, [])
  {
  }

  method FindEdge(edges: seq<Hop>, used: seq<Hop>, current: string) returns (k: nat)
    ensures k <= |edges|
    ensures k < |edges| ==> edges[k] !in used && Fold(edges[k].source) == Fold(current)
    ensures forall j :: 0 <= j < k && edges[j] !in used ==> Fold(edges[j].source) != Fold(current)
  {
    k := 0;
    while k < |edges| && (edges[k] in used || Fold(edges[k].source) != Fold(current))
      invariant 0 <= k <= |edges|
      invariant forall j :: 0 <= j < k && edges[j] !in used ==> Fold(edges[j].source) != Fold(current)
    {
      k := k + 1;
    }
  }

  lemma SameNames(hostname: string, chain: seq<Hop>, hop: Hop, i: nat)
    requires i <= |chain|
    ensures NameAfter(hostname, chain + [hop], i) == NameAfter(hostname, chain, i)
    ensures (chain + [hop])[..i] == chain[..i]
  {
  }

  lemma StaysFirst(hostname: string, edges: seq<Hop>, chain: seq<Hop>, hop: Hop, n: nat)
    requires n < |chain| && TakesFirst(hostname, edges, chain, n)
    ensures TakesFirst(hostname, edges, chain + [hop], n)
  {
    hide Fold, NameAfter;
    SameNames(hostname, chain, hop, n);
  }

  lemma IsNextFirst(hostname: string, edges: seq<Hop>, chain: seq<Hop>, k: nat)
    requires k < |edges|
    requires forall j :: 0 <= j < k && edges[j] !in chain ==>
               Fold(edges[j].source) != Fold(NameAfter(hostname, chain, |chain|))
    ensures TakesFirst(hostname, edges, chain + [edges[k]], |chain|)
  {
    hide Fold, NameAfter;
    SameNames(hostname, chain, edges[k], |chain|);
    assert (chain + [edges[k]])[..|chain|] == chain;
  }

  lemma MoreNames(hostname: string, chain: seq<Hop>, hop: Hop)
    ensures NamesBefore(hostname, chain + [hop]) ==
            NamesBefore(hostname, chain) + {NameAfter(hostname, chain, |chain|)}
    ensures forall i :: 0 <= i < |chain| ==> NameAfter(hostname, chain, i) in NamesBefore(hostname, chain)
  {
    forall i | 0 <= i <= |chain|
      ensures NameAfter(hostname, chain + [hop], i) == NameAfter(hostname, chain, i)
    {
      SameNames(hostname, chain, hop, i);
    }
  }

  lemma Extend(hostname: string, edges: seq<Hop>, chain: seq<Hop>, k: nat)
    requires IsPath(hostname, edges, chain) && k < |edges|
    requires NameAfter(hostname, chain, |chain|) !in NamesBefore(hostname, chain)
    requires edges[k] !in chain && Fold(edges[k].source) == Fold(NameAfter(hostname, chain, |chain|))
    requires forall j :: 0 <= j < k && edges[j] !in chain ==>
               Fold(edges[j].source) != Fold(NameAfter(hostname, chain, |chain|))
    ensures IsPath(hostname, edges, chain + [edges[k]])
    ensures NamesBefore(hostname, chain + [edges[k]]) ==
            NamesBefore(hostname, chain) + {NameAfter(hostname, chain, |chain|)}
  {
    hide Fold, TakesFirst, NamesBefore, NameAfter;
    var hop := edges[k];
    forall i | 0 <= i <= |chain|
      ensures NameAfter(hostname, chain + [hop], i) == NameAfter(hostname, chain, i)
    {
      SameNames(hostname, chain, hop, i);
    }
    forall n | 0 <= n < |chain|
      ensures TakesFirst(hostname, edges, chain + [hop], n)
    {
      StaysFirst(hostname, edges, chain, hop, n);
    }
    IsNextFirst(hostname, edges, chain, k);
    MoreNames(hostname, chain, hop);
  }

  /** `edges` lists the ordered set; a removed edge is one that the chain already holds. */
  method OrderedCnameChain(hostname: string, edges: seq<Hop>) returns (chain: seq<Hop>)
    ensures |chain| <= MAX_CNAME_CHAIN_HOPS
    ensures IsPath(hostname, edges, chain)
    ensures Ends(hostname, edges, chain)
  {
    hide Fold, IsPath;
    chain := [];
    EmptyPath(hostname, edges);
    var visited := {};
    var current := hostname;
    while |chain| < MAX_CNAME_CHAIN_HOPS && current !in visited
      invariant |chain| <= MAX_CNAME_CHAIN_HOPS
      invariant current == NameAfter(hostname, chain, |chain|)
      invariant visited == NamesBefore(hostname, chain)
      invariant IsPath(hostname, edges, chain)
      decreases MAX_CNAME_CHAIN_HOPS - |chain|
    {
      var k := FindEdge(edges, chain, current);
      if k == |edges| {
        break;
      }
      var hop := edges[k];
      Extend(hostname, edges, chain, k);
      visited := visited + {current};
      chain := chain + [hop];
      current := hop.target;
    }
  }

  // ----- Classifying the destinations -----

  datatype Outcome = Address | NxDomain | NoAddress | IndeterminateOutcome

  datatype Status = Resolved | StatusNxDomain | StatusNoAddress | Indeterminate

  datatype CheckState = Completed | TimedOut | Cancelled

  /** One lookup as it came out: an outcome with its message, or the end of the whole check. */
  datatype Lookup =
    | Answered(outcome: Outcome, conclusive: bool, message: string)
    | Stopped(state: CheckState)

  datatype Observation = Observation(
    sourceAlias: string,
    canonicalTarget: string,
    status: Status,
    evidence: seq<string>,
    errors: seq<string>)

  function Classify(outcomes: seq<Outcome>): Status {
    if Address in outcomes then Resolved
    else if outcomes != [] && forall o :: o in outcomes ==> o == NxDomain then StatusNxDomain
    else if outcomes != [] && forall o :: o in outcomes ==> o == NoAddress then StatusNoAddress
    else Indeterminate
  }

  function Observe(chain: seq<Hop>): (observations: seq<Observation>)
    ensures |observations| == |chain|
  {
    seq(|chain|, i requires 0 <= i < |chain| =>
      Observation(chain[i].source, chain[i].target, Indeterminate, [], []))
  }

  predicate SameTarget(a: Observation, b: Observation) {
    Fold(a.canonicalTarget) == Fold(b.canonicalTarget)
  }

  predicate SameVerdict(a: Observation, b: Observation) {
    a.status == b.status && a.evidence == b.evidence && a.errors == b.errors
  }

  /** No earlier observation has the destination of the i-th. */
  predicate IsFirst(observations: seq<Observation>, i: nat)
    requires i < |observations|
  {
    forall j :: 0 <= j < i ==> !SameTarget(observations[j], observations[i])
  }

  /** The same positions lead to new destinations. */
  predicate SameFirsts(a: seq<Observation>, b: seq<Observation>) {
    |a| == |b| && forall i :: 0 <= i < |a| ==> (IsFirst(a, i) <==> IsFirst(b, i))
  }

  /** Only verdicts were written. */
  predicate SameHops(a: seq<Observation>, b: seq<Observation>) {
    && |a| == |b|
    && forall i :: 0 <= i < |a| ==>
         a[i].sourceAlias == b[i].sourceAlias && a[i].canonicalTarget == b[i].canonicalTarget
  }

  function At(trace: seq<Lookup>, i: nat): Lookup {
    if i < |trace| then trace[i] else Stopped(TimedOut)
  }

  /** The outcomes of n lookups in a row. */
  function OutcomesFrom(trace: seq<Lookup>, from: nat, n: nat): seq<Outcome> {
    if n == 0 then []
    else
      var last := At(trace, from + n - 1);
      OutcomesFrom(trace, from, n - 1) + [if last.Answered? then last.outcome else IndeterminateOutcome]
  }

  /** The outcomes that the k-th classified destination received, one per query type. */
  function OutcomesOf(trace: seq<Lookup>, k: nat, types: nat): seq<Outcome> {
    OutcomesFrom(trace, k * types, types)
  }

  /** At most 8 different messages of at most 256 characters each are kept. */
  function Push(messages: seq<string>, message: string): seq<string> {
    var kept := if |message| > MAX_MESSAGE_CHARS then message[..MAX_MESSAGE_CHARS] else message;
    if |messages| >= MAX_MESSAGES || kept in messages then messages else messages + [kept]
  }

  /** The observation after n answers in a row: conclusive ones are evidence, the others errors. */
  function Noted(o: Observation, trace: seq<Lookup>, from: nat, n: nat): Observation {
    if n == 0 then o
    else
      var before, last := Noted(o, trace, from, n - 1), At(trace, from + n - 1);
      if !last.Answered? then before
      else if last.conclusive then before.(evidence := Push(before.evidence, last.message))
      else before.(errors := Push(before.errors, last.message))
  }

  /** The observation of a hop before any lookup. */
  function Unasked(o: Observation): Observation {
    o.(status := Indeterminate, evidence := [], errors := [])
  }

  /** The k-th classified destination was asked last: its own lookups say everything it holds. */
  predicate Judged(o: Observation, trace: seq<Lookup>, k: nat, types: nat) {
    o == Noted(Unasked(o), trace, k * types, types).(status := Classify(OutcomesOf(trace, k, types)))
  }

  /** Lookup j was answered in this way. */
  predicate Says(trace: seq<Lookup>, j: nat, outcome: Outcome) {
    At(trace, j).Answered? && At(trace, j).outcome == outcome
  }

  /** The status that the lookups from one on call for. */
  ghost predicate CalledFor(status: Status, trace: seq<Lookup>, from: nat, types: nat) {
    && (status == Resolved <==> exists j :: from <= j < from + types && Says(trace, j, Address))
    && (status == StatusNxDomain <==>
        types > 0 && forall j :: from <= j < from + types ==> Says(trace, j, NxDomain))
    && (status == StatusNoAddress <==>
        types > 0 && forall j :: from <= j < from + types ==> Says(trace, j, NoAddress))
  }

  /** An outcome is among those of n lookups when one of them was answered in this way. */
  lemma {:induction false} OutcomeIn(trace: seq<Lookup>, from: nat, n: nat, outcome: Outcome)
    requires outcome != IndeterminateOutcome
    ensures |OutcomesFrom(trace, from, n)| == n
    ensures outcome in OutcomesFrom(trace, from, n) <==> exists j :: from <= j < from + n && Says(trace, j, outcome)
    ensures (forall o :: o in OutcomesFrom(trace, from, n) ==> o == outcome) <==>
            forall j :: from <= j < from + n ==> Says(trace, j, outcome)
  {
    if n > 0 {
      OutcomeIn(trace, from, n - 1, outcome);
      var last := from + n - 1;
      assert Says(trace, last, outcome) <==> OutcomesFrom(trace, from, n)[n - 1] == outcome;
      var before, all := OutcomesFrom(trace, from, n - 1), OutcomesFrom(trace, from, n);
      assert all == before + [all[n - 1]];
      assert forall o :: o in all <==> o in before || o == all[n - 1];
      assert all[n - 1] in all;
      if forall o :: o in all ==> o == outcome {
        assert forall o :: o in before ==> o == outcome;
      }
      if forall j :: from <= j < from + n ==> Says(trace, j, outcome) {
        assert Says(trace, last, outcome);
        assert forall j :: from <= j < from + (n - 1) ==> Says(trace, j, outcome);
      }
    }
  }

  /** Classification says what the lookups said. */
  lemma ClassifiesExactly(trace: seq<Lookup>, from: nat, types: nat)
    ensures CalledFor(Classify(OutcomesFrom(trace, from, types)), trace, from, types)
  {
    hide OutcomesFrom;
    OutcomeIn(trace, from, types, Address);
    OutcomeIn(trace, from, types, NxDomain);
    OutcomeIn(trace, from, types, NoAddress);
    var outcomes := OutcomesFrom(trace, from, types);
    assert outcomes != [] ==> outcomes[0] in outcomes;
  }

  predicate AllAnswered(trace: seq<Lookup>, from: nat, to: nat) {
    forall j :: from <= j < to ==> At(trace, j).Answered?
  }

  /** Asks for one destination, type after type; stops at the first stop. */
  method Query(trace: seq<Lookup>, next0: nat, types: nat, observation0: Observation)
    returns (outcomes: seq<Outcome>, next: nat, observation: Observation, stopped: Option<CheckState>)
    ensures next0 <= next <= next0 + types && AllAnswered(trace, next0, next)
    ensures observation == Noted(observation0, trace, next0, next - next0)
    ensures stopped.None? ==> next == next0 + types && outcomes == OutcomesFrom(trace, next0, types)
    ensures stopped.Some? ==> next < next0 + types && At(trace, next) == Stopped(stopped.value)
  {
    outcomes, next, observation, stopped := [], next0, observation0, None;
    ghost var n := 0;
    while |outcomes| < types
      invariant n == |outcomes| <= types && next == next0 + n && stopped.None?
      invariant AllAnswered(trace, next0, next)
      invariant observation == Noted(observation0, trace, next0, n)
      invariant outcomes == OutcomesFrom(trace, next0, n)
      decreases types - |outcomes|
    {
      match At(trace, next) {
        case Stopped(state) =>
          stopped := Some(state);
          return;
        case Answered(outcome, conclusive, message) =>
          if conclusive {
            observation := observation.(evidence := Push(observation.evidence, message));
          } else {
            observation := observation.(errors := Push(observation.errors, message));
          }
          outcomes := outcomes + [outcome];
          next := next + 1;
          n := n + 1;
      }
    }
  }

  /** Answers add evidence and errors and change nothing else. */
  lemma {:induction false} NotedKeepsTheHop(o: Observation, trace: seq<Lookup>, from: nat, n: nat)
    ensures Noted(o, trace, from, n).(evidence := [], errors := []) == o.(evidence := [], errors := [])
  {
    if n > 0 {
      NotedKeepsTheHop(o, trace, from, n - 1);
    }
  }

  /** The classified destinations: the first appearances before i, in order. */
  ghost predicate Firsts(observations: seq<Observation>, classified: seq<nat>, i: nat)
    requires i <= |observations|
  {
    && (forall k :: 0 <= k < |classified| ==> classified[k] < i && IsFirst(observations, classified[k]))
    && (forall j, k :: 0 <= j < k < |classified| ==> classified[j] < classified[k])
    && (forall j :: 0 <= j < i && IsFirst(observations, j) ==> j in classified)
  }

  /** Each classified destination has the status, evidence and errors of its own lookups; hops with
      the same destination share them; what was not reached is indeterminate. */
  ghost predicate Verdicts(observations: seq<Observation>, trace: seq<Lookup>, types: nat,
                           classified: seq<nat>, i: nat)
    requires i <= |observations|
    requires forall k :: 0 <= k < |classified| ==> classified[k] < i
  {
    && (forall k :: 0 <= k < |classified| ==>
          Judged(observations[classified[k]], trace, k, types))
    && (forall j, k :: 0 <= j < i && 0 <= k < i && SameTarget(observations[j], observations[k]) ==>
          SameVerdict(observations[j], observations[k]))
    && (forall j :: i <= j < |observations| ==> observations[j].status == Indeterminate)
  }

  ghost predicate Progress(observations: seq<Observation>, trace: seq<Lookup>, types: nat,
                           classified: seq<nat>, i: nat)
    requires i <= |observations|
  {
    Firsts(observations, classified, i) && Verdicts(observations, trace, types, classified, i)
  }

  /** The memo maps the folded name of every classified destination to its index. */
  ghost predicate MemoTracks(observations: seq<Observation>, classified: seq<nat>, memo: map<string, nat>) {
    && (forall name :: name in memo ==> memo[name] in classified)
    && (forall i :: i in classified ==> i < |observations|)
    && (forall name :: name in memo ==> Fold(observations[memo[name]].canonicalTarget) == name)
    && (forall i :: i in classified ==> Fold(observations[i].canonicalTarget) in memo)
  }

  /** From index on the observations are those of hops before any lookup. */
  predicate Untouched(observations: seq<Observation>, chain: seq<Hop>, index: nat) {
    |observations| == |chain| && forall k :: index <= k < |chain| ==> observations[k] == Observe(chain)[k]
  }

  lemma Touched(before: seq<Observation>, chain: seq<Hop>, index: nat, o: Observation)
    requires index < |before| && Untouched(before, chain, index)
    ensures Untouched(before[index := o], chain, index + 1)
    ensures Unasked(before[index]) == before[index]
  {
  }

  /** The check was stopped by lookup j, the next destination's: what its lookups had said by then
      is kept on its first hop, everything after that hop is as it was. */
  ghost predicate StoppedAt(observations: seq<Observation>, chain: seq<Hop>, trace: seq<Lookup>, types: nat,
                            classified: seq<nat>, lookups: nat, state: CheckState, i: nat, j: nat) {
    && i < |observations| == |chain| && lookups <= j < lookups + types
    && Progress(observations, trace, types, classified, i)
    && At(trace, j) == Stopped(state) && AllAnswered(trace, lookups, j)
    && observations[i] == Noted(Observe(chain)[i], trace, lookups, j - lookups)
    && Untouched(observations, chain, i + 1)
  }

  lemma Start(chain: seq<Hop>, trace: seq<Lookup>, types: nat)
    ensures Chased(chain, Observe(chain), trace, types, [], map[], 0, 0)
  {
  }

  lemma KnownIsEarlier(observations: seq<Observation>, trace: seq<Lookup>, types: nat,
                       classified: seq<nat>, memo: map<string, nat>, index: nat)
    requires index < |observations| && Progress(observations, trace, types, classified, index)
    requires MemoTracks(observations, classified, memo)
    ensures forall name :: name in memo ==> memo[name] < index
  {
    hide Fold, Judged;
  }

  /** A rewritten verdict does not change which destinations are which. */
  lemma FirstsKept(before: seq<Observation>, after: seq<Observation>, i: nat)
    requires SameHops(before, after) && i < |before|
    ensures IsFirst(before, i) <==> IsFirst(after, i)
  {
    hide Fold;
  }

  lemma Rewritten(chain: seq<Hop>, before: seq<Observation>, index: nat, o: Observation)
    requires SameHops(before, Observe(chain)) && index < |before| && SameHop(o, before[index])
    ensures SameHops(before, before[index := o]) && SameHops(before[index := o], Observe(chain))
    ensures SameFirsts(before, before[index := o])
  {
    hide Fold;
    var after := before[index := o];
    forall i | 0 <= i < |before| ensures IsFirst(before, i) <==> IsFirst(after, i) {
      FirstsKept(before, after, i);
    }
  }

  lemma NotFirst(observations: seq<Observation>, i: nat, j: nat)
    requires i < j < |observations| && SameTarget(observations[i], observations[j])
    ensures !IsFirst(observations, j)
  {
    hide Fold;
  }

  lemma SharedMemo(before: seq<Observation>, o: Observation, classified: seq<nat>, memo: map<string, nat>, index: nat)
    requires index < |before| && SameHop(o, before[index]) && MemoTracks(before, classified, memo)
    ensures MemoTracks(before[index := o], classified, memo)
  {
    hide Fold;
  }

  lemma SharedFirsts(before: seq<Observation>, after: seq<Observation>, classified: seq<nat>, index: nat)
    requires index < |before| == |after| && Firsts(before, classified, index) && !IsFirst(before, index)
    requires SameFirsts(before, after)
    ensures Firsts(after, classified, index + 1)
  {
    hide Fold, IsFirst;
  }

  lemma SharedVerdicts(before: seq<Observation>, o: Observation, trace: seq<Lookup>, types: nat, classified: seq<nat>,
                       known: nat, index: nat)
    requires known < index < |before| && SameHop(o, before[index])
    requires Firsts(before, classified, index) && Verdicts(before, trace, types, classified, index)
    requires SameTarget(before[known], before[index]) && SameVerdict(o, before[known])
    ensures Verdicts(before[index := o], trace, types, classified, index + 1)
  {
    hide Fold, Judged, IsFirst;
    var after := before[index := o];
    forall j | 0 <= j < index && SameTarget(after[j], after[index])
      ensures SameVerdict(after[j], after[index])
    {
      assert SameTarget(before[j], before[known]);
    }
  }

  /** A destination known already: its verdict is copied. */
  lemma Shared(before: seq<Observation>, o: Observation, trace: seq<Lookup>, types: nat,
               classified: seq<nat>, memo: map<string, nat>, index: nat)
    requires index < |before| && SameHop(o, before[index]) && MemoTracks(before, classified, memo)
    requires SameFirsts(before, before[index := o])
    requires Progress(before, trace, types, classified, index)
    requires Fold(before[index].canonicalTarget) in memo && memo[Fold(before[index].canonicalTarget)] < index
    requires SameVerdict(o, before[memo[Fold(before[index].canonicalTarget)]])
    ensures MemoTracks(before[index := o], classified, memo)
    ensures Progress(before[index := o], trace, types, classified, index + 1)
  {
    hide Fold, Judged, IsFirst, Firsts, Verdicts, SameVerdict;
    var known := memo[Fold(before[index].canonicalTarget)];
    assert SameTarget(before[known], before[index]);
    NotFirst(before, known, index);
    SharedMemo(before, o, classified, memo, index);
    SharedFirsts(before, before[index := o], classified, index);
    SharedVerdicts(before, o, trace, types, classified, known, index);
  }

  /** A destination known already takes over the verdict of its first hop. */
  lemma KnownStep(chain: seq<Hop>, observations: seq<Observation>, trace: seq<Lookup>, types: nat,
                  classified: seq<nat>, memo: map<string, nat>, lookups: nat, index: nat)
    requires index < |observations|
    requires Chased(chain, observations, trace, types, classified, memo, lookups, index)
    requires Fold(observations[index].canonicalTarget) in memo
    ensures memo[Fold(observations[index].canonicalTarget)] < index
    ensures var known := observations[memo[Fold(observations[index].canonicalTarget)]];
      Chased(chain, observations[index := observations[index].(
               status := known.status, evidence := known.evidence, errors := known.errors)],
             trace, types, classified, memo, lookups, index + 1)
  {
    hide Progress, MemoTracks, Fold, SameHops, Untouched, SameFirsts, AllAnswered;
    KnownIsEarlier(observations, trace, types, classified, memo, index);
    var known := observations[memo[Fold(observations[index].canonicalTarget)]];
    var o := observations[index].(status := known.status, evidence := known.evidence, errors := known.errors);
    Rewritten(chain, observations, index, o);
    Touched(observations, chain, index, o);
    Shared(observations, o, trace, types, classified, memo, index);
  }

  lemma LimitNotReached(chain: seq<Hop>, observations: seq<Observation>, trace: seq<Lookup>, types: nat,
                        classified: seq<nat>, memo: map<string, nat>, lookups: nat, index: nat)
    requires index < |chain| && Chased(chain, observations, trace, types, classified, memo, lookups, index)
    ensures |memo| < |chain|
  {
    hide SameHops, Progress, AllAnswered, MemoTracks, Untouched;
  }

  /** A stop keeps the evidence noted for the destination under way and every verdict before it. */
  lemma Interrupted(chain: seq<Hop>, before: seq<Observation>, o: Observation, trace: seq<Lookup>, types: nat,
                    classified: seq<nat>, lookups: nat, state: CheckState, index: nat, next: nat)
    requires index < |before| == |chain| && lookups <= next < lookups + types
    requires Progress(before, trace, types, classified, index)
    requires SameFirsts(before, before[index := o])
    requires Untouched(before, chain, index)
    requires o == Noted(before[index], trace, lookups, next - lookups)
    requires At(trace, next) == Stopped(state) && AllAnswered(trace, lookups, next)
    ensures StoppedAt(before[index := o], chain, trace, types, classified, lookups, state, index, next)
    ensures Progress(before[index := o], trace, types, classified, index)
  {
    hide Noted, Fold, Judged, IsFirst;
    NotedKeepsTheHop(before[index], trace, lookups, next - lookups);
    assert o.status == Indeterminate;
  }

  /** A stopped lookup ends the check. */
  lemma StopStep(chain: seq<Hop>, observations: seq<Observation>, trace: seq<Lookup>, types: nat,
                 classified: seq<nat>, memo: map<string, nat>, lookups: nat, index: nat, state: CheckState, next: nat)
    requires index < |observations| && lookups <= next < lookups + types
    requires Chased(chain, observations, trace, types, classified, memo, lookups, index)
    requires At(trace, next) == Stopped(state) && AllAnswered(trace, lookups, next)
    ensures lookups == |classified| * types && AllAnswered(trace, 0, lookups)
    ensures var after := observations[index := Noted(observations[index], trace, lookups, next - lookups)];
      && SameHops(after, Observe(chain)) && Progress(after, trace, types, classified, index)
      && StoppedAt(after, chain, trace, types, classified, lookups, state, index, next)
  {
    hide Noted, Progress, MemoTracks, Fold, SameHops, Untouched, SameFirsts, StoppedAt, AllAnswered;
    var o := Noted(observations[index], trace, lookups, next - lookups);
    NotedKeepsTheHop(observations[index], trace, lookups, next - lookups);
    Rewritten(chain, observations, index, o);
    Interrupted(chain, observations, o, trace, types, classified, lookups, state, index, next);
  }

  /** Classifying what the lookups of the k-th destination said judges it. */
  lemma Judge(before: Observation, noted: Observation, o: Observation, outcomes: seq<Outcome>,
              trace: seq<Lookup>, k: nat, types: nat)
    requires Unasked(before) == before && noted == Noted(before, trace, k * types, types)
    requires outcomes == OutcomesFrom(trace, k * types, types)
    requires o == noted.(status := Classify(outcomes))
    ensures Judged(o, trace, k, types)
  {
    hide Noted, Classify, OutcomesFrom;
    NotedKeepsTheHop(before, trace, k * types, types);
    assert Unasked(o) == before;
  }

  lemma NewVerdicts(before: seq<Observation>, o: Observation, trace: seq<Lookup>, types: nat, classified: seq<nat>,
                    index: nat)
    requires index < |before| && SameHop(o, before[index])
    requires Firsts(before, classified, index) && Verdicts(before, trace, types, classified, index)
    requires forall i :: 0 <= i < index ==> !SameTarget(before[i], before[index])
    requires Judged(o, trace, |classified|, types)
    ensures Verdicts(before[index := o], trace, types, classified + [index], index + 1)
  {
    hide Fold, Judged, IsFirst;
    assert forall k :: 0 <= k < |classified| ==> (classified + [index])[k] == classified[k] < index;
  }

  /** The first observation with the destination of the j-th. */
  lemma FirstOf(observations: seq<Observation>, j: nat) returns (f: nat)
    requires j < |observations|
    ensures f <= j && IsFirst(observations, f) && SameTarget(observations[f], observations[j])
  {
    hide Fold;
    if IsFirst(observations, j) {
      f := j;
    } else {
      var i: nat :| i < j && SameTarget(observations[i], observations[j]);
      f := FirstOf(observations, i);
    }
  }

  lemma NotInMemoIsFirst(observations: seq<Observation>, trace: seq<Lookup>, types: nat,
                         classified: seq<nat>, memo: map<string, nat>, index: nat)
    requires index < |observations| && Progress(observations, trace, types, classified, index)
    requires MemoTracks(observations, classified, memo)
    requires Fold(observations[index].canonicalTarget) !in memo
    ensures IsFirst(observations, index)
  {
    hide Fold, Judged;
    forall j | 0 <= j < index ensures !SameTarget(observations[j], observations[index]) {
      var f := FirstOf(observations, j);
      assert f in classified;
    }
  }

  lemma FirstIsNew(observations: seq<Observation>, j: nat)
    requires j < |observations| && IsFirst(observations, j)
    ensures forall i :: 0 <= i < j ==> !SameTarget(observations[i], observations[j])
  {
    hide Fold;
  }

  lemma NewMemo(before: seq<Observation>, o: Observation, classified: seq<nat>, memo: map<string, nat>, index: nat)
    requires index < |before| && SameHop(o, before[index]) && MemoTracks(before, classified, memo)
    ensures MemoTracks(before[index := o], classified + [index], memo[Fold(before[index].canonicalTarget) := index])
  {
    hide Fold;
    assert forall i :: i in classified + [index] <==> i in classified || i == index;
  }

  lemma NewFirst(before: seq<Observation>, after: seq<Observation>, classified: seq<nat>, index: nat)
    requires index < |before| == |after| && Firsts(before, classified, index) && IsFirst(before, index)
    requires SameFirsts(before, after)
    ensures Firsts(after, classified + [index], index + 1)
  {
    hide Fold, IsFirst;
    assert forall i :: i in classified + [index] <==> i in classified || i == index;
  }

  /** A new destination: its verdict is what its own lookups said. */
  lemma NewVerdict(before: seq<Observation>, o: Observation, trace: seq<Lookup>, types: nat,
                   classified: seq<nat>, memo: map<string, nat>, index: nat)
    requires index < |before| && SameHop(o, before[index]) && MemoTracks(before, classified, memo)
    requires SameFirsts(before, before[index := o])
    requires Progress(before, trace, types, classified, index)
    requires Fold(before[index].canonicalTarget) !in memo
    requires Judged(o, trace, |classified|, types)
    ensures MemoTracks(before[index := o], classified + [index], memo[Fold(before[index].canonicalTarget) := index])
    ensures Progress(before[index := o], trace, types, classified + [index], index + 1)
  {
    hide Fold, Judged, IsFirst, MemoTracks, Firsts, Verdicts, SameHop, SameTarget;
    var after := before[index := o];
    NotInMemoIsFirst(before, trace, types, classified, memo, index);
    FirstIsNew(before, index);
    NewMemo(before, o, classified, memo, index);
    NewFirst(before, after, classified, index);
    NewVerdicts(before, o, trace, types, classified, index);
  }

  /** A new destination gets the verdict of its own lookups. */
  lemma NewStep(chain: seq<Hop>, observations: seq<Observation>, trace: seq<Lookup>, types: nat,
                classified: seq<nat>, memo: map<string, nat>, lookups: nat, index: nat, outcomes: seq<Outcome>)
    requires index < |observations|
    requires Chased(chain, observations, trace, types, classified, memo, lookups, index)
    requires Fold(observations[index].canonicalTarget) !in memo
    requires AllAnswered(trace, lookups, lookups + types) && outcomes == OutcomesFrom(trace, lookups, types)
    ensures Chased(chain, observations[index := Noted(observations[index], trace, lookups, types).(
                     status := Classify(outcomes))],
                   trace, types, classified + [index],
                   memo[Fold(observations[index].canonicalTarget) := index], lookups + types, index + 1)
  {
    hide Noted, Progress, MemoTracks, Fold, OutcomesFrom, Classify, SameHops, Judged, Untouched, SameFirsts, Unasked;
    var noted := Noted(observations[index], trace, lookups, types);
    var o := noted.(status := Classify(outcomes));
    NotedKeepsTheHop(observations[index], trace, lookups, types);
    Touched(observations, chain, index, o);
    Judge(observations[index], noted, o, outcomes, trace, |classified|, types);
    Rewritten(chain, observations, index, o);
    NewVerdict(observations, o, trace, types, classified, memo, index);
    assert |classified + [index]| * types == |classified| * types + types;
  }

  lemma Finished(chain: seq<Hop>, observations: seq<Observation>, trace: seq<Lookup>, types: nat,
                 classified: seq<nat>, memo: map<string, nat>, lookups: nat)
    requires Chased(chain, observations, trace, types, classified, memo, lookups, |chain|)
    ensures |observations| == |chain| && SameHops(observations, Observe(chain))
    ensures lookups == |classified| * types && AllAnswered(trace, 0, lookups)
    ensures Progress(observations, trace, types, classified, |observations|)
  {
    hide SameHops, Progress, AllAnswered, MemoTracks, Untouched;
  }

  lemma ClassifiedAsCalled(observations: seq<Observation>, trace: seq<Lookup>, types: nat, classified: seq<nat>, i: nat)
    requires i <= |observations| && Progress(observations, trace, types, classified, i)
    ensures forall k :: 0 <= k < |classified| ==>
              classified[k] < |observations| && CalledFor(observations[classified[k]].status, trace, k * types, types)
  {
    hide Fold, Classify, Noted, CalledFor, IsFirst;
    forall k | 0 <= k < |classified|
      ensures classified[k] < |observations| && CalledFor(observations[classified[k]].status, trace, k * types, types)
    {
      ClassifiesExactly(trace, k * types, types);
    }
  }

  /** Each destination is looked up once, in the order of first appearance, and shared by all hops
      that lead to it. The limit on unique destinations is never reached by a chain of 16 hops. */
  method AnalyzeDanglingCnames(chain: seq<Hop>, types: nat, trace: seq<Lookup>)
    returns (observations: seq<Observation>, state: CheckState, lookups: nat, ghost classified: seq<nat>)
    requires |chain| <= MAX_CNAME_CHAIN_HOPS
    requires forall i :: 0 <= i < |trace| && trace[i].Stopped? ==> trace[i].state != Completed
    ensures SameHops(observations, Observe(chain))
    ensures lookups == |classified| * types && AllAnswered(trace, 0, lookups)
    ensures state == Completed ==> Progress(observations, trace, types, classified, |observations|)
    // Every destination that was asked has the status its own lookups call for.
    ensures forall k :: 0 <= k < |classified| ==>
              classified[k] < |observations| && CalledFor(observations[classified[k]].status, trace, k * types, types)
    // A stopped check was stopped by the next destination's lookups.
    ensures state != Completed ==>
              exists i, j :: StoppedAt(observations, chain, trace, types, classified, lookups, state, i, j)
  {
    hide Chased, Noted, Progress, Fold, Classify, SameHops, StoppedAt, AllAnswered, Observe, CalledFor;
    observations := Observe(chain);
    classified := [];
    state := Completed;
    var memo: map<string, nat> := map[];
    lookups := 0;
    var index := 0;
    Start(chain, trace, types);
    while index < |observations|
      invariant index <= |observations| == |chain| && state == Completed
      invariant Chased(chain, observations, trace, types, classified, memo, lookups, index)
    {
      var name := Fold(observations[index].canonicalTarget);
      if name in memo {
        KnownStep(chain, observations, trace, types, classified, memo, lookups, index);
        var known := observations[memo[name]];
        observations := observations[index := observations[index].(
          status := known.status, evidence := known.evidence, errors := known.errors)];
        index := index + 1;
        continue;
      }
      LimitNotReached(chain, observations, trace, types, classified, memo, lookups, index);
      if |memo| >= MAX_CNAME_CHAIN_HOPS {
        assert false;
      }
      var outcomes, next, observation, stopped := Query(trace, lookups, types, observations[index]);
      if stopped.Some? {
        state := stopped.value;
        StopStep(chain, observations, trace, types, classified, memo, lookups, index, state, next);
        observations := observations[index := observation];
        ClassifiedAsCalled(observations, trace, types, classified, index);
        return;
      }
      NewStep(chain, observations, trace, types, classified, memo, lookups, index, outcomes);
      observations := observations[index := observation.(status := Classify(outcomes))];
      memo := memo[name := index];
      classified := classified + [index];
      lookups := next;
      index := index + 1;
    }
    Finished(chain, observations, trace, types, classified, memo, lookups);
    ClassifiedAsCalled(observations, trace, types, classified, |observations|);
  }

  /** What holds at the loop head. */
  ghost predicate Chased(chain: seq<Hop>, observations: seq<Observation>, trace: seq<Lookup>, types: nat,
                         classified: seq<nat>, memo: map<string, nat>, lookups: nat, index: nat) {
    && index <= |observations| == |chain| && SameHops(observations, Observe(chain))
    && Progress(observations, trace, types, classified, index)
    && lookups == |classified| * types && AllAnswered(trace, 0, lookups)
    && |memo| == |classified| <= index
    && MemoTracks(observations, classified, memo)
    && Untouched(observations, chain, index)
  }

  predicate SameHop(a: Observation, b: Observation) {
    a.sourceAlias == b.sourceAlias && a.canonicalTarget == b.canonicalTarget
  }

  // ----- Findings -----

  /** The condition of the finding rule for one hop. */
  predicate ObservedNxDomain(chain: seq<Hop>, observations: seq<Observation>, hop: Hop) {
    exists i :: 0 <= i < |observations|
      && observations[i].status == StatusNxDomain
      && Fold(observations[i].canonicalTarget) == Fold(hop.target)
      && exists j :: 0 <= j < |chain|
           && Fold(chain[j].source) == Fold(observations[i].sourceAlias)
           && Fold(chain[j].target) == Fold(observations[i].canonicalTarget)
  }

  predicate Reported(findings: seq<Hop>, name: string) {
    exists k :: 0 <= k < |findings| && Fold(findings[k].target) == name
  }

  /** The hops that are reported, by the chain they come from. */
  function DanglingHops(chain: seq<Hop>, all: seq<Hop>, observations: seq<Observation>): seq<Hop> {
    if chain == [] then []
    else
      var before := DanglingHops(chain[..|chain| - 1], all, observations);
      var hop := chain[|chain| - 1];
      if ObservedNxDomain(all, observations, hop) && !Reported(before, Fold(hop.target)) then before + [hop]
      else before
  }

  /** Hop k is observed, and the first that leads to its destination. */
  predicate FirstObserved(chain: seq<Hop>, all: seq<Hop>, observations: seq<Observation>, k: int) {
    && 0 <= k < |chain| && ObservedNxDomain(all, observations, chain[k])
    && forall j :: 0 <= j < k ==> Fold(chain[j].target) != Fold(chain[k].target)
  }

  /** The first hop with the destination of hop k. */
  lemma FirstWith(chain: seq<Hop>, k: nat) returns (f: nat)
    requires k < |chain|
    ensures f <= k && Fold(chain[f].target) == Fold(chain[k].target)
    ensures forall j :: 0 <= j < f ==> Fold(chain[j].target) != Fold(chain[f].target)
  {
    hide Fold;
    f := k;
    if j: nat :| j < k && Fold(chain[j].target) == Fold(chain[k].target) {
      f := FirstWith(chain, j);
    }
  }

  lemma SameDestination(all: seq<Hop>, observations: seq<Observation>, a: Hop, b: Hop)
    requires Fold(a.target) == Fold(b.target)
    ensures ObservedNxDomain(all, observations, a) <==> ObservedNxDomain(all, observations, b)
  {
    hide Fold;
  }

  /** The last hop is reported when it is observed and no earlier one leads where it does. */
  lemma LastIsFirst(chain: seq<Hop>, all: seq<Hop>, observations: seq<Observation>)
    requires chain != []
    ensures var n := |chain| - 1;
      FirstObserved(chain, all, observations, n) <==>
        && ObservedNxDomain(all, observations, chain[n])
        && !Reported(DanglingHops(chain[..n], all, observations), Fold(chain[n].target))
    decreases |chain|, 0
  {
    hide Fold, ObservedNxDomain, DanglingHops;
    var n := |chain| - 1;
    var front, before := chain[..n], DanglingHops(chain[..n], all, observations);
    if ObservedNxDomain(all, observations, chain[n]) {
      if Reported(before, Fold(chain[n].target)) {
        var i :| 0 <= i < |before| && Fold(before[i].target) == Fold(chain[n].target);
        DanglingHopsExactly(front, all, observations, before[i]);
        var k :| FirstObserved(front, all, observations, k) && front[k] == before[i];
        assert Fold(chain[k].target) == Fold(chain[n].target);
      }
      if j: nat :| j < n && Fold(chain[j].target) == Fold(chain[n].target) {
        var f := FirstWith(front, j);
        SameDestination(all, observations, front[f], chain[n]);
        assert FirstObserved(front, all, observations, f);
        DanglingHopsExactly(front, all, observations, front[f]);
        var i :| 0 <= i < |before| && before[i] == front[f];
        assert Reported(before, Fold(chain[n].target));
      }
    }
  }

  /** The reported hops are those that are observed and the first to lead to their destination. */
  lemma {:induction false} DanglingHopsExactly(chain: seq<Hop>, all: seq<Hop>, observations: seq<Observation>, hop: Hop)
    ensures hop in DanglingHops(chain, all, observations) <==>
            exists k :: FirstObserved(chain, all, observations, k) && chain[k] == hop
    decreases |chain|, 1
  {
    hide Fold, ObservedNxDomain;
    if chain != [] {
      var n := |chain| - 1;
      var front, last := chain[..n], chain[n];
      DanglingHopsExactly(front, all, observations, hop);
      LastIsFirst(chain, all, observations);
      assert forall k :: 0 <= k < n ==>
          (FirstObserved(chain, all, observations, k) <==> FirstObserved(front, all, observations, k));
    }
  }

  /** The findings so far: one per destination, each of an observed hop, and none missing among the first n hops. */
  predicate ReportsExactly(findings: seq<Hop>, chain: seq<Hop>, observations: seq<Observation>, n: int) {
    && (forall a, b :: 0 <= a < b < |findings| ==> Fold(findings[a].target) != Fold(findings[b].target))
    && (forall k :: 0 <= k < |findings| ==> findings[k] in chain && ObservedNxDomain(chain, observations, findings[k]))
    && (forall i :: 0 <= i < n <= |chain| && ObservedNxDomain(chain, observations, chain[i]) ==>
          Reported(findings, Fold(chain[i].target)))
  }

  lemma ReportedMore(findings: seq<Hop>, hop: Hop, name: string)
    ensures Reported(findings + [hop], name) <==> Reported(findings, name) || Fold(hop.target) == name
  {
    hide Fold;
    if Reported(findings, name) {
      var k :| 0 <= k < |findings| && Fold(findings[k].target) == name;
      assert (findings + [hop])[k] == findings[k];
    }
    assert (findings + [hop])[|findings|] == hop;
  }

  lemma NoHops(chain: seq<Hop>, observations: seq<Observation>)
    ensures DanglingHops([], chain, observations) == [] && ReportsExactly([], chain, observations, 0)
  {
  }

  predicate Wanted(findings: seq<Hop>, chain: seq<Hop>, observations: seq<Observation>, hop: Hop) {
    ObservedNxDomain(chain, observations, hop) && !Reported(findings, Fold(hop.target))
  }

  lemma HopsStep(chain: seq<Hop>, observations: seq<Observation>, n: nat, findings: seq<Hop>)
    requires n < |chain| && findings == DanglingHops(chain[..n], chain, observations)
    ensures DanglingHops(chain[..n + 1], chain, observations)
      == if Wanted(findings, chain, observations, chain[n]) then findings + [chain[n]] else findings
  {
    hide Fold, ObservedNxDomain, Reported;
    assert chain[..n + 1][..n] == chain[..n] && chain[..n + 1][n] == chain[n];
  }

  lemma Reports(findings: seq<Hop>, k: nat)
    requires k < |findings|
    ensures Reported(findings, Fold(findings[k].target))
  {
    hide Fold;
  }

  lemma ReportsStep(chain: seq<Hop>, observations: seq<Observation>, n: nat, findings: seq<Hop>)
    requires n < |chain| && ReportsExactly(findings, chain, observations, n)
    ensures Wanted(findings, chain, observations, chain[n]) ==>
            ReportsExactly(findings + [chain[n]], chain, observations, n + 1)
    ensures !Wanted(findings, chain, observations, chain[n]) ==> ReportsExactly(findings, chain, observations, n + 1)
  {
    hide Fold, ObservedNxDomain, Reported;
    forall name ensures Reported(findings + [chain[n]], name) <==>
           Reported(findings, name) || Fold(chain[n].target) == name {
      ReportedMore(findings, chain[n], name);
    }
    forall k | 0 <= k < |findings| ensures Reported(findings, Fold(findings[k].target)) {
      Reports(findings, k);
    }
  }

  lemma NothingReported()
    ensures forall name :: !Reported([], name)
  {
  }

  /** One finding per destination: the hop that leads there first. */
  method DanglingCnameFindings(chain: seq<Hop>, observations: seq<Observation>) returns (findings: seq<Hop>)
    ensures findings == DanglingHops(chain, chain, observations)
    ensures ReportsExactly(findings, chain, observations, |chain|)
  {
    hide Fold, ObservedNxDomain, DanglingHops, ReportsExactly, Reported;
    findings := [];
    var reported := {};
    NoHops(chain, observations);
    assert chain[..0] == [];
    NothingReported();
    for n := 0 to |chain|
      invariant findings == DanglingHops(chain[..n], chain, observations)
      invariant forall name :: name in reported <==> Reported(findings, name)
      invariant ReportsExactly(findings, chain, observations, n)
    {
      var hop := chain[n];
      var name := Fold(hop.target);
      HopsStep(chain, observations, n, findings);
      ReportsStep(chain, observations, n, findings);
      if !ObservedNxDomain(chain, observations, hop) || name in reported {
        continue;
      }
      forall other ensures Reported(findings + [hop], other) <==> Reported(findings, other) || other == name {
        ReportedMore(findings, hop, other);
      }
      reported := reported + {name};
      findings := findings + [hop];
    }
    assert chain[..|chain|] == chain;
  }

  lemma RuleHolds(chain: seq<Hop>, observations: seq<Observation>, trace: seq<Lookup>, types: nat,
                  classified: seq<nat>, n: nat)
    requires SameHops(observations, Observe(chain)) && n < |chain| == |observations|
    requires Progress(observations, trace, types, classified, |observations|)
    ensures ObservedNxDomain(chain, observations, chain[n]) <==> observations[n].status == StatusNxDomain
  {
    hide Fold, Judged, IsFirst;
    assert forall i :: 0 <= i < |chain| ==>
        observations[i].sourceAlias == chain[i].source && observations[i].canonicalTarget == chain[i].target;
    if ObservedNxDomain(chain, observations, chain[n]) {
      var i :| 0 <= i < |observations| && observations[i].status == StatusNxDomain
        && Fold(observations[i].canonicalTarget) == Fold(chain[n].target);
      assert SameTarget(observations[i], observations[n]);
    }
  }

  /** The classified destination that hop n leads to. */
  lemma DestinationOf(chain: seq<Hop>, observations: seq<Observation>, trace: seq<Lookup>, types: nat,
                      classified: seq<nat>, n: nat) returns (k: nat)
    requires SameHops(observations, Observe(chain)) && n < |chain| == |observations|
    requires Progress(observations, trace, types, classified, |observations|)
    ensures k < |classified| && classified[k] < |chain|
    ensures Fold(chain[classified[k]].target) == Fold(chain[n].target)
    ensures observations[n].status == observations[classified[k]].status
  {
    hide Fold, Judged, IsFirst;
    var f := FirstOf(observations, n);
    assert f in classified;
    k :| 0 <= k < |classified| && classified[k] == f;
    assert SameVerdict(observations[f], observations[n]);
  }

  lemma NxDomainCalled(status: Status, trace: seq<Lookup>, from: nat, types: nat)
    requires CalledFor(status, trace, from, types)
    ensures status == StatusNxDomain <==> AllNxDomain(trace, from, types)
  {
  }

  /** After a completed check of the chain every hop has the status that the lookups of its destination
      call for, and the rule holds of it exactly when all of them said that the destination does not exist. */
  lemma FindingsExactly(chain: seq<Hop>, observations: seq<Observation>, trace: seq<Lookup>, types: nat,
                        classified: seq<nat>, n: nat)
    requires SameHops(observations, Observe(chain)) && n < |chain|
    requires Progress(observations, trace, types, classified, |observations|)
    ensures ObservedNxDomain(chain, observations, chain[n]) <==> observations[n].status == StatusNxDomain
    ensures exists k :: 0 <= k < |classified| && classified[k] < |chain|
              && Fold(chain[classified[k]].target) == Fold(chain[n].target)
              && CalledFor(observations[n].status, trace, k * types, types)
              && (ObservedNxDomain(chain, observations, chain[n]) <==> AllNxDomain(trace, k * types, types))
  {
    assert |observations| == |chain|;
    hide Fold, Progress, ObservedNxDomain, Classify, Noted, SameHops, CalledFor;
    RuleHolds(chain, observations, trace, types, classified, n);
    var k := DestinationOf(chain, observations, trace, types, classified, n);
    ClassifiedAsCalled(observations, trace, types, classified, |observations|);
    assert CalledFor(observations[n].status, trace, k * types, types);
    NxDomainCalled(observations[n].status, trace, k * types, types);
  }

  /** At least one lookup, and all of them said that the name does not exist. */
  predicate AllNxDomain(trace: seq<Lookup>, from: nat, types: nat) {
    types > 0 && forall j :: from <= j < from + types ==> Says(trace, j, NxDomain)
  }

  /** Of a checked chain exactly those destinations are reported of which every lookup said that they do
      not exist, each with the first hop that leads there. */
  lemma ReportedExactly(chain: seq<Hop>, observations: seq<Observation>, trace: seq<Lookup>, types: nat,
                        classified: seq<nat>, findings: seq<Hop>, n: nat)
    requires SameHops(observations, Observe(chain)) && n < |chain|
    requires Progress(observations, trace, types, classified, |observations|)
    requires ReportsExactly(findings, chain, observations, |chain|)
    ensures exists k :: 0 <= k < |classified| && classified[k] < |chain|
              && Fold(chain[classified[k]].target) == Fold(chain[n].target)
              && (Reported(findings, Fold(chain[n].target)) <==> AllNxDomain(trace, k * types, types))
  {
    hide Fold, Progress, CalledFor, AllNxDomain;
    FindingsExactly(chain, observations, trace, types, classified, n);
    if Reported(findings, Fold(chain[n].target)) {
      var k :| 0 <= k < |findings| && Fold(findings[k].target) == Fold(chain[n].target);
      assert ObservedNxDomain(chain, observations, findings[k]);
    }
  }
}
