/**
 Exposure: the score made of a list of findings. The scoring takes the first finding of every
 (rule, target) pair; on a list sorted by severity that is the worst one.
 */
module Exposure {
  import opened Findings
  import opened Ordering

  type Key = (RuleId, string)

  datatype Deduction = Deduction(key: Key, points: nat)

  datatype Classification = Favorable | Review | Elevated | CriticalExposure

  datatype Score = Score(value: nat, classification: Classification, deductions: seq<Deduction>, incomplete: bool)

  const U16_MAX := 65535

  function SeverityPoints(severity: Severity): nat {
    match severity case Info => 0 case Low => 2 case Medium => 7 case High => 20 case Critical => 35
  }

  function Classify(value: nat): Classification {
    if 85 <= value <= 100 then Favorable
    else if 65 <= value <= 84 then Review
    else if 35 <= value <= 64 then Elevated
    else CriticalExposure
  }

  function KeyOf(f: Finding): Key {
    (f.id, f.target)
  }

  function Min(a: nat, b: nat): nat {
    if a <= b then a else b
  }

  predicate DeductionLeq(a: Deduction, b: Deduction) {
    IdRank(a.key.0) < IdRank(b.key.0)
    || (IdRank(a.key.0) == IdRank(b.key.0) && StringLeq(a.key.1, b.key.1))
  }

  // ----- What the score means -----

  function Keys(findings: seq<Finding>): set<Key> {
    set f | f in findings :: KeyOf(f)
  }

  /** The most points any finding of the pair is worth. */
  function Worst(findings: seq<Finding>, key: Key): nat {
    if findings == [] then 0
    else
      var rest, last := Worst(findings[..|findings| - 1], key), findings[|findings| - 1];
      if KeyOf(last) == key && rest < SeverityPoints(last.severity) then SeverityPoints(last.severity) else rest
  }

  /** The sum of the worst points over a set of pairs, taken in any order. */
  ghost function Total(keys: set<Key>, findings: seq<Finding>): nat {
    if keys == {} then 0
    else
      var key :| key in keys;
      Worst(findings, key) + Total(keys - {key}, findings)
  }

  /** What the scoring charges: the first finding of every pair. */
  function Charges(findings: seq<Finding>): seq<Deduction> {
    if findings == [] then []
    else
      var front, last := findings[..|findings| - 1], findings[|findings| - 1];
      if KeyOf(last) in Keys(front) || SeverityPoints(last.severity) == 0 then Charges(front)
      else Charges(front) + [Deduction(KeyOf(last), SeverityPoints(last.severity))]
  }

  function Points(deductions: seq<Deduction>): nat {
    if deductions == [] then 0
    else Points(deductions[..|deductions| - 1]) + deductions[|deductions| - 1].points
  }

  lemma {:induction false} WorstIsWorst(findings: seq<Finding>, key: Key)
    ensures forall f :: f in findings && KeyOf(f) == key ==> SeverityPoints(f.severity) <= Worst(findings, key)
    ensures Worst(findings, key) > 0 ==>
      exists f :: f in findings && KeyOf(f) == key && SeverityPoints(f.severity) == Worst(findings, key)
  {
    if findings != [] {
      var front, last := findings[..|findings| - 1], findings[|findings| - 1];
      assert findings == front + [last];
      WorstIsWorst(front, key);
    }
  }

  lemma {:induction false} TotalTakes(keys: set<Key>, findings: seq<Finding>, key: Key)
    requires key in keys
    ensures Total(keys, findings) == Worst(findings, key) + Total(keys - {key}, findings)
    decreases keys
  {
    hide Worst;
    var first :| first in keys
      && Total(keys, findings) == Worst(findings, first) + Total(keys - {first}, findings);
    if first != key {
      TotalTakes(keys - {first}, findings, key);
      TotalTakes(keys - {key}, findings, first);
      assert keys - {first} - {key} == keys - {key} - {first};
    }
  }

  /** The total grows with the pairs and with what each is worth. */
  lemma {:induction false} TotalGrows(small: set<Key>, big: set<Key>, a: seq<Finding>, b: seq<Finding>)
    requires small <= big
    requires forall key :: key in small ==> Worst(a, key) <= Worst(b, key)
    ensures Total(small, a) <= Total(big, b)
    decreases small
  {
    hide Worst;
    if small != {} {
      var key :| key in small;
      TotalTakes(small, a, key);
      TotalTakes(big, b, key);
      TotalGrows(small - {key}, big - {key}, a, b);
    }
  }

  // ----- Scoring -----

  function ScoreFor(findings: seq<Finding>, incomplete: bool): Score {
    var value := 100 - Min(100, Points(Charges(findings)));
    Score(value, Classify(value), Sort(Charges(findings), DeductionLeq), incomplete)
  }

  lemma NothingSeen()
    ensures Keys([]) == {} && Charges([]) == []
  {
  }

  lemma KeysGrow(findings: seq<Finding>, f: Finding)
    ensures Keys(findings + [f]) == Keys(findings) + {KeyOf(f)}
  {
    forall key ensures key in Keys(findings + [f]) <==> key in Keys(findings) + {KeyOf(f)} {
      if key in Keys(findings) {
        var g :| g in findings && KeyOf(g) == key;
        assert g in findings + [f];
      }
      assert f in findings + [f];
    }
  }

  lemma ChargesStep(front: seq<Finding>, f: Finding)
    ensures Charges(front + [f]) == Charges(front)
      + if KeyOf(f) in Keys(front) || SeverityPoints(f.severity) == 0 then []
        else [Deduction(KeyOf(f), SeverityPoints(f.severity))]
  {
    assert (front + [f])[..|front|] == front;
  }

  /** Walks the findings with the set of pairs already seen. */
  method Deduct(findings: seq<Finding>) returns (deductions: seq<Deduction>)
    ensures deductions == Charges(findings)
  {
    hide Keys, Charges, SeverityPoints;
    var seen: set<Key> := {};
    deductions := [];
    NothingSeen();
    for i := 0 to |findings|
      invariant seen == Keys(findings[..i])
      invariant deductions == Charges(findings[..i])
    {
      var finding := findings[i];
      KeysGrow(findings[..i], finding);
      ChargesStep(findings[..i], finding);
      assert findings[..i + 1] == findings[..i] + [finding];
      if KeyOf(finding) !in seen {
        seen := seen + {KeyOf(finding)};
        var points := SeverityPoints(finding.severity);
        if points > 0 {
          deductions := deductions + [Deduction(KeyOf(finding), points)];
        }
      }
      assert seen == Keys(findings[..i]) + {KeyOf(finding)};
    }
    assert findings[..|findings|] == findings;
  }

  lemma DeductionOrder()
    ensures TotalPreorder(DeductionLeq)
  {
    hide StringLeq;
    forall a, b ensures DeductionLeq(a, b) || DeductionLeq(b, a) {
      StringTotal(a.key.1, b.key.1);
    }
    forall a, b, c | DeductionLeq(a, b) && DeductionLeq(b, c) ensures DeductionLeq(a, c) {
      if StringLeq(a.key.1, b.key.1) && StringLeq(b.key.1, c.key.1) {
        StringTransitive(a.key.1, b.key.1, c.key.1);
      }
    }
  }

  lemma {:induction false} InsertKeepsPoints(deductions: seq<Deduction>, d: Deduction)
    ensures Points(Insert(deductions, d, DeductionLeq)) == Points(deductions) + d.points
  {
    hide DeductionLeq;
    if deductions == [] || DeductionLeq(deductions[|deductions| - 1], d) {
      assert (deductions + [d])[..|deductions|] == deductions;
    } else {
      var front, last := deductions[..|deductions| - 1], deductions[|deductions| - 1];
      InsertKeepsPoints(front, d);
      var inserted := Insert(front, d, DeductionLeq);
      assert (inserted + [last])[..|inserted|] == inserted;
    }
  }

  lemma {:induction false} SortKeepsPoints(deductions: seq<Deduction>)
    ensures Points(Sort(deductions, DeductionLeq)) == Points(deductions)
  {
    if deductions != [] {
      var front, last := deductions[..|deductions| - 1], deductions[|deductions| - 1];
      SortKeepsPoints(front);
      InsertKeepsPoints(Sort(front, DeductionLeq), last);
    }
  }

  /** The additions saturate at the width of the sum. */
  method Fold(deductions: seq<Deduction>) returns (sum: nat)
    ensures sum == Min(U16_MAX, Points(deductions))
  {
    sum := 0;
    for i := 0 to |deductions|
      invariant sum == Min(U16_MAX, Points(deductions[..i]))
    {
      assert deductions[..i + 1][..i] == deductions[..i];
      sum := Min(U16_MAX, sum + deductions[i].points);
    }
    assert deductions[..|deductions|] == deductions;
  }

  /** The class of a score. */
  predicate IsGraded(classification: Classification, value: nat) {
    && (classification == Favorable <==> 85 <= value <= 100)
    && (classification == Review <==> 65 <= value < 85)
    && (classification == Elevated <==> 35 <= value < 65)
    && (classification == CriticalExposure <==> value < 35 || value > 100)
  }

  /** What a finding of this severity costs. */
  predicate Costs(severity: Severity, points: nat) {
    && (severity == Info ==> points == 0) && (severity == Low ==> points == 2)
    && (severity == Medium ==> points == 7) && (severity == High ==> points == 20)
    && (severity == Critical ==> points == 35)
  }

  /** A deduction names the rule and the target of a finding and takes what that costs, never nothing. */
  predicate ChargedFor(d: Deduction, findings: seq<Finding>) {
    && d.points > 0
    && exists i :: 0 <= i < |findings| && d.key == (findings[i].id, findings[i].target)
                   && Costs(findings[i].severity, d.points)
  }

  lemma {:induction false} ChargesAreFor(findings: seq<Finding>)
    ensures forall d :: d in Charges(findings) ==> ChargedFor(d, findings)
  {
    if findings != [] {
      var front, last := findings[..|findings| - 1], findings[|findings| - 1];
      ChargesAreFor(front);
      forall d | d in Charges(findings) ensures ChargedFor(d, findings) {
        if d in Charges(front) {
          var i :| 0 <= i < |front| && d.key == (front[i].id, front[i].target) && Costs(front[i].severity, d.points);
          assert findings[i] == front[i];
        } else {
          assert Costs(last.severity, d.points);
          assert findings[|findings| - 1] == last;
        }
      }
    }
  }

  method CalculateExposure(findings: seq<Finding>, completed: bool, skipped: bool) returns (score: Score)
    ensures score == ScoreFor(findings, !completed || skipped)
    ensures score.incomplete <==> !completed || skipped
    ensures IsGraded(score.classification, score.value)
    ensures score.value == if Points(score.deductions) >= 100 then 0 else 100 - Points(score.deductions)
    ensures forall d :: d in score.deductions ==> ChargedFor(d, findings)
    ensures Ordered(score.deductions, DeductionLeq)
    ensures multiset(score.deductions) == multiset(Charges(findings))
  {
    hide Charges, DeductionLeq, Points, Ordered, TotalPreorder, Sort, ChargedFor;
    var deductions := Deduct(findings);
    ChargesAreFor(findings);
    DeductionOrder();
    SortOrders(deductions, DeductionLeq);
    SortKeepsPoints(deductions);
    SameElements(Sort(deductions, DeductionLeq), deductions);
    deductions := Sort(deductions, DeductionLeq);
    var total := Fold(deductions);
    var value := 100 - Min(100, total);
    score := Score(value, Classify(value), deductions, !completed || skipped);
  }

  // ----- The score of a sorted list -----

  /** Appending a finding changes only what its own pair is worth. */
  lemma WorstStep(front: seq<Finding>, f: Finding, key: Key)
    ensures Worst(front + [f], key)
      == if KeyOf(f) == key && Worst(front, key) < SeverityPoints(f.severity) then SeverityPoints(f.severity)
         else Worst(front, key)
  {
    assert (front + [f])[..|front|] == front;
  }

  lemma UnseenIsWorthless(findings: seq<Finding>, key: Key)
    requires key !in Keys(findings)
    ensures Worst(findings, key) == 0
  {
    WorstIsWorst(findings, key);
  }

  /** No finding is worth more than an earlier one of its pair. */
  predicate NoneWorsens(findings: seq<Finding>) {
    forall i :: 0 <= i < |findings| && KeyOf(findings[i]) in Keys(findings[..i]) ==>
      SeverityPoints(findings[i].severity) <= Worst(findings[..i], KeyOf(findings[i]))
  }

  lemma LeqPoints(a: Finding, b: Finding)
    requires FindingLeq(a, b)
    ensures SeverityPoints(b.severity) <= SeverityPoints(a.severity)
  {
  }

  /** In severity order the first finding of a pair is the worst. */
  lemma SortedNeverWorsens(findings: seq<Finding>)
    requires Ordered(findings, FindingLeq)
    ensures NoneWorsens(findings)
  {
    hide FindingLeq, Worst;
    forall i | 0 <= i < |findings| && KeyOf(findings[i]) in Keys(findings[..i])
      ensures SeverityPoints(findings[i].severity) <= Worst(findings[..i], KeyOf(findings[i]))
    {
      var front := findings[..i];
      var g :| g in front && KeyOf(g) == KeyOf(findings[i]);
      var j :| 0 <= j < |front| && front[j] == g;
      LeqPoints(findings[j], findings[i]);
      WorstIsWorst(front, KeyOf(findings[i]));
    }
  }

  lemma NoneWorsensStep(front: seq<Finding>, f: Finding)
    ensures NoneWorsens(front + [f]) <==>
      NoneWorsens(front) && (KeyOf(f) in Keys(front) ==> SeverityPoints(f.severity) <= Worst(front, KeyOf(f)))
  {
    hide Worst, Keys, SeverityPoints;
    var all := front + [f];
    assert all[..|front|] == front && all[|front|] == f;
    forall i | 0 <= i < |front| ensures all[i] == front[i] && all[..i] == front[..i] {
    }
    if NoneWorsens(all) {
      forall i | 0 <= i < |front| && KeyOf(front[i]) in Keys(front[..i])
        ensures SeverityPoints(front[i].severity) <= Worst(front[..i], KeyOf(front[i]))
      {
        assert all[i] == front[i] && all[..i] == front[..i];
      }
      assert KeyOf(all[|front|]) in Keys(all[..|front|]) ==>
          SeverityPoints(all[|front|].severity) <= Worst(all[..|front|], KeyOf(all[|front|]));
    }
  }

  lemma SameTotal(keys: set<Key>, a: seq<Finding>, b: seq<Finding>)
    requires forall key :: key in keys ==> Worst(a, key) == Worst(b, key)
    ensures Total(keys, a) == Total(keys, b)
  {
    hide Worst;
    TotalGrows(keys, keys, a, b);
    TotalGrows(keys, keys, b, a);
  }

  lemma ChargeLast(front: seq<Finding>, f: Finding)
    requires KeyOf(f) !in Keys(front)
    ensures Points(Charges(front + [f])) == Points(Charges(front)) + SeverityPoints(f.severity)
  {
    assert (front + [f])[..|front|] == front;
    var d := Deduction(KeyOf(f), SeverityPoints(f.severity));
    assert (Charges(front) + [d])[..|Charges(front)|] == Charges(front);
  }

  /** The scoring never overcharges, and charges the worst of every pair exactly when no finding worsens its pair. */
  lemma {:induction false} ChargedExactly(findings: seq<Finding>)
    ensures Points(Charges(findings)) <= Total(Keys(findings), findings)
    ensures Points(Charges(findings)) == Total(Keys(findings), findings) <==> NoneWorsens(findings)
  {
    if findings == [] {
    } else {
      hide Worst, SeverityPoints, NoneWorsens;
      var front, last := findings[..|findings| - 1], findings[|findings| - 1];
      assert findings == front + [last];
      ChargedExactly(front);
      KeysGrow(front, last);
      NoneWorsensStep(front, last);
      forall key ensures key != KeyOf(last) ==> Worst(findings, key) == Worst(front, key) {
        WorstStep(front, last, key);
      }
      WorstStep(front, last, KeyOf(last));
      TotalTakes(Keys(findings), findings, KeyOf(last));
      SameTotal(Keys(front) - {KeyOf(last)}, front, findings);
      assert Keys(findings) - {KeyOf(last)} == Keys(front) - {KeyOf(last)};
      if KeyOf(last) in Keys(front) {
        TotalTakes(Keys(front), front, KeyOf(last));
      } else {
        assert Keys(front) - {KeyOf(last)} == Keys(front);
        UnseenIsWorthless(front, KeyOf(last));
        ChargeLast(front, last);
      }
    }
  }

  ghost function ScoreOf(findings: seq<Finding>): nat {
    100 - Min(100, Total(Keys(findings), findings))
  }

  /** Findings can only lower the score. */
  lemma SubsetScores(fewer: seq<Finding>, more: seq<Finding>)
    requires forall f :: f in fewer ==> f in more
    ensures Total(Keys(fewer), fewer) <= Total(Keys(more), more)
    ensures ScoreOf(more) <= ScoreOf(fewer)
  {
    hide Worst;
    forall key ensures Worst(fewer, key) <= Worst(more, key) {
      WorstIsWorst(fewer, key);
      WorstIsWorst(more, key);
    }
    TotalGrows(Keys(fewer), Keys(more), fewer, more);
  }

  /** The score of a generated list sums the worst severity of every pair, and nothing saturates. */
  lemma GeneratedScore(findings: seq<Finding>, emitted: seq<Finding>, incomplete: bool)
    requires IsGenerated(findings, emitted)
    ensures ScoreFor(findings, incomplete).value == ScoreOf(emitted)
  {
    hide FindingLeq, Worst, Charges, NoneWorsens;
    SortedNeverWorsens(findings);
    ChargedExactly(findings);
    SubsetScores(findings, emitted);
    SubsetScores(emitted, findings);
  }
}
