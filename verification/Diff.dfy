/**
 The semantic comparison of two scan reports: keyed maps and sets compared into changes that can be
 applied as a patch and that mirror when the two sides are exchanged.
 */
module Diff {
  import opened Ordering
  import opened Wrappers

  /** A JSON value, by its text. */
  datatype Value = Value(text: string)

  datatype Change = Change(
    category: string, key: string, oldValue: Option<Value>, newValue: Option<Value>,
    target: string, significance: string)

  datatype Score = Score(model: string, value: Value)

  /** What of a report is compared, already keyed: volatile fields are gone. */
  datatype Report = Report(
    identity: string, schemaVersion: string,
    ips: set<string>, ports: map<string, Value>,
    services: map<string, Value>, http: map<string, Value>,
    certificates: map<string, Value>,
    records: set<string>, mail: Option<Value>, intelligence: Option<Value>,
    findings: map<string, Value>,
    completeness: Value,
    score: Option<Score>)

  datatype Summary = Summary(added: nat, removed: nat, changed: nat)

  datatype Warning = ScoreModelsDiffer(oldModel: string, newModel: string)

  datatype ScanDiff = ScanDiff(
    summary: Summary,
    network: seq<Change>, services: seq<Change>, certificates: seq<Change>, dns: seq<Change>,
    findings: seq<Change>, score: Option<Change>, completeness: seq<Change>,
    warnings: seq<Warning>)

  datatype Error =
    | DifferentTargets(oldTarget: string, newTarget: string)
    | UnsupportedSchema(version: string)
    | DifferentFamilies(oldVersion: string, newVersion: string)

  // ----- Ordered keys -----

  predicate IsLeast(s: set<string>, m: string) {
    m in s && forall k :: k in s ==> StringLeq(m, k)
  }

  lemma {:induction false} HasLeast(s: set<string>)
    requires s != {}
    ensures exists m :: IsLeast(s, m)
  {
    var x :| x in s;
    StringTotal(x, x);
    if s == {x} {
      assert IsLeast(s, x);
    } else {
      var rest := s - {x};
      assert s == rest + {x};
      HasLeast(rest);
      var m :| IsLeast(rest, m);
      StringTotal(x, m);
      var least := if StringLeq(x, m) then x else m;
      forall k | k in s ensures StringLeq(least, k) {
        if k != x && StringLeq(x, m) {
          StringTransitive(x, m, k);
        }
      }
      assert IsLeast(s, least);
    }
  }

  lemma OneLeast(s: set<string>)
    requires s != {}
    ensures exists m :: m in s && forall k :: k in s ==> StringLeq(m, k)
    ensures forall a, b :: a in s && b in s && StringLeq(a, b) && StringLeq(b, a) ==> a == b
  {
    HasLeast(s);
    var m :| IsLeast(s, m);
    forall a, b | a in s && b in s && StringLeq(a, b) && StringLeq(b, a) ensures a == b {
      StringTotal(a, b);
    }
  }

  predicate Ascending(keys: seq<string>) {
    forall i, j :: 0 <= i < j < |keys| ==> keys[i] != keys[j] && StringLeq(keys[i], keys[j])
  }

  /** The iteration order of an ordered set of keys. */
  function KeysInOrder(s: set<string>): (keys: seq<string>)
    ensures forall k :: k in keys <==> k in s
    ensures Ascending(keys)
  {
    if s == {} then []
    else
      OneLeast(s);
      var m :| m in s && forall k :: k in s ==> StringLeq(m, k);
      [m] + KeysInOrder(s - {m})
  }

  // ----- Maps -----

  function Get(m: map<string, Value>, key: string): Option<Value> {
    if key in m then Some(m[key]) else None
  }

  function ChangesAt(keys: seq<string>, category: string, old_: map<string, Value>, new_: map<string, Value>,
                     target: string, significance: string): seq<Change>
  {
    if keys == [] then []
    else
      (if Get(old_, keys[0]) != Get(new_, keys[0])
       then [Change(category, keys[0], Get(old_, keys[0]), Get(new_, keys[0]), target, significance)] else [])
      + ChangesAt(keys[1..], category, old_, new_, target, significance)
  }

  function CompareMaps(category: string, old_: map<string, Value>, new_: map<string, Value>,
                             target: string, significance: string): seq<Change>
  {
    ChangesAt(KeysInOrder(old_.Keys + new_.Keys), category, old_, new_, target, significance)
  }

  /** A patch step: a change without a new value removes its key. */
  function Apply(changes: seq<Change>, m: map<string, Value>): map<string, Value> {
    if changes == [] then m
    else
      var c := changes[0];
      Apply(changes[1..], if c.newValue.None? then m - {c.key} else m[c.key := c.newValue.value])
  }

  // ----- Sets -----

  function Removals(keys: seq<string>, category: string, target: string, significance: string): seq<Change> {
    seq(|keys|, i requires 0 <= i < |keys| =>
      Change(category, keys[i], Some(Value(keys[i])), None, target, significance))
  }

  function Additions(keys: seq<string>, category: string, target: string, significance: string): seq<Change> {
    seq(|keys|, i requires 0 <= i < |keys| =>
      Change(category, keys[i], None, Some(Value(keys[i])), target, significance))
  }

  function CompareSets(category: string, old_: set<string>, new_: set<string>,
                             target: string, significance: string): seq<Change>
  {
    Removals(KeysInOrder(old_ - new_), category, target, significance)
    + Additions(KeysInOrder(new_ - old_), category, target, significance)
  }

  function ApplyToSet(changes: seq<Change>, s: set<string>): set<string> {
    if changes == [] then s
    else
      var c := changes[0];
      ApplyToSet(changes[1..], if c.newValue.None? then s - {c.key} else s + {c.key})
  }

  // ----- The whole diff -----

  predicate ByCategoryAndKey(a: Change, b: Change) {
    if a.category == b.category then StringLeq(a.key, b.key) else StringLeq(a.category, b.category)
  }

  function Optional(category: string, old_: Option<Value>, new_: Option<Value>, target: string,
                    significance: string): seq<Change> {
    if old_ == new_ then [] else [Change(category, target, old_, new_, target, significance)]
  }

  function NetworkChanges(a: Report, b: Report, target: string): seq<Change> {
    Sort(CompareSets("ip_address", a.ips, b.ips, target, "medium")
         + CompareMaps("port", a.ports, b.ports, target, "medium"), ByCategoryAndKey)
  }

  function ServiceChanges(a: Report, b: Report, target: string): seq<Change> {
    Sort(CompareMaps("service", a.services, b.services, target, "medium")
         + CompareMaps("http_endpoint", a.http, b.http, target, "medium"), ByCategoryAndKey)
  }

  function DnsChanges(a: Report, b: Report, target: string): seq<Change> {
    Sort(CompareSets("dns_record", a.records, b.records, target, "medium")
         + (Optional("mail_policy", a.mail, b.mail, target, "high")
            + Optional("passive_intelligence", a.intelligence, b.intelligence, target, "medium")), ByCategoryAndKey)
  }

  function ScoreValue(score: Option<Score>): Option<Value> {
    if score.Some? then Some(score.value.value) else None
  }

  /** No numeric delta across score models: a warning instead. */
  function ScoreChange(a: Report, b: Report, target: string): (Option<Change>, seq<Warning>) {
    if a.score.Some? && b.score.Some? && a.score.value.model != b.score.value.model then
      (None, [ScoreModelsDiffer(a.score.value.model, b.score.value.model)])
    else if a.score == b.score then (None, [])
    else (Some(Change("exposure_score", target, ScoreValue(a.score), ScoreValue(b.score), target, "high")), [])
  }

  function SchemaFamily(version: string): Result<string, Error> {
    if version in {"0.1.0", "0.1.1", "0.1.2", "0.2.0", "0.3.0"} then Ok("legacy-ssh-map")
    else if version == "0.4.0" then Ok("typed-ssh")
    else Err(UnsupportedSchema(version))
  }

  function Compatibility(a: Report, b: Report): Option<Error> {
    if a.identity != b.identity then Some(DifferentTargets(a.identity, b.identity))
    else if SchemaFamily(a.schemaVersion).Err? then Some(SchemaFamily(a.schemaVersion).error)
    else if SchemaFamily(b.schemaVersion).Err? then Some(SchemaFamily(b.schemaVersion).error)
    else if SchemaFamily(a.schemaVersion) != SchemaFamily(b.schemaVersion) then
      Some(DifferentFamilies(a.schemaVersion, b.schemaVersion))
    else None
  }

  function AllChanges(diff: ScanDiff): seq<Change> {
    diff.network + diff.services + diff.certificates + diff.dns + diff.findings + diff.completeness
    + (if diff.score.Some? then [diff.score.value] else [])
  }

  function Count(changes: seq<Change>, p: Change -> bool): nat {
    if changes == [] then 0
    else Count(changes[..|changes| - 1], p) + if p(changes[|changes| - 1]) then 1 else 0
  }

  predicate IsAdded(c: Change) { c.oldValue.None? && c.newValue.Some? }

  predicate IsRemoved(c: Change) { c.oldValue.Some? && c.newValue.None? }

  predicate IsChanged(c: Change) { !IsAdded(c) && !IsRemoved(c) }

  function Summarize(changes: seq<Change>): Summary {
    Summary(Count(changes, IsAdded), Count(changes, IsRemoved), Count(changes, IsChanged))
  }

  function Sections(a: Report, b: Report): ScanDiff {
    var target := a.identity;
    ScanDiff(
      Summary(0, 0, 0),
      NetworkChanges(a, b, target),
      ServiceChanges(a, b, target),
      CompareMaps("certificate", a.certificates, b.certificates, target, "high"),
      DnsChanges(a, b, target),
      CompareMaps("finding", a.findings, b.findings, target, "high"),
      ScoreChange(a, b, target).0,
      Optional("scan_completeness", Some(a.completeness), Some(b.completeness), target, "high"),
      ScoreChange(a, b, target).1)
  }

  function DiffReports(a: Report, b: Report): Result<ScanDiff, Error> {
    if Compatibility(a, b).Some? then Err(Compatibility(a, b).value)
    else Ok(Sections(a, b).(summary := Summarize(AllChanges(Sections(a, b)))))
  }

  // ----- A patch -----

  /** The changes at the given keys are exactly the differences there. */
  lemma {:induction false} ChangesExactly(keys: seq<string>, category: string, a: map<string, Value>,
                                          b: map<string, Value>, target: string, significance: string, c: Change)
    ensures c in ChangesAt(keys, category, a, b, target, significance) <==>
            && c.key in keys && Get(a, c.key) != Get(b, c.key)
            && c == Change(category, c.key, Get(a, c.key), Get(b, c.key), target, significance)
  {
    if keys != [] {
      ChangesExactly(keys[1..], category, a, b, target, significance, c);
      assert keys == [keys[0]] + keys[1..];
    }
  }

  lemma {:induction false} PatchAt(keys: seq<string>, category: string, a: map<string, Value>, b: map<string, Value>,
                                   target: string, significance: string, m: map<string, Value>)
    requires Ascending(keys)
    requires forall k :: k in keys ==> Get(m, k) == Get(a, k)
    ensures forall k :: Get(Apply(ChangesAt(keys, category, a, b, target, significance), m), k) ==
                        if k in keys then Get(b, k) else Get(m, k)
  {
    if keys != [] {
      var key, rest := keys[0], keys[1..];
      var c := Change(category, key, Get(a, key), Get(b, key), target, significance);
      var changed := Get(a, key) != Get(b, key);
      var next := if !changed then m else if c.newValue.None? then m - {key} else m[key := c.newValue.value];
      assert key !in rest;
      PatchAt(rest, category, a, b, target, significance, next);
      var later := ChangesAt(rest, category, a, b, target, significance);
      if changed {
        assert ([c] + later)[1..] == later;
      } else {
        assert [] + later == later;
      }
      assert forall k :: k in keys <==> k == key || k in rest;
    }
  }

  lemma SameGets(a: map<string, Value>, b: map<string, Value>)
    requires forall k :: Get(a, k) == Get(b, k)
    ensures a == b
  {
    assert forall k :: k in a <==> k in b by {
      forall k ensures k in a <==> k in b { assert Get(a, k) == Get(b, k); }
    }
    assert forall k :: k in a ==> a[k] == b[k] by {
      forall k | k in a ensures a[k] == b[k] { assert Get(a, k) == Get(b, k); }
    }
  }

  /** Applied to the old side, the changes of compare_maps yield the new side. */
  lemma MapsPatch(category: string, a: map<string, Value>, b: map<string, Value>, target: string, significance: string)
    ensures Apply(CompareMaps(category, a, b, target, significance), a) == b
  {
    var keys := KeysInOrder(a.Keys + b.Keys);
    var patched := Apply(CompareMaps(category, a, b, target, significance), a);
    PatchAt(keys, category, a, b, target, significance, a);
    forall k ensures Get(patched, k) == Get(b, k) {
      assert k !in keys ==> k !in a && k !in b;
    }
    SameGets(patched, b);
  }

  lemma {:induction false} ApplyConcat(a: seq<Change>, b: seq<Change>, s: set<string>)
    ensures ApplyToSet(a + b, s) == ApplyToSet(b, ApplyToSet(a, s))
  {
    if a == [] {
      assert a + b == b;
    } else {
      assert (a + b)[0] == a[0] && (a + b)[1..] == a[1..] + b;
      ApplyConcat(a[1..], b, if a[0].newValue.None? then s - {a[0].key} else s + {a[0].key});
    }
  }

  lemma {:induction false} ApplyRemovals(keys: seq<string>, category: string, target: string, significance: string,
                                         s: set<string>)
    ensures ApplyToSet(Removals(keys, category, target, significance), s) == s - (set k | k in keys)
  {
    if keys != [] {
      var changes := Removals(keys, category, target, significance);
      assert changes[1..] == Removals(keys[1..], category, target, significance);
      ApplyRemovals(keys[1..], category, target, significance, s - {keys[0]});
      assert forall k :: k in keys <==> k == keys[0] || k in keys[1..];
    }
  }

  lemma {:induction false} ApplyAdditions(keys: seq<string>, category: string, target: string, significance: string,
                                          s: set<string>)
    ensures ApplyToSet(Additions(keys, category, target, significance), s) == s + (set k | k in keys)
  {
    if keys != [] {
      var changes := Additions(keys, category, target, significance);
      assert changes[1..] == Additions(keys[1..], category, target, significance);
      ApplyAdditions(keys[1..], category, target, significance, s + {keys[0]});
      assert forall k :: k in keys <==> k == keys[0] || k in keys[1..];
    }
  }

  /** Applied to the old side, the changes of compare_sets yield the new side. */
  lemma SetsPatch(category: string, a: set<string>, b: set<string>, target: string, significance: string)
    ensures ApplyToSet(CompareSets(category, a, b, target, significance), a) == b
  {
    var gone, fresh_ := KeysInOrder(a - b), KeysInOrder(b - a);
    ApplyRemovals(gone, category, target, significance, a);
    ApplyAdditions(fresh_, category, target, significance, a - (set k | k in gone));
    ApplyConcat(Removals(gone, category, target, significance), Additions(fresh_, category, target, significance), a);
  }

  // ----- What a diff says of two reports -----

  lemma CategoryOrder()
    ensures TotalPreorder(ByCategoryAndKey)
  {
    forall x: Change, y: Change ensures ByCategoryAndKey(x, y) || ByCategoryAndKey(y, x) {
      StringTotal(x.category, y.category);
      StringTotal(x.key, y.key);
    }
    forall x: Change, y: Change, z: Change | ByCategoryAndKey(x, y) && ByCategoryAndKey(y, z)
      ensures ByCategoryAndKey(x, z)
    {
      if x.category == y.category == z.category {
        StringTransitive(x.key, y.key, z.key);
      } else {
        StringTotal(x.category, x.category);
        StringTotal(y.category, z.category);
        StringTotal(x.category, y.category);
        StringTransitive(x.category, y.category, z.category);
      }
    }
  }

  /** No two changes of a list share category and key. */
  predicate OneChangePerKey(changes: seq<Change>) {
    forall i, j :: 0 <= i < j < |changes| ==>
      changes[i].category != changes[j].category || changes[i].key != changes[j].key
  }

  predicate InCategory(changes: seq<Change>, category: string) {
    forall i :: 0 <= i < |changes| ==> changes[i].category == category
  }

  lemma {:induction false} MapChangesPerKey(keys: seq<string>, category: string, a: map<string, Value>,
                                            b: map<string, Value>, target: string, significance: string)
    requires Ascending(keys)
    ensures OneChangePerKey(ChangesAt(keys, category, a, b, target, significance))
    ensures InCategory(ChangesAt(keys, category, a, b, target, significance), category)
  {
    if keys != [] {
      var rest := ChangesAt(keys[1..], category, a, b, target, significance);
      MapChangesPerKey(keys[1..], category, a, b, target, significance);
      forall i | 0 <= i < |rest| ensures rest[i].key != keys[0] {
        ChangesExactly(keys[1..], category, a, b, target, significance, rest[i]);
        var j :| 0 <= j < |keys[1..]| && keys[1..][j] == rest[i].key;
        assert keys[j + 1] == rest[i].key;
      }
    }
  }

  lemma MapsPerKey(category: string, a: map<string, Value>, b: map<string, Value>, target: string, significance: string)
    ensures OneChangePerKey(CompareMaps(category, a, b, target, significance))
    ensures InCategory(CompareMaps(category, a, b, target, significance), category)
  {
    MapChangesPerKey(KeysInOrder(a.Keys + b.Keys), category, a, b, target, significance);
  }

  lemma SetsPerKey(category: string, a: set<string>, b: set<string>, target: string, significance: string)
    ensures OneChangePerKey(CompareSets(category, a, b, target, significance))
    ensures InCategory(CompareSets(category, a, b, target, significance), category)
  {
    var gone, added := KeysInOrder(a - b), KeysInOrder(b - a);
    forall i, j | 0 <= i < |gone| && 0 <= j < |added| ensures gone[i] != added[j] {
      assert gone[i] in gone && added[j] in added;
    }
  }

  lemma TwoCategories(x: seq<Change>, y: seq<Change>, c: string, d: string)
    requires c != d && OneChangePerKey(x) && OneChangePerKey(y) && InCategory(x, c) && InCategory(y, d)
    ensures OneChangePerKey(x + y)
  {
  }

  /** The change of one key of a map, from what it was to what it is. */
  predicate MapChange(c: Change, category: string, x: map<string, Value>, y: map<string, Value>, target: string,
                      significance: string)
  {
    && c.category == category && c.target == target && c.significance == significance
    && (c.key in x || c.key in y) && (c.key in x && c.key in y ==> x[c.key] != y[c.key])
    && c.oldValue == (if c.key in x then Some(x[c.key]) else None)
    && c.newValue == if c.key in y then Some(y[c.key]) else None
  }

  /** The change of one element of a set. */
  predicate SetChange(c: Change, category: string, x: set<string>, y: set<string>, target: string,
                      significance: string)
  {
    && c.category == category && c.target == target && c.significance == significance
    && (c.key in x <==> c.key !in y)
    && c.oldValue == (if c.key in x then Some(Value(c.key)) else None)
    && c.newValue == if c.key in y then Some(Value(c.key)) else None
  }

  /** The change of a part that is one value. */
  predicate PartChange(c: Change, category: string, x: Option<Value>, y: Option<Value>, target: string,
                       significance: string)
  {
    x != y && c == Change(category, target, x, y, target, significance)
  }

  /** A list of changes, each key of a category once, by category and key. */
  ghost predicate Listed(changes: seq<Change>) {
    OneChangePerKey(changes) && Ordered(changes, ByCategoryAndKey)
  }

  ghost predicate NetworkFits(changes: seq<Change>, a: Report, b: Report) {
    && Listed(changes)
    && forall c :: c in changes <==>
         || SetChange(c, "ip_address", a.ips, b.ips, a.identity, "medium")
         || MapChange(c, "port", a.ports, b.ports, a.identity, "medium")
  }

  ghost predicate ServicesFit(changes: seq<Change>, a: Report, b: Report) {
    && Listed(changes)
    && forall c :: c in changes <==>
         || MapChange(c, "service", a.services, b.services, a.identity, "medium")
         || MapChange(c, "http_endpoint", a.http, b.http, a.identity, "medium")
  }

  ghost predicate CertificatesFit(changes: seq<Change>, a: Report, b: Report) {
    && Listed(changes)
    && forall c :: c in changes <==>
         MapChange(c, "certificate", a.certificates, b.certificates, a.identity, "high")
  }

  ghost predicate DnsFits(changes: seq<Change>, a: Report, b: Report) {
    && Listed(changes)
    && forall c :: c in changes <==>
         || SetChange(c, "dns_record", a.records, b.records, a.identity, "medium")
         || PartChange(c, "mail_policy", a.mail, b.mail, a.identity, "high")
         || PartChange(c, "passive_intelligence", a.intelligence, b.intelligence, a.identity, "medium")
  }

  ghost predicate FindingsFit(changes: seq<Change>, a: Report, b: Report) {
    && Listed(changes)
    && forall c :: c in changes <==> MapChange(c, "finding", a.findings, b.findings, a.identity, "high")
  }

  predicate CompletenessFits(changes: seq<Change>, a: Report, b: Report) {
    changes ==
      if a.completeness == b.completeness then []
      else [Change("scan_completeness", a.identity, Some(a.completeness), Some(b.completeness), a.identity, "high")]
  }

  /** Scores of different models are not compared: there is a warning instead. */
  predicate ScoreFits(change: Option<Change>, warnings: seq<Warning>, a: Report, b: Report) {
    if a.score.Some? && b.score.Some? && a.score.value.model != b.score.value.model
    then change.None? && warnings == [ScoreModelsDiffer(a.score.value.model, b.score.value.model)]
    else
      && warnings == []
      && (change.None? <==> a.score == b.score)
      && (change.Some? ==>
            && change.value.category == "exposure_score" && change.value.key == change.value.target == a.identity
            && change.value.significance == "high"
            && change.value.oldValue == (if a.score.Some? then Some(a.score.value.value) else None)
            && change.value.newValue == if b.score.Some? then Some(b.score.value.value) else None)
  }

  /** How many changes of all sections meet a condition. */
  function Total(d: ScanDiff, p: Change -> bool): nat {
    Count(d.network, p) + Count(d.services, p) + Count(d.certificates, p) + Count(d.dns, p) + Count(d.findings, p)
    + Count(d.completeness, p) + if d.score.Some? && p(d.score.value) then 1 else 0
  }

  /** Every section holds exactly the differences of its part, and the summary counts them all. */
  ghost predicate DiffFits(d: ScanDiff, a: Report, b: Report) {
    && NetworkFits(d.network, a, b) && ServicesFit(d.services, a, b) && CertificatesFit(d.certificates, a, b)
    && DnsFits(d.dns, a, b) && FindingsFit(d.findings, a, b) && CompletenessFits(d.completeness, a, b)
    && ScoreFits(d.score, d.warnings, a, b)
    && d.summary == Summary(Total(d, IsAdded), Total(d, IsRemoved), Total(d, IsChanged))
  }

  lemma MapsFit(category: string, a: map<string, Value>, b: map<string, Value>, target: string, significance: string,
                c: Change)
    ensures c in CompareMaps(category, a, b, target, significance) <==>
            MapChange(c, category, a, b, target, significance)
  {
    ChangesExactly(KeysInOrder(a.Keys + b.Keys), category, a, b, target, significance, c);
  }

  lemma SetsFit(category: string, a: set<string>, b: set<string>, target: string, significance: string, c: Change)
    ensures c in CompareSets(category, a, b, target, significance) <==>
            SetChange(c, category, a, b, target, significance)
  {
    var gone, added := KeysInOrder(a - b), KeysInOrder(b - a);
    var removals := Removals(gone, category, target, significance);
    var additions := Additions(added, category, target, significance);
    if SetChange(c, category, a, b, target, significance) {
      if c.key in a {
        assert c.key in gone;
        var i :| 0 <= i < |gone| && gone[i] == c.key;
        assert removals[i] == c;
      } else {
        assert c.key in added;
        var i :| 0 <= i < |added| && added[i] == c.key;
        assert additions[i] == c;
      }
    }
    if c in CompareSets(category, a, b, target, significance) {
      if c in removals {
        var i :| 0 <= i < |removals| && removals[i] == c;
        assert gone[i] in a - b;
      } else {
        var i :| 0 <= i < |additions| && additions[i] == c;
        assert added[i] in b - a;
      }
    }
  }

  lemma {:induction false} OnceInA(a: seq<Change>, c: Change)
    requires OneChangePerKey(a)
    ensures multiset(a)[c] <= 1
  {
    if a != [] {
      var front, last := a[..|a| - 1], a[|a| - 1];
      OnceInA(front, c);
      assert a == front + [last];
      if c == last {
        assert c !in front;
      }
    }
  }

  lemma PermutedPerKey(a: seq<Change>, b: seq<Change>)
    requires OneChangePerKey(a) && multiset(a) == multiset(b)
    ensures OneChangePerKey(b)
  {
    forall i, j | 0 <= i < j < |b| ensures b[i].category != b[j].category || b[i].key != b[j].key {
      if b[i].category == b[j].category && b[i].key == b[j].key {
        assert b[i] in multiset(a) && b[j] in multiset(a);
        var k :| 0 <= k < |a| && a[k] == b[i];
        var l :| 0 <= l < |a| && a[l] == b[j];
        assert k == l;
        Twice(b, i, j);
        OnceInA(a, b[i]);
      }
    }
  }

  /** Sorting lists the changes of a section. */
  lemma SortLists(changes: seq<Change>)
    requires OneChangePerKey(changes)
    ensures Listed(Sort(changes, ByCategoryAndKey))
    ensures forall c :: c in Sort(changes, ByCategoryAndKey) <==> c in changes
  {
    hide ByCategoryAndKey, OneChangePerKey, Sort;
    CategoryOrder();
    SortOrders(changes, ByCategoryAndKey);
    SameElements(Sort(changes, ByCategoryAndKey), changes);
    PermutedPerKey(changes, Sort(changes, ByCategoryAndKey));
  }

  lemma {:induction false} MapChangesOrdered(keys: seq<string>, category: string, a: map<string, Value>,
                                             b: map<string, Value>, target: string, significance: string)
    requires Ascending(keys)
    ensures Ordered(ChangesAt(keys, category, a, b, target, significance), ByCategoryAndKey)
  {
    if keys != [] {
      var rest := ChangesAt(keys[1..], category, a, b, target, significance);
      MapChangesOrdered(keys[1..], category, a, b, target, significance);
      forall i | 0 <= i < |rest| ensures rest[i].category == category && StringLeq(keys[0], rest[i].key) {
        ChangesExactly(keys[1..], category, a, b, target, significance, rest[i]);
        var j :| 0 <= j < |keys[1..]| && keys[1..][j] == rest[i].key;
        assert keys[j + 1] == rest[i].key;
      }
      StringTotal(keys[0], keys[0]);
    }
  }

  lemma MapsListed(category: string, a: map<string, Value>, b: map<string, Value>, target: string,
                   significance: string)
    ensures Listed(CompareMaps(category, a, b, target, significance))
  {
    MapsPerKey(category, a, b, target, significance);
    MapChangesOrdered(KeysInOrder(a.Keys + b.Keys), category, a, b, target, significance);
  }

  lemma NetworkExactly(a: Report, b: Report)
    ensures NetworkFits(NetworkChanges(a, b, a.identity), a, b)
  {
    var x, y := CompareSets("ip_address", a.ips, b.ips, a.identity, "medium"),
        CompareMaps("port", a.ports, b.ports, a.identity, "medium");
    SetsPerKey("ip_address", a.ips, b.ips, a.identity, "medium");
    MapsPerKey("port", a.ports, b.ports, a.identity, "medium");
    hide CompareSets, CompareMaps, Listed, SetChange, MapChange;
    TwoCategories(x, y, "ip_address", "port");
    SortLists(x + y);
    forall c ensures c in x + y <==>
      || SetChange(c, "ip_address", a.ips, b.ips, a.identity, "medium")
      || MapChange(c, "port", a.ports, b.ports, a.identity, "medium")
    {
      SetsFit("ip_address", a.ips, b.ips, a.identity, "medium", c);
      MapsFit("port", a.ports, b.ports, a.identity, "medium", c);
    }
  }

  lemma ServicesExactly(a: Report, b: Report)
    ensures ServicesFit(ServiceChanges(a, b, a.identity), a, b)
  {
    var x, y := CompareMaps("service", a.services, b.services, a.identity, "medium"),
        CompareMaps("http_endpoint", a.http, b.http, a.identity, "medium");
    MapsPerKey("service", a.services, b.services, a.identity, "medium");
    MapsPerKey("http_endpoint", a.http, b.http, a.identity, "medium");
    hide CompareMaps, Listed, MapChange;
    TwoCategories(x, y, "service", "http_endpoint");
    SortLists(x + y);
    forall c ensures c in x + y <==>
      || MapChange(c, "service", a.services, b.services, a.identity, "medium")
      || MapChange(c, "http_endpoint", a.http, b.http, a.identity, "medium")
    {
      MapsFit("service", a.services, b.services, a.identity, "medium", c);
      MapsFit("http_endpoint", a.http, b.http, a.identity, "medium", c);
    }
  }

  lemma DnsExactly(a: Report, b: Report)
    ensures DnsFits(DnsChanges(a, b, a.identity), a, b)
  {
    var x := CompareSets("dns_record", a.records, b.records, a.identity, "medium");
    var m := Optional("mail_policy", a.mail, b.mail, a.identity, "high");
    var n := Optional("passive_intelligence", a.intelligence, b.intelligence, a.identity, "medium");
    SetsPerKey("dns_record", a.records, b.records, a.identity, "medium");
    hide CompareSets, Listed, SetChange;
    assert OneChangePerKey(x + (m + n)) by {
      assert "dns_record" != "mail_policy" && "dns_record" != "passive_intelligence" &&
             "mail_policy" != "passive_intelligence";
    }
    SortLists(x + (m + n));
    forall c ensures c in x + (m + n) <==>
      || SetChange(c, "dns_record", a.records, b.records, a.identity, "medium")
      || PartChange(c, "mail_policy", a.mail, b.mail, a.identity, "high")
      || PartChange(c, "passive_intelligence", a.intelligence, b.intelligence, a.identity, "medium")
    {
      SetsFit("dns_record", a.records, b.records, a.identity, "medium", c);
    }
  }

  lemma KeyedExactly(a: Report, b: Report)
    ensures CertificatesFit(Sections(a, b).certificates, a, b)
    ensures FindingsFit(Sections(a, b).findings, a, b)
  {
    hide CompareMaps, Listed, MapChange;
    MapsListed("certificate", a.certificates, b.certificates, a.identity, "high");
    MapsListed("finding", a.findings, b.findings, a.identity, "high");
    forall c
      ensures c in Sections(a, b).certificates <==>
              MapChange(c, "certificate", a.certificates, b.certificates, a.identity, "high")
      ensures c in Sections(a, b).findings <==> MapChange(c, "finding", a.findings, b.findings, a.identity, "high")
    {
      MapsFit("certificate", a.certificates, b.certificates, a.identity, "high", c);
      MapsFit("finding", a.findings, b.findings, a.identity, "high", c);
    }
  }

  lemma {:induction false} CountJoins(x: seq<Change>, y: seq<Change>, p: Change -> bool)
    ensures Count(x + y, p) == Count(x, p) + Count(y, p)
  {
    if y == [] {
      assert x + y == x;
    } else {
      CountJoins(x, y[..|y| - 1], p);
      assert (x + y)[..|x + y| - 1] == x + y[..|y| - 1];
    }
  }

  lemma TotalExactly(d: ScanDiff, p: Change -> bool)
    ensures Count(AllChanges(d), p) == Total(d, p)
  {
    var score := if d.score.Some? then [d.score.value] else [];
    CountJoins(d.network, d.services, p);
    CountJoins(d.network + d.services, d.certificates, p);
    CountJoins(d.network + d.services + d.certificates, d.dns, p);
    CountJoins(d.network + d.services + d.certificates + d.dns, d.findings, p);
    CountJoins(d.network + d.services + d.certificates + d.dns + d.findings, d.completeness, p);
    CountJoins(d.network + d.services + d.certificates + d.dns + d.findings + d.completeness, score, p);
    assert d.score.Some? ==> score[..0] == [];
  }

  /** The computed diff says exactly what differs. */
  lemma DiffExactly(a: Report, b: Report)
    requires DiffReports(a, b).Ok?
    ensures DiffFits(DiffReports(a, b).value, a, b)
  {
    hide NetworkChanges, ServiceChanges, DnsChanges, CompareMaps, NetworkFits, ServicesFit, CertificatesFit, DnsFits,
         FindingsFit, Count;
    NetworkExactly(a, b);
    ServicesExactly(a, b);
    DnsExactly(a, b);
    KeyedExactly(a, b);
    var d := Sections(a, b);
    TotalExactly(d, IsAdded);
    TotalExactly(d, IsRemoved);
    TotalExactly(d, IsChanged);
  }

  // ----- The diff as a patch -----

  /** The changes of one category, in their order. */
  function Of(changes: seq<Change>, category: string): seq<Change> {
    if changes == [] then []
    else
      var before, last := Of(changes[..|changes| - 1], category), changes[|changes| - 1];
      if last.category == category then before + [last] else before
  }

  lemma {:induction false} OfExactly(changes: seq<Change>, category: string)
    ensures forall c :: c in Of(changes, category) <==> c in changes && c.category == category
    ensures OneChangePerKey(changes) ==> OneChangePerKey(Of(changes, category))
    ensures InCategory(Of(changes, category), category)
  {
    if changes != [] {
      var front, last := changes[..|changes| - 1], changes[|changes| - 1];
      OfExactly(front, category);
      assert changes == front + [last];
      var before := Of(front, category);
      if OneChangePerKey(changes) {
        forall i | 0 <= i < |before| ensures before[i].category != last.category || before[i].key != last.key {
          assert before[i] in front;
        }
      }
    }
  }

  /** What a patch leaves at a key: the new value of the change there, or what was there. */
  lemma {:induction false} PatchedAt(changes: seq<Change>, category: string, m: map<string, Value>, k: string)
    requires OneChangePerKey(changes) && InCategory(changes, category)
    ensures (forall c :: c in changes ==> c.key != k) ==> Get(Apply(changes, m), k) == Get(m, k)
    ensures forall c :: c in changes && c.key == k ==> Get(Apply(changes, m), k) == c.newValue
  {
    if changes != [] {
      var c, rest := changes[0], changes[1..];
      var next := if c.newValue.None? then m - {c.key} else m[c.key := c.newValue.value];
      PatchedAt(rest, category, next, k);
      assert changes == [c] + rest;
      assert forall d :: d in rest ==> d.key != c.key;
    }
  }

  lemma {:induction false} PatchedSetAt(changes: seq<Change>, category: string, s: set<string>, k: string)
    requires OneChangePerKey(changes) && InCategory(changes, category)
    ensures (forall c :: c in changes ==> c.key != k) ==> (k in ApplyToSet(changes, s) <==> k in s)
    ensures forall c :: c in changes && c.key == k ==> (k in ApplyToSet(changes, s) <==> c.newValue.Some?)
  {
    if changes != [] {
      var c, rest := changes[0], changes[1..];
      PatchedSetAt(rest, category, if c.newValue.None? then s - {c.key} else s + {c.key}, k);
      assert changes == [c] + rest;
      assert forall d :: d in rest ==> d.key != c.key;
    }
  }

  /** Changes that are exactly the differences of two maps patch one into the other. */
  lemma MapPatched(changes: seq<Change>, category: string, x: map<string, Value>, y: map<string, Value>,
                   target: string, significance: string)
    requires OneChangePerKey(changes)
    requires forall c :: c in Of(changes, category) <==> MapChange(c, category, x, y, target, significance)
    ensures Apply(Of(changes, category), x) == y
  {
    hide Apply, Of;
    OfExactly(changes, category);
    var patch := Of(changes, category);
    forall k ensures Get(Apply(patch, x), k) == Get(y, k) {
      PatchedAt(patch, category, x, k);
      if Get(x, k) != Get(y, k) {
        var c := Change(category, k, Get(x, k), Get(y, k), target, significance);
        assert MapChange(c, category, x, y, target, significance);
        assert c in patch;
      }
    }
    SameGets(Apply(patch, x), y);
  }

  lemma SetPatched(changes: seq<Change>, category: string, x: set<string>, y: set<string>, target: string,
                   significance: string)
    requires OneChangePerKey(changes)
    requires forall c :: c in Of(changes, category) <==> SetChange(c, category, x, y, target, significance)
    ensures ApplyToSet(Of(changes, category), x) == y
  {
    hide ApplyToSet, Of;
    OfExactly(changes, category);
    var patch := Of(changes, category);
    forall k ensures k in ApplyToSet(patch, x) <==> k in y {
      PatchedSetAt(patch, category, x, k);
      if k in x <==> k !in y {
        var c := Change(category, k, if k in x then Some(Value(k)) else None, if k in y then Some(Value(k)) else None,
                        target, significance);
        assert SetChange(c, category, x, y, target, significance);
        assert c in patch;
      }
    }
  }

  lemma NetworkPatches(d: ScanDiff, a: Report, b: Report)
    requires NetworkFits(d.network, a, b)
    ensures ApplyToSet(Of(d.network, "ip_address"), a.ips) == b.ips
    ensures Apply(Of(d.network, "port"), a.ports) == b.ports
  {
    hide Of;
    OfExactly(d.network, "ip_address");
    OfExactly(d.network, "port");
    SetPatched(d.network, "ip_address", a.ips, b.ips, a.identity, "medium");
    MapPatched(d.network, "port", a.ports, b.ports, a.identity, "medium");
  }

  lemma ServicesPatch(d: ScanDiff, a: Report, b: Report)
    requires ServicesFit(d.services, a, b)
    ensures Apply(Of(d.services, "service"), a.services) == b.services
    ensures Apply(Of(d.services, "http_endpoint"), a.http) == b.http
  {
    hide Of;
    OfExactly(d.services, "service");
    OfExactly(d.services, "http_endpoint");
    MapPatched(d.services, "service", a.services, b.services, a.identity, "medium");
    MapPatched(d.services, "http_endpoint", a.http, b.http, a.identity, "medium");
  }

  lemma {:induction false} OfAll(changes: seq<Change>, category: string)
    requires InCategory(changes, category)
    ensures Of(changes, category) == changes
  {
    if changes != [] {
      OfAll(changes[..|changes| - 1], category);
    }
  }

  lemma KeyedPatch(d: ScanDiff, a: Report, b: Report)
    requires CertificatesFit(d.certificates, a, b) && FindingsFit(d.findings, a, b)
    ensures Apply(d.certificates, a.certificates) == b.certificates
    ensures Apply(d.findings, a.findings) == b.findings
  {
    hide Of;
    assert forall i :: 0 <= i < |d.certificates| ==> d.certificates[i] in d.certificates;
    assert forall i :: 0 <= i < |d.findings| ==> d.findings[i] in d.findings;
    OfAll(d.certificates, "certificate");
    OfAll(d.findings, "finding");
    MapPatched(d.certificates, "certificate", a.certificates, b.certificates, a.identity, "high");
    MapPatched(d.findings, "finding", a.findings, b.findings, a.identity, "high");
  }

  lemma RecordsPatch(d: ScanDiff, a: Report, b: Report)
    requires DnsFits(d.dns, a, b)
    ensures ApplyToSet(Of(d.dns, "dns_record"), a.records) == b.records
  {
    hide Of;
    OfExactly(d.dns, "dns_record");
    SetPatched(d.dns, "dns_record", a.records, b.records, a.identity, "medium");
  }

  /** Every keyed part of the new report is the patched part of the old one. */
  lemma DiffPatches(d: ScanDiff, a: Report, b: Report)
    requires DiffFits(d, a, b)
    ensures ApplyToSet(Of(d.network, "ip_address"), a.ips) == b.ips
    ensures Apply(Of(d.network, "port"), a.ports) == b.ports
    ensures Apply(Of(d.services, "service"), a.services) == b.services
    ensures Apply(Of(d.services, "http_endpoint"), a.http) == b.http
    ensures Apply(d.certificates, a.certificates) == b.certificates
    ensures ApplyToSet(Of(d.dns, "dns_record"), a.records) == b.records
    ensures Apply(d.findings, a.findings) == b.findings
  {
    hide NetworkFits, ServicesFit, CertificatesFit, DnsFits, FindingsFit;
    NetworkPatches(d, a, b);
    ServicesPatch(d, a, b);
    KeyedPatch(d, a, b);
    RecordsPatch(d, a, b);
  }

  /** Nothing to report: no change and no warning. */
  predicate NoDifference(d: ScanDiff) {
    && d.network == [] && d.services == [] && d.certificates == [] && d.dns == [] && d.findings == []
    && d.completeness == [] && d.score.None? && d.warnings == []
  }

  /** The reports agree on every part that is compared. */
  predicate Agree(a: Report, b: Report) {
    && a.ips == b.ips && a.ports == b.ports && a.services == b.services && a.http == b.http
    && a.certificates == b.certificates && a.records == b.records && a.mail == b.mail
    && a.intelligence == b.intelligence && a.findings == b.findings && a.completeness == b.completeness
    && a.score == b.score
  }

  lemma EmptyDns(changes: seq<Change>, a: Report, b: Report)
    requires DnsFits(changes, a, b) && changes == []
    ensures a.mail == b.mail && a.intelligence == b.intelligence
  {
    var m := Change("mail_policy", a.identity, a.mail, b.mail, a.identity, "high");
    var n := Change("passive_intelligence", a.identity, a.intelligence, b.intelligence, a.identity, "medium");
    assert m !in changes && n !in changes;
    assert a.mail != b.mail ==> PartChange(m, "mail_policy", a.mail, b.mail, a.identity, "high");
    assert a.intelligence != b.intelligence ==>
        PartChange(n, "passive_intelligence", a.intelligence, b.intelligence, a.identity, "medium");
  }

  lemma NoMember(changes: seq<Change>)
    ensures (forall c :: c !in changes) ==> changes == []
  {
    assert changes == [] || changes[0] in changes;
  }

  lemma AgreeingIsEmpty(d: ScanDiff, a: Report, b: Report)
    requires DiffFits(d, a, b) && Agree(a, b)
    ensures NoDifference(d)
  {
    hide OneChangePerKey, Ordered, ByCategoryAndKey;
    NoMember(d.network);
    NoMember(d.services);
    NoMember(d.certificates);
    NoMember(d.dns);
    NoMember(d.findings);
  }

  /** The diff is empty exactly when the reports agree on every part. */
  lemma EmptyExactly(d: ScanDiff, a: Report, b: Report)
    requires DiffFits(d, a, b)
    ensures NoDifference(d) <==> Agree(a, b)
  {
    hide NetworkFits, ServicesFit, CertificatesFit, DnsFits, FindingsFit;
    DiffPatches(d, a, b);
    if NoDifference(d) {
      assert Of([], "ip_address") == Of([], "port") == Of([], "service") == Of([], "http_endpoint") == [];
      assert Of([], "dns_record") == [];
      EmptyDns(d.dns, a, b);
    }
    if Agree(a, b) {
      AgreeingIsEmpty(d, a, b);
    }
  }

  // ----- When two reports are compared -----

  predicate LegacySchema(version: string) {
    version == "0.1.0" || version == "0.1.1" || version == "0.1.2" || version == "0.2.0" || version == "0.3.0"
  }

  predicate Supported(version: string) {
    LegacySchema(version) || version == "0.4.0"
  }

  /** The reports are of one target and of schemas that have the same shape. */
  predicate Comparable(a: Report, b: Report) {
    && a.identity == b.identity
    && (|| (LegacySchema(a.schemaVersion) && LegacySchema(b.schemaVersion))
        || a.schemaVersion == b.schemaVersion == "0.4.0")
  }

  lemma ComparableExactly(a: Report, b: Report)
    ensures DiffReports(a, b).Ok? <==> Comparable(a, b)
    ensures DiffReports(a, b).Err? ==>
              var e := DiffReports(a, b).error;
              && (a.identity != b.identity ==> e == DifferentTargets(a.identity, b.identity))
              && (a.identity == b.identity && Supported(a.schemaVersion) && Supported(b.schemaVersion) ==>
                    e == DifferentFamilies(a.schemaVersion, b.schemaVersion))
              && (a.identity == b.identity && !Supported(a.schemaVersion) ==> e == UnsupportedSchema(a.schemaVersion))
              && (a.identity == b.identity && Supported(a.schemaVersion) && !Supported(b.schemaVersion) ==>
                    e == UnsupportedSchema(b.schemaVersion))
  {
    hide Sections, Summarize, AllChanges;
  }

  /** The counting loop over all sections. */
  method CountChanges(changes: seq<Change>) returns (summary: Summary)
    ensures summary == Summarize(changes)
    ensures summary.added + summary.removed + summary.changed == |changes|
  {
    summary := Summary(0, 0, 0);
    assert changes[..|changes|] == changes;
    for i := 0 to |changes|
      invariant summary == Summarize(changes[..i])
      invariant summary.added + summary.removed + summary.changed == i
    {
      assert changes[..i + 1][..i] == changes[..i];
      var change := changes[i];
      if change.oldValue.None? && change.newValue.Some? {
        summary := summary.(added := summary.added + 1);
      } else if change.oldValue.Some? && change.newValue.None? {
        summary := summary.(removed := summary.removed + 1);
      } else {
        summary := summary.(changed := summary.changed + 1);
      }
    }
  }

  /** Sections first, then the counting loop over all of them. */
  method ComputeDiff(a: Report, b: Report) returns (r: Result<ScanDiff, Error>)
    ensures r == DiffReports(a, b)
    ensures r.Ok? <==> Comparable(a, b)
    ensures r.Ok? ==> DiffFits(r.value, a, b)
    ensures r.Ok? ==>
              var s := r.value.summary;
              s.added + s.removed + s.changed == |AllChanges(r.value)|
  {
    hide Compatibility, Sections, Summarize, DiffFits, Comparable;
    ComparableExactly(a, b);
    if DiffReports(a, b).Ok? {
      DiffExactly(a, b);
    }
    var problem := Compatibility(a, b);
    if problem.Some? {
      return Err(problem.value);
    }
    var sections := Sections(a, b);
    var summary := CountChanges(AllChanges(sections));
    r := Ok(sections.(summary := summary));
  }

  // ----- A mirror -----

  function Mirror(c: Change): Change { c.(oldValue := c.newValue, newValue := c.oldValue) }

  function MirrorAll(changes: seq<Change>): (r: seq<Change>)
    ensures |r| == |changes|
  {
    seq(|changes|, i requires 0 <= i < |changes| => Mirror(changes[i]))
  }

  lemma MirrorConcat(a: seq<Change>, b: seq<Change>)
    ensures MirrorAll(a + b) == MirrorAll(a) + MirrorAll(b)
  {
  }

  lemma {:induction false} ChangesMirror(keys: seq<string>, category: string, a: map<string, Value>,
                                         b: map<string, Value>, target: string, significance: string)
    ensures ChangesAt(keys, category, b, a, target, significance) ==
            MirrorAll(ChangesAt(keys, category, a, b, target, significance))
  {
    if keys != [] {
      ChangesMirror(keys[1..], category, a, b, target, significance);
      var key := keys[0];
      var first := if Get(a, key) != Get(b, key)
        then [Change(category, key, Get(a, key), Get(b, key), target, significance)] else [];
      MirrorConcat(first, ChangesAt(keys[1..], category, a, b, target, significance));
    }
  }

  lemma MapsMirror(category: string, a: map<string, Value>, b: map<string, Value>, target: string, significance: string)
    ensures CompareMaps(category, b, a, target, significance) ==
            MirrorAll(CompareMaps(category, a, b, target, significance))
  {
    assert a.Keys + b.Keys == b.Keys + a.Keys;
    ChangesMirror(KeysInOrder(a.Keys + b.Keys), category, a, b, target, significance);
  }

  /** Comparing sets the other way round gives the mirrored changes, in which the removals, now additions,
      trade places with the additions, now removals; each block keeps its order. */
  lemma SetsMirror(category: string, a: set<string>, b: set<string>, target: string, significance: string)
    ensures var mirrored, n := MirrorAll(CompareSets(category, a, b, target, significance)), |KeysInOrder(a - b)|;
      n <= |mirrored| && CompareSets(category, b, a, target, significance) == mirrored[n..] + mirrored[..n]
    ensures multiset(CompareSets(category, b, a, target, significance)) ==
            multiset(MirrorAll(CompareSets(category, a, b, target, significance)))
  {
    var removed := Removals(KeysInOrder(a - b), category, target, significance);
    var added := Additions(KeysInOrder(b - a), category, target, significance);
    MirrorConcat(removed, added);
    assert MirrorAll(removed) == Additions(KeysInOrder(a - b), category, target, significance);
    assert MirrorAll(added) == Removals(KeysInOrder(b - a), category, target, significance);
  }

  lemma {:induction false} InsertMirror(s: seq<Change>, x: Change)
    ensures Insert(MirrorAll(s), Mirror(x), ByCategoryAndKey) == MirrorAll(Insert(s, x, ByCategoryAndKey))
  {
    if s == [] || ByCategoryAndKey(s[|s| - 1], x) {
    } else {
      var front := s[..|s| - 1];
      InsertMirror(front, x);
      assert MirrorAll(s)[..|s| - 1] == MirrorAll(front);
      MirrorConcat(Insert(front, x, ByCategoryAndKey), [s[|s| - 1]]);
      assert MirrorAll([s[|s| - 1]]) == [Mirror(s[|s| - 1])];
    }
  }

  lemma {:induction false} SortMirror(s: seq<Change>)
    ensures Sort(MirrorAll(s), ByCategoryAndKey) == MirrorAll(Sort(s, ByCategoryAndKey))
  {
    if s != [] {
      var front := s[..|s| - 1];
      SortMirror(front);
      assert MirrorAll(s)[..|s| - 1] == MirrorAll(front);
      InsertMirror(Sort(front, ByCategoryAndKey), s[|s| - 1]);
    }
  }

  lemma KeysAreDistinct(changes: seq<Change>)
    requires OneChangePerKey(changes)
    ensures DistinctKeys(changes, ByCategoryAndKey)
  {
    forall i, j | 0 <= i < |changes| && 0 <= j < |changes|
      && ByCategoryAndKey(changes[i], changes[j]) && ByCategoryAndKey(changes[j], changes[i])
      ensures changes[i] == changes[j]
    {
      StringTotal(changes[i].category, changes[j].category);
      StringTotal(changes[i].key, changes[j].key);
      assert i < j || j < i || i == j;
    }
  }

  /** Sorting the swapped comparison gives the mirror of the sorted comparison. */
  lemma SortedMirror(forward: seq<Change>, backward: seq<Change>)
    requires OneChangePerKey(forward)
    requires multiset(backward) == multiset(MirrorAll(forward))
    ensures Sort(backward, ByCategoryAndKey) == MirrorAll(Sort(forward, ByCategoryAndKey))
  {
    CategoryOrder();
    var mirrored := MirrorAll(forward);
    assert OneChangePerKey(mirrored);
    KeysAreDistinct(mirrored);
    SortOfPermutation(mirrored, backward, ByCategoryAndKey);
    SortMirror(forward);
  }

  lemma NetworkMirror(a: Report, b: Report, target: string)
    ensures NetworkChanges(b, a, target) == MirrorAll(NetworkChanges(a, b, target))
  {
    var x, y := CompareSets("ip_address", a.ips, b.ips, target, "medium"),
        CompareMaps("port", a.ports, b.ports, target, "medium");
    SetsMirror("ip_address", a.ips, b.ips, target, "medium");
    MapsMirror("port", a.ports, b.ports, target, "medium");
    SetsPerKey("ip_address", a.ips, b.ips, target, "medium");
    MapsPerKey("port", a.ports, b.ports, target, "medium");
    hide CompareSets, CompareMaps;
    TwoCategories(x, y, "ip_address", "port");
    MirrorConcat(x, y);
    SortedMirror(x + y, CompareSets("ip_address", b.ips, a.ips, target, "medium")
                        + CompareMaps("port", b.ports, a.ports, target, "medium"));
  }

  lemma ServiceMirror(a: Report, b: Report, target: string)
    ensures ServiceChanges(b, a, target) == MirrorAll(ServiceChanges(a, b, target))
  {
    var x, y := CompareMaps("service", a.services, b.services, target, "medium"),
        CompareMaps("http_endpoint", a.http, b.http, target, "medium");
    MapsMirror("service", a.services, b.services, target, "medium");
    MapsMirror("http_endpoint", a.http, b.http, target, "medium");
    MapsPerKey("service", a.services, b.services, target, "medium");
    MapsPerKey("http_endpoint", a.http, b.http, target, "medium");
    hide CompareMaps;
    TwoCategories(x, y, "service", "http_endpoint");
    MirrorConcat(x, y);
    SortedMirror(x + y, CompareMaps("service", b.services, a.services, target, "medium")
                        + CompareMaps("http_endpoint", b.http, a.http, target, "medium"));
  }

  lemma OptionalMirror(category: string, a: Option<Value>, b: Option<Value>, target: string, significance: string)
    ensures Optional(category, b, a, target, significance) == MirrorAll(Optional(category, a, b, target, significance))
  {
  }

  lemma DnsMirror(a: Report, b: Report, target: string)
    ensures DnsChanges(b, a, target) == MirrorAll(DnsChanges(a, b, target))
  {
    var x := CompareSets("dns_record", a.records, b.records, target, "medium");
    var m := Optional("mail_policy", a.mail, b.mail, target, "high");
    var n := Optional("passive_intelligence", a.intelligence, b.intelligence, target, "medium");
    SetsMirror("dns_record", a.records, b.records, target, "medium");
    SetsPerKey("dns_record", a.records, b.records, target, "medium");
    hide CompareSets;
    assert OneChangePerKey(x + (m + n)) by {
      assert "dns_record" != "mail_policy" && "dns_record" != "passive_intelligence" &&
             "mail_policy" != "passive_intelligence";
    }
    MirrorConcat(x, m + n);
    MirrorConcat(m, n);
    OptionalMirror("mail_policy", a.mail, b.mail, target, "high");
    OptionalMirror("passive_intelligence", a.intelligence, b.intelligence, target, "medium");
    SortedMirror(x + (m + n), CompareSets("dns_record", b.records, a.records, target, "medium")
                              + (Optional("mail_policy", b.mail, a.mail, target, "high")
                                 + Optional("passive_intelligence", b.intelligence, a.intelligence, target, "medium")));
  }

  function MirrorWarning(w: Warning): Warning { ScoreModelsDiffer(w.newModel, w.oldModel) }

  lemma {:induction false} CountMirror(changes: seq<Change>)
    ensures Summarize(MirrorAll(changes)) ==
            Summary(Summarize(changes).removed, Summarize(changes).added, Summarize(changes).changed)
  {
    if changes != [] {
      CountMirror(changes[..|changes| - 1]);
      assert MirrorAll(changes)[..|changes| - 1] == MirrorAll(changes[..|changes| - 1]);
    }
  }

  /** The mirror of a whole diff. */
  function MirrorDiff(d: ScanDiff): ScanDiff {
    ScanDiff(
      Summary(d.summary.removed, d.summary.added, d.summary.changed),
      MirrorAll(d.network), MirrorAll(d.services), MirrorAll(d.certificates), MirrorAll(d.dns),
      MirrorAll(d.findings), if d.score.Some? then Some(Mirror(d.score.value)) else None,
      MirrorAll(d.completeness),
      seq(|d.warnings|, i requires 0 <= i < |d.warnings| => MirrorWarning(d.warnings[i])))
  }

  lemma CompatibilityIsSymmetric(a: Report, b: Report)
    ensures Compatibility(a, b).None? <==> Compatibility(b, a).None?
  {
    hide SchemaFamily;
  }

  lemma SectionsSwap(a: Report, b: Report)
    requires a.identity == b.identity
    ensures Sections(b, a) == MirrorDiff(Sections(a, b))
  {
    var target := a.identity;
    NetworkMirror(a, b, target);
    ServiceMirror(a, b, target);
    DnsMirror(a, b, target);
    MapsMirror("certificate", a.certificates, b.certificates, target, "high");
    MapsMirror("finding", a.findings, b.findings, target, "high");
    OptionalMirror("scan_completeness", Some(a.completeness), Some(b.completeness), target, "high");
    hide CompareMaps, NetworkChanges, ServiceChanges, DnsChanges, Optional, MirrorAll;
  }

  lemma ChangesSwap(d: ScanDiff)
    ensures AllChanges(MirrorDiff(d)) == MirrorAll(AllChanges(d))
  {
    MirrorConcat(d.network, d.services);
    assert AllChanges(MirrorDiff(d)) == MirrorAll(AllChanges(d));
  }

  lemma SameTarget(a: Report, b: Report)
    requires Compatibility(a, b).None?
    ensures a.identity == b.identity
  {
  }

  lemma WithoutSummary(d: ScanDiff, summary: Summary)
    ensures AllChanges(d.(summary := summary)) == AllChanges(d)
    ensures MirrorDiff(d.(summary := summary)) ==
            MirrorDiff(d).(summary := Summary(summary.removed, summary.added, summary.changed))
  {
  }

  /** Exchanging the reports mirrors every change, in the same order, and exchanges the counts of
      additions and removals; comparability does not depend on the order. */
  lemma SwapMirrors(a: Report, b: Report)
    ensures DiffReports(a, b).Ok? <==> DiffReports(b, a).Ok?
    ensures DiffReports(a, b).Ok? ==> DiffReports(b, a) == Ok(MirrorDiff(DiffReports(a, b).value))
  {
    CompatibilityIsSymmetric(a, b);
    if DiffReports(a, b).Ok? {
      SameTarget(a, b);
      hide Compatibility, Summarize, Sections, MirrorAll;
      var d := Sections(a, b);
      SectionsSwap(a, b);
      ChangesSwap(d);
      CountMirror(AllChanges(d));
      WithoutSummary(d, Summarize(AllChanges(d)));
    }
  }

  // ----- Self comparison -----

  lemma {:induction false} NoChangesAt(keys: seq<string>, category: string, m: map<string, Value>, target: string,
                                       significance: string)
    ensures ChangesAt(keys, category, m, m, target, significance) == []
  {
    if keys != [] {
      NoChangesAt(keys[1..], category, m, target, significance);
    }
  }

  lemma NoMapChanges(category: string, m: map<string, Value>, target: string, significance: string)
    ensures CompareMaps(category, m, m, target, significance) == []
  {
    hide ChangesAt;
    NoChangesAt(KeysInOrder(m.Keys + m.Keys), category, m, target, significance);
  }

  lemma NoSetChanges(category: string, s: set<string>, target: string, significance: string)
    ensures CompareSets(category, s, s, target, significance) == []
  {
    assert s - s == {};
  }

  /** No section has a change when both sides are the same report. */
  lemma SelfSections(a: Report)
    ensures NetworkChanges(a, a, a.identity) == [] && ServiceChanges(a, a, a.identity) == []
    ensures DnsChanges(a, a, a.identity) == [] && ScoreChange(a, a, a.identity) == (None, [])
  {
    hide CompareMaps, CompareSets;
    NoSetChanges("ip_address", a.ips, a.identity, "medium");
    NoSetChanges("dns_record", a.records, a.identity, "medium");
    NoMapChanges("port", a.ports, a.identity, "medium");
    NoMapChanges("service", a.services, a.identity, "medium");
    NoMapChanges("http_endpoint", a.http, a.identity, "medium");
  }

  /** A comparable report has no difference from itself. */
  lemma SelfDiffIsEmpty(a: Report)
    requires SchemaFamily(a.schemaVersion).Ok?
    ensures DiffReports(a, a) == Ok(ScanDiff(Summary(0, 0, 0), [], [], [], [], [], None, [], []))
  {
    hide CompareMaps, NetworkChanges, ServiceChanges, DnsChanges, ScoreChange, SchemaFamily;
    SelfSections(a);
    NoMapChanges("certificate", a.certificates, a.identity, "high");
    NoMapChanges("finding", a.findings, a.identity, "high");
  }
}
