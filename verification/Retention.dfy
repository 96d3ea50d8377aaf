/**
 Scan history: deleting one scan and pruning by retention policy, inside transactions any statement
 of which may fail.
 */
module Retention {
  import opened Ordering
  import opened Wrappers

  const MIN_TIMESTAMP: int := -377_705_116_800
  const MAX_TIMESTAMP: int := 253_402_300_799

  datatype Scan = Scan(id: nat, target: string, startedAt: int, high: nat, critical: nat)

  datatype Policy = Policy(
    keepLast: Option<nat>, olderThan: Option<int>, preserveHigh: bool, dryRun: bool)

  datatype Audit = Audit(action: string, id: nat)

  /** The three tables; finding rows hang on a scan and go with it. */
  datatype Tables = Tables(scans: seq<Scan>, findings: set<(nat, nat)>, audit: seq<Audit>)

  datatype Error = NoCriterion | DurationOutOfRange | StatementFailed

  // ----- Ranks and conditions -----

  predicate DistinctIds(scans: seq<Scan>) {
    forall i, j :: 0 <= i < j < |scans| ==> scans[i].id != scans[j].id
  }

  predicate Newer(a: Scan, b: Scan) {
    a.startedAt > b.startedAt || (a.startedAt == b.startedAt && a.id > b.id)
  }

  function NewerRows(scans: seq<Scan>, s: Scan): set<Scan> {
    set row | row in scans && row.target == s.target && Newer(row, s)
  }

  /** ROW_NUMBER over the scans of one target, newest first. */
  function Rank(scans: seq<Scan>, s: Scan): nat {
    1 + |NewerRows(scans, s)|
  }

  /** The conditions of the retention query. */
  predicate Prunable(scans: seq<Scan>, policy: Policy, cutoff: Option<int>, s: Scan) {
    && (cutoff.Some? ==> s.startedAt < cutoff.value)
    && (policy.keepLast.Some? ==> Rank(scans, s) > policy.keepLast.value)
    && (policy.preserveHigh ==> s.high == 0 && s.critical == 0)
  }

  /** ORDER BY started_at ASC, scan_id ASC. */
  predicate OldestFirst(a: Scan, b: Scan) {
    a == b || Newer(b, a) || (a.startedAt == b.startedAt && a.id == b.id)
  }

  lemma OldestFirstIsOrder()
    ensures TotalPreorder(OldestFirst)
  {
  }

  /** The rows the query returns, in its order. */
  function Candidates(scans: seq<Scan>, policy: Policy, cutoff: Option<int>): seq<Scan> {
    Sort(Matching(scans, scans, policy, cutoff), OldestFirst)
  }

  function Matching(rows: seq<Scan>, scans: seq<Scan>, policy: Policy, cutoff: Option<int>): seq<Scan> {
    if rows == [] then []
    else
      var last := rows[|rows| - 1];
      Matching(rows[..|rows| - 1], scans, policy, cutoff)
      + (if Prunable(scans, policy, cutoff, last) then [last] else [])
  }

  function Without(scans: seq<Scan>, id: nat): seq<Scan> {
    if scans == [] then []
    else
      var last := scans[|scans| - 1];
      Without(scans[..|scans| - 1], id) + (if last.id == id then [] else [last])
  }

  function WithoutAll(scans: seq<Scan>, ids: seq<nat>): seq<Scan> {
    if ids == [] then scans else Without(WithoutAll(scans, ids[..|ids| - 1]), ids[|ids| - 1])
  }

  function Ids(scans: seq<Scan>): seq<nat> {
    seq(|scans|, i requires 0 <= i < |scans| => scans[i].id)
  }

  function DeletionAudit(action: string, ids: seq<nat>): seq<Audit> {
    seq(|ids|, i requires 0 <= i < |ids| => Audit(action, ids[i]))
  }

  function Deleted(tables: Tables, action: string, ids: seq<nat>): Tables {
    Tables(WithoutAll(tables.scans, ids),
           (set row | row in tables.findings && row.0 !in ids),
           tables.audit + DeletionAudit(action, ids))
  }

  // ----- What retention promises, said of the rows -----

  /** The scans of the same target that started later; of those that started together, the greater ids. */
  function Later(scans: seq<Scan>, s: Scan): set<Scan> {
    set row | row in scans && row.target == s.target
              && (s.startedAt < row.startedAt || (s.startedAt == row.startedAt && s.id < row.id))
  }

  /** The policy spares a scan that is young enough, among the newest of its target, or severe. */
  predicate Spared(scans: seq<Scan>, policy: Policy, now: int, s: Scan) {
    || (policy.olderThan.Some? && s.startedAt + policy.olderThan.value >= now)
    || (policy.keepLast.Some? && |Later(scans, s)| < policy.keepLast.value)
    || (policy.preserveHigh && s.high + s.critical > 0)
  }

  /** The scans with these ids are gone with their findings, and each has its audit record. */
  ghost predicate Removed(before: Tables, after: Tables, action: string, ids: seq<nat>) {
    && (forall s :: s in after.scans <==> s in before.scans && s.id !in ids)
    && (forall f :: f in after.findings <==> f in before.findings && f.0 !in ids)
    && before.audit <= after.audit && |after.audit| == |before.audit| + |ids|
    && forall i :: |before.audit| <= i < |after.audit| ==> after.audit[i] == Audit(action, ids[i - |before.audit|])
  }

  /** Earlier scans come first; of those that started together, the smaller ids. */
  predicate Chronological(ids: seq<nat>, scans: seq<Scan>) {
    forall i, j, a, b :: 0 <= i < j < |ids| && a in scans && b in scans && a.id == ids[i] && b.id == ids[j] ==>
      a.startedAt < b.startedAt || (a.startedAt == b.startedAt && a.id <= b.id)
  }

  predicate OutOfRange(policy: Policy, now: int) {
    policy.olderThan.Some? && !(MIN_TIMESTAMP <= now - policy.olderThan.value <= MAX_TIMESTAMP)
  }

  lemma SparedExactly(scans: seq<Scan>, policy: Policy, now: int, s: Scan)
    requires Cutoff(policy, now).Ok?
    ensures Prunable(scans, policy, Cutoff(policy, now).value, s) <==> !Spared(scans, policy, now, s)
  {
    assert NewerRows(scans, s) == Later(scans, s);
  }

  lemma InOrder(scans: seq<Scan>, policy: Policy, cutoff: Option<int>)
    requires DistinctIds(scans)
    ensures Chronological(Ids(Candidates(scans, policy, cutoff)), scans)
  {
    hide Candidates, Prunable;
    var rows := Candidates(scans, policy, cutoff);
    forall i, j, a, b | 0 <= i < j < |rows| && a in scans && b in scans && a.id == rows[i].id && b.id == rows[j].id
      ensures a.startedAt < b.startedAt || (a.startedAt == b.startedAt && a.id <= b.id)
    {
      CandidatesExactly(scans, policy, cutoff, rows[i]);
      CandidatesExactly(scans, policy, cutoff, rows[j]);
      SameIdSameRow(scans, a, rows[i]);
      SameIdSameRow(scans, b, rows[j]);
      assert OldestFirst(rows[i], rows[j]);
    }
  }

  /** The query selects exactly the scans that the policy does not spare, oldest first. */
  lemma SelectedExactly(scans: seq<Scan>, policy: Policy, now: int)
    requires Cutoff(policy, now).Ok?
    ensures var ids := Ids(Candidates(scans, policy, Cutoff(policy, now).value));
      && (forall id :: id in ids <==> exists s :: s in scans && s.id == id && !Spared(scans, policy, now, s))
      && (DistinctIds(scans) ==> Chronological(ids, scans))
  {
    hide Candidates, Spared, Prunable;
    var cutoff := Cutoff(policy, now).value;
    var rows := Candidates(scans, policy, cutoff);
    var ids := Ids(rows);
    forall s ensures s in rows <==> s in scans && !Spared(scans, policy, now, s) {
      CandidatesExactly(scans, policy, cutoff, s);
      SparedExactly(scans, policy, now, s);
    }
    forall id ensures id in ids <==> exists s :: s in scans && s.id == id && !Spared(scans, policy, now, s) {
      if id in ids {
        var i :| 0 <= i < |ids| && ids[i] == id;
        assert rows[i] in rows;
      }
      if s :| s in scans && s.id == id && !Spared(scans, policy, now, s) {
        var i :| 0 <= i < |rows| && rows[i] == s;
        assert ids[i] == id;
      }
    }
    if DistinctIds(scans) {
      InOrder(scans, policy, cutoff);
    }
  }

  /** The deletion leaves exactly the other rows, and a record of each. */
  lemma DeletedExactly(tables: Tables, action: string, ids: seq<nat>)
    ensures Removed(tables, Deleted(tables, action, ids), action, ids)
  {
    forall s ensures s in WithoutAll(tables.scans, ids) <==> s in tables.scans && s.id !in ids {
      SurvivingRows(tables.scans, ids, s);
    }
  }

  // ----- The storage -----

  class Storage {
    var tables: Tables
    var failing: seq<bool>
    ghost var failures: nat

    constructor (tables: Tables, failing: seq<bool>)
      ensures this.tables == tables && this.failing == failing && failures == 0
    {
      this.tables, this.failing, failures := tables, failing, 0;
    }

    method StatementFails() returns (fails: bool)
      modifies this`failing, this`failures
      ensures failures == old(failures) + if fails then 1 else 0
    {
      fails := failing != [] && failing[0];
      if failing != [] {
        failing := failing[1..];
      }
      if fails {
        failures := failures + 1;
      }
    }

    /** Deletes one scan with its findings and one audit record, or nothing. */
    method DeleteScan(id: nat) returns (r: Result<bool, Error>)
      modifies this
      ensures r.Err? ==> tables == old(tables) && r.error == StatementFailed && failures > old(failures)
      ensures r.Ok? ==> r.value == (exists row :: row in old(tables.scans) && row.id == id)
      ensures r == Ok(true) ==>
                tables == Deleted(old(tables), "scan.delete", [id]) && Removed(old(tables), tables, "scan.delete", [id])
      ensures r == Ok(false) ==> tables == old(tables)
    {
      var fails := StatementFails();
      if fails {
        return Err(StatementFailed);
      }
      var deleted := exists row :: row in tables.scans && row.id == id;
      var working := tables;
      if deleted {
        working := RemoveRow(working, id);
        fails := StatementFails();
        if fails {
          return Err(StatementFailed);
        }
        working := working.(audit := working.audit + [Audit("scan.delete", id)]);
        OneDeletion(tables, "scan.delete", [], id);
      }
      fails := StatementFails();
      if fails {
        return Err(StatementFailed);
      }
      DeletedExactly(tables, "scan.delete", [id]);
      tables := working;
      r := Ok(deleted);
    }

    method Prune(policy: Policy, now: int) returns (r: Result<seq<nat>, Error>)
      modifies this
      ensures r.Err? ==> tables == old(tables)
      ensures r == Err(NoCriterion) <==> policy.keepLast.None? && policy.olderThan.None?
      ensures r == Err(DurationOutOfRange) <==> OutOfRange(policy, now)
      ensures r == Err(StatementFailed) ==> failures > old(failures)
      ensures r.Err? ==> r.error in {NoCriterion, DurationOutOfRange, StatementFailed}
      // Without a failing statement exactly the scans that the policy does not spare are selected.
      ensures r.Ok? ==>
                && (forall id :: id in r.value <==>
                      exists s :: s in old(tables.scans) && s.id == id && !Spared(old(tables.scans), policy, now, s))
                && (DistinctIds(old(tables.scans)) ==> Chronological(r.value, old(tables.scans)))
      ensures r.Ok? && policy.dryRun ==> tables == old(tables)
      ensures r.Ok? && !policy.dryRun ==> Removed(old(tables), tables, "retention.delete", r.value)
      // The selection is that of the query, and the deletion that of its rows one by one.
      ensures r.Ok? ==>
                && Cutoff(policy, now).Ok?
                && r.value == Ids(Candidates(old(tables.scans), policy, Cutoff(policy, now).value))
                && (!policy.dryRun ==> tables == Deleted(old(tables), "retention.delete", r.value))
    {
      if policy.keepLast.None? && policy.olderThan.None? {
        return Err(NoCriterion);
      }
      var cutoff := Cutoff(policy, now);
      if cutoff.Err? {
        return Err(cutoff.error);
      }
      var fails := StatementFails();
      if fails {
        return Err(StatementFailed);
      }
      var ids := Ids(Candidates(tables.scans, policy, cutoff.value));
      SelectedExactly(tables.scans, policy, now);
      DeletedExactly(tables, "retention.delete", ids);
      if !policy.dryRun && ids != [] {
        var deleted := DeleteAll(ids);
        if !deleted {
          return Err(StatementFailed);
        }
      } else if ids == [] {
        NothingDeleted(tables, "retention.delete");
      }
      r := Ok(ids);
    }

    /** The transaction: every row and its audit record, then the commit; or nothing at all. */
    method DeleteAll(ids: seq<nat>) returns (ok: bool)
      modifies this
      ensures ok ==> tables == Deleted(old(tables), "retention.delete", ids)
      ensures !ok ==> tables == old(tables) && failures > old(failures)
      ensures failures >= old(failures)
    {
      var working := tables;
      NothingDeleted(tables, "retention.delete");
      var i := 0;
      var fails := false;
      while i < |ids|
        invariant 0 <= i <= |ids| && tables == old(tables) && failures == old(failures)
        invariant working == Deleted(tables, "retention.delete", ids[..i])
      {
        fails := StatementFails();
        if fails {
          return false;
        }
        working := RemoveRow(working, ids[i]);
        fails := StatementFails();
        if fails {
          return false;
        }
        working := working.(audit := working.audit + [Audit("retention.delete", ids[i])]);
        OneDeletion(tables, "retention.delete", ids[..i], ids[i]);
        assert ids[..i] + [ids[i]] == ids[..i + 1];
        i := i + 1;
      }
      fails := StatementFails();
      if fails {
        return false;
      }
      assert ids[..i] == ids;
      tables := working;
      ok := true;
    }
  }

  /** DELETE FROM scans WHERE scan_id = ?, with its cascade. */
  function RemoveRow(tables: Tables, id: nat): Tables {
    tables.(scans := Without(tables.scans, id), findings := (set row | row in tables.findings && row.0 != id))
  }

  function Cutoff(policy: Policy, now: int): Result<Option<int>, Error> {
    if policy.olderThan.None? then Ok(None)
    else if MIN_TIMESTAMP <= now - policy.olderThan.value <= MAX_TIMESTAMP then
      Ok(Some(now - policy.olderThan.value))
    else Err(DurationOutOfRange)
  }

  lemma NothingDeleted(tables: Tables, action: string)
    ensures Deleted(tables, action, []) == tables
  {
    assert DeletionAudit(action, []) == [];
    assert (set row | row in tables.findings && row.0 !in []) == tables.findings;
  }

  lemma OneDeletion(tables: Tables, action: string, ids: seq<nat>, id: nat)
    ensures var before := RemoveRow(Deleted(tables, action, ids), id);
            Deleted(tables, action, ids + [id]) == before.(audit := before.audit + [Audit(action, id)])
    ensures ids == [] ==>
              var before := RemoveRow(tables, id);
              Deleted(tables, action, [id]) == before.(audit := before.audit + [Audit(action, id)])
  {
    var before := RemoveRow(Deleted(tables, action, ids), id);
    assert (ids + [id])[..|ids|] == ids;
    assert DeletionAudit(action, ids + [id]) == DeletionAudit(action, ids) + [Audit(action, id)];
    assert before.findings == (set row | row in tables.findings && row.0 !in ids + [id]);
    if ids == [] {
      NothingDeleted(tables, action);
      assert ids + [id] == [id];
    }
  }

  // ----- What is deleted and what stays -----

  lemma {:induction false} MatchingRows(rows: seq<Scan>, scans: seq<Scan>, policy: Policy, cutoff: Option<int>, s: Scan)
    ensures s in Matching(rows, scans, policy, cutoff) <==> s in rows && Prunable(scans, policy, cutoff, s)
  {
    if rows != [] {
      MatchingRows(rows[..|rows| - 1], scans, policy, cutoff, s);
      assert s in rows <==> s in rows[..|rows| - 1] || s == rows[|rows| - 1];
    }
  }

  /** Exactly the rows that meet every condition are selected, oldest first. */
  lemma CandidatesExactly(scans: seq<Scan>, policy: Policy, cutoff: Option<int>, s: Scan)
    ensures s in Candidates(scans, policy, cutoff) <==> s in scans && Prunable(scans, policy, cutoff, s)
    ensures Ordered(Candidates(scans, policy, cutoff), OldestFirst)
  {
    var rows := Matching(scans, scans, policy, cutoff);
    OldestFirstIsOrder();
    SortOrders(rows, OldestFirst);
    assert s in Sort(rows, OldestFirst) <==> s in multiset(Sort(rows, OldestFirst));
    assert s in rows <==> s in multiset(rows);
    MatchingRows(scans, scans, policy, cutoff, s);
  }

  lemma {:induction false} WithoutRows(scans: seq<Scan>, id: nat, s: Scan)
    ensures s in Without(scans, id) <==> s in scans && s.id != id
  {
    if scans != [] {
      WithoutRows(scans[..|scans| - 1], id, s);
      assert s in scans <==> s in scans[..|scans| - 1] || s == scans[|scans| - 1];
    }
  }

  lemma {:induction false} SurvivingRows(scans: seq<Scan>, ids: seq<nat>, s: Scan)
    ensures s in WithoutAll(scans, ids) <==> s in scans && s.id !in ids
  {
    if ids != [] {
      SurvivingRows(scans, ids[..|ids| - 1], s);
      WithoutRows(WithoutAll(scans, ids[..|ids| - 1]), ids[|ids| - 1], s);
      assert s.id in ids <==> s.id in ids[..|ids| - 1] || s.id == ids[|ids| - 1];
    }
  }

  lemma SameIdSameRow(scans: seq<Scan>, a: Scan, b: Scan)
    requires DistinctIds(scans) && a in scans && b in scans && a.id == b.id
    ensures a == b
  {
  }

  /** The tables after a pruning hold exactly the rows that fail some condition. */
  lemma PrunedRows(tables: Tables, policy: Policy, cutoff: Option<int>, s: Scan)
    requires DistinctIds(tables.scans)
    ensures var ids := Ids(Candidates(tables.scans, policy, cutoff));
            s in Deleted(tables, "retention.delete", ids).scans <==>
            s in tables.scans && !Prunable(tables.scans, policy, cutoff, s)
  {
    var scans, rows := tables.scans, Candidates(tables.scans, policy, cutoff);
    var ids := Ids(rows);
    SurvivingRows(scans, ids, s);
    CandidatesExactly(scans, policy, cutoff, s);
    if s in rows {
      var i :| 0 <= i < |rows| && rows[i] == s;
      assert ids[i] == s.id;
    }
    if s in scans && s.id in ids {
      var i :| 0 <= i < |ids| && ids[i] == s.id;
      CandidatesExactly(scans, policy, cutoff, rows[i]);
      SameIdSameRow(scans, s, rows[i]);
    }
  }

  lemma {:induction false} Subset<T>(a: set<T>, b: set<T>)
    requires a <= b
    ensures |a| <= |b|
  {
    if a != {} {
      var x :| x in a;
      Subset(a - {x}, b - {x});
    }
  }

  /** Fewer rows can only lower a rank. */
  lemma RanksFall(fewer: seq<Scan>, scans: seq<Scan>, s: Scan)
    requires forall row :: row in fewer ==> row in scans
    ensures Rank(fewer, s) <= Rank(scans, s)
  {
    Subset(NewerRows(fewer, s), NewerRows(scans, s));
  }

  lemma {:induction false} DistinctCount(rows: seq<Scan>)
    requires forall j, k :: 0 <= j < k < |rows| ==> Newer(rows[j], rows[k])
    ensures |(set row | row in rows)| == |rows|
  {
    if rows != [] {
      var front, last := rows[..|rows| - 1], rows[|rows| - 1];
      DistinctCount(front);
      assert forall j :: 0 <= j < |front| ==> Newer(rows[j], last);
      assert (set row | row in rows) == (set row | row in front) + {last};
    }
  }

  /** The rank is the place among the scans of the target, newest first. */
  lemma RankIsPlace(scans: seq<Scan>, newestFirst: seq<Scan>, target: string, i: nat)
    requires i < |newestFirst|
    requires forall j, k :: 0 <= j < k < |newestFirst| ==> Newer(newestFirst[j], newestFirst[k])
    requires forall row :: row in newestFirst <==> row in scans && row.target == target
    ensures Rank(scans, newestFirst[i]) == i + 1
  {
    var s := newestFirst[i];
    assert s in newestFirst;
    forall row ensures row in NewerRows(scans, s) <==> row in newestFirst[..i] {
      if row in NewerRows(scans, s) {
        assert row in newestFirst;
        var j :| 0 <= j < |newestFirst| && newestFirst[j] == row;
        assert j < i;
        assert newestFirst[..i][j] == row;
      }
      if row in newestFirst[..i] {
        var j :| 0 <= j < i && newestFirst[..i][j] == row;
        assert newestFirst[j] in newestFirst;
      }
    }
    DistinctCount(newestFirst[..i]);
    assert NewerRows(scans, s) == (set row | row in newestFirst[..i]);
  }

  /** The newest keep-last scans of every target survive. */
  lemma KeepsTheNewest(tables: Tables, policy: Policy, cutoff: Option<int>, newestFirst: seq<Scan>, target: string,
                       i: nat)
    requires DistinctIds(tables.scans) && policy.keepLast.Some?
    requires i < |newestFirst| && i < policy.keepLast.value
    requires forall j, k :: 0 <= j < k < |newestFirst| ==> Newer(newestFirst[j], newestFirst[k])
    requires forall row :: row in newestFirst <==> row in tables.scans && row.target == target
    ensures newestFirst[i] in
            Deleted(tables, "retention.delete", Ids(Candidates(tables.scans, policy, cutoff))).scans
  {
    RankIsPlace(tables.scans, newestFirst, target, i);
    assert newestFirst[i] in newestFirst;
    PrunedRows(tables, policy, cutoff, newestFirst[i]);
  }

  /** Pruning again with the same cutoff selects nothing. */
  lemma PruneIsIdempotent(tables: Tables, policy: Policy, cutoff: Option<int>)
    requires DistinctIds(tables.scans)
    ensures var after := Deleted(tables, "retention.delete", Ids(Candidates(tables.scans, policy, cutoff)));
            Candidates(after.scans, policy, cutoff) == []
  {
    var after := Deleted(tables, "retention.delete", Ids(Candidates(tables.scans, policy, cutoff)));
    var again := Candidates(after.scans, policy, cutoff);
    forall row ensures row in after.scans ==> row in tables.scans {
      PrunedRows(tables, policy, cutoff, row);
    }
    if again != [] {
      var s := again[0];
      CandidatesExactly(after.scans, policy, cutoff, s);
      PrunedRows(tables, policy, cutoff, s);
      RanksFall(after.scans, tables.scans, s);
    }
  }
}
