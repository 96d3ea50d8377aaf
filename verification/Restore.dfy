/**
 Backing up and restoring the scan database as sequences of file-system steps. Every step may fail,
 the queries whether a file exists included: a query that fails answers no. Every intermediate state
 is recorded, so that what holds at all times can be stated. The procedures run on a file system
 object; what they do is a function of the disk, and what they promise is proved of that function.
 */
module Restore {
  import opened Wrappers

  const SUPPORTED_VERSION: int := 3

  datatype Path = Path(directory: string, name: string)

  /** A file; whether SQLite can open it, what its integrity check says, its schema version. */
  datatype Content = Content(bytes: string, readable: bool, integrity: string, version: int)

  /** What `verify_database` demands of a file. */
  predicate Sound(content: Content) {
    content.readable && content.integrity == "ok" && content.version <= SUPPORTED_VERSION
  }

  type Files = map<Path, Content>

  predicate SoundAt(files: Files, path: Path) {
    path in files && Sound(files[path])
  }

  /** How the next step goes; a copy that fails may leave anything behind. */
  datatype Step = Fine | Fails | FailsLeaving(content: Content)

  datatype Error =
    | DestinationExists | InputUnsound | StaleTemporary | StalePrevious | CannotOpen | CannotCopy
    | CannotSecure | CopyUnsound | CannotPreserve | CannotInstall | InstalledUnsound | CannotCleanUp
    | CannotPublish

  datatype Removal = Removed | NotFound | RemovalFailed

  /** A file next to another: a dot, its name, what it is for and a fresh identifier. */
  function SiblingTemporary(path: Path, purpose: string, identifier: string): Path {
    Path(path.directory, "." + path.name + "." + purpose + "." + identifier)
  }

  /** The temporary names differ from the database and from each other. */
  lemma SiblingsDiffer(path: Path, id1: string, id2: string)
    ensures SiblingTemporary(path, "restore", id1) != path
    ensures SiblingTemporary(path, "previous", id2) != path
    ensures SiblingTemporary(path, "restore", id1) != SiblingTemporary(path, "previous", id2)
  {
    var a, b := SiblingTemporary(path, "restore", id1).name, SiblingTemporary(path, "previous", id2).name;
    assert |a| > |path.name| && |b| > |path.name|;
    assert a[|path.name| + 2] == 'r' && b[|path.name| + 2] == 'p';
  }

  // ----- Steps, on values -----

  /** The files, the steps to come, and on record: the files after each step, the existing files that a
      query did not see, and the number of failed steps. */
  datatype Disk = Disk(
    files: Files, plan: seq<Step>, next: nat, history: seq<Files>, missed: seq<Path>, failures: nat)

  function Upcoming(d: Disk): Step {
    if d.next < |d.plan| then d.plan[d.next] else Fine
  }

  /** How step k from here on goes. */
  function StepAt(d: Disk, k: nat): Step {
    if d.next + k < |d.plan| then d.plan[d.next + k] else Fine
  }

  predicate AllFine(d: Disk, from: nat, to: nat) {
    forall k: nat :: from <= k < to ==> StepAt(d, k) == Fine
  }

  /** The disk after one step that leaves these files. */
  function Took(d: Disk, files: Files): Disk {
    d.(files := files, next := d.next + 1, history := d.history + [files],
       failures := d.failures + if Upcoming(d) == Fine then 0 else 1)
  }

  /** `Path::exists`: a query that fails answers no. */
  function ExistsOf(d: Disk, path: Path): (bool, Disk) {
    if path !in d.files then (false, Took(d, d.files))
    else if Upcoming(d) == Fine then (true, Took(d, d.files))
    else (false, Took(d, d.files).(missed := d.missed + [path]))
  }

  function RemoveOf(d: Disk, path: Path): (Removal, Disk) {
    if Upcoming(d) != Fine then (RemovalFailed, Took(d, d.files))
    else if path !in d.files then (NotFound, Took(d, d.files))
    else (Removed, Took(d, d.files - {path}))
  }

  function RemoveIfExistsOf(d: Disk, path: Path): (bool, Disk) {
    (RemoveOf(d, path).0 != RemovalFailed, RemoveOf(d, path).1)
  }

  /** Replaces whatever the target held. */
  function RenameOf(d: Disk, source: Path, target: Path): (bool, Disk) {
    if Upcoming(d) == Fine && source in d.files
    then (true, Took(d, (d.files - {source})[target := d.files[source]]))
    else (false, Took(d, d.files))
  }

  /** `VACUUM INTO`: a compacted copy, whose bytes the caller cannot predict. */
  function VacuumOf(d: Disk, source: Path, target: Path, copy: Content): (bool, Disk) {
    if Upcoming(d) == Fine && source in d.files && d.files[source].readable
    then (true, Took(d, d.files[target := copy]))
    else if Upcoming(d).FailsLeaving? then (false, Took(d, d.files[target := Upcoming(d).content]))
    else (false, Took(d, d.files))
  }

  /** A step that only reads or sets permissions. */
  function TouchOf(d: Disk, path: Path): (bool, Disk) {
    (Upcoming(d) == Fine && path in d.files, Took(d, d.files))
  }

  function VerifyOf(d: Disk, path: Path): (bool, Disk) {
    (Upcoming(d) == Fine && SoundAt(d.files, path), Took(d, d.files))
  }

  // ----- The procedures, on values -----

  function ClearOf(d: Disk, input: Path, temporary: Path, previous: Path): (Result<(), Error>, Disk) {
    var (sound, d1) := VerifyOf(d, input);
    if !sound then (Err(InputUnsound), d1)
    else
      var (cleared, d2) := RemoveIfExistsOf(d1, temporary);
      if !cleared then (Err(StaleTemporary), d2)
      else
        var (gone, d3) := RemoveIfExistsOf(d2, previous);
        (if gone then Ok(()) else Err(StalePrevious), d3)
  }

  function CopyOf(d: Disk, input: Path, copy: Content, temporary: Path): (Result<(), Error>, Disk) {
    var (reached, d1) := TouchOf(d, input);
    if !reached then (Err(CannotOpen), d1)
    else
      var (copied, d2) := VacuumOf(d1, input, temporary, copy);
      if !copied then (Err(CannotCopy), d2)
      else
        var (secured, d3) := TouchOf(d2, temporary);
        if !secured then (Err(CannotSecure), d3)
        else
          var (sound, d4) := VerifyOf(d3, temporary);
          (if sound then Ok(()) else Err(CopyUnsound), d4)
  }

  function PrepareOf(d: Disk, input: Path, copy: Content, temporary: Path, previous: Path): (Result<(), Error>, Disk) {
    var (r, e) := ClearOf(d, input, temporary, previous);
    if r.Err? then (r, e) else CopyOf(e, input, copy, temporary)
  }

  function PreserveOf(d: Disk, database: Path, previous: Path): (bool, Disk) {
    var (found, e) := ExistsOf(d, database);
    if found then RenameOf(e, database, previous) else (true, e)
  }

  function RollBackOf(d: Disk, database: Path, previous: Path): Disk {
    var (found, e) := ExistsOf(d, previous);
    if found then RenameOf(e, previous, database).1 else e
  }

  function ExchangeOf(d: Disk, database: Path, temporary: Path, previous: Path): (Result<(), Error>, Disk) {
    var (preserved, d1) := PreserveOf(d, database, previous);
    if !preserved then (Err(CannotPreserve), d1)
    else
      var (installed, d2) := RenameOf(d1, temporary, database);
      if installed then (Ok(()), d2) else (Err(CannotInstall), RollBackOf(d2, database, previous))
  }

  function ConfirmOf(d: Disk, database: Path, previous: Path): (Result<(), Error>, Disk) {
    var (sound, d1) := VerifyOf(d, database);
    if sound then
      var (cleaned, d2) := RemoveIfExistsOf(d1, previous);
      (if cleaned then Ok(()) else Err(CannotCleanUp), d2)
    else (Err(InstalledUnsound), RollBackOf(RemoveOf(d1, database).1, database, previous))
  }

  function RestoreOf(d: Disk, database: Path, input: Path, copy: Content, temporary: Path,
                     previous: Path): (Result<(), Error>, Disk) {
    var (prepared, d1) := PrepareOf(d, input, copy, temporary, previous);
    if prepared.Err? then (prepared, d1)
    else
      var (exchanged, d2) := ExchangeOf(d1, database, temporary, previous);
      if exchanged.Err? then (exchanged, d2) else ConfirmOf(d2, database, previous)
  }

  function BackupOf(d: Disk, database: Path, output: Path, copy: Content, temporary: Path): (Result<(), Error>, Disk) {
    var (found, d1) := ExistsOf(d, output);
    if found then (Err(DestinationExists), d1)
    else
      var (cleared, d2) := RemoveIfExistsOf(d1, temporary);
      if !cleared then (Err(StaleTemporary), d2)
      else
        var (r, d3) := CopyOf(d2, database, copy, temporary);
        if r.Err? then (r, d3)
        else
          var (published, d4) := RenameOf(d3, temporary, output);
          (if published then Ok(()) else Err(CannotPublish), d4)
  }

  // ----- What is promised -----

  /** The bytes the database held at the start are at its path or at the preserved sibling. */
  predicate Preserved(start: Files, now: Files, database: Path, previous: Path) {
    database in start ==>
      || (database in now && now[database] == start[database])
      || (previous in now && now[previous] == start[database])
  }

  /** From one recorded state on, the original bytes were always there. */
  ghost predicate PreservedSince(history: seq<Files>, from: int, start: Files, database: Path, previous: Path) {
    forall i :: 0 <= from <= i < |history| ==> Preserved(start, history[i], database, previous)
  }

  ghost predicate OthersUnchanged(start: Files, now: Files, touched: set<Path>) {
    forall path :: path !in touched ==>
      (path in now <==> path in start) && (path in start ==> now[path] == start[path])
  }

  predicate SameAt(start: Files, now: Files, path: Path) {
    (path in now <==> path in start) && (path in start ==> now[path] == start[path])
  }

  ghost predicate SameSince(history: seq<Files>, from: int, start: Files, path: Path) {
    forall i :: 0 <= from <= i < |history| ==> SameAt(start, history[i], path)
  }

  /** Only the temporary names were written, now and at every recorded state. */
  ghost predicate Untouched(start: Files, d: Disk, from: nat, touched: set<Path>) {
    && OthersUnchanged(start, d.files, touched)
    && forall i :: 0 <= from <= i < |d.history| ==> OthersUnchanged(start, d.history[i], touched)
  }

  /** Steps were taken, and the newest recorded state is the present one. */
  ghost predicate Recorded(d: Disk, e: Disk) {
    && |d.history| < |e.history| && d.history <= e.history && e.history[|e.history| - 1] == e.files
    && d.missed <= e.missed && d.failures <= e.failures
  }

  /** The errors raised before the database itself is touched. */
  predicate BeforeInstall(error: Error) {
    error in {InputUnsound, StaleTemporary, StalePrevious, CannotOpen, CannotCopy, CannotSecure,
              CopyUnsound, CannotPreserve}
  }

  /** The results that come after a successful install rename. */
  predicate Installed(r: Result<(), Error>) {
    r.Ok? || r.error in {InstalledUnsound, CannotCleanUp}
  }

  /** A query did not see the file at the path although it was there. */
  predicate Missed(d: Disk, e: Disk, path: Path)
    requires |d.missed| <= |e.missed|
  {
    path in e.missed[|d.missed|..]
  }

  /** The states that count: all of them after an error, and all but the last after a success. */
  function Counting(r: Result<(), Error>, e: Disk): seq<Files>
    requires e.history != []
  {
    if r.Err? then e.history else e.history[..|e.history| - 1]
  }

  /** The original was there, the query did not see it, and the install rename replaced it. */
  predicate Lost(d: Disk, e: Disk, r: Result<(), Error>, database: Path)
    requires |d.missed| <= |e.missed|
  {
    database in d.files && Missed(d, e, database) && Installed(r)
  }

  // ----- The parts of a restore -----

  lemma UntouchedChains(d: Disk, e: Disk, f: Disk, first: set<Path>, second: set<Path>)
    requires Recorded(d, e) && Recorded(e, f) && second <= first
    requires Untouched(d.files, e, |d.history|, first) && Untouched(e.files, f, |e.history|, second)
    ensures Recorded(d, f) && Untouched(d.files, f, |d.history|, first)
  {
    assert forall i :: 0 <= i < |e.history| ==> f.history[i] == e.history[i];
  }

  lemma StepKeeps(d: Disk, files: Files, touched: set<Path>)
    requires OthersUnchanged(d.files, files, touched)
    ensures Recorded(d, Took(d, files)) && Untouched(d.files, Took(d, files), |d.history|, touched)
  {
  }

  /** A step on top of earlier ones. */
  lemma StepChains(d: Disk, e: Disk, files: Files, touched: set<Path>)
    requires Recorded(d, e) && Untouched(d.files, e, |d.history|, touched)
    requires OthersUnchanged(e.files, files, touched)
    ensures Recorded(d, Took(e, files)) && Untouched(d.files, Took(e, files), |d.history|, touched)
  {
    hide Recorded, Untouched, Took, OthersUnchanged;
    StepKeeps(e, files, touched);
    UntouchedChains(d, e, Took(e, files), touched, touched);
  }

  /** Verification of the input and removal of stale files under the temporary names. */
  lemma ClearKeeps(d: Disk, input: Path, temporary: Path, previous: Path)
    ensures var r, e := ClearOf(d, input, temporary, previous).0, ClearOf(d, input, temporary, previous).1;
      && Recorded(d, e) && e.missed == d.missed && Untouched(d.files, e, |d.history|, {temporary, previous})
      && (r.Ok? ==> previous !in e.files && e.files == d.files - {temporary} - {previous})
      && (r.Err? ==> BeforeInstall(r.error))
      && (r.Err? && SoundAt(d.files, input) ==> e.failures > d.failures)
      && (r.Ok? ==> SoundAt(d.files, input))
      && (!SoundAt(d.files, input) ==> r == Err(InputUnsound))
  {
    hide Sound, Recorded, Untouched;
    var touched := {temporary, previous};
    StepKeeps(d, d.files, touched);
    var d1 := VerifyOf(d, input).1;
    var d2 := RemoveIfExistsOf(d1, temporary).1;
    StepChains(d, d1, d2.files, touched);
    StepChains(d, d2, RemoveIfExistsOf(d2, previous).1.files, touched);
  }

  /** The copy is complete, private and verified, or only its name was written. */
  lemma CopyKeeps(d: Disk, input: Path, copy: Content, temporary: Path)
    ensures var r, e := CopyOf(d, input, copy, temporary).0, CopyOf(d, input, copy, temporary).1;
      && Recorded(d, e) && e.missed == d.missed && Untouched(d.files, e, |d.history|, {temporary})
      && (r.Ok? ==> temporary in e.files && e.files[temporary] == copy && Sound(copy))
      && (r.Err? ==> BeforeInstall(r.error) && r.error != CannotPreserve)
      && (r.Err? && input in d.files && d.files[input].readable && Sound(copy) ==> e.failures > d.failures)
  {
    hide Sound, Recorded, Untouched;
    var touched := {temporary};
    StepKeeps(d, d.files, touched);
    var d1 := TouchOf(d, input).1;
    var d2 := VacuumOf(d1, input, temporary, copy).1;
    StepChains(d, d1, d2.files, touched);
    StepChains(d, d2, d2.files, touched);
    StepChains(d, Took(d2, d2.files), d2.files, touched);
  }

  /** Verification and copying write nothing but the temporary names, and fail only on unsound content
      or a failing step. */
  lemma PrepareKeeps(d: Disk, input: Path, copy: Content, temporary: Path, previous: Path)
    requires temporary != previous
    ensures var r, e := PrepareOf(d, input, copy, temporary, previous).0,
            PrepareOf(d, input, copy, temporary, previous).1;
      && Recorded(d, e) && e.missed == d.missed && Untouched(d.files, e, |d.history|, {temporary, previous})
      && (r.Ok? ==> temporary in e.files && e.files[temporary] == copy && Sound(copy) && previous !in e.files)
      && (r.Err? ==> BeforeInstall(r.error))
      && (r.Ok? ==> SoundAt(d.files, input))
      && (!SoundAt(d.files, input) ==> r == Err(InputUnsound))
      && (r.Err? && SoundAt(d.files, input) && Sound(copy) && input !in {temporary, previous} ==>
          e.failures > d.failures)
  {
    hide ClearOf, CopyOf;
    ClearKeeps(d, input, temporary, previous);
    var e := ClearOf(d, input, temporary, previous).1;
    if ClearOf(d, input, temporary, previous).0.Ok? {
      CopyKeeps(e, input, copy, temporary);
      UntouchedChains(d, e, CopyOf(e, input, copy, temporary).1, {temporary, previous}, {temporary});
    }
  }

  /** The next query does not see the file that is at the path. */
  predicate Overlooks(d: Disk, path: Path) {
    path in d.files && Upcoming(d) != Fine
  }

  /** The current database is moved aside with its bytes, unless there is none or the query does not see it. */
  lemma PreserveKeeps(d: Disk, database: Path, previous: Path)
    requires previous != database && previous !in d.files
    ensures var ok, e := PreserveOf(d, database, previous).0, PreserveOf(d, database, previous).1;
      && Recorded(d, e)
      && e.missed == d.missed + (if Overlooks(d, database) then [database] else [])
      && PreservedSince(e.history, |d.history|, d.files, database, previous)
      && (!ok ==> e.files == d.files && e.failures > d.failures)
      && (ok && database in d.files && !Overlooks(d, database) ==>
            e.files == (d.files - {database})[previous := d.files[database]])
      && (ok && (database !in d.files || Overlooks(d, database)) ==> e.files == d.files)
      && (Overlooks(d, database) ==> e.failures > d.failures)
  {
  }

  /** Puts the preserved file back; whether that works or not, it is still somewhere. */
  lemma RollBackKeeps(d: Disk, database: Path, previous: Path, start: Files)
    requires previous != database
    requires database in start ==> previous in d.files && d.files[previous] == start[database]
    ensures var e := RollBackOf(d, database, previous);
      && Recorded(d, e) && PreservedSince(e.history, |d.history|, start, database, previous)
      && database !in e.missed[|d.missed|..]
      && OthersUnchanged(d.files, e.files, {database, previous})
      && (e.failures == d.failures && database in start ==> SameAt(start, e.files, database))
      && (previous !in d.files ==> e.files == d.files)
  {
  }

  lemma HistoryChains(d: Disk, e: Disk, f: Disk, start: Files, database: Path, previous: Path)
    requires Recorded(d, e) && Recorded(e, f)
    requires PreservedSince(e.history, |d.history|, start, database, previous)
    requires PreservedSince(f.history, |e.history|, start, database, previous)
    ensures Recorded(d, f) && PreservedSince(f.history, |d.history|, start, database, previous)
  {
    hide Preserved;
    assert forall i :: 0 <= i < |e.history| ==> f.history[i] == e.history[i];
  }

  lemma MissedChains(d: Disk, e: Disk, f: Disk, path: Path)
    requires d.missed <= e.missed <= f.missed
    ensures Missed(d, f, path) <==> Missed(d, e, path) || Missed(e, f, path)
  {
    assert f.missed[|d.missed|..] == e.missed[|d.missed|..] + f.missed[|e.missed|..];
  }

  /** After the install rename the original is at the preserved sibling, unless it was overlooked. */
  lemma InstallKeeps(d: Disk, d1: Disk, d2: Disk, database: Path, temporary: Path, previous: Path)
    requires temporary != database && previous != database && temporary != previous
    requires Recorded(d, d1) && d2 == Took(d1, d2.files)
    requires d1.missed == d.missed + (if Overlooks(d, database) then [database] else [])
    requires PreservedSince(d1.history, |d.history|, d.files, database, previous)
    requires temporary in d1.files && d2.files == (d1.files - {temporary})[database := d1.files[temporary]]
    requires database in d.files && !Overlooks(d, database) ==>
             previous in d1.files && d1.files[previous] == d.files[database]
    ensures Recorded(d, d2) && (Missed(d, d2, database) <==> Overlooks(d, database))
    ensures !Overlooks(d, database) ==> PreservedSince(d2.history, |d.history|, d.files, database, previous)
  {
    hide Overlooks;
    assert forall i :: 0 <= i < |d1.history| ==> d2.history[i] == d1.history[i];
  }

  /** With nothing preserved there is nothing to roll back, and the original stays where it is. */
  lemma OverlookedRollBack(d: Disk, database: Path, previous: Path, start: Files)
    requires previous !in d.files && SameAt(start, d.files, database)
    ensures var e := RollBackOf(d, database, previous);
      e.files == d.files && PreservedSince(e.history, |d.history|, start, database, previous)
  {
  }

  lemma OneMorePreserved(d: Disk, e: Disk, f: Disk, start: Files, database: Path, previous: Path)
    requires Recorded(d, e) && f == Took(e, e.files)
    requires PreservedSince(e.history, |d.history|, start, database, previous)
    ensures Recorded(d, f) && PreservedSince(f.history, |d.history|, start, database, previous)
  {
    hide Preserved;
    assert forall i :: 0 <= i < |e.history| ==> f.history[i] == e.history[i];
    assert Preserved(start, e.history[|e.history| - 1], database, previous);
  }

  /** A failed install rename is rolled back; the original is never out of reach. */
  lemma FailedInstallKeeps(d: Disk, d1: Disk, d2: Disk, database: Path, previous: Path)
    requires previous != database && previous !in d.files
    requires Recorded(d, d1) && d2 == Took(d1, d1.files)
    requires d1.missed == d.missed + (if Overlooks(d, database) then [database] else [])
    requires PreservedSince(d1.history, |d.history|, d.files, database, previous)
    requires database in d.files && !Overlooks(d, database) ==>
               d1.files == (d.files - {database})[previous := d.files[database]]
    requires database !in d.files || Overlooks(d, database) ==> d1.files == d.files
    ensures var e := RollBackOf(d2, database, previous);
      && Recorded(d, e) && (Missed(d, e, database) <==> Overlooks(d, database))
      && PreservedSince(e.history, |d.history|, d.files, database, previous)
      && OthersUnchanged(d.files, e.files, {database, previous})
      && e.failures >= d2.failures
      && (e.failures == d2.failures && database in d.files ==> SameAt(d.files, e.files, database))
      && (Overlooks(d, database) ==> SameAt(d.files, e.files, database))
  {
    hide RollBackOf, PreservedSince;
    var e := RollBackOf(d2, database, previous);
    var start := if Overlooks(d, database) then map[] else d.files;
    RollBackKeeps(d2, database, previous, start);
    if Overlooks(d, database) {
      OverlookedRollBack(d2, database, previous, d.files);
    }
    OneMorePreserved(d, d1, d2, d.files, database, previous);
    HistoryChains(d, d2, e, d.files, database, previous);
    MissedChains(d, d1, e, database);
    assert d2.missed == d1.missed;
    if Overlooks(d, database) {
      assert d1.missed[|d.missed|..] == [database];
    } else {
      assert d1.missed[|d.missed|..] == [];
    }
  }

  /**
   The two renames: the original is lost only when the query overlooks it and the install then
   succeeds; otherwise it is where it was, or preserved, at every step.
   */
  lemma ExchangeKeeps(d: Disk, database: Path, temporary: Path, previous: Path)
    requires temporary != database && previous != database && temporary != previous
    requires temporary in d.files && previous !in d.files
    ensures var r, e := ExchangeOf(d, database, temporary, previous).0, ExchangeOf(d, database, temporary, previous).1;
      && Recorded(d, e) && (Missed(d, e, database) <==> Overlooks(d, database))
      && (r.Err? || !Overlooks(d, database) ==> PreservedSince(e.history, |d.history|, d.files, database, previous))
      && (r.Ok? ==> database in e.files && e.files[database] == d.files[temporary])
      && (r.Ok? && database in d.files ==>
            if Overlooks(d, database) then previous !in e.files && e.failures > d.failures
            else previous in e.files && e.files[previous] == d.files[database])
      && (r.Err? ==> r.error in {CannotPreserve, CannotInstall} && e.failures > d.failures)
      && (r == Err(CannotPreserve) ==> SameAt(d.files, e.files, database))
      && (r.Err? && e.failures <= d.failures + 1 && database in d.files ==> SameAt(d.files, e.files, database))
      && OthersUnchanged(d.files, e.files, {database, temporary, previous})
  {
    hide PreserveOf, RollBackOf, PreservedSince;
    PreserveKeeps(d, database, previous);
    var d1 := PreserveOf(d, database, previous).1;
    if PreserveOf(d, database, previous).0 {
      var d2 := RenameOf(d1, temporary, database).1;
      if RenameOf(d1, temporary, database).0 {
        InstallKeeps(d, d1, d2, database, temporary, previous);
      } else {
        FailedInstallKeeps(d, d1, d2, database, previous);
      }
    }
  }

  lemma StillPreserved(files: Files, start: Files, database: Path, previous: Path)
    requires database in start ==> previous in files && files[previous] == start[database]
    ensures Preserved(start, files, database, previous)
  {
  }

  lemma OneState(d: Disk, files: Files, start: Files, database: Path, previous: Path)
    requires Preserved(start, files, database, previous)
    ensures Recorded(d, Took(d, files))
    ensures PreservedSince(Took(d, files).history, |d.history|, start, database, previous)
  {
  }

  /** The installed file failed its verification: it is removed and the original moved back. */
  lemma UnconfirmedKeeps(d: Disk, d1: Disk, database: Path, previous: Path, start: Files)
    requires previous != database && d1 == VerifyOf(d, database).1
    requires database in start ==> previous in d.files && d.files[previous] == start[database]
    requires PreservedSince(d1.history, |d.history|, start, database, previous)
    ensures var e := RollBackOf(RemoveOf(d1, database).1, database, previous);
      && Recorded(d, e) && !Missed(d, e, database) && |e.history| >= |d.history| + 2
      && PreservedSince(e.history, |d.history|, start, database, previous)
      && OthersUnchanged(d.files, e.files, {database, previous})
      && e.failures >= d1.failures
      && (e.failures <= d1.failures && database in start ==> SameAt(start, e.files, database))
  {
    hide Sound, RollBackOf, PreservedSince, Preserved;
    var d2 := RemoveOf(d1, database).1;
    StillPreserved(d2.files, start, database, previous);
    OneState(d1, d2.files, start, database, previous);
    HistoryChains(d, d1, d2, start, database, previous);
    RollBackKeeps(d2, database, previous, start);
    HistoryChains(d, d2, RollBackOf(d2, database, previous), start, database, previous);
    MissedChains(d, d2, RollBackOf(d2, database, previous), database);
    assert d2.missed == d.missed;
  }

  /** The final verification lets go of the preserved original only when the installed file is sound. */
  lemma ConfirmKeeps(d: Disk, database: Path, previous: Path, start: Files)
    requires previous != database && SoundAt(d.files, database)
    requires database in start ==> previous in d.files && d.files[previous] == start[database]
    ensures var r, e := ConfirmOf(d, database, previous).0, ConfirmOf(d, database, previous).1;
      && Recorded(d, e) && !Missed(d, e, database) && Installed(r)
      && |e.history| >= |d.history| + 2
      && PreservedSince(Counting(r, e), |d.history|, start, database, previous)
      && (r.Ok? || r.error == CannotCleanUp ==> database in e.files && e.files[database] == d.files[database])
      && (r.Ok? ==> previous !in e.files)
      && (r.Err? ==> e.failures > d.failures)
      && (r == Err(InstalledUnsound) && e.failures <= d.failures + 1 && database in start ==>
          SameAt(start, e.files, database))
      && OthersUnchanged(d.files, e.files, {database, previous})
  {
    hide Sound, RollBackOf, PreservedSince, Preserved;
    var d1 := VerifyOf(d, database).1;
    assert Preserved(start, d.files, database, previous) by { StillPreserved(d.files, start, database, previous); }
    OneState(d, d.files, start, database, previous);
    if VerifyOf(d, database).0 {
      var e := RemoveIfExistsOf(d1, previous).1;
      assert e.history[..|e.history| - 1] == d1.history;
      if !RemoveIfExistsOf(d1, previous).0 {
        OneState(d1, e.files, start, database, previous);
        HistoryChains(d, d1, e, start, database, previous);
      }
    } else {
      UnconfirmedKeeps(d, d1, database, previous, start);
    }
  }

  // ----- The whole restore -----

  /** What a restore does, whichever steps fail, told by its result and by the queries it recorded. */
  ghost predicate RestoreAccount(d: Disk, e: Disk, r: Result<(), Error>, database: Path, input: Path, copy: Content,
                                 temporary: Path, previous: Path)
  {
    && Recorded(d, e)
    // The original bytes exist at every state that counts, exactly unless they were lost.
    && (!Lost(d, e, r, database) ==> PreservedSince(Counting(r, e), |d.history|, d.files, database, previous))
    && (Lost(d, e, r, database) && copy != d.files[database] ==>
          !PreservedSince(Counting(r, e), |d.history|, d.files, database, previous))
    // No error raised before the install touches the database.
    && (r.Err? && BeforeInstall(r.error) ==> SameAt(d.files, e.files, database))
    // Success installs the verified copy, and so does an error of the final clean-up.
    && (r.Ok? || r.error == CannotCleanUp ==> database in e.files && e.files[database] == copy && Sound(copy))
    && (r.Ok? ==> previous !in e.files && SoundAt(d.files, input))
    // Only unsound content or a failing step makes it fail.
    && (!SoundAt(d.files, input) ==> r == Err(InputUnsound))
    && (r.Err? && SoundAt(d.files, input) && Sound(copy) && input !in {temporary, previous} ==> e.failures > d.failures)
    // An error after one failing step alone leaves the original at the database path.
    && (r.Err? && r.error != CannotCleanUp && e.failures <= d.failures + 1 && database in d.files ==>
          SameAt(d.files, e.files, database))
    && OthersUnchanged(d.files, e.files, {database, temporary, previous})
  }

  /** Steps that only write the temporary names preserve the original where it is. */
  lemma UntouchedPreserves(d: Disk, e: Disk, database: Path, temporary: Path, previous: Path)
    requires temporary != database && previous != database
    requires Untouched(d.files, e, |d.history|, {temporary, previous})
    ensures PreservedSince(e.history, |d.history|, d.files, database, previous) && SameAt(d.files, e.files, database)
    ensures OthersUnchanged(d.files, e.files, {database, temporary, previous})
  {
  }

  lemma RefusedKeeps(d: Disk, e: Disk, r: Result<(), Error>, database: Path, input: Path, copy: Content,
                     temporary: Path, previous: Path)
    requires Recorded(d, e) && e.missed == d.missed
    requires PreservedSince(e.history, |d.history|, d.files, database, previous) && SameAt(d.files, e.files, database)
    requires OthersUnchanged(d.files, e.files, {database, temporary, previous})
    requires r.Err? && BeforeInstall(r.error)
    requires !SoundAt(d.files, input) ==> r == Err(InputUnsound)
    requires SoundAt(d.files, input) && Sound(copy) && input !in {temporary, previous} ==> e.failures > d.failures
    ensures RestoreAccount(d, e, r, database, input, copy, temporary, previous)
  {
    hide Sound, PreservedSince;
  }

  /** The original is the same for the later steps as it was for the first. */
  lemma SameOriginal(d: Disk, e: Disk, f: Disk, states: seq<Files>, database: Path, previous: Path)
    requires Recorded(d, e) && Recorded(e, f) && SameAt(d.files, e.files, database)
    requires states <= f.history && |e.history| <= |states|
    requires PreservedSince(e.history, |d.history|, d.files, database, previous)
    requires PreservedSince(states, |e.history|, e.files, database, previous)
    ensures PreservedSince(states, |d.history|, d.files, database, previous)
  {
    assert forall i :: 0 <= i < |e.history| ==> states[i] == e.history[i];
  }

  lemma UnexchangedKeeps(d: Disk, d1: Disk, e: Disk, r: Result<(), Error>, database: Path, input: Path, copy: Content,
                         temporary: Path, previous: Path)
    requires Recorded(d, d1) && d1.missed == d.missed && Recorded(d1, e)
    requires PreservedSince(d1.history, |d.history|, d.files, database, previous) && SameAt(d.files, d1.files, database)
    requires PreservedSince(e.history, |d1.history|, d1.files, database, previous)
    requires OthersUnchanged(d.files, d1.files, {database, temporary, previous})
    requires OthersUnchanged(d1.files, e.files, {database, temporary, previous})
    requires r in {Err(CannotPreserve), Err(CannotInstall)} && e.failures > d1.failures && SoundAt(d.files, input)
    requires r == Err(CannotPreserve) ==> SameAt(d1.files, e.files, database)
    requires e.failures <= d1.failures + 1 && database in d1.files ==> SameAt(d1.files, e.files, database)
    ensures RestoreAccount(d, e, r, database, input, copy, temporary, previous)
  {
    hide Sound, PreservedSince;
    SameOriginal(d, d1, e, e.history, database, previous);
  }

  lemma NothingMissed(d: Disk, e: Disk, path: Path)
    requires d.missed == e.missed
    ensures !Missed(d, e, path)
  {
  }

  /** Once the copy has replaced an original that was not preserved, it is at neither path. */
  lemma OverwrittenIsGone(d: Disk, d1: Disk, d2: Disk, states: seq<Files>, copy: Content, database: Path,
                          previous: Path)
    requires Recorded(d, d1) && Recorded(d1, d2) && d2.history <= states && SameAt(d.files, d1.files, database)
    requires database in d2.files && d2.files[database] == copy && previous !in d2.files
    ensures database in d.files && copy != d.files[database] ==>
              !PreservedSince(states, |d.history|, d.files, database, previous)
  {
    var last := |d2.history| - 1;
    assert states[last] == d2.history[last] == d2.files;
  }

  lemma LaterStates(d: Disk, e: Disk, f: Disk, states: seq<Files>, start: Files, database: Path, previous: Path)
    requires Recorded(d, e) && e.history <= states && SameAt(d.files, start, database)
    requires PreservedSince(e.history, |d.history|, d.files, database, previous)
    requires PreservedSince(states, |e.history|, start, database, previous)
    ensures PreservedSince(states, |d.history|, d.files, database, previous)
  {
    assert forall i :: 0 <= i < |e.history| ==> states[i] == e.history[i];
  }

  lemma ExchangedKeeps(d: Disk, d1: Disk, d2: Disk, e: Disk, r: Result<(), Error>, database: Path, input: Path,
                       copy: Content, temporary: Path, previous: Path)
    requires Recorded(d, d1) && d1.missed == d.missed && Recorded(d1, d2) && Recorded(d2, e)
    requires PreservedSince(d1.history, |d.history|, d.files, database, previous) && SameAt(d.files, d1.files, database)
    requires Missed(d1, d2, database) <==> Overlooks(d1, database)
    requires !Overlooks(d1, database) ==> PreservedSince(d2.history, |d1.history|, d1.files, database, previous)
    requires database in d2.files && d2.files[database] == copy && Sound(copy) && SoundAt(d.files, input)
    requires Overlooks(d1, database) ==> previous !in d2.files && d2.failures > d1.failures
    requires !Missed(d2, e, database) && Installed(r) && |e.history| >= |d2.history| + 2
    requires PreservedSince(Counting(r, e), |d2.history|,
                            if Overlooks(d1, database) then map[] else d1.files, database, previous)
    requires r.Ok? || r.error == CannotCleanUp ==> database in e.files && e.files[database] == copy
    requires r.Ok? ==> previous !in e.files
    requires r.Err? ==> e.failures > d2.failures
    requires r == Err(InstalledUnsound) && e.failures <= d2.failures + 1 && database in d1.files &&
             !Overlooks(d1, database) ==>
               SameAt(d1.files, e.files, database)
    requires OthersUnchanged(d.files, d1.files, {database, temporary, previous})
    requires OthersUnchanged(d1.files, d2.files, {database, temporary, previous})
    requires OthersUnchanged(d2.files, e.files, {database, previous})
    ensures RestoreAccount(d, e, r, database, input, copy, temporary, previous)
  {
    hide Sound, PreservedSince, Missed;
    MissedChains(d, d1, d2, database);
    MissedChains(d, d2, e, database);
    NothingMissed(d, d1, database);
    var states := Counting(r, e);
    assert d2.history <= states;
    if Overlooks(d1, database) {
      OverwrittenIsGone(d, d1, d2, states, copy, database, previous);
    } else {
      SameOriginal(d, d1, d2, d2.history, database, previous);
      LaterStates(d, d2, e, states, d1.files, database, previous);
    }
  }

  lemma AccountKeeps(d: Disk, database: Path, input: Path, copy: Content, temporary: Path, previous: Path)
    requires temporary != database && previous != database && temporary != previous
    ensures RestoreAccount(d, RestoreOf(d, database, input, copy, temporary, previous).1,
                           RestoreOf(d, database, input, copy, temporary, previous).0, database, input, copy, temporary,
                           previous)
  {
    hide PrepareOf, ExchangeOf, ConfirmOf, PreservedSince, RestoreAccount, Untouched;
    PrepareKeeps(d, input, copy, temporary, previous);
    var p, d1 := PrepareOf(d, input, copy, temporary, previous).0, PrepareOf(d, input, copy, temporary, previous).1;
    UntouchedPreserves(d, d1, database, temporary, previous);
    if p.Err? {
      RefusedKeeps(d, d1, p, database, input, copy, temporary, previous);
    } else {
      ExchangeKeeps(d1, database, temporary, previous);
      var x, d2 := ExchangeOf(d1, database, temporary, previous).0, ExchangeOf(d1, database, temporary, previous).1;
      if x.Err? {
        UnexchangedKeeps(d, d1, d2, x, database, input, copy, temporary, previous);
      } else {
        var start := if Overlooks(d1, database) then map[] else d1.files;
        ConfirmKeeps(d2, database, previous, start);
        ExchangedKeeps(d, d1, d2, ConfirmOf(d2, database, previous).1, ConfirmOf(d2, database, previous).0,
                       database, input, copy, temporary, previous);
      }
    }
  }

  // ----- When the original is lost -----

  /** Input and copy are sound, and the seven steps up to the query whether there is a database succeed. */
  predicate Prepares(d: Disk, input: Path, copy: Content, temporary: Path, previous: Path) {
    AllFine(d, 0, 7) && SoundAt(d.files, input) && input !in {temporary, previous} && Sound(copy)
  }

  /** The query fails to see the database, and the install rename then succeeds. */
  predicate Overwrites(d: Disk, database: Path, input: Path, copy: Content, temporary: Path, previous: Path) {
    && database in d.files && Prepares(d, input, copy, temporary, previous)
    && StepAt(d, 7) != Fine && StepAt(d, 8) == Fine
  }

  /** The original is overwritten by other bytes, or by the same that a failing verification then removes. */
  predicate LosesOriginal(d: Disk, database: Path, input: Path, copy: Content, temporary: Path, previous: Path) {
    && Overwrites(d, database, input, copy, temporary, previous)
    && (copy != d.files[database] || (StepAt(d, 9) != Fine && StepAt(d, 10) == Fine))
  }

  /** The disk k steps on. */
  predicate Advanced(d: Disk, e: Disk, k: nat) {
    e.plan == d.plan && e.next == d.next + k
  }

  lemma ClearExactly(d: Disk, input: Path, temporary: Path, previous: Path)
    ensures ClearOf(d, input, temporary, previous).0.Ok? <==> AllFine(d, 0, 3) && SoundAt(d.files, input)
    ensures ClearOf(d, input, temporary, previous).0.Ok? ==>
              && Advanced(d, ClearOf(d, input, temporary, previous).1, 3)
              && ClearOf(d, input, temporary, previous).1.files == d.files - {temporary} - {previous}
  {
    hide Sound;
    assert StepAt(d, 0) == Upcoming(d);
    var d1 := VerifyOf(d, input).1;
    assert StepAt(d, 1) == Upcoming(d1);
    var d2 := RemoveIfExistsOf(d1, temporary).1;
    assert StepAt(d, 2) == Upcoming(d2);
  }

  lemma CopyExactly(d: Disk, input: Path, copy: Content, temporary: Path)
    ensures CopyOf(d, input, copy, temporary).0.Ok? <==>
            AllFine(d, 0, 4) && input in d.files && d.files[input].readable && Sound(copy)
    ensures CopyOf(d, input, copy, temporary).0.Ok? ==>
              && Advanced(d, CopyOf(d, input, copy, temporary).1, 4)
              && CopyOf(d, input, copy, temporary).1.files == d.files[temporary := copy]
  {
    hide Sound;
    assert StepAt(d, 0) == Upcoming(d);
    var d1 := TouchOf(d, input).1;
    assert StepAt(d, 1) == Upcoming(d1);
    var d2 := VacuumOf(d1, input, temporary, copy).1;
    assert StepAt(d, 2) == Upcoming(d2);
    var d3 := TouchOf(d2, temporary).1;
    assert StepAt(d, 3) == Upcoming(d3);
  }

  lemma Later(d: Disk, e: Disk, k: nat, n: nat)
    requires Advanced(d, e, k)
    ensures forall i: nat :: StepAt(e, i) == StepAt(d, k + i)
    ensures AllFine(d, 0, k + n) <==> AllFine(d, 0, k) && AllFine(e, 0, n)
  {
    assert forall i: nat :: StepAt(e, i) == StepAt(d, k + i);
    if AllFine(d, 0, k) && AllFine(e, 0, n) {
      forall i: nat | i < k + n ensures StepAt(d, i) == Fine {
        if i >= k {
          assert StepAt(e, i - k) == Fine;
        }
      }
    }
  }

  /** The preparation succeeds exactly when its steps do and both contents are sound. */
  lemma PrepareExactly(d: Disk, input: Path, copy: Content, temporary: Path, previous: Path)
    ensures PrepareOf(d, input, copy, temporary, previous).0.Ok? <==> Prepares(d, input, copy, temporary, previous)
    ensures PrepareOf(d, input, copy, temporary, previous).0.Ok? ==>
              Advanced(d, PrepareOf(d, input, copy, temporary, previous).1, 7)
  {
    hide ClearOf, CopyOf;
    ClearExactly(d, input, temporary, previous);
    var e := ClearOf(d, input, temporary, previous).1;
    if ClearOf(d, input, temporary, previous).0.Ok? {
      CopyExactly(e, input, copy, temporary);
      Later(d, e, 3, 4);
    }
  }

  /** An overlooked database is not moved: the install succeeds exactly when its rename does. */
  lemma OverlookedExchange(d: Disk, database: Path, temporary: Path, previous: Path)
    requires temporary != database && temporary in d.files && Overlooks(d, database)
    ensures ExchangeOf(d, database, temporary, previous).0.Ok? <==> StepAt(d, 1) == Fine
    ensures ExchangeOf(d, database, temporary, previous).0.Ok? ==>
              var e := ExchangeOf(d, database, temporary, previous).1;
              && Recorded(d, e) && Advanced(d, e, 2) && e.history == d.history + [d.files, e.files]
              && e.files == (d.files - {temporary})[database := d.files[temporary]]
  {
    hide RollBackOf;
    assert StepAt(d, 1) == Upcoming(ExistsOf(d, database).1);
  }

  /** With the bytes of the original in its place only a failing verification loses them, when the removal succeeds. */
  lemma SameBytesConfirmed(d: Disk, database: Path, previous: Path)
    requires previous != database && SoundAt(d.files, database) && previous !in d.files
    ensures var r, e := ConfirmOf(d, database, previous).0, ConfirmOf(d, database, previous).1;
      && Recorded(d, e) && |Counting(r, e)| >= |d.history| && d.history <= Counting(r, e)
      && (PreservedSince(Counting(r, e), |d.history|, d.files, database, previous) <==>
          !(StepAt(d, 0) != Fine && StepAt(d, 1) == Fine))
  {
    hide Sound;
    assert StepAt(d, 0) == Upcoming(d);
    var d1 := VerifyOf(d, database).1;
    assert StepAt(d, 1) == Upcoming(d1);
    if StepAt(d, 0) != Fine {
      var d2 := RemoveOf(d1, database).1;
      var e := RollBackOf(d2, database, previous);
      assert e.history == d.history + [d.files, d2.files, d2.files];
      assert e.history[|d.history| + 1] == d2.files;
    }
  }

  lemma StillThere(d: Disk, d1: Disk, d2: Disk, states: seq<Files>, database: Path, previous: Path)
    requires Recorded(d, d1) && PreservedSince(d1.history, |d.history|, d.files, database, previous)
    requires d2.history == d1.history + [d1.files, d2.files] && d2.history <= states
    requires SameAt(d.files, d1.files, database) && SameAt(d.files, d2.files, database)
    ensures PreservedSince(states, |d.history|, d.files, database, previous) <==>
            PreservedSince(states, |d2.history|, d2.files, database, previous)
  {
    assert forall i :: 0 <= i < |d2.history| ==> states[i] == d2.history[i];
    assert forall i :: 0 <= i < |d1.history| ==> d2.history[i] == d1.history[i];
  }

  lemma RecordedChains(d: Disk, d1: Disk, d2: Disk, e: Disk)
    requires Recorded(d, d1) && Recorded(d1, d2) && Recorded(d2, e)
    ensures Recorded(d, e)
  {
  }

  /** An overwritten original whose bytes the copy repeats. */
  lemma SameBytesExactly(d: Disk, database: Path, input: Path, copy: Content, temporary: Path, previous: Path)
    requires temporary != database && previous != database && temporary != previous
    requires Overwrites(d, database, input, copy, temporary, previous) && copy == d.files[database]
    ensures var r, e := RestoreOf(d, database, input, copy, temporary, previous).0,
            RestoreOf(d, database, input, copy, temporary, previous).1;
      && Recorded(d, e)
      && (PreservedSince(Counting(r, e), |d.history|, d.files, database, previous) <==>
          !(StepAt(d, 9) != Fine && StepAt(d, 10) == Fine))
  {
    hide PrepareOf, ExchangeOf, ConfirmOf, Untouched, PreservedSince, Sound, AllFine;
    PrepareKeeps(d, input, copy, temporary, previous);
    PrepareExactly(d, input, copy, temporary, previous);
    var d1 := PrepareOf(d, input, copy, temporary, previous).1;
    Later(d, d1, 7, 0);
    UntouchedPreserves(d, d1, database, temporary, previous);
    assert StepAt(d1, 0) == StepAt(d, 7) && StepAt(d1, 1) == StepAt(d, 8);
    OverlookedExchange(d1, database, temporary, previous);
    var d2 := ExchangeOf(d1, database, temporary, previous).1;
    Later(d, d2, 9, 0);
    assert StepAt(d2, 0) == StepAt(d, 9) && StepAt(d2, 1) == StepAt(d, 10);
    SameBytesConfirmed(d2, database, previous);
    var r, e := ConfirmOf(d2, database, previous).0, ConfirmOf(d2, database, previous).1;
    StillThere(d, d1, d2, Counting(r, e), database, previous);
    RecordedChains(d, d1, d2, e);
  }

  lemma SameDatabase(d: Disk, e: Disk, database: Path, temporary: Path, previous: Path)
    requires temporary != database && previous != database
    requires Untouched(d.files, e, |d.history|, {temporary, previous})
    ensures SameAt(d.files, e.files, database)
  {
  }

  lemma ConfirmMisses(d: Disk, database: Path, previous: Path)
    requires previous != database && database in d.files && Sound(d.files[database])
    ensures var r, e := ConfirmOf(d, database, previous).0, ConfirmOf(d, database, previous).1;
      Recorded(d, e) && !Missed(d, e, database) && Installed(r)
  {
    hide PreservedSince, Sound;
    ConfirmKeeps(d, database, previous, map[]);
  }

  /** What a run that lost sight of the original did is fixed before it begins. */
  lemma LostExactly(d: Disk, database: Path, input: Path, copy: Content, temporary: Path, previous: Path)
    requires temporary != database && previous != database && temporary != previous
    ensures var r, e := RestoreOf(d, database, input, copy, temporary, previous).0,
            RestoreOf(d, database, input, copy, temporary, previous).1;
      Recorded(d, e) && (Lost(d, e, r, database) <==> Overwrites(d, database, input, copy, temporary, previous))
  {
    hide PrepareOf, ExchangeOf, ConfirmOf, Untouched, PreservedSince, Sound, Prepares;
    PrepareKeeps(d, input, copy, temporary, previous);
    PrepareExactly(d, input, copy, temporary, previous);
    var d1 := PrepareOf(d, input, copy, temporary, previous).1;
    if PrepareOf(d, input, copy, temporary, previous).0.Ok? {
      Later(d, d1, 7, 0);
      SameDatabase(d, d1, database, temporary, previous);
      ExchangeKeeps(d1, database, temporary, previous);
      if Overlooks(d1, database) {
        OverlookedExchange(d1, database, temporary, previous);
      }
      var d2 := ExchangeOf(d1, database, temporary, previous).1;
      MissedChains(d, d1, d2, database);
      if ExchangeOf(d1, database, temporary, previous).0.Ok? {
        ConfirmMisses(d2, database, previous);
        MissedChains(d, d2, ConfirmOf(d2, database, previous).1, database);
      }
    }
  }

  lemma WasThere(d: Disk, database: Path, input: Path, copy: Content, temporary: Path, previous: Path)
    requires Overwrites(d, database, input, copy, temporary, previous)
    ensures database in d.files
  {
  }

  /** The original is kept at every state that counts exactly unless the disk at the start says that it is lost. */
  lemma KeptExactly(d: Disk, database: Path, input: Path, copy: Content, temporary: Path, previous: Path)
    requires temporary != database && previous != database && temporary != previous
    ensures var r, e := RestoreOf(d, database, input, copy, temporary, previous).0,
            RestoreOf(d, database, input, copy, temporary, previous).1;
      Recorded(d, e)
      && (PreservedSince(Counting(r, e), |d.history|, d.files, database, previous) <==>
          !LosesOriginal(d, database, input, copy, temporary, previous))
  {
    hide RestoreOf, PreservedSince, Missed, Installed, Overwrites, Sound;
    AccountKeeps(d, database, input, copy, temporary, previous);
    LostExactly(d, database, input, copy, temporary, previous);
    if Overwrites(d, database, input, copy, temporary, previous) {
      WasThere(d, database, input, copy, temporary, previous);
      if copy == d.files[database] {
        SameBytesExactly(d, database, input, copy, temporary, previous);
      }
    }
  }

  /** What a restore promises, whichever steps fail. */
  ghost predicate RestorePromise(d: Disk, e: Disk, r: Result<(), Error>, database: Path, input: Path, copy: Content,
                                 temporary: Path, previous: Path)
  {
    && RestoreAccount(d, e, r, database, input, copy, temporary, previous)
    && (PreservedSince(Counting(r, e), |d.history|, d.files, database, previous) <==>
        !LosesOriginal(d, database, input, copy, temporary, previous))
  }

  lemma RestoreKeeps(d: Disk, database: Path, input: Path, copy: Content, temporary: Path, previous: Path)
    requires temporary != database && previous != database && temporary != previous
    ensures RestorePromise(d, RestoreOf(d, database, input, copy, temporary, previous).1,
                           RestoreOf(d, database, input, copy, temporary, previous).0, database, input, copy, temporary,
                           previous)
  {
    hide RestoreOf, PreservedSince, LosesOriginal, Sound;
    AccountKeeps(d, database, input, copy, temporary, previous);
    KeptExactly(d, database, input, copy, temporary, previous);
  }

  /** The steps up to the query whether there is a database to preserve. */
  function FailingFrom(query: Step, install: Step, verification: Step): seq<Step> {
    [Fine, Fine, Fine, Fine, Fine, Fine, Fine, query, install, verification]
  }

  lemma PreparedDisk(files: Files, plan: seq<Step>, input: Path, copy: Content, temporary: Path, previous: Path)
    requires |plan| >= 7 && forall i :: 0 <= i < 7 ==> plan[i] == Fine
    requires SoundAt(files, input) && Sound(copy) && temporary !in files && previous !in files && temporary != previous
    ensures var p := PrepareOf(Disk(files, plan, 0, [], [], 0), input, copy, temporary, previous);
      && p.0 == Ok(()) && p.1.files == files[temporary := copy] && p.1.plan == plan && p.1.next == 7
      && p.1.missed == [] && p.1.failures == 0
  {
    assert files - {temporary} == files && files - {previous} == files;
  }

  /**
   A run that loses the original: only the query at the database and the last verification fail, and
   the error leaves the original at neither path.
   */
  lemma OverlookedOriginalIsLost(original: Content, backup: Content, copy: Content, database: Path, input: Path,
                                 temporary: Path, previous: Path)
    requires Sound(backup) && Sound(copy)
    requires database !in {input, temporary, previous} && input !in {temporary, previous} && temporary != previous
    ensures var files := map[database := original, input := backup];
      var d := Disk(files, FailingFrom(Fails, Fine, Fails), 0, [], [], 0);
      var r, e := RestoreOf(d, database, input, copy, temporary, previous).0,
          RestoreOf(d, database, input, copy, temporary, previous).1;
      && r == Err(InstalledUnsound) && e.missed == [database] && e.files == map[input := backup]
  {
    hide PrepareOf;
    var files := map[database := original, input := backup];
    var plan := FailingFrom(Fails, Fine, Fails);
    PreparedDisk(files, plan, input, copy, temporary, previous);
    var d1 := PrepareOf(Disk(files, plan, 0, [], [], 0), input, copy, temporary, previous).1;
    var d2 := ExchangeOf(d1, database, temporary, previous).1;
    assert Upcoming(d1) == plan[7] == Fails;
    assert d2.files == map[database := copy, input := backup] && d2.next == 9 && d2.missed == [database];
    assert Upcoming(d2) == plan[9] == Fails;
  }

  /** The failing query alone already replaces the original without preserving it, and the restore succeeds. */
  lemma OverlookedOriginalIsReplaced(original: Content, backup: Content, copy: Content, database: Path, input: Path,
                                     temporary: Path, previous: Path)
    requires Sound(backup) && Sound(copy) && copy != original
    requires database !in {input, temporary, previous} && input !in {temporary, previous} && temporary != previous
    ensures var files := map[database := original, input := backup];
      var d := Disk(files, FailingFrom(Fails, Fine, Fine), 0, [], [], 0);
      var r, e := RestoreOf(d, database, input, copy, temporary, previous).0,
          RestoreOf(d, database, input, copy, temporary, previous).1;
      && r == Ok(()) && e.failures == 1 && e.files == map[database := copy, input := backup]
      && e.history != [] && !PreservedSince(Counting(r, e), |d.history|, d.files, database, previous)
  {
    hide PrepareOf, PreservedSince, Recorded;
    var files := map[database := original, input := backup];
    var plan := FailingFrom(Fails, Fine, Fine);
    var d := Disk(files, plan, 0, [], [], 0);
    PreparedDisk(files, plan, input, copy, temporary, previous);
    var d1 := PrepareOf(d, input, copy, temporary, previous).1;
    var d2 := ExchangeOf(d1, database, temporary, previous).1;
    assert Upcoming(d1) == plan[7] == Fails;
    assert d2.files == map[database := copy, input := backup] && d2.next == 9 && d2.missed == [database];
    assert Upcoming(d2) == plan[9] == Fine;
    var e := ConfirmOf(d2, database, previous).1;
    assert d2.files - {previous} == d2.files;
    assert StepAt(d, 7) == plan[7];
    KeptExactly(d, database, input, copy, temporary, previous);
  }

  // ----- The backup -----

  /** What a backup does, whichever steps fail. */
  ghost predicate BackupAccount(d: Disk, e: Disk, r: Result<(), Error>, database: Path, output: Path, copy: Content,
                                temporary: Path) {
    && Recorded(d, e)
    // The destination is as it was until the last step of a success.
    && SameSince(Counting(r, e), |d.history|, d.files, output)
    && (r.Ok? ==> output in e.files && e.files[output] == copy && Sound(copy))
    // An existing destination is overwritten only when its query overlooks it.
    && (output in d.files && !Missed(d, e, output) ==> r == Err(DestinationExists))
    && OthersUnchanged(d.files, e.files, {output, temporary})
    // Only a failing step makes it fail.
    && (r.Err? && output !in d.files && Sound(copy) && database in d.files && d.files[database].readable &&
        database != temporary ==>
          e.failures > d.failures)
  }

  lemma QueryKeeps(d: Disk, path: Path, touched: set<Path>)
    ensures var e := ExistsOf(d, path).1;
      Recorded(d, e) && Untouched(d.files, e, |d.history|, touched) && e.files == d.files
    ensures Missed(d, ExistsOf(d, path).1, path) <==> Overlooks(d, path)
    ensures ExistsOf(d, path).0 <==> path in d.files && !Overlooks(d, path)
  {
  }

  /** An error before publication leaves the destination as it was. */
  lemma RefusedBackup(d: Disk, e: Disk, r: Result<(), Error>, database: Path, output: Path, copy: Content,
                      temporary: Path)
    requires temporary != output && r.Err? && Recorded(d, e) && Untouched(d.files, e, |d.history|, {temporary})
    requires output in d.files && !Missed(d, e, output) ==> r == Err(DestinationExists)
    requires r == Err(DestinationExists) ==> output in d.files
    requires r != Err(DestinationExists) && Sound(copy) && database in d.files && d.files[database].readable &&
             database != temporary ==>
               e.failures > d.failures
    ensures BackupAccount(d, e, r, database, output, copy, temporary)
  {
    hide Sound, Missed;
  }

  lemma SameMissed(d: Disk, e: Disk, f: Disk, path: Path)
    requires d.missed <= e.missed == f.missed
    ensures Missed(d, f, path) <==> Missed(d, e, path)
  {
  }

  /** Publishing is one step: every state before it has the destination as it was. */
  lemma PublishKeeps(d: Disk, e: Disk, database: Path, output: Path, copy: Content, temporary: Path)
    requires temporary != output && Recorded(d, e) && Untouched(d.files, e, |d.history|, {temporary})
    requires temporary in e.files && e.files[temporary] == copy && Sound(copy)
    requires output in d.files ==> Missed(d, e, output)
    ensures var p := RenameOf(e, temporary, output);
      BackupAccount(d, p.1, if p.0 then Ok(()) else Err(CannotPublish), database, output, copy, temporary)
  {
    hide Sound, Missed;
    var p := RenameOf(e, temporary, output);
    assert p.1.history[..|p.1.history| - 1] == e.history;
    SameMissed(d, e, p.1, output);
  }

  lemma BackupAccountKeeps(d: Disk, database: Path, output: Path, copy: Content, temporary: Path)
    requires temporary != output
    ensures BackupAccount(d, BackupOf(d, database, output, copy, temporary).1,
                          BackupOf(d, database, output, copy, temporary).0, database, output, copy, temporary)
  {
    hide CopyOf, ExistsOf, Sound, Untouched, Recorded, Missed, BackupAccount;
    var touched := {temporary};
    var d1 := ExistsOf(d, output).1;
    QueryKeeps(d, output, touched);
    if ExistsOf(d, output).0 {
      RefusedBackup(d, d1, Err(DestinationExists), database, output, copy, temporary);
    } else {
      var d2 := RemoveIfExistsOf(d1, temporary).1;
      StepChains(d, d1, d2.files, touched);
      SameMissed(d, d1, d2, output);
      if !RemoveIfExistsOf(d1, temporary).0 {
        RefusedBackup(d, d2, Err(StaleTemporary), database, output, copy, temporary);
      } else {
        CopyKeeps(d2, database, copy, temporary);
        var c, d3 := CopyOf(d2, database, copy, temporary).0, CopyOf(d2, database, copy, temporary).1;
        UntouchedChains(d, d2, d3, touched, touched);
        SameMissed(d, d2, d3, output);
        if c.Err? {
          RefusedBackup(d, d3, c, database, output, copy, temporary);
        } else {
          PublishKeeps(d, d3, database, output, copy, temporary);
        }
      }
    }
  }

  /** The query fails to see the destination, and then every step succeeds on sound contents. */
  predicate OverwritesDestination(d: Disk, database: Path, output: Path, copy: Content, temporary: Path) {
    && output in d.files && StepAt(d, 0) != Fine && AllFine(d, 1, 7)
    && database in d.files && database != temporary && d.files[database].readable && Sound(copy)
  }

  lemma Window(d: Disk, e: Disk)
    requires Advanced(d, e, 2)
    ensures AllFine(d, 1, 7) <==> StepAt(d, 1) == Fine && AllFine(e, 0, 4) && StepAt(d, 6) == Fine
  {
    assert forall i: nat :: StepAt(e, i) == StepAt(d, 2 + i);
    if StepAt(d, 1) == Fine && AllFine(e, 0, 4) && StepAt(d, 6) == Fine {
      forall i: nat | 1 <= i < 7 ensures StepAt(d, i) == Fine {
        if 2 <= i < 6 {
          assert StepAt(e, i - 2) == Fine;
        }
      }
    }
  }

  /** Over an existing destination the backup succeeds exactly when the query overlooks it and nothing else fails. */
  lemma BackupSucceedsExactly(d: Disk, database: Path, output: Path, copy: Content, temporary: Path)
    requires temporary != output
    ensures output in d.files ==>
              (BackupOf(d, database, output, copy, temporary).0.Ok? <==>
               OverwritesDestination(d, database, output, copy, temporary))
  {
    hide CopyOf, Sound;
    assert StepAt(d, 0) == Upcoming(d);
    var d1 := ExistsOf(d, output).1;
    assert StepAt(d, 1) == Upcoming(d1);
    var d2 := RemoveIfExistsOf(d1, temporary).1;
    CopyExactly(d2, database, copy, temporary);
    Window(d, d2);
    if CopyOf(d2, database, copy, temporary).0.Ok? {
      assert StepAt(d, 6) == Upcoming(CopyOf(d2, database, copy, temporary).1);
    }
  }

  lemma LastState(d: Disk, e: Disk, output: Path)
    requires Recorded(d, e) && SameSince(e.history[..|e.history| - 1], |d.history|, d.files, output)
    requires SameAt(d.files, e.files, output)
    ensures SameSince(e.history, |d.history|, d.files, output)
  {
    assert forall i :: 0 <= i < |e.history| - 1 ==> e.history[i] == e.history[..|e.history| - 1][i];
  }

  /** An existing destination is changed exactly when it is overwritten by other bytes. */
  lemma DestinationKeptExactly(d: Disk, database: Path, output: Path, copy: Content, temporary: Path)
    requires temporary != output
    ensures var e := BackupOf(d, database, output, copy, temporary).1;
      && |d.history| <= |e.history|
      && (output in d.files ==>
            (SameSince(e.history, |d.history|, d.files, output) <==>
             !(OverwritesDestination(d, database, output, copy, temporary) && copy != d.files[output])))
  {
    hide BackupOf, Missed, Sound, OverwritesDestination;
    BackupAccountKeeps(d, database, output, copy, temporary);
    BackupSucceedsExactly(d, database, output, copy, temporary);
    if output in d.files && BackupOf(d, database, output, copy, temporary).0.Ok? && copy == d.files[output] {
      LastState(d, BackupOf(d, database, output, copy, temporary).1, output);
    }
  }

  /** What a backup promises, whichever steps fail. */
  ghost predicate BackupPromise(d: Disk, e: Disk, r: Result<(), Error>, database: Path, output: Path, copy: Content,
                                temporary: Path) {
    && BackupAccount(d, e, r, database, output, copy, temporary)
    && (output in d.files ==>
          (SameSince(e.history, |d.history|, d.files, output) <==>
           !(OverwritesDestination(d, database, output, copy, temporary) && copy != d.files[output])))
  }

  lemma BackupKeeps(d: Disk, database: Path, output: Path, copy: Content, temporary: Path)
    requires temporary != output
    ensures BackupPromise(d, BackupOf(d, database, output, copy, temporary).1,
                          BackupOf(d, database, output, copy, temporary).0, database, output, copy, temporary)
  {
    hide BackupOf, Sound, OverwritesDestination, BackupAccount;
    BackupAccountKeeps(d, database, output, copy, temporary);
    DestinationKeptExactly(d, database, output, copy, temporary);
  }

  lemma CopiedDisk(d: Disk, input: Path, copy: Content, temporary: Path)
    requires d.next >= |d.plan| && input in d.files && d.files[input].readable && Sound(copy)
    ensures var c := CopyOf(d, input, copy, temporary);
      && c.0 == Ok(()) && c.1.files == d.files[temporary := copy] && c.1.plan == d.plan && c.1.next == d.next + 4
      && c.1.missed == d.missed && c.1.failures == d.failures
  {
  }

  /** A run that overwrites an existing destination: only its query fails. */
  lemma OverlookedDestinationIsOverwritten(existing: Content, current: Content, copy: Content, database: Path,
                                           output: Path, temporary: Path)
    requires current.readable && Sound(copy) && database !in {output, temporary} && temporary != output
    ensures var d := Disk(map[database := current, output := existing], [Fails], 0, [], [], 0);
      var r, e := BackupOf(d, database, output, copy, temporary).0, BackupOf(d, database, output, copy, temporary).1;
      && r == Ok(()) && e.missed == [output] && e.files == map[database := current, output := copy]
  {
    hide CopyOf;
    var files := map[database := current, output := existing];
    var d := Disk(files, [Fails], 0, [], [], 0);
    var d1 := ExistsOf(d, output).1;
    var d2 := RemoveIfExistsOf(d1, temporary).1;
    assert files - {temporary} == files;
    CopiedDisk(d2, database, copy, temporary);
  }

  // ----- The procedures, in place -----

  class FileSystem {
    var files: Files
    var plan: seq<Step>
    var next: nat
    ghost var history: seq<Files>
    ghost var missed: seq<Path>
    ghost var failures: nat

    ghost function View(): Disk reads this {
      Disk(files, plan, next, history, missed, failures)
    }

    constructor (files: Files, plan: seq<Step>)
      ensures View() == Disk(files, plan, 0, [], [], 0)
    {
      this.files, this.plan, this.next := files, plan, 0;
      history, missed, failures := [], [], 0;
    }

    /** The next step of the plan; past its end every step is fine. */
    method NextStep() returns (step: Step)
      modifies this`next, this`failures
      ensures step == Upcoming(old(View())) && next == old(next) + 1
      ensures failures == old(failures) + if step == Fine then 0 else 1
    {
      step := if next < |plan| then plan[next] else Fine;
      next := next + 1;
      if step != Fine {
        failures := failures + 1;
      }
    }

    method Exists(path: Path) returns (found: bool)
      modifies this
      ensures (found, View()) == ExistsOf(old(View()), path)
    {
      var step := NextStep();
      found := step == Fine && path in files;
      if path in files && !found {
        missed := missed + [path];
      }
      history := history + [files];
    }

    method Remove(path: Path) returns (r: Removal)
      modifies this
      ensures (r, View()) == RemoveOf(old(View()), path)
    {
      var step := NextStep();
      if step != Fine {
        r := RemovalFailed;
      } else if path !in files {
        r := NotFound;
      } else {
        files := files - {path};
        r := Removed;
      }
      history := history + [files];
    }

    method RemoveIfExists(path: Path) returns (ok: bool)
      modifies this
      ensures (ok, View()) == RemoveIfExistsOf(old(View()), path)
    {
      var r := Remove(path);
      ok := r != RemovalFailed;
    }

    method Rename(source: Path, target: Path) returns (ok: bool)
      modifies this
      ensures (ok, View()) == RenameOf(old(View()), source, target)
    {
      var step := NextStep();
      ok := step == Fine && source in files;
      if ok {
        files := (files - {source})[target := files[source]];
      }
      history := history + [files];
    }

    method VacuumInto(source: Path, target: Path, copy: Content) returns (ok: bool)
      modifies this
      ensures (ok, View()) == VacuumOf(old(View()), source, target, copy)
    {
      var step := NextStep();
      ok := step == Fine && source in files && files[source].readable;
      if ok {
        files := files[target := copy];
      } else if step.FailsLeaving? {
        files := files[target := step.content];
      }
      history := history + [files];
    }

    method Touch(path: Path) returns (ok: bool)
      modifies this
      ensures (ok, View()) == TouchOf(old(View()), path)
    {
      var step := NextStep();
      ok := step == Fine && path in files;
      history := history + [files];
    }

    method Verify(path: Path) returns (ok: bool)
      modifies this
      ensures (ok, View()) == VerifyOf(old(View()), path)
    {
      var step := NextStep();
      ok := step == Fine && path in files && files[path].readable && files[path].integrity == "ok"
            && files[path].version <= SUPPORTED_VERSION;
      history := history + [files];
    }
  }

  method ClearNames(fs: FileSystem, input: Path, temporary: Path, previous: Path) returns (r: Result<(), Error>)
    modifies fs
    ensures (r, fs.View()) == ClearOf(old(fs.View()), input, temporary, previous)
  {
    hide VerifyOf, RemoveIfExistsOf;
    var sound := fs.Verify(input);
    if !sound { return Err(InputUnsound); }
    var cleared := fs.RemoveIfExists(temporary);
    if !cleared { return Err(StaleTemporary); }
    cleared := fs.RemoveIfExists(previous);
    r := if cleared then Ok(()) else Err(StalePrevious);
  }

  method CopyInput(fs: FileSystem, input: Path, copy: Content, temporary: Path) returns (r: Result<(), Error>)
    modifies fs
    ensures (r, fs.View()) == CopyOf(old(fs.View()), input, copy, temporary)
  {
    hide TouchOf, VacuumOf, VerifyOf;
    var ok := fs.Touch(input);
    if !ok { return Err(CannotOpen); }
    ok := fs.VacuumInto(input, temporary, copy);
    if !ok { return Err(CannotCopy); }
    ok := fs.Touch(temporary);
    if !ok { return Err(CannotSecure); }
    ok := fs.Verify(temporary);
    r := if ok then Ok(()) else Err(CopyUnsound);
  }

  method Prepare(fs: FileSystem, input: Path, copy: Content, temporary: Path, previous: Path)
    returns (r: Result<(), Error>)
    modifies fs
    ensures (r, fs.View()) == PrepareOf(old(fs.View()), input, copy, temporary, previous)
  {
    hide ClearOf, CopyOf;
    r := ClearNames(fs, input, temporary, previous);
    if r.Ok? {
      r := CopyInput(fs, input, copy, temporary);
    }
  }

  method PreserveCurrent(fs: FileSystem, database: Path, previous: Path) returns (ok: bool)
    modifies fs
    ensures (ok, fs.View()) == PreserveOf(old(fs.View()), database, previous)
  {
    hide ExistsOf, RenameOf;
    ok := true;
    var found := fs.Exists(database);
    if found {
      ok := fs.Rename(database, previous);
    }
  }

  method RollBack(fs: FileSystem, database: Path, previous: Path)
    modifies fs
    ensures fs.View() == RollBackOf(old(fs.View()), database, previous)
  {
    hide ExistsOf, RenameOf;
    var found := fs.Exists(previous);
    if found {
      var _ := fs.Rename(previous, database);
    }
  }

  method Exchange(fs: FileSystem, database: Path, temporary: Path, previous: Path) returns (r: Result<(), Error>)
    modifies fs
    ensures (r, fs.View()) == ExchangeOf(old(fs.View()), database, temporary, previous)
  {
    hide PreserveOf, RenameOf, RollBackOf;
    var preserved := PreserveCurrent(fs, database, previous);
    if !preserved { return Err(CannotPreserve); }
    var installed := fs.Rename(temporary, database);
    if installed { return Ok(()); }
    RollBack(fs, database, previous);
    r := Err(CannotInstall);
  }

  method Confirm(fs: FileSystem, database: Path, previous: Path) returns (r: Result<(), Error>)
    modifies fs
    ensures (r, fs.View()) == ConfirmOf(old(fs.View()), database, previous)
  {
    hide VerifyOf, RemoveIfExistsOf, RemoveOf, RollBackOf;
    var verified := fs.Verify(database);
    if !verified {
      var _ := fs.Remove(database);
      RollBack(fs, database, previous);
      return Err(InstalledUnsound);
    }
    var cleaned := fs.RemoveIfExists(previous);
    r := if cleaned then Ok(()) else Err(CannotCleanUp);
  }

  /** The original is preserved, the verified copy installed and verified again, or the original put back. */
  method RestoreDatabase(fs: FileSystem, database: Path, input: Path, copy: Content, id1: string, id2: string)
    returns (r: Result<(), Error>)
    modifies fs
    ensures var temporary, previous := SiblingTemporary(database, "restore", id1),
            SiblingTemporary(database, "previous", id2);
      && (r, fs.View()) == RestoreOf(old(fs.View()), database, input, copy, temporary, previous)
      && RestorePromise(old(fs.View()), fs.View(), r, database, input, copy, temporary, previous)
  {
    hide SiblingTemporary, RestorePromise, PrepareOf, ExchangeOf, ConfirmOf;
    SiblingsDiffer(database, id1, id2);
    var temporary := SiblingTemporary(database, "restore", id1);
    var previous := SiblingTemporary(database, "previous", id2);
    RestoreKeeps(fs.View(), database, input, copy, temporary, previous);
    r := Prepare(fs, input, copy, temporary, previous);
    if r.Err? { return; }
    r := Exchange(fs, database, temporary, previous);
    if r.Err? { return; }
    r := Confirm(fs, database, previous);
  }

  lemma LongerName(output: Path, id: string)
    ensures SiblingTemporary(output, "backup", id) != output
  {
    assert |SiblingTemporary(output, "backup", id).name| > |output.name|;
  }

  /** The backup is published under its name in one step, only when verified. */
  method BackupDatabase(fs: FileSystem, database: Path, output: Path, copy: Content, id: string)
    returns (r: Result<(), Error>)
    modifies fs
    ensures var temporary := SiblingTemporary(output, "backup", id);
      && (r, fs.View()) == BackupOf(old(fs.View()), database, output, copy, temporary)
      && BackupPromise(old(fs.View()), fs.View(), r, database, output, copy, temporary)
  {
    hide SiblingTemporary, BackupPromise, ExistsOf, RemoveIfExistsOf, CopyOf, RenameOf;
    var temporary := SiblingTemporary(output, "backup", id);
    LongerName(output, id);
    BackupKeeps(fs.View(), database, output, copy, temporary);
    var found := fs.Exists(output);
    if found { return Err(DestinationExists); }
    var ok := fs.RemoveIfExists(temporary);
    if !ok { return Err(StaleTemporary); }
    r := CopyInput(fs, database, copy, temporary);
    if r.Err? { return; }
    ok := fs.Rename(temporary, output);
    r := if ok then Ok(()) else Err(CannotPublish);
  }
}
