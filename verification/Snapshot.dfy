/** The change log, its revision, and the console's snapshot taken by reading the
    revision before and after the tables. */
module Snapshot {
  import opened Wrappers

  const RETENTION: int := 10000
  const ATTEMPTS: int := 5

  /** The tables whose row changes a trigger records. */
  const COVERED: set<string> := {
    "users", "projects", "project_members", "access_tokens", "enrollment_codes", "github_trusts", "audit_events",
    "project_image_events", "control_jobs", "control_builds", "control_queue"}

  type Rows = seq<string>

  /** `sequence` is the table's autoincrement counter. */
  datatype Db = Db(tables: map<string, Rows>, changes: seq<int>, sequence: int)

  const EMPTY := Db(map[], [], 0)

  /** A row inserted, updated or deleted in some table, or an entry logged by hand. */
  datatype Statement = ChangeRow(table: string, rows: Rows) | LogChange

  type Txn = seq<Statement>

  /** The retention trigger: drop every sequence below the bound. */
  function From(changes: seq<int>, bound: int): seq<int> {
    if changes == [] then [] else (if changes[0] < bound then [] else [changes[0]]) + From(changes[1..], bound)
  }

  function Logged(db: Db): Db {
    var next := db.sequence + 1;
    db.(sequence := next, changes := From(db.changes + [next], next - RETENTION))
  }

  function Execute(db: Db, s: Statement): Db {
    match s
    case ChangeRow(table, rows) =>
      var changed := db.(tables := db.tables[table := rows]);
      if table in COVERED then Logged(changed) else changed
    case LogChange => Logged(db)
  }

  function Commit(db: Db, t: Txn): Db {
    if t == [] then db else Execute(Commit(db, t[..|t| - 1]), t[|t| - 1])
  }

  /** The database after the first `n` transactions. */
  function StateAt(txns: seq<Txn>, n: nat): Db
    requires n <= |txns|
  {
    if n == 0 then EMPTY else Commit(StateAt(txns, n - 1), txns[n - 1])
  }

  function Highest(changes: seq<int>): int {
    if changes == [] then 0
    else
      var rest := Highest(changes[1..]);
      if changes[0] > rest then changes[0] else rest
  }

  function CurrentRevision(db: Db): int {
    Highest(db.changes)
  }

  function ChangesAfter(db: Db, revision: int): seq<int> {
    From(db.changes, revision + 1)
  }

  function Oldest(sequence: int): int {
    if sequence <= RETENTION then 1 else sequence - RETENTION
  }

  /** The integers from `low` to `high`. */
  function Run(low: int, high: int): seq<int>
    decreases high - low
  {
    if low > high then [] else [low] + Run(low + 1, high)
  }

  lemma {:induction false} RunExtends(low: int, high: int)
    requires low <= high + 1
    ensures Run(low, high) + [high + 1] == Run(low, high + 1)
    decreases high - low
  {
    if low <= high {
      RunExtends(low + 1, high);
      assert Run(low, high) + [high + 1] == [low] + (Run(low + 1, high) + [high + 1]);
    }
  }

  lemma {:induction false} RunFrom(low: int, high: int, bound: int)
    ensures From(Run(low, high), bound) == Run(if low < bound then bound else low, high)
    decreases high - low
  {
    if low <= high {
      assert Run(low, high)[1..] == Run(low + 1, high);
      RunFrom(low + 1, high, bound);
    }
  }

  lemma {:induction false} RunHighest(low: int, high: int)
    requires 1 <= low <= high
    ensures Highest(Run(low, high)) == high
    decreases high - low
  {
    assert Run(low, high)[1..] == Run(low + 1, high);
    if low < high {
      RunHighest(low + 1, high);
    }
  }

  /** The log is exactly the last changes, up to and including the newest. */
  ghost predicate LogRight(db: Db) {
    db.sequence >= 0 && db.changes == Run(Oldest(db.sequence), db.sequence)
  }

  lemma LoggedKeeps(db: Db)
    requires LogRight(db)
    ensures LogRight(Logged(db))
  {
    var next := db.sequence + 1;
    RunExtends(Oldest(db.sequence), db.sequence);
    RunFrom(Oldest(db.sequence), next, next - RETENTION);
  }

  lemma {:induction false} CommitKeeps(db: Db, t: Txn)
    requires LogRight(db)
    ensures LogRight(Commit(db, t)) && Commit(db, t).sequence >= db.sequence
    ensures Commit(db, t).sequence == db.sequence ==> SameCovered(db, Commit(db, t))
  {
    if t != [] {
      var before, last := Commit(db, t[..|t| - 1]), t[|t| - 1];
      CommitKeeps(db, t[..|t| - 1]);
      if last.LogChange? {
        LoggedKeeps(before);
      } else {
        LoggedKeeps(before.(tables := before.tables[last.table := last.rows]));
      }
    }
  }

  lemma {:induction false} StateKeeps(txns: seq<Txn>, n: nat)
    requires n <= |txns|
    ensures LogRight(StateAt(txns, n))
  {
    if n > 0 {
      StateKeeps(txns, n - 1);
      CommitKeeps(StateAt(txns, n - 1), txns[n - 1]);
    }
  }

  /** The statements of a transaction that a reader is to hear of: changes of
      covered tables, and entries logged by hand. */
  function Audible(t: Txn): nat {
    if t == [] then 0
    else
      var last := t[|t| - 1];
      Audible(t[..|t| - 1]) + if last.LogChange? || last.table in COVERED then 1 else 0
  }

  function AudibleUpTo(txns: seq<Txn>, n: nat): nat
    requires n <= |txns|
  {
    if n == 0 then 0 else AudibleUpTo(txns, n - 1) + Audible(txns[n - 1])
  }

  lemma {:induction false} CommitCounts(db: Db, t: Txn)
    ensures Commit(db, t).sequence == db.sequence + Audible(t)
  {
    if t != [] { CommitCounts(db, t[..|t| - 1]); }
  }

  lemma {:induction false} SequenceCounts(txns: seq<Txn>, n: nat)
    requires n <= |txns|
    ensures StateAt(txns, n).sequence == AudibleUpTo(txns, n)
  {
    if n > 0 {
      SequenceCounts(txns, n - 1);
      CommitCounts(StateAt(txns, n - 1), txns[n - 1]);
    }
  }

  /** The revision is the number of changes of covered tables, and of entries
      logged by hand, ever committed: retention never removes the newest, and no
      number is used twice. */
  lemma RevisionCountsChanges(txns: seq<Txn>, n: nat)
    requires n <= |txns|
    ensures CurrentRevision(StateAt(txns, n)) == StateAt(txns, n).sequence == AudibleUpTo(txns, n)
  {
    SequenceCounts(txns, n);
    StateKeeps(txns, n);
    var sequence := StateAt(txns, n).sequence;
    if sequence > 0 {
      RunHighest(Oldest(sequence), sequence);
    }
  }

  /** A reader at some revision gets every change after it exactly when no more
      than the retained number, and one, have been logged since. */
  lemma ChangesAreComplete(txns: seq<Txn>, n: nat, revision: int)
    requires n <= |txns| && 0 <= revision <= StateAt(txns, n).sequence
    ensures ChangesAfter(StateAt(txns, n), revision) == Run(revision + 1, StateAt(txns, n).sequence)
       <==> StateAt(txns, n).sequence - revision <= RETENTION + 1
  {
    StateKeeps(txns, n);
    var high := StateAt(txns, n).sequence;
    RunFrom(Oldest(high), high, revision + 1);
    if high - revision > RETENTION + 1 {
      assert Run(revision + 1, high)[0] == revision + 1 && Run(Oldest(high), high)[0] == Oldest(high);
    }
  }

  ghost predicate SameCovered(a: Db, b: Db) {
    forall name :: name in COVERED ==> Read(a, name) == Read(b, name)
  }

  function Read(db: Db, name: string): Option<Rows> {
    if name in db.tables then Some(db.tables[name]) else None
  }

  /** Between two equal revisions no covered table has changed. */
  lemma {:induction false} EqualRevisionsEqualTables(txns: seq<Txn>, m: nat, n: nat)
    requires m <= n <= |txns|
    ensures StateAt(txns, m).sequence <= StateAt(txns, n).sequence
    ensures StateAt(txns, m).sequence == StateAt(txns, n).sequence ==> SameCovered(StateAt(txns, m), StateAt(txns, n))
  {
    if m < n {
      EqualRevisionsEqualTables(txns, m, n - 1);
      StateKeeps(txns, n - 1);
      CommitKeeps(StateAt(txns, n - 1), txns[n - 1]);
    }
  }

  /** When the reads of one attempt happen, as numbers of committed transactions. */
  datatype Attempt = Attempt(before: nat, readAt: map<string, nat>, after: nat)

  ghost predicate InOrder(a: Attempt, txns: seq<Txn>) {
    a.before <= a.after <= |txns| && forall name :: name in a.readAt ==> a.before <= a.readAt[name] <= a.after
  }

  datatype View = View(revision: int, tables: map<string, Option<Rows>>)

  function ReadSnapshot(txns: seq<Txn>, a: Attempt): map<string, Option<Rows>>
    requires InOrder(a, txns)
  {
    map name | name in a.readAt :: Read(StateAt(txns, a.readAt[name]), name)
  }

  /** The view is what every covered table held at one and the same moment. */
  ghost predicate Consistent(v: View, txns: seq<Txn>, moment: nat)
    requires moment <= |txns|
  {
    && v.revision == CurrentRevision(StateAt(txns, moment))
    && forall name :: name in v.tables && name in COVERED ==> v.tables[name] == Read(StateAt(txns, moment), name)
  }

  /** No change was logged in an attempt exactly when its revisions agree, and
      then any moment of it explains the whole view. */
  lemma AttemptIsConsistent(txns: seq<Txn>, a: Attempt, moment: nat)
    requires InOrder(a, txns) && a.before <= moment <= a.after
    requires CurrentRevision(StateAt(txns, a.before)) == CurrentRevision(StateAt(txns, a.after))
    ensures Consistent(View(CurrentRevision(StateAt(txns, a.after)), ReadSnapshot(txns, a)), txns, moment)
  {
    RevisionCountsChanges(txns, a.before);
    RevisionCountsChanges(txns, a.after);
    RevisionCountsChanges(txns, moment);
    EqualRevisionsEqualTables(txns, a.before, moment);
    EqualRevisionsEqualTables(txns, moment, a.after);
    forall name | name in a.readAt && name in COVERED
      ensures Read(StateAt(txns, a.readAt[name]), name) == Read(StateAt(txns, moment), name)
    {
      var at := a.readAt[name];
      EqualRevisionsEqualTables(txns, a.before, at);
      EqualRevisionsEqualTables(txns, at, a.after);
    }
  }

  /** The view holds the tables the attempt read, the covered ones as they were all
      through it. */
  ghost predicate Explains(a: Attempt, v: View, txns: seq<Txn>) {
    && InOrder(a, txns)
    && v.tables.Keys == a.readAt.Keys
    && (forall name :: name in a.readAt ==> v.tables[name] == Read(StateAt(txns, a.readAt[name]), name))
    && forall moment | a.before <= moment <= a.after :: Consistent(v, txns, moment)
  }

  ghost predicate Disturbed(a: Attempt, txns: seq<Txn>) {
    InOrder(a, txns) && StateAt(txns, a.before).sequence < StateAt(txns, a.after).sequence
  }

  /** The first of five attempts whose two revisions agree; none, an error,
      exactly when a change was logged during each of them. */
  method TakeSnapshot(txns: seq<Txn>, attempts: seq<Attempt>) returns (view: Option<View>)
    requires |attempts| == ATTEMPTS && forall i :: 0 <= i < |attempts| ==> InOrder(attempts[i], txns)
    ensures view.Some? ==> exists i :: 0 <= i < |attempts| && Explains(attempts[i], view.value, txns) && forall j :: 0 <= j < i ==> Disturbed(attempts[j], txns)
    ensures view.None? <==> forall i :: 0 <= i < |attempts| ==> Disturbed(attempts[i], txns)
  {
    var i := 0;
    while i < ATTEMPTS
      invariant 0 <= i <= ATTEMPTS
      invariant forall j :: 0 <= j < i ==> Disturbed(attempts[j], txns)
    {
      var a := attempts[i];
      assert InOrder(a, txns);
      var before := CurrentRevision(StateAt(txns, a.before));
      var tables := ReadSnapshot(txns, a);
      var after := CurrentRevision(StateAt(txns, a.after));
      RevisionCountsChanges(txns, a.before);
      RevisionCountsChanges(txns, a.after);
      EqualRevisionsEqualTables(txns, a.before, a.after);
      if before == after {
        view := Some(View(after, tables));
        forall moment | a.before <= moment <= a.after ensures Consistent(view.value, txns, moment) {
          AttemptIsConsistent(txns, a, moment);
        }
        assert Explains(attempts[i], view.value, txns) && !Disturbed(attempts[i], txns);
        return;
      }
      i := i + 1;
    }
    view := None;
  }
}
