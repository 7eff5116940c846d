/** The rows of the control database that carry the single-worker FIFO lease:
    the queue, the job and build records, and the saved resource baselines. */
module Control {
  import opened Wrappers

  datatype Kind = JobOp | BuildOp

  /** `UNIQUE(kind, operation_id)` of the queue table. */
  datatype Key = Key(kind: Kind, id: string)

  datatype QueueState = Queued | Admitting | Active | Terminalizing | Cleaning | Released

  const RESERVED: set<QueueState> := {Admitting, Active, Terminalizing, Cleaning}
  const EXECUTING: set<QueueState> := {Admitting, Active}
  const TEARDOWN: set<QueueState> := {Terminalizing, Cleaning}
  const OPEN: set<QueueState> := {Queued, Admitting, Active}
  const CLOSED: set<QueueState> := {Terminalizing, Cleaning, Released}
  const EVERY: set<QueueState> := OPEN + CLOSED

  datatype JobStatus =
    | Preparing | JobQueued | Running
    | Succeeded | Failed | Cancelled | TimedOut | Lost
  {
    predicate Terminal() {
      Succeeded? || Failed? || Cancelled? || TimedOut? || Lost?
    }
  }

  datatype BuildStatus = BuildQueued | BuildRunning | BuildSucceeded | BuildFailed | BuildCancelled {
    predicate Terminal() {
      BuildSucceeded? || BuildFailed? || BuildCancelled?
    }
  }

  /** One row of `control_queue`. Its sequence number is its index in `Db.queue`. */
  datatype QueueRow = QueueRow(key: Key, state: QueueState, acceptedAt: int, leasedAt: Option<int>, attempts: nat)

  datatype Job = Job(status: JobStatus, digest: Option<string>, finishedAt: Option<int>, exitCode: Option<int>, cancelRequested: bool)

  datatype Build = Build(status: BuildStatus, finishedAt: Option<int>, exitCode: Option<int>)

  /** What the scheduler reports about a managed service. */
  datatype Remote = Remote(status: JobStatus, finishedAt: Option<int>, exitCode: Option<int>, cancelRequested: bool)

  /** An unprotected Docker resource. */
  datatype Resource = Service(id: string) | Container(id: string) | Network(id: string) | Volume(id: string)

  datatype Db = Db(queue: seq<QueueRow>, jobs: map<string, Job>, builds: map<string, Build>, baselines: map<Key, set<Resource>>)

  const EMPTY: Db := Db([], map[], map[], map[])

  function JobKey(id: string): Key { Key(JobOp, id) }

  function BuildKey(id: string): Key { Key(BuildOp, id) }

  /** `WHERE kind=? AND operation_id=? AND state IN (...)` selects this row. */
  predicate Selects(row: QueueRow, k: Key, from: set<QueueState>) {
    row.key == k && row.state in from
  }

  predicate Matches(q: seq<QueueRow>, k: Key, from: set<QueueState>) {
    exists i :: 0 <= i < |q| && Selects(q[i], k, from)
  }

  predicate HasRow(q: seq<QueueRow>, k: Key) {
    exists i :: 0 <= i < |q| && q[i].key == k
  }

  predicate AnyIn(q: seq<QueueRow>, states: set<QueueState>) {
    exists i :: 0 <= i < |q| && q[i].state in states
  }

  /** The partial unique index over the reserved states. */
  predicate OneReserved(q: seq<QueueRow>) {
    forall i, j :: 0 <= i < j < |q| ==> !(q[i].state in RESERVED && q[j].state in RESERVED)
  }

  /** The state of the row with key `k`, or `None` when there is no such row. */
  function StateOf(q: seq<QueueRow>, k: Key): (s: Option<QueueState>)
    ensures s.None? <==> !HasRow(q, k)
    ensures s.Some? ==> exists i :: 0 <= i < |q| && q[i].key == k && q[i].state == s.value
  {
    if q == [] then None
    else if q[0].key == k then Some(q[0].state)
    else
      var rest := StateOf(q[1..], k);
      assert forall i :: 0 < i < |q| ==> q[i] == q[1..][i - 1];
      assert forall i :: 0 <= i < |q| - 1 ==> q[1..][i] == q[i + 1];
      rest
  }

  /** The row of lowest sequence in one of `states`, or `|q|`. */
  function Oldest(q: seq<QueueRow>, states: set<QueueState>): (n: nat)
    ensures n <= |q|
    ensures n < |q| ==> q[n].state in states
    ensures forall i :: 0 <= i < n ==> q[i].state !in states
  {
    if q == [] then 0
    else if q[0].state in states then 0
    else
      var n := Oldest(q[1..], states);
      assert forall i :: 0 < i < |q| ==> q[i] == q[1..][i - 1];
      1 + n
  }
}
