/**
 * Scan orchestration (core/integration.py): the priority task queue with its
 * worker cap, the batch-job bookkeeping of the orchestrator, and the
 * report-format dispatch of the report manager.
 */
module Integration {
  import opened Wrappers
  import opened PyStr

  // ------------------------------------------------------------------
  // Enumerations and records
  // ------------------------------------------------------------------

  datatype ScanPriority = Low | Normal | High | Critical {
    /** The enum's integer value, the sort key of the queue. */
    function Value(): int {
      match this
      case Low => 1
      case Normal => 2
      case High => 3
      case Critical => 4
    }
  }

  datatype ExportFormat = Json | Csv | Text | Html {
    /** The enum's string value, the key of the generated-files map. */
    function Value(): string {
      match this
      case Json => "json"
      case Csv => "csv"
      case Text => "txt"
      case Html => "html"
    }
  }

  /** A scan result dictionary, kept abstract as string fields. */
  type Payload = map<string, string>

  datatype TaskMetadata = TaskMetadata(
    status: string,
    result: Option<Payload>,
    error: Option<string>,
    startedAt: Option<string>,
    completedAt: Option<string>)

  /** The metadata a new task starts with. */
  const PendingMetadata := TaskMetadata("pending", None, None, None, None)

  /** A scan task. Its identity, user, priority and creation time never
      change; its metadata is updated in place, so every holder of the task
      (the queue, the job's task table, a caller's job) sees the update. */
  class ScanTask {
    const taskId: string
    const username: string
    const priority: ScanPriority
    const createdAt: string
    var metadata: TaskMetadata

    constructor (taskId: string, username: string, priority: ScanPriority, createdAt: string)
      ensures this.taskId == taskId && this.username == username && this.priority == priority
      ensures this.createdAt == createdAt && metadata == PendingMetadata
    {
      this.taskId := taskId;
      this.username := username;
      this.priority := priority;
      this.createdAt := createdAt;
      metadata := PendingMetadata;
    }
  }

  datatype JobMetadata = JobMetadata(
    status: string,
    startedAt: Option<string>,
    completedAt: Option<string>,
    tasks: seq<ScanTask>,   // the task dictionary's values, in insertion order
    results: map<string, Payload>)

  datatype BatchScanJob = BatchScanJob(
    jobId: string,
    usernames: seq<string>,
    priority: ScanPriority,
    createdAt: string,
    metadata: JobMetadata)

  /** The integer counters of the scan metrics. */
  datatype ScanMetrics = ScanMetrics(
    totalScans: int,
    successfulScans: int,
    failedScans: int,
    totalProfilesFound: int)

  const InitialMetrics := ScanMetrics(0, 0, 0, 0)

  // ------------------------------------------------------------------
  // The queue order: a stable sort by priority, highest first
  // ------------------------------------------------------------------

  /** The tasks of priority `p`, in their original order. */
  function Level(s: seq<ScanTask>, p: ScanPriority): (r: seq<ScanTask>)
    ensures |r| <= |s|
  {
    if s == [] then []
    else (if s[0].priority == p then [s[0]] else []) + Level(s[1..], p)
  }

  /** `list.sort(key=priority.value, reverse=True)`: Python's sort is stable
      also when reversed, so tasks of equal priority keep their order. */
  function SortByPriority(s: seq<ScanTask>): seq<ScanTask> {
    Level(s, Critical) + Level(s, High) + Level(s, Normal) + Level(s, Low)
  }

  predicate SortedByPriority(s: seq<ScanTask>) {
    forall i, j :: 0 <= i < j < |s| ==> s[i].priority.Value() >= s[j].priority.Value()
  }

  /** Every task of `Level(s, p)` has priority `p`. */
  lemma {:induction false} LevelPriorities(s: seq<ScanTask>, p: ScanPriority)
    ensures forall k :: 0 <= k < |Level(s, p)| ==> Level(s, p)[k].priority == p
  {
    if s != [] {
      LevelPriorities(s[1..], p);
    }
  }

  lemma {:induction false} LevelConcat(a: seq<ScanTask>, b: seq<ScanTask>, p: ScanPriority)
    ensures Level(a + b, p) == Level(a, p) + Level(b, p)
  {
    if a == [] {
      assert a + b == b;
    } else {
      assert (a + b)[0] == a[0] && (a + b)[1..] == a[1..] + b;
      LevelConcat(a[1..], b, p);
      var h := if a[0].priority == p then [a[0]] else [];
      assert Level(a + b, p) == h + (Level(a[1..], p) + Level(b, p));
      assert h + (Level(a[1..], p) + Level(b, p)) == (h + Level(a[1..], p)) + Level(b, p);
    }
  }

  lemma LevelCons(x: ScanTask, r: seq<ScanTask>, p: ScanPriority)
    ensures Level([x] + r, p) == (if x.priority == p then [x] else []) + Level(r, p)
  {
    assert ([x] + r)[1..] == r;
  }

  lemma {:induction false} LevelOfLevel(s: seq<ScanTask>, p: ScanPriority, q: ScanPriority)
    ensures Level(Level(s, q), p) == if p == q then Level(s, q) else []
  {
    if s != [] {
      LevelOfLevel(s[1..], p, q);
      var head := if s[0].priority == q then [s[0]] else [];
      LevelConcat(head, Level(s[1..], q), p);
    }
  }

  /** The part of `Level([x] + r, p)` that `x` contributes. */
  function Head(x: ScanTask, p: ScanPriority): seq<ScanTask> {
    if x.priority == p then [x] else []
  }

  /** A task falls in exactly one of the four levels. */
  lemma HeadsMultiset(x: ScanTask)
    ensures multiset(Head(x, Critical)) + multiset(Head(x, High)) +
            multiset(Head(x, Normal)) + multiset(Head(x, Low)) == multiset{x}
  {
    assert multiset([x]) == multiset{x};
  }

  /** Four sequences each split as a head and a rest: their multisets add up
      as the heads' and the rests' do. */
  lemma MultisetOfFour(a: seq<ScanTask>, b: seq<ScanTask>, c: seq<ScanTask>, d: seq<ScanTask>,
                       a': seq<ScanTask>, b': seq<ScanTask>, c': seq<ScanTask>, d': seq<ScanTask>,
                       heads: multiset<ScanTask>, rests: multiset<ScanTask>)
    requires multiset(a) + multiset(b) + multiset(c) + multiset(d) == heads
    requires multiset(a') + multiset(b') + multiset(c') + multiset(d') == rests
    ensures multiset(a + a') + multiset(b + b') + multiset(c + c') + multiset(d + d') == heads + rests
  {
  }

  lemma {:induction false} LevelMultiset(s: seq<ScanTask>)
    ensures multiset(Level(s, Critical)) + multiset(Level(s, High)) +
            multiset(Level(s, Normal)) + multiset(Level(s, Low)) == multiset(s)
  {
    if s != [] {
      var x, r := s[0], s[1..];
      calc {
        multiset(Level(s, Critical)) + multiset(Level(s, High)) +
        multiset(Level(s, Normal)) + multiset(Level(s, Low));
        multiset(Head(x, Critical) + Level(r, Critical)) + multiset(Head(x, High) + Level(r, High)) +
        multiset(Head(x, Normal) + Level(r, Normal)) + multiset(Head(x, Low) + Level(r, Low));
        { LevelMultiset(r);
          HeadsMultiset(x);
          MultisetOfFour(Head(x, Critical), Head(x, High), Head(x, Normal), Head(x, Low),
                         Level(r, Critical), Level(r, High), Level(r, Normal), Level(r, Low),
                         multiset{x}, multiset(r)); }
        multiset{x} + multiset(r);
        { assert s == [x] + r; }
        multiset(s);
      }
    }
  }

  lemma SortedConcat(a: seq<ScanTask>, b: seq<ScanTask>, v: int)
    requires SortedByPriority(a) && SortedByPriority(b)
    requires forall k :: 0 <= k < |a| ==> a[k].priority.Value() >= v
    requires forall k :: 0 <= k < |b| ==> b[k].priority.Value() <= v
    ensures SortedByPriority(a + b)
  {
    var ab := a + b;
    forall i, j | 0 <= i < j < |ab|
      ensures ab[i].priority.Value() >= ab[j].priority.Value()
    {
      if j < |a| {
        assert ab[i] == a[i] && ab[j] == a[j];
      } else if i >= |a| {
        assert ab[i] == b[i - |a|] && ab[j] == b[j - |a|];
      } else {
        assert ab[i] == a[i] && ab[j] == b[j - |a|];
      }
    }
  }

  /** The sort yields a sequence ordered by priority, highest first. */
  lemma SortIsSorted(s: seq<ScanTask>)
    ensures SortedByPriority(SortByPriority(s))
  {
    var c, h, n, l := Level(s, Critical), Level(s, High), Level(s, Normal), Level(s, Low);
    LevelPriorities(s, Critical);
    LevelPriorities(s, High);
    LevelPriorities(s, Normal);
    LevelPriorities(s, Low);
    SortedConcat(c, h, 3);
    SortedConcat(c + h, n, 2);
    SortedConcat(c + h + n, l, 1);
  }

  /** The sort is a permutation of its input. */
  lemma SortIsPermutation(s: seq<ScanTask>)
    ensures multiset(SortByPriority(s)) == multiset(s)
  {
    LevelMultiset(s);
  }

  /** Stability: within each priority, the sort keeps the input order. */
  lemma SortIsStable(s: seq<ScanTask>, p: ScanPriority)
    ensures Level(SortByPriority(s), p) == Level(s, p)
  {
    var c, h, n, l := Level(s, Critical), Level(s, High), Level(s, Normal), Level(s, Low);
    LevelConcat(c + h + n, l, p);
    LevelConcat(c + h, n, p);
    LevelConcat(c, h, p);
    LevelOfLevel(s, p, Critical);
    LevelOfLevel(s, p, High);
    LevelOfLevel(s, p, Normal);
    LevelOfLevel(s, p, Low);
  }

  /** A sequence already in queue order is left unchanged by the sort. */
  lemma {:induction false} SortOfSorted(s: seq<ScanTask>)
    requires SortedByPriority(s)
    ensures SortByPriority(s) == s
  {
    if s != [] {
      var x, r := s[0], s[1..];
      assert SortedByPriority(r);
      SortOfSorted(r);
      assert forall k :: 0 <= k < |r| ==> r[k].priority.Value() <= x.priority.Value() by {
        forall k | 0 <= k < |r| ensures r[k].priority.Value() <= x.priority.Value() {
          assert r[k] == s[k + 1];
        }
      }
      SortCons(x, r);
      assert s == [x] + r;
    }
  }

  /** Putting a task of at least every other priority in front commutes with the sort. */
  lemma SortCons(x: ScanTask, r: seq<ScanTask>)
    requires forall k :: 0 <= k < |r| ==> r[k].priority.Value() <= x.priority.Value()
    ensures SortByPriority([x] + r) == [x] + SortByPriority(r)
  {
    var v := x.priority.Value();
    if v < 4 { NoHigherLevel(r, Critical, v); }
    if v < 3 { NoHigherLevel(r, High, v); }
    if v < 2 { NoHigherLevel(r, Normal, v); }
    SortConsLevels(x, r);
  }

  lemma SortConsLevels(x: ScanTask, r: seq<ScanTask>)
    requires x.priority != Critical ==> Level(r, Critical) == []
    requires x.priority == Normal || x.priority == Low ==> Level(r, High) == []
    requires x.priority == Low ==> Level(r, Normal) == []
    ensures SortByPriority([x] + r) == [x] + SortByPriority(r)
  {
    LevelCons(x, r, Critical);
    LevelCons(x, r, High);
    LevelCons(x, r, Normal);
    LevelCons(x, r, Low);
    PrependLevels(x, Level(r, Critical), Level(r, High), Level(r, Normal), Level(r, Low),
      Level([x] + r, Critical), Level([x] + r, High), Level([x] + r, Normal), Level([x] + r, Low));
  }

  /** The concatenation of the four levels, one of which gained `x` in front
      while every level before it is empty, gains `x` in front. */
  lemma PrependLevels(x: ScanTask, c: seq<ScanTask>, h: seq<ScanTask>, n: seq<ScanTask>, l: seq<ScanTask>,
                      c': seq<ScanTask>, h': seq<ScanTask>, n': seq<ScanTask>, l': seq<ScanTask>)
    requires c' == (if x.priority == Critical then [x] else []) + c
    requires h' == (if x.priority == High then [x] else []) + h
    requires n' == (if x.priority == Normal then [x] else []) + n
    requires l' == (if x.priority == Low then [x] else []) + l
    requires x.priority != Critical ==> c == []
    requires x.priority == Normal || x.priority == Low ==> h == []
    requires x.priority == Low ==> n == []
    ensures c' + h' + n' + l' == [x] + (c + h + n + l)
  {
    match x.priority
    case Critical => PrependFront(x, c, h + n + l);
    case High => PrependFront(x, h, n + l);
    case Normal => PrependFront(x, n, l);
    case Low => PrependFront(x, l, []);
  }

  lemma PrependFront(x: ScanTask, a: seq<ScanTask>, rest: seq<ScanTask>)
    ensures ([x] + a) + rest == [x] + (a + rest)
  {
  }

  lemma {:induction false} NoHigherLevel(r: seq<ScanTask>, q: ScanPriority, v: int)
    requires forall k :: 0 <= k < |r| ==> r[k].priority.Value() <= v
    requires q.Value() > v
    ensures Level(r, q) == []
  {
    if r != [] {
      NoHigherLevel(r[1..], q, v);
    }
  }

  /** Sorting what was already sorted together with new tasks is sorting
      everything at once: repeated enqueues sort the whole history. */
  lemma SortAppend(s: seq<ScanTask>, t: seq<ScanTask>)
    ensures SortByPriority(SortByPriority(s) + t) == SortByPriority(s + t)
  {
    forall p: ScanPriority
      ensures Level(SortByPriority(s) + t, p) == Level(s + t, p)
    {
      LevelConcat(SortByPriority(s), t, p);
      SortIsStable(s, p);
      LevelConcat(s, t, p);
    }
    assert Level(SortByPriority(s) + t, Critical) == Level(s + t, Critical);
    assert Level(SortByPriority(s) + t, High) == Level(s + t, High);
    assert Level(SortByPriority(s) + t, Normal) == Level(s + t, Normal);
    assert Level(SortByPriority(s) + t, Low) == Level(s + t, Low);
  }

  /** The head of the sorted queue has the highest priority present, and it
      is the earliest enqueued task of that priority. */
  lemma SortHead(s: seq<ScanTask>)
    requires s != []
    ensures var h := SortByPriority(s)[0];
      h in s &&
      (forall k :: 0 <= k < |s| ==> s[k].priority.Value() <= h.priority.Value()) &&
      Level(s, h.priority) != [] && h == Level(s, h.priority)[0]
  {
    var o := SortByPriority(s);
    SortIsPermutation(s);
    SortIsSorted(s);
    assert |o| == |s| by {
      assert |multiset(o)| == |multiset(s)|;
    }
    var h := o[0];
    assert h in multiset(s) by { assert h in multiset(o); }
    forall k | 0 <= k < |s| ensures s[k].priority.Value() <= h.priority.Value() {
      assert s[k] in multiset(o);
      var m :| 0 <= m < |o| && o[m] == s[k];
      assert m == 0 || o[0].priority.Value() >= o[m].priority.Value();
    }
    SortIsStable(s, h.priority);
    LevelHead(o);
  }

  lemma LevelHead(o: seq<ScanTask>)
    requires o != []
    ensures Level(o, o[0].priority) != [] && Level(o, o[0].priority)[0] == o[0]
  {
  }

  // ------------------------------------------------------------------
  // ScanTaskQueue
  // ------------------------------------------------------------------

  /** Priority-based task queue that admits at most `maxWorkers` tasks at once. */
  class ScanTaskQueue {
    var queue: seq<ScanTask>
    const maxWorkers: int
    var activeWorkers: int

    /** The worker count stays within `0..maxWorkers` (just 0 when the cap is
        negative) and the queue is kept in priority order. */
    ghost predicate Valid()
      reads this
    {
      0 <= activeWorkers <= (if maxWorkers < 0 then 0 else maxWorkers) &&
      SortedByPriority(queue)
    }

    constructor (maxWorkers: int := 4)
      ensures Valid()
      ensures this.maxWorkers == maxWorkers && queue == [] && activeWorkers == 0
    {
      this.maxWorkers := maxWorkers;
      queue := [];
      activeWorkers := 0;
    }

    /** Appends the task and re-sorts the queue by priority. */
    method Enqueue(task: ScanTask)
      requires Valid()
      modifies this
      ensures Valid()
      ensures queue == SortByPriority(old(queue) + [task])
      ensures activeWorkers == old(activeWorkers)
    {
      queue := queue + [task];
      queue := SortByPriority(queue);
      SortIsSorted(old(queue) + [task]);
    }

    /** Pops the head only when the queue is non-empty and a worker is free. */
    method Dequeue() returns (task: Option<ScanTask>)
      requires Valid()
      modifies this
      ensures Valid()
      ensures if old(queue) != [] && old(activeWorkers) < maxWorkers then
          task == Some(old(queue)[0]) && queue == old(queue)[1..] &&
          activeWorkers == old(activeWorkers) + 1
        else
          task == None && queue == old(queue) && activeWorkers == old(activeWorkers)
    {
      if queue != [] && activeWorkers < maxWorkers {
        task := Some(queue[0]);
        queue := queue[1..];
        activeWorkers := activeWorkers + 1;
      } else {
        task := None;
      }
    }

    /** Releases a worker, never going below zero, whatever the task id. */
    method MarkComplete(taskId: string)
      requires Valid()
      modifies this
      ensures Valid()
      ensures activeWorkers == if old(activeWorkers) - 1 < 0 then 0 else old(activeWorkers) - 1
      ensures queue == old(queue)
    {
      activeWorkers := if activeWorkers - 1 < 0 then 0 else activeWorkers - 1;
    }

    /** The integer fields of the queue status. */
    method GetQueueStatus() returns (pendingTasks: int, active: int, capacity: int)
      requires Valid()
      ensures pendingTasks == |queue| && active == activeWorkers && capacity == maxWorkers
      ensures 0 <= active && (capacity >= 0 ==> active <= capacity)
    {
      pendingTasks, active, capacity := |queue|, activeWorkers, maxWorkers;
    }
  }

  // ------------------------------------------------------------------
  // Task ids
  // ------------------------------------------------------------------

  /** `f"{job_id}_{idx}"`. */
  function TaskId(jobId: string, idx: nat): string {
    jobId + "_" + NatToString(idx)
  }

  /** `"_".join(task_id.split("_")[:-1])`. */
  function ParseJobId(taskId: string): string {
    var fields := Split(taskId, '_');
    Join(fields[..|fields| - 1], '_')
  }

  /** Task-id parsing gives back the job id, also when the job id itself
      contains underscores, because the index never does. */
  lemma TaskIdRoundTrip(jobId: string, idx: nat)
    ensures ParseJobId(TaskId(jobId, idx)) == jobId
  {
    var digits := NatToString(idx);
    assert forall k :: 0 <= k < |digits| ==> digits[k] != '_';
    assert TaskId(jobId, idx) == jobId + ['_'] + digits;
    SplitConcat(jobId, digits, '_');
    SplitNoSep(digits, '_');
    var fields := Split(TaskId(jobId, idx), '_');
    assert fields[..|fields| - 1] == Split(jobId, '_');
    JoinSplit(jobId, '_');
  }

  /** Tasks of one job get distinct ids. */
  lemma TaskIdsDistinct(jobId: string, i: nat, k: nat)
    requires i != k
    ensures TaskId(jobId, i) != TaskId(jobId, k)
  {
    if TaskId(jobId, i) == TaskId(jobId, k) {
      var n := |jobId| + 1;
      assert TaskId(jobId, i)[n..] == NatToString(i);
      assert TaskId(jobId, k)[n..] == NatToString(k);
      NatToStringInjective(i, k);
    }
  }

  /** The state of the task a batch job creates for its `idx`-th username. */
  predicate IsNewTask(t: ScanTask, jobId: string, idx: nat, username: string,
                      priority: ScanPriority, createdAt: string)
    reads t
  {
    t.taskId == TaskId(jobId, idx) && t.username == username && t.priority == priority &&
    t.createdAt == createdAt && t.metadata == PendingMetadata
  }

  /** The position of the task with the given id, as a dictionary lookup. */
  function FindTask(tasks: seq<ScanTask>, taskId: string): (r: Option<nat>)
    ensures r.Some? ==> r.value < |tasks| && tasks[r.value].taskId == taskId &&
                        forall k :: 0 <= k < r.value ==> tasks[k].taskId != taskId
    ensures r.None? ==> forall k :: 0 <= k < |tasks| ==> tasks[k].taskId != taskId
  {
    if tasks == [] then None
    else if tasks[0].taskId == taskId then Some(0)
    else match FindTask(tasks[1..], taskId)
         case None => None
         case Some(k) => Some(k + 1)
  }

  /** The task `update_task_result` looks up: the job named by the id's
      prefix, then the task with that id in the job's task table. */
  function TaskFor(jobs: map<string, BatchScanJob>, taskId: string): (r: Option<ScanTask>)
    ensures r.Some? ==> r.value.taskId == taskId && ParseJobId(taskId) in jobs &&
                        r.value in jobs[ParseJobId(taskId)].metadata.tasks
    ensures r.None? <==> ParseJobId(taskId) !in jobs ||
                         FindTask(jobs[ParseJobId(taskId)].metadata.tasks, taskId).None?
  {
    var jid := ParseJobId(taskId);
    if jid !in jobs then None
    else match FindTask(jobs[jid].metadata.tasks, taskId)
         case None => None
         case Some(k) => Some(jobs[jid].metadata.tasks[k])
  }

  /** The number of tasks whose status is "completed". */
  function CountCompleted(tasks: seq<ScanTask>): (c: nat)
    reads tasks
    ensures c <= |tasks|
  {
    if tasks == [] then 0
    else (if tasks[0].metadata.status == "completed" then 1 else 0) + CountCompleted(tasks[1..])
  }

  lemma {:induction false} CountCompletedBounds(tasks: seq<ScanTask>)
    ensures CountCompleted(tasks) == 0 <==>
            forall k :: 0 <= k < |tasks| ==> tasks[k].metadata.status != "completed"
    ensures CountCompleted(tasks) == |tasks| <==>
            forall k :: 0 <= k < |tasks| ==> tasks[k].metadata.status == "completed"
  {
    if tasks != [] {
      CountCompletedBounds(tasks[1..]);
      assert forall k :: 1 <= k < |tasks| ==> tasks[k] == tasks[1..][k - 1];
    }
  }

  /** The fields of `get_job_status`'s dictionary. */
  datatype JobStatusView = JobStatusView(
    jobId: string,
    status: string,
    createdAt: string,
    startedAt: Option<string>,
    completedAt: Option<string>,
    progress: string,
    percentage: int)

  /** `get_job_status` for a job: `pct(c, t)` stands for the source's
      `int(c / t * 100)` in floating point, of which only the exact
      endpoints are assumed. */
  function JobStatusOf(job: BatchScanJob, pct: (nat, nat) -> int): (v: JobStatusView)
    requires forall t: nat :: t > 0 ==> pct(0, t) == 0 && pct(t, t) == 100
    reads job.metadata.tasks
    ensures var c, t := CountCompleted(job.metadata.tasks), |job.metadata.tasks|;
      v.jobId == job.jobId && v.status == job.metadata.status &&
      v.createdAt == job.createdAt &&
      v.startedAt == job.metadata.startedAt && v.completedAt == job.metadata.completedAt &&
      Split(v.progress, '/') == [NatToString(c), NatToString(t)] &&
      (c == 0 ==> v.percentage == 0) &&
      (c == t && t > 0 ==> v.percentage == 100)
  {
    var tasks := job.metadata.tasks;
    var c, t := CountCompleted(tasks), |tasks|;
    var progress := NatToString(c) + "/" + NatToString(t);
    ProgressSplits(c, t);
    JobStatusView(job.jobId, job.metadata.status, job.createdAt, job.metadata.startedAt,
                  job.metadata.completedAt, progress, if t > 0 then pct(c, t) else 0)
  }

  /** The progress string `"c/t"` splits back into its two numbers. */
  lemma ProgressSplits(c: nat, t: nat)
    ensures Split(NatToString(c) + "/" + NatToString(t), '/') == [NatToString(c), NatToString(t)]
  {
    var a, b := NatToString(c), NatToString(t);
    assert forall k :: 0 <= k < |a| ==> a[k] != '/';
    assert forall k :: 0 <= k < |b| ==> b[k] != '/';
    assert a + "/" + b == a + ['/'] + b;
    SplitConcat(a, b, '/');
    SplitNoSep(a, '/');
    SplitNoSep(b, '/');
  }

  // ------------------------------------------------------------------
  // ScanOrchestrator
  // ------------------------------------------------------------------

  /** Batch-job bookkeeping over one task queue. */
  class ScanOrchestrator {
    const taskQueue: ScanTaskQueue
    var jobs: map<string, BatchScanJob>
    var metrics: ScanMetrics

    ghost predicate Valid()
      reads this, taskQueue
    {
      taskQueue.Valid()
    }

    constructor (maxWorkers: int := 4)
      ensures Valid() && fresh(taskQueue)
      ensures taskQueue.maxWorkers == maxWorkers && taskQueue.queue == [] &&
              taskQueue.activeWorkers == 0
      ensures jobs == map[] && metrics == InitialMetrics
    {
      taskQueue := new ScanTaskQueue(maxWorkers);
      jobs := map[];
      metrics := InitialMetrics;
    }

    /** Creates one pending task per username, ids `jobId_0 .. jobId_{n-1}`,
        records the job and enqueues every task: the job's task table and the
        queue hold the same task objects. The job id (a truncated SHA-256 in
        the source) and the clock readings are parameters. */
    method CreateBatchJob(usernames: seq<string>, jobId: string, timestamp: string,
                          taskClock: nat -> string, priority: ScanPriority := Normal)
      returns (job: BatchScanJob)
      requires Valid()
      modifies this, taskQueue
      ensures Valid()
      ensures job.jobId == jobId && job.usernames == usernames && job.priority == priority &&
              job.createdAt == timestamp
      ensures job.metadata == JobMetadata("pending", None, None, job.metadata.tasks, map[])
      ensures |job.metadata.tasks| == |usernames|
      ensures forall i :: 0 <= i < |usernames| ==>
                fresh(job.metadata.tasks[i]) &&
                IsNewTask(job.metadata.tasks[i], jobId, i, usernames[i], priority, taskClock(i))
      ensures jobs == old(jobs)[jobId := job] && metrics == old(metrics)
      ensures taskQueue.queue == SortByPriority(old(taskQueue.queue) + job.metadata.tasks)
      ensures taskQueue.activeWorkers == old(taskQueue.activeWorkers)
    {
      var tasks: seq<ScanTask> := [];
      SortOfSorted(taskQueue.queue);
      assert taskQueue.queue + tasks == taskQueue.queue;
      var idx := 0;
      while idx < |usernames|
        invariant 0 <= idx <= |usernames|
        invariant |tasks| == idx
        invariant forall i :: 0 <= i < idx ==>
                    fresh(tasks[i]) && IsNewTask(tasks[i], jobId, i, usernames[i], priority, taskClock(i))
        invariant taskQueue.Valid()
        invariant taskQueue.queue == SortByPriority(old(taskQueue.queue) + tasks)
        invariant taskQueue.activeWorkers == old(taskQueue.activeWorkers)
        invariant jobs == old(jobs) && metrics == old(metrics)
      {
        var task := new ScanTask(TaskId(jobId, idx), usernames[idx], priority, taskClock(idx));
        SortAppend(old(taskQueue.queue) + tasks, [task]);
        assert old(taskQueue.queue) + tasks + [task] == old(taskQueue.queue) + (tasks + [task]);
        tasks := tasks + [task];
        taskQueue.Enqueue(task);
        idx := idx + 1;
      }
      job := BatchScanJob(jobId, usernames, priority, timestamp,
                          JobMetadata("pending", None, None, tasks, map[]));
      jobs := jobs[jobId := job];
    }

    /** Records a task's result: for a known task, sets status, result and
        completion time on the task object and bumps the success or failure
        counter; for any task id, releases a worker. */
    method UpdateTaskResult(taskId: string, result: Payload, now: string,
                            status: string := "completed")
      requires Valid()
      modifies this, taskQueue
      modifies if TaskFor(jobs, taskId).Some? then {TaskFor(jobs, taskId).value} else {}
      ensures Valid()
      ensures jobs == old(jobs) && taskQueue.queue == old(taskQueue.queue)
      ensures match TaskFor(jobs, taskId)
        case Some(task) =>
          task.metadata == old(task.metadata).(status := status, result := Some(result),
                                               completedAt := Some(now)) &&
          metrics == if status == "completed"
                     then old(metrics).(successfulScans := old(metrics).successfulScans + 1)
                     else old(metrics).(failedScans := old(metrics).failedScans + 1)
        case None =>
          metrics == old(metrics)
      ensures taskQueue.activeWorkers ==
                if old(taskQueue.activeWorkers) - 1 < 0 then 0 else old(taskQueue.activeWorkers) - 1
    {
      var found := TaskFor(jobs, taskId);
      if found.Some? {
        var task := found.value;
        task.metadata := task.metadata.(status := status, result := Some(result),
                                        completedAt := Some(now));
        if status == "completed" {
          metrics := metrics.(successfulScans := metrics.successfulScans + 1);
        } else {
          metrics := metrics.(failedScans := metrics.failedScans + 1);
        }
      }
      taskQueue.MarkComplete(taskId);
    }

    /** `get_job_status`: `None` for an unknown job, otherwise its status view. */
    function GetJobStatus(jobId: string, pct: (nat, nat) -> int): (r: Option<JobStatusView>)
      requires forall t: nat :: t > 0 ==> pct(0, t) == 0 && pct(t, t) == 100
      reads this, if jobId in jobs then jobs[jobId].metadata.tasks else []
      ensures r.None? <==> jobId !in jobs
      ensures r.Some? ==> r.value == JobStatusOf(jobs[jobId], pct)
    {
      if jobId in jobs then Some(JobStatusOf(jobs[jobId], pct)) else None
    }

    /** The integer part of `update_metrics`: one more scan, and the scan's
        `profiles_found` (0 when absent) added to the total. */
    method UpdateMetrics(profilesFound: Option<int>)
      modifies this
      ensures metrics == old(metrics).(totalScans := old(metrics).totalScans + 1,
                                       totalProfilesFound := old(metrics).totalProfilesFound +
                                                             profilesFound.GetOr(0))
      ensures jobs == old(jobs)
    {
      metrics := metrics.(totalScans := metrics.totalScans + 1,
                          totalProfilesFound := metrics.totalProfilesFound + profilesFound.GetOr(0));
    }
  }

  /** A job whose tasks are all still pending reports no progress: "0/n"
      and 0 percent. */
  lemma NewJobStatus(job: BatchScanJob, pct: (nat, nat) -> int)
    requires forall t: nat :: t > 0 ==> pct(0, t) == 0 && pct(t, t) == 100
    requires job.metadata.status == "pending"
    requires forall i :: 0 <= i < |job.metadata.tasks| ==>
               job.metadata.tasks[i].metadata == PendingMetadata
    ensures var v := JobStatusOf(job, pct);
      v.status == "pending" && v.percentage == 0 &&
      v.progress == "0/" + NatToString(|job.metadata.tasks|)
  {
    var tasks := job.metadata.tasks;
    assert forall k :: 0 <= k < |tasks| ==> tasks[k].metadata.status != "completed";
    CountCompletedBounds(tasks);
    var c, t := CountCompleted(tasks), |tasks|;
    assert c == 0;
    assert NatToString(0) == "0";
    assert JobStatusOf(job, pct).progress == NatToString(c) + "/" + NatToString(t);
    assert NatToString(c) + "/" == "0/";
  }

  // ------------------------------------------------------------------
  // Report-format dispatch
  // ------------------------------------------------------------------

  /** Which writer `_generate_report_file` uses. */
  datatype ReportWriter = JsonDump | CsvReport | TextReport | HtmlReport | BatchHtmlReport

  /** `_generate_report_file`: the file path and writer for a format, or
      `None` when the format is not produced (CSV and TXT for a batch).
      The path is `reportsDir/base.ext`; `is_batch` None is `false`. */
  function ReportFile(reportsDir: string, fmt: ExportFormat, baseFilename: string,
                      isBatch: bool): (r: Option<(string, ReportWriter)>)
    ensures r.Some? <==> (fmt == Json || fmt == Html || !isBatch)
    ensures r.Some? ==> r.value.0 == reportsDir + "/" + baseFilename + "." + fmt.Value()
    ensures r.Some? && fmt == Html ==> r.value.1 == (if isBatch then BatchHtmlReport else HtmlReport)
  {
    var path := reportsDir + "/" + baseFilename + "." + fmt.Value();
    if fmt == Json then Some((path, JsonDump))
    else if fmt == Csv && !isBatch then Some((path, CsvReport))
    else if fmt == Text && !isBatch then Some((path, TextReport))
    else if fmt == Html then Some((path, if isBatch then BatchHtmlReport else HtmlReport))
    else None
  }

  /** The loop of `generate_individual_report` / `generate_batch_report`:
      one entry `fmt.value -> path` per requested format that is produced. */
  method GenerateReports(reportsDir: string, formats: seq<ExportFormat>, baseFilename: string,
                         isBatch: bool)
    returns (outputFiles: map<string, string>)
    ensures forall f :: f in formats && ReportFile(reportsDir, f, baseFilename, isBatch).Some? ==>
              f.Value() in outputFiles &&
              outputFiles[f.Value()] == ReportFile(reportsDir, f, baseFilename, isBatch).value.0
    ensures forall key :: key in outputFiles ==>
              exists f :: f in formats && f.Value() == key &&
                          ReportFile(reportsDir, f, baseFilename, isBatch).Some?
  {
    outputFiles := map[];
    var i := 0;
    while i < |formats|
      invariant 0 <= i <= |formats|
      invariant forall f :: f in formats[..i] && ReportFile(reportsDir, f, baseFilename, isBatch).Some? ==>
                  f.Value() in outputFiles &&
                  outputFiles[f.Value()] == ReportFile(reportsDir, f, baseFilename, isBatch).value.0
      invariant forall key :: key in outputFiles ==>
                  exists f :: f in formats[..i] && f.Value() == key &&
                              ReportFile(reportsDir, f, baseFilename, isBatch).Some?
    {
      var fmt := formats[i];
      var file := ReportFile(reportsDir, fmt, baseFilename, isBatch);
      if file.Some? {
        outputFiles := outputFiles[fmt.Value() := file.value.0];
      }
      assert formats[..i + 1] == formats[..i] + [fmt];
      i := i + 1;
    }
    assert formats[..i] == formats;
  }

  /** A batch never gets a CSV or TXT file, whatever formats are asked for. */
  lemma BatchSkipsCsvAndTxt(reportsDir: string, formats: seq<ExportFormat>, baseFilename: string,
                            outputFiles: map<string, string>)
    requires forall key :: key in outputFiles ==>
               exists f :: f in formats && f.Value() == key &&
                           ReportFile(reportsDir, f, baseFilename, true).Some?
    ensures "csv" !in outputFiles && "txt" !in outputFiles
  {
    forall key | key in outputFiles ensures key != "csv" && key != "txt" {
      var f :| f in formats && f.Value() == key && ReportFile(reportsDir, f, baseFilename, true).Some?;
    }
  }

  /** The file-name stem of an individual report:
      `f"{username}_{scan_id}_{timestamp}"` with "unknown" for missing keys. */
  function IndividualBaseFilename(username: Option<string>, scanId: Option<string>,
                                  timestamp: string): (r: string)
    ensures StartsWith(r, username.GetOr("unknown") + "_")
  {
    username.GetOr("unknown") + "_" + scanId.GetOr("unknown") + "_" + timestamp
  }

  /** The file-name stem of a batch report: `f"batch_{job_id}_{timestamp}"`. */
  function BatchBaseFilename(jobId: Option<string>, timestamp: string): (r: string)
    ensures StartsWith(r, "batch_")
  {
    "batch_" + jobId.GetOr("unknown") + "_" + timestamp
  }

  // ------------------------------------------------------------------
  // The scenarios of the module's unit tests
  // ------------------------------------------------------------------

  /** `Level` on a three-task sequence. */
  lemma LevelOfThree(a: ScanTask, b: ScanTask, c: ScanTask, p: ScanPriority)
    ensures Level([a, b, c], p) == (if a.priority == p then [a] else []) +
                                   (if b.priority == p then [b] else []) +
                                   (if c.priority == p then [c] else [])
  {
    LevelCons(c, [], p);
    assert [c] + [] == [c];
    LevelCons(b, [c], p);
    assert [b] + [c] == [b, c];
    LevelCons(a, [b, c], p);
    assert [a] + [b, c] == [a, b, c];
  }

  /** Enqueuing a low, a normal and a high task, in that order, leaves them
      highest priority first. */
  lemma ThreeEnqueues(t1: ScanTask, t3: ScanTask, t2: ScanTask)
    requires t1.priority == Low && t3.priority == Normal && t2.priority == High
    ensures SortByPriority(SortByPriority(SortByPriority([] + [t1]) + [t3]) + [t2]) == [t2, t3, t1]
  {
    SortAppend([] + [t1], [t3]);
    assert [] + [t1] + [t3] == [t1] + [t3];
    SortAppend([t1] + [t3], [t2]);
    assert [t1] + [t3] + [t2] == [t1, t3, t2];
    LevelOfThree(t1, t3, t2, Critical);
    LevelOfThree(t1, t3, t2, High);
    LevelOfThree(t1, t3, t2, Normal);
    LevelOfThree(t1, t3, t2, Low);
    assert SortByPriority([t1, t3, t2]) == [] + [t2] + [t3] + [t1];
  }

  /** The enqueue/dequeue sequence of the queue's unit test, on a queue of
      two workers: the dequeued task ids in order. */
  method QueueScenario(now: string) returns (ids: seq<Option<string>>, workers: seq<int>)
    ensures ids == [Some("task2"), Some("task3"), None, Some("task1")]
    ensures workers == [1, 2, 1]
  {
    var q := new ScanTaskQueue(2);
    var t1 := new ScanTask("task1", "user1", Low, now);
    var t2 := new ScanTask("task2", "user2", High, now);
    var t3 := new ScanTask("task3", "user3", Normal, now);
    q.Enqueue(t1);
    q.Enqueue(t3);
    q.Enqueue(t2);
    ThreeEnqueues(t1, t3, t2);
    assert q.queue == [t2, t3, t1];
    var d1 := q.Dequeue();
    var w1 := q.activeWorkers;
    var d2 := q.Dequeue();
    var w2 := q.activeWorkers;
    var d3 := q.Dequeue();
    q.MarkComplete("task2");
    var w3 := q.activeWorkers;
    var d4 := q.Dequeue();
    ids := [IdOf(d1), IdOf(d2), IdOf(d3), IdOf(d4)];
    workers := [w1, w2, w3];
  }

  function IdOf(t: Option<ScanTask>): Option<string> {
    if t.Some? then Some(t.value.taskId) else None
  }

  /** The result-recording unit test: a task created for "userA" is
      completed by its id, then a task of a second job, for "userC", fails.
      The first update shows through the job the caller holds and through
      the queue, because both hold the same task object. The two job ids
      stand for two SHA-256 digests, which differ. */
  method ResultScenario(jobId: string, jobId2: string, now: string, taskClock: nat -> string)
    returns (jobTaskStatus: string, queuedTaskStatus: string, successful: int, failed: int)
    requires jobId != jobId2
    ensures jobTaskStatus == "completed" && queuedTaskStatus == "completed"
    ensures successful == 1 && failed == 1
  {
    var o := new ScanOrchestrator(2);
    var job := o.CreateBatchJob(["userA"], jobId, now, taskClock);
    var task := job.metadata.tasks[0];
    SortOfSorted([task]);
    assert [] + [task] == [task];
    TaskIdRoundTrip(jobId, 0);
    assert FindTask(job.metadata.tasks, task.taskId) == Some(0);
    assert TaskFor(o.jobs, task.taskId) == Some(task);
    o.UpdateTaskResult(task.taskId, map["found_profiles" := "3"], now, "completed");
    jobTaskStatus := job.metadata.tasks[0].metadata.status;
    queuedTaskStatus := o.taskQueue.queue[0].metadata.status;
    successful := o.metrics.successfulScans;
    var job2 := o.CreateBatchJob(["userC"], jobId2, now, taskClock);
    var task2 := job2.metadata.tasks[0];
    TaskIdRoundTrip(jobId2, 0);
    assert FindTask(job2.metadata.tasks, task2.taskId) == Some(0);
    assert TaskFor(o.jobs, task2.taskId) == Some(task2);
    o.UpdateTaskResult(task2.taskId, map["error" := "timeout"], now, "failed");
    failed := o.metrics.failedScans;
  }
}
