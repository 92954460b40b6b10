/**
 * The enumerated fields of the project tracker: the status of a project, a
 * sprint, a user story and a task, and the priority of a story. Each value
 * is stored in the database as an upper-case code string; the model keeps
 * the values as datatypes, gives their codes, parses codes back, and states
 * how the database orders the codes (plain code-point order on strings).
 */
module Choices {
  import opened Wrappers

  datatype ProjectStatus = Planning | InProgress | OnHold | Completed | Cancelled
  datatype SprintStatus = Planned | Active | SprintCompleted | SprintCancelled
  datatype Priority = Low | Medium | High | Critical
  datatype StoryStatus = Backlog | StoryTodo | StoryInProgress | InReview | StoryDone | Blocked
  datatype TaskStatus = Todo | TaskInProgress | Done

  // ----- codes as stored -----

  function ProjectStatusCode(s: ProjectStatus): string {
    match s
    case Planning => "PLANNING"
    case InProgress => "IN_PROGRESS"
    case OnHold => "ON_HOLD"
    case Completed => "COMPLETED"
    case Cancelled => "CANCELLED"
  }

  function SprintStatusCode(s: SprintStatus): string {
    match s
    case Planned => "PLANNED"
    case Active => "ACTIVE"
    case SprintCompleted => "COMPLETED"
    case SprintCancelled => "CANCELLED"
  }

  function PriorityCode(p: Priority): string {
    match p
    case Low => "LOW"
    case Medium => "MEDIUM"
    case High => "HIGH"
    case Critical => "CRITICAL"
  }

  function StoryStatusCode(s: StoryStatus): string {
    match s
    case Backlog => "BACKLOG"
    case StoryTodo => "TODO"
    case StoryInProgress => "IN_PROGRESS"
    case InReview => "IN_REVIEW"
    case StoryDone => "DONE"
    case Blocked => "BLOCKED"
  }

  function TaskStatusCode(s: TaskStatus): string {
    match s
    case Todo => "TODO"
    case TaskInProgress => "IN_PROGRESS"
    case Done => "DONE"
  }

  // ----- parsing a submitted code (a choice field accepts exactly the listed codes) -----

  function ParseProjectStatus(c: string): (r: Option<ProjectStatus>)
    ensures r.Some? ==> ProjectStatusCode(r.value) == c
    ensures forall s :: ProjectStatusCode(s) == c ==> r == Some(s)
  {
    if c == "PLANNING" then Some(Planning)
    else if c == "IN_PROGRESS" then Some(InProgress)
    else if c == "ON_HOLD" then Some(OnHold)
    else if c == "COMPLETED" then Some(Completed)
    else if c == "CANCELLED" then Some(Cancelled)
    else None
  }

  function ParseSprintStatus(c: string): (r: Option<SprintStatus>)
    ensures r.Some? ==> SprintStatusCode(r.value) == c
    ensures forall s :: SprintStatusCode(s) == c ==> r == Some(s)
  {
    if c == "PLANNED" then Some(Planned)
    else if c == "ACTIVE" then Some(Active)
    else if c == "COMPLETED" then Some(SprintCompleted)
    else if c == "CANCELLED" then Some(SprintCancelled)
    else None
  }

  function ParsePriority(c: string): (r: Option<Priority>)
    ensures r.Some? ==> PriorityCode(r.value) == c
    ensures forall p :: PriorityCode(p) == c ==> r == Some(p)
  {
    if c == "LOW" then Some(Low)
    else if c == "MEDIUM" then Some(Medium)
    else if c == "HIGH" then Some(High)
    else if c == "CRITICAL" then Some(Critical)
    else None
  }

  function ParseStoryStatus(c: string): (r: Option<StoryStatus>)
    ensures r.Some? ==> StoryStatusCode(r.value) == c
    ensures forall s :: StoryStatusCode(s) == c ==> r == Some(s)
  {
    if c == "BACKLOG" then Some(Backlog)
    else if c == "TODO" then Some(StoryTodo)
    else if c == "IN_PROGRESS" then Some(StoryInProgress)
    else if c == "IN_REVIEW" then Some(InReview)
    else if c == "DONE" then Some(StoryDone)
    else if c == "BLOCKED" then Some(Blocked)
    else None
  }

  function ParseTaskStatus(c: string): (r: Option<TaskStatus>)
    ensures r.Some? ==> TaskStatusCode(r.value) == c
    ensures forall s :: TaskStatusCode(s) == c ==> r == Some(s)
  {
    if c == "TODO" then Some(Todo)
    else if c == "IN_PROGRESS" then Some(TaskInProgress)
    else if c == "DONE" then Some(Done)
    else None
  }

  // ----- database order on codes -----

  /** Strict code-point (lexicographic) order on strings; a proper prefix sorts first. */
  predicate LexLess(a: string, b: string)
    decreases |a|
  {
    if |a| == 0 then |b| > 0
    else if |b| == 0 then false
    else a[0] < b[0] || (a[0] == b[0] && LexLess(a[1..], b[1..]))
  }

  /**
   * Position of a priority in the story listing, which sorts the stored code
   * DESCENDING: "MEDIUM" > "LOW" > "HIGH" > "CRITICAL". This is string order,
   * not the meaning of the priorities.
   */
  function PriorityRank(p: Priority): (r: nat)
    ensures r < 4
  {
    match p
    case Medium => 0
    case Low => 1
    case High => 2
    case Critical => 3
  }

  /** Position of a task status in the task listing, which sorts the code ASCENDING. */
  function TaskStatusRank(s: TaskStatus): (r: nat)
    ensures r < 3
  {
    match s
    case Done => 0
    case TaskInProgress => 1
    case Todo => 2
  }

  /** No code sorts before itself. */
  lemma {:induction false} LexLessIrreflexive(a: string)
    ensures !LexLess(a, a)
    decreases |a|
  {
    if |a| > 0 {
      LexLessIrreflexive(a[1..]);
    }
  }

  /** Two codes whose first characters differ sort by those characters. */
  lemma LexLessByFirst(a: string, b: string)
    requires |a| > 0 && |b| > 0 && a[0] != b[0]
    ensures LexLess(a, b) <==> a[0] < b[0]
  {
  }

  /** A lower priority rank is exactly a larger priority code. */
  lemma PriorityRankFollowsCodeDescending(a: Priority, b: Priority)
    ensures PriorityRank(a) < PriorityRank(b) <==> LexLess(PriorityCode(b), PriorityCode(a))
  {
    var ca, cb := PriorityCode(a), PriorityCode(b);
    if a == b {
      LexLessIrreflexive(ca);
    } else {
      assert |ca| > 0 && |cb| > 0 && ca[0] != cb[0];
      LexLessByFirst(cb, ca);
    }
  }

  /** A lower task-status rank is exactly a smaller status code. */
  lemma TaskStatusRankFollowsCodeAscending(a: TaskStatus, b: TaskStatus)
    ensures TaskStatusRank(a) < TaskStatusRank(b) <==> LexLess(TaskStatusCode(a), TaskStatusCode(b))
  {
    var ca, cb := TaskStatusCode(a), TaskStatusCode(b);
    if a == b {
      LexLessIrreflexive(ca);
    } else {
      assert |ca| > 0 && |cb| > 0 && ca[0] != cb[0];
      LexLessByFirst(ca, cb);
    }
  }
}
