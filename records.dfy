/**
 * The five stored entities of the tracker and the field rules their model
 * declares: required references, optional values, value ranges and the
 * per-entity defaults. Users are identified by an id; authentication and
 * profiles belong to the framework and are not modelled.
 *
 * Representation choices:
 *  - every id comes from one increasing counter kept by the store, so the
 *    id also orders rows by creation time (`created_at`);
 *  - a date is a day number;
 *  - hours are counted in hundredths: a DecimalField with 5 digits, 2 of
 *    them decimals, holds 0.00 .. 999.99, that is 0 .. 99999 hundredths.
 */
module Records {
  import opened Wrappers
  import opened Choices

  type UserId = nat
  type ProjectId = nat
  type SprintId = nat
  type StoryId = nat
  type TaskId = nat
  type CommentId = nat
  type Date = int

  datatype Project = Project(
    name: string,
    description: string,
    status: ProjectStatus,
    startDate: Date,
    endDate: Option<Date>,
    productOwner: UserId,
    scrumMaster: UserId,
    team: set<UserId>)

  datatype Sprint = Sprint(
    project: ProjectId,
    name: string,
    goal: string,
    number: int,
    status: SprintStatus,
    startDate: Date,
    endDate: Date,
    velocity: Option<int>)

  datatype UserStory = UserStory(
    project: ProjectId,
    sprint: Option<SprintId>,
    title: string,
    description: string,
    acceptanceCriteria: string,
    storyPoints: Option<int>,
    priority: Priority,
    status: StoryStatus,
    assignedTo: Option<UserId>,
    createdBy: UserId)

  datatype Task = Task(
    userStory: StoryId,
    title: string,
    description: string,
    status: TaskStatus,
    estimatedHours: Option<int>,
    actualHours: Option<int>,
    assignedTo: Option<UserId>)

  datatype Comment = Comment(
    userStory: StoryId,
    author: UserId,
    content: string)

  /** The largest value a 5-digit, 2-decimal hours field can hold, in hundredths. */
  const MaxHundredths: int := 99999

  /** Sprint.number: a positive integer, at least 1. */
  predicate SprintNumberOk(n: int) {
    n >= 1
  }

  /** UserStory.story_points: absent, or between 1 and 100 inclusive. */
  predicate StoryPointsOk(p: Option<int>) {
    p.None? || 1 <= p.value <= 100
  }

  /** Task hours: absent, or a non-negative amount that fits the decimal field. */
  predicate HoursOk(h: Option<int>) {
    h.None? || 0 <= h.value <= MaxHundredths
  }

  /** Sprint.velocity: absent, or a non-negative integer. */
  predicate VelocityOk(v: Option<int>) {
    v.None? || v.value >= 0
  }

  /** A project's end date, when set, is not before its start date. */
  predicate ProjectDatesOk(start: Date, end: Option<Date>) {
    end.None? || start <= end.value
  }

  /** A sprint ends strictly after it starts. */
  predicate SprintDatesOk(start: Date, end: Date) {
    start < end
  }

  /** The field rules of one stored project, given the existing users. */
  predicate ProjectOk(p: Project, users: set<UserId>) {
    && ProjectDatesOk(p.startDate, p.endDate)
    && p.productOwner in users
    && p.scrumMaster in users
    && p.team <= users
  }

  /** The field rules of one stored sprint. */
  predicate SprintOk(s: Sprint) {
    SprintNumberOk(s.number) && SprintDatesOk(s.startDate, s.endDate) && VelocityOk(s.velocity)
  }

  /** `unique_together (project, number)`: no two sprints of one project share a number. */
  predicate NumbersUnique(sprints: map<SprintId, Sprint>) {
    forall s1, s2 :: s1 in sprints && s2 in sprints && s1 != s2 && sprints[s1].project == sprints[s2].project
      ==> sprints[s1].number != sprints[s2].number
  }

  /** The field rules of one stored task. */
  predicate TaskOk(t: Task) {
    HoursOk(t.estimatedHours) && HoursOk(t.actualHours)
  }

  /** An optional reference is empty or names a member of `s`. */
  predicate OptIn<T>(o: Option<T>, s: set<T>) {
    o.None? || o.value in s
  }
}
