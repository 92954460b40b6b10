/**
 * Write-time validation: what the project, sprint, story, task and comment
 * forms accept, and how an accepted submission becomes a stored row. Each
 * check returns the set of errors the form reports; an empty set means the
 * submission is saved. Every form lists the row's status (and the story
 * form its priority) as a required choice, so the submitted value is the
 * stored one; the model defaults are only the initial values the forms show.
 */
module Forms {
  import opened Wrappers
  import opened Choices
  import opened Records

  datatype FormError =
    | ProjectEndBeforeStart
    | UnknownUser
    | SprintEndNotAfterStart
    | DuplicateSprintNumber
    | SprintNumberBelowOne
    | NegativeVelocity
    | StoryPointsOutOfRange
    | SprintNotInProject
    | AssigneeNotInTeam
    | EstimatedHoursOutOfRange
    | ActualHoursOutOfRange
    | BlankComment
    | NullCharacter

  datatype ProjectInput = ProjectInput(
    name: string, description: string, status: ProjectStatus,
    startDate: Date, endDate: Option<Date>,
    productOwner: UserId, scrumMaster: UserId, team: set<UserId>)

  datatype SprintInput = SprintInput(
    name: string, number: int, goal: string, status: SprintStatus,
    startDate: Date, endDate: Date, velocity: Option<int>)

  datatype StoryInput = StoryInput(
    title: string, description: string, acceptanceCriteria: string,
    storyPoints: Option<int>, priority: Priority, status: StoryStatus,
    sprint: Option<SprintId>, assignedTo: Option<UserId>)

  datatype TaskInput = TaskInput(
    title: string, description: string, status: TaskStatus,
    estimatedHours: Option<int>, actualHours: Option<int>, assignedTo: Option<UserId>)

  // ----- projects -----

  /** The project row a submission produces. */
  function ProjectFromInput(input: ProjectInput): Project {
    Project(input.name, input.description, input.status,
            input.startDate, input.endDate, input.productOwner, input.scrumMaster, input.team)
  }

  /**
   * ProjectForm: the owner, scrum master and team members must be existing
   * users, and an end date, when given, may equal but not precede the start.
   */
  function ProjectErrors(users: set<UserId>, input: ProjectInput): (errs: set<FormError>)
    ensures errs <= {ProjectEndBeforeStart, UnknownUser}
    ensures ProjectEndBeforeStart in errs <==> input.endDate.Some? && input.endDate.value < input.startDate
    ensures errs == {} <==> ProjectOk(ProjectFromInput(input), users)
  {
    (if input.endDate.Some? && input.endDate.value < input.startDate then {ProjectEndBeforeStart} else {})
    + (if input.productOwner in users && input.scrumMaster in users && input.team <= users
       then {} else {UnknownUser})
  }

  // ----- sprints -----

  /** Another sprint of `project` (not the one being edited) already uses `number`. */
  predicate NumberTaken(sprints: map<SprintId, Sprint>, project: ProjectId, number: int, editing: Option<SprintId>) {
    exists s :: s in sprints && sprints[s].project == project && sprints[s].number == number && editing != Some(s)
  }

  /** The sprint row a submission produces for `project`. */
  function SprintFromInput(project: ProjectId, input: SprintInput): Sprint {
    Sprint(project, input.name, input.goal, input.number, input.status,
           input.startDate, input.endDate, input.velocity)
  }

  /**
   * SprintForm: the form's own check raises ONE error, the date order first
   * and only then the duplicate number (skipped for a number below 1: the
   * number field refuses a negative one and so leaves it out of the cleaned
   * data, and 0 is false in Python); the model's validators add the number and
   * velocity range errors beside it. When editing, the edited sprint does not
   * count as a duplicate of itself.
   */
  function SprintErrors(sprints: map<SprintId, Sprint>, project: ProjectId, editing: Option<SprintId>,
                        input: SprintInput): (errs: set<FormError>)
    ensures errs <= {SprintEndNotAfterStart, DuplicateSprintNumber, SprintNumberBelowOne, NegativeVelocity}
    ensures SprintEndNotAfterStart in errs <==> input.endDate <= input.startDate
    ensures DuplicateSprintNumber in errs <==>
      input.startDate < input.endDate && input.number >= 1 && NumberTaken(sprints, project, input.number, editing)
    ensures SprintNumberBelowOne in errs <==> input.number < 1
    ensures errs == {} <==>
      SprintOk(SprintFromInput(project, input)) && !NumberTaken(sprints, project, input.number, editing)
  {
    var clean :=
      if input.endDate <= input.startDate then {SprintEndNotAfterStart}
      else if input.number >= 1 && NumberTaken(sprints, project, input.number, editing) then {DuplicateSprintNumber}
      else {};
    clean
    + (if input.number < 1 then {SprintNumberBelowOne} else {})
    + (if VelocityOk(input.velocity) then {} else {NegativeVelocity})
  }

  /** `number` is the suggestion for a new sprint of `project`: one past the highest number, or 1. */
  predicate IsNextNumber(sprints: map<SprintId, Sprint>, project: ProjectId, number: int) {
    && (forall s :: s in sprints && sprints[s].project == project ==> sprints[s].number < number)
    && (number == 1 || exists s :: s in sprints && sprints[s].project == project && sprints[s].number == number - 1)
  }

  /** The suggested number for a new sprint is accepted by the sprint form's number checks. */
  lemma SuggestedNumberIsFree(sprints: map<SprintId, Sprint>, project: ProjectId, number: int)
    requires forall s :: s in sprints ==> SprintNumberOk(sprints[s].number)
    requires IsNextNumber(sprints, project, number)
    ensures SprintNumberOk(number) && !NumberTaken(sprints, project, number, None)
  {
    if number != 1 {
      var s :| s in sprints && sprints[s].project == project && sprints[s].number == number - 1;
      assert SprintNumberOk(sprints[s].number);
    }
  }

  /** Re-submitting a stored sprint with its own number is not a duplicate. */
  lemma ResubmitOwnNumber(sprints: map<SprintId, Sprint>, id: SprintId)
    requires NumbersUnique(sprints) && id in sprints
    ensures !NumberTaken(sprints, sprints[id].project, sprints[id].number, Some(id))
  {
    forall s | s in sprints && sprints[s].project == sprints[id].project && sprints[s].number == sprints[id].number
      ensures s == id
    {
    }
  }

  /**
   * Saving a sprint the form accepted, as a new row or over the row being
   * edited, keeps sprint numbers unique within each project.
   */
  lemma {:induction false} AcceptedSprintKeepsNumbersUnique(
    sprints: map<SprintId, Sprint>, project: ProjectId, editing: Option<SprintId>,
    input: SprintInput, id: SprintId)
    requires NumbersUnique(sprints)
    requires editing.None? ==> id !in sprints
    requires editing.Some? ==> id == editing.value && id in sprints && sprints[id].project == project
    requires SprintErrors(sprints, project, editing, input) == {}
    ensures NumbersUnique(sprints[id := SprintFromInput(project, input)])
  {
    var row := SprintFromInput(project, input);
    var after := sprints[id := row];
    forall s1, s2 | s1 in after && s2 in after && s1 != s2 && after[s1].project == after[s2].project
      ensures after[s1].number != after[s2].number
    {
      if s1 == id {
        assert !NumberTaken(sprints, project, input.number, editing);
        assert s2 in sprints && editing != Some(s2);
      } else if s2 == id {
        assert !NumberTaken(sprints, project, input.number, editing);
        assert s1 in sprints && editing != Some(s1);
      }
    }
  }

  // ----- user stories and tasks -----

  /** UserStoryForm's sprint choices: exactly the sprints of the story's project. */
  function StorySprintChoices(sprints: map<SprintId, Sprint>, project: ProjectId): (r: set<SprintId>)
    ensures forall s :: s in r <==> s in sprints && sprints[s].project == project
  {
    set s | s in sprints && sprints[s].project == project
  }

  /** The story row a submission produces for `project`, created by `createdBy`. */
  function StoryFromInput(project: ProjectId, createdBy: UserId, input: StoryInput): UserStory {
    UserStory(project, input.sprint, input.title, input.description, input.acceptanceCriteria,
              input.storyPoints, input.priority, input.status, input.assignedTo, createdBy)
  }

  /**
   * UserStoryForm: story points, when given, lie in 1..100; the sprint, when
   * given, is one of `sprintChoices`; the assignee, when given, is one of
   * `assigneeChoices` (the project's team members).
   */
  function StoryErrors(sprintChoices: set<SprintId>, assigneeChoices: set<UserId>, input: StoryInput)
    : (errs: set<FormError>)
    ensures errs <= {StoryPointsOutOfRange, SprintNotInProject, AssigneeNotInTeam}
    ensures errs == {} <==>
      && StoryPointsOk(input.storyPoints)
      && (input.sprint.Some? ==> input.sprint.value in sprintChoices)
      && (input.assignedTo.Some? ==> input.assignedTo.value in assigneeChoices)
  {
    (if StoryPointsOk(input.storyPoints) then {} else {StoryPointsOutOfRange})
    + (if input.sprint.None? || input.sprint.value in sprintChoices then {} else {SprintNotInProject})
    + (if input.assignedTo.None? || input.assignedTo.value in assigneeChoices then {} else {AssigneeNotInTeam})
  }

  /** The task row a submission produces for `story`. */
  function TaskFromInput(story: StoryId, input: TaskInput): Task {
    Task(story, input.title, input.description, input.status,
         input.estimatedHours, input.actualHours, input.assignedTo)
  }

  /**
   * TaskForm: both hour fields, when given, are non-negative and fit the
   * decimal field; the assignee, when given, is one of `assigneeChoices`
   * (the team of the story's project).
   */
  function TaskErrors(assigneeChoices: set<UserId>, input: TaskInput): (errs: set<FormError>)
    ensures errs <= {EstimatedHoursOutOfRange, ActualHoursOutOfRange, AssigneeNotInTeam}
    ensures forall story :: errs == {} <==>
      TaskOk(TaskFromInput(story, input))
      && (input.assignedTo.Some? ==> input.assignedTo.value in assigneeChoices)
  {
    (if HoursOk(input.estimatedHours) then {} else {EstimatedHoursOutOfRange})
    + (if HoursOk(input.actualHours) then {} else {ActualHoursOutOfRange})
    + (if input.assignedTo.None? || input.assignedTo.value in assigneeChoices then {} else {AssigneeNotInTeam})
  }

  // ----- comments -----

  /**
   * The characters Python's `str.isspace` accepts: the ones a text form field
   * strips from both ends of the submitted value.
   */
  predicate IsSpace(c: char) {
    || '\t' <= c <= '\r'
    || '\U{1C}' <= c <= '\U{1F}'
    || c == ' ' || c == '\U{85}' || c == '\U{A0}' || c == '\U{1680}'
    || '\U{2000}' <= c <= '\U{200A}'
    || c == '\U{2028}' || c == '\U{2029}' || c == '\U{202F}' || c == '\U{205F}' || c == '\U{3000}'
  }

  /** How many whitespace characters the value starts with. */
  function LeadingSpaces(s: string): (n: nat)
    ensures n <= |s|
    ensures forall i :: 0 <= i < n ==> IsSpace(s[i])
    ensures n == |s| || !IsSpace(s[n])
  {
    if s == [] || !IsSpace(s[0]) then 0 else 1 + LeadingSpaces(s[1..])
  }

  /** The value without its trailing whitespace. */
  function StripTrailing(s: string): (r: string)
    ensures |r| <= |s| && r == s[..|r|]
    ensures forall i :: |r| <= i < |s| ==> IsSpace(s[i])
    ensures r == [] || !IsSpace(r[|r| - 1])
  {
    if s == [] || !IsSpace(s[|s| - 1]) then s else StripTrailing(s[..|s| - 1])
  }

  /**
   * `str.strip()`, which a text form field applies before validating: empty
   * exactly when the value is blank, and otherwise starting and ending with a
   * non-space character.
   */
  function Strip(s: string): (r: string)
    ensures r == [] <==> forall i :: 0 <= i < |s| ==> IsSpace(s[i])
    ensures r != [] ==> !IsSpace(r[0]) && !IsSpace(r[|r| - 1])
  {
    var n := LeadingSpaces(s);
    var r := StripTrailing(s[n..]);
    assert r != [] ==> r[0] == s[n];
    assert n < |s| ==> s[n..][0] == s[n];
    r
  }

  /** Stripping cuts only whitespace, and only from the two ends of the value. */
  lemma StripCutsOnlyEnds(s: string)
    ensures LeadingSpaces(s) + |Strip(s)| <= |s|
    ensures Strip(s) == s[LeadingSpaces(s)..LeadingSpaces(s) + |Strip(s)|]
    ensures forall i :: 0 <= i < LeadingSpaces(s) ==> IsSpace(s[i])
    ensures forall i :: LeadingSpaces(s) + |Strip(s)| <= i < |s| ==> IsSpace(s[i])
  {
    var n := LeadingSpaces(s);
    var t := s[n..];
    var r := StripTrailing(t);
    assert r == Strip(s);
    assert s[n..n + |r|] == t[..|r|];
    forall i | n + |r| <= i < |s|
      ensures IsSpace(s[i])
    {
      assert s[i] == t[i - n];
    }
  }

  /** Stripping a stripped value changes nothing. */
  lemma StripIdempotent(s: string)
    ensures Strip(Strip(s)) == Strip(s)
  {
    var r := Strip(s);
    assert LeadingSpaces(r) == 0;
    assert StripTrailing(r) == r;
  }

  /** Stripping keeps every character that is not whitespace, wherever it stands. */
  lemma StripKeepsNonSpace(s: string, c: char)
    requires !IsSpace(c)
    ensures c in Strip(s) <==> c in s
  {
    StripCutsOnlyEnds(s);
    var n := LeadingSpaces(s);
    var r := Strip(s);
    if c in s {
      var i :| 0 <= i < |s| && s[i] == c;
      assert n <= i < n + |r|;
      assert r[i - n] == c;
    }
    if c in r {
      var j :| 0 <= j < |r| && r[j] == c;
      assert s[n + j] == c;
    }
  }

  /**
   * Saved comment text: what stripping accepted content leaves, non-empty,
   * without whitespace at its ends and without a null character.
   */
  predicate SavedCommentOk(content: string) {
    content != [] && !IsSpace(content[0]) && !IsSpace(content[|content| - 1]) && '\0' !in content
  }

  /** The stripped content of an accepted comment is fit to be saved. */
  lemma StrippedCommentAccepted(content: string)
    requires CommentErrors(content) == {}
    ensures SavedCommentOk(Strip(content))
  {
  }

  /**
   * CommentForm: the content is required after stripping, so content that
   * strips to nothing is refused; otherwise the text field's validator
   * refuses a null character. What is saved is the stripped content.
   */
  function CommentErrors(content: string): (errs: set<FormError>)
    ensures errs <= {BlankComment, NullCharacter}
    ensures BlankComment in errs <==> forall i :: 0 <= i < |content| ==> IsSpace(content[i])
    ensures NullCharacter in errs <==> '\0' in content
    ensures errs == {} <==> (exists i :: 0 <= i < |content| && !IsSpace(content[i])) && '\0' !in content
  {
    var s := Strip(content);
    StripKeepsNonSpace(content, '\0');
    if s == [] then {BlankComment}
    else if '\0' in s then {NullCharacter}
    else {}
  }
}
