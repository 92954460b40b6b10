/**
 * The tables of the tracker as one value, the integrity rules the database
 * and the models keep between requests, and the effect of deleting a row
 * under each foreign key's `on_delete` policy:
 *
 *   Sprint.project, UserStory.project         CASCADE
 *   UserStory.sprint                          SET_NULL
 *   Task.user_story, Comment.user_story       CASCADE
 *   Project.product_owner, Project.scrum_master, UserStory.created_by   PROTECT
 *   UserStory.assigned_to, Task.assigned_to   SET_NULL
 *   Comment.author                            CASCADE
 *   Project.team_members                      membership rows removed
 */
module Database {
  import opened Wrappers
  import opened Records
  import opened Forms
  import opened Views

  datatype Tables = Tables(
    users: set<UserId>,
    projects: map<ProjectId, Project>,
    sprints: map<SprintId, Sprint>,
    stories: map<StoryId, UserStory>,
    tasks: map<TaskId, Task>,
    comments: map<CommentId, Comment>,
    nextId: nat)

  /** Every stored id was handed out by the counter. */
  predicate IdsIssued(t: Tables) {
    && (forall u :: u in t.users ==> u < t.nextId)
    && (forall p :: p in t.projects ==> p < t.nextId)
    && (forall s :: s in t.sprints ==> s < t.nextId)
    && (forall k :: k in t.stories ==> k < t.nextId)
    && (forall k :: k in t.tasks ==> k < t.nextId)
    && (forall c :: c in t.comments ==> c < t.nextId)
  }

  /** A story's sprint, when set, is a stored sprint of the story's own project. */
  predicate SprintLinkOk(sprints: map<SprintId, Sprint>, st: UserStory) {
    st.sprint.Some? ==> st.sprint.value in sprints && sprints[st.sprint.value].project == st.project
  }

  /** Every foreign key between the tables names a stored row. */
  predicate KeysResolve(t: Tables) {
    && (forall s :: s in t.sprints ==> t.sprints[s].project in t.projects)
    && (forall k :: k in t.stories ==> t.stories[k].project in t.projects && SprintLinkOk(t.sprints, t.stories[k]))
    && (forall k :: k in t.tasks ==> t.tasks[k].userStory in t.stories)
    && (forall c :: c in t.comments ==> t.comments[c].userStory in t.stories)
  }

  /** Every reference to a user names an existing user; projects also keep their date order. */
  predicate UsersResolve(t: Tables) {
    && (forall p :: p in t.projects ==> ProjectOk(t.projects[p], t.users))
    && (forall k :: k in t.stories ==> t.stories[k].createdBy in t.users && OptIn(t.stories[k].assignedTo, t.users))
    && (forall k :: k in t.tasks ==> OptIn(t.tasks[k].assignedTo, t.users))
    && (forall c :: c in t.comments ==> t.comments[c].author in t.users)
  }

  /** The field rules of every stored row, and unique sprint numbers per project. */
  predicate FieldsValid(t: Tables) {
    && (forall s :: s in t.sprints ==> SprintOk(t.sprints[s]))
    && NumbersUnique(t.sprints)
    && (forall k :: k in t.stories ==> StoryPointsOk(t.stories[k].storyPoints))
    && (forall k :: k in t.tasks ==> TaskOk(t.tasks[k]))
    && (forall c :: c in t.comments ==> SavedCommentOk(t.comments[c].content))
  }

  predicate TablesValid(t: Tables) {
    IdsIssued(t) && KeysResolve(t) && UsersResolve(t) && FieldsValid(t)
  }

  // ----- the pieces of a cascade -----

  /** SET_NULL on the story's sprint: stories of the deleted sprint go back to the backlog. */
  function ClearSprint(stories: map<StoryId, UserStory>, sid: SprintId): (r: map<StoryId, UserStory>)
    ensures r.Keys == stories.Keys
    ensures forall k :: k in r ==> r[k].sprint != Some(sid) && r[k] == stories[k].(sprint := r[k].sprint)
    ensures forall k :: k in r && stories[k].sprint != Some(sid) ==> r[k] == stories[k]
    ensures forall k :: k in r && stories[k].sprint == Some(sid) ==> r[k].sprint == None
  {
    map k | k in stories :: if stories[k].sprint == Some(sid) then stories[k].(sprint := None) else stories[k]
  }

  /** The ids of the stories of project `pid`. */
  function StoriesOf(stories: map<StoryId, UserStory>, pid: ProjectId): (r: set<StoryId>)
    ensures forall k :: k in r <==> k in stories && stories[k].project == pid
  {
    set k | k in stories && stories[k].project == pid
  }

  /** The sprints of every project but `pid`. */
  function SprintsOutside(sprints: map<SprintId, Sprint>, pid: ProjectId): (r: map<SprintId, Sprint>)
    ensures forall s :: s in r <==> s in sprints && sprints[s].project != pid
    ensures forall s :: s in r ==> r[s] == sprints[s]
  {
    map s | s in sprints && sprints[s].project != pid :: sprints[s]
  }

  /** The stories of every project but `pid`. */
  function StoriesOutside(stories: map<StoryId, UserStory>, pid: ProjectId): (r: map<StoryId, UserStory>)
    ensures forall k :: k in r <==> k in stories && stories[k].project != pid
    ensures forall k :: k in r ==> r[k] == stories[k]
  {
    map k | k in stories && stories[k].project != pid :: stories[k]
  }

  /** CASCADE on the task's story: the tasks of stories not in `gone`. */
  function TasksOutside(tasks: map<TaskId, Task>, gone: set<StoryId>): (r: map<TaskId, Task>)
    ensures forall k :: k in r <==> k in tasks && tasks[k].userStory !in gone
    ensures forall k :: k in r ==> r[k] == tasks[k]
  {
    map k | k in tasks && tasks[k].userStory !in gone :: tasks[k]
  }

  /** CASCADE on the comment's story: the comments of stories not in `gone`. */
  function CommentsOutside(comments: map<CommentId, Comment>, gone: set<StoryId>): (r: map<CommentId, Comment>)
    ensures forall c :: c in r <==> c in comments && comments[c].userStory !in gone
    ensures forall c :: c in r ==> r[c] == comments[c]
  {
    map c | c in comments && comments[c].userStory !in gone :: comments[c]
  }

  /** The user's team memberships go with the user; nothing else about a project changes. */
  function LeaveTeams(projects: map<ProjectId, Project>, u: UserId): (r: map<ProjectId, Project>)
    ensures r.Keys == projects.Keys
    ensures forall p :: p in r ==> r[p].team == projects[p].team - {u} && r[p] == projects[p].(team := r[p].team)
  {
    map p | p in projects :: projects[p].(team := projects[p].team - {u})
  }

  /** SET_NULL on the story's assignee. */
  function UnassignStories(stories: map<StoryId, UserStory>, u: UserId): (r: map<StoryId, UserStory>)
    ensures r.Keys == stories.Keys
    ensures forall k :: k in r ==> r[k].assignedTo != Some(u) && r[k] == stories[k].(assignedTo := r[k].assignedTo)
    ensures forall k :: k in r && stories[k].assignedTo != Some(u) ==> r[k] == stories[k]
    ensures forall k :: k in r && stories[k].assignedTo == Some(u) ==> r[k].assignedTo == None
  {
    map k | k in stories :: if stories[k].assignedTo == Some(u) then stories[k].(assignedTo := None) else stories[k]
  }

  /** SET_NULL on the task's assignee. */
  function UnassignTasks(tasks: map<TaskId, Task>, u: UserId): (r: map<TaskId, Task>)
    ensures r.Keys == tasks.Keys
    ensures forall k :: k in r ==> r[k].assignedTo != Some(u) && r[k] == tasks[k].(assignedTo := r[k].assignedTo)
    ensures forall k :: k in r && tasks[k].assignedTo != Some(u) ==> r[k] == tasks[k]
    ensures forall k :: k in r && tasks[k].assignedTo == Some(u) ==> r[k].assignedTo == None
  {
    map k | k in tasks :: if tasks[k].assignedTo == Some(u) then tasks[k].(assignedTo := None) else tasks[k]
  }

  /** CASCADE on the comment's author. */
  function CommentsNotBy(comments: map<CommentId, Comment>, u: UserId): (r: map<CommentId, Comment>)
    ensures forall c :: c in r <==> c in comments && comments[c].author != u
    ensures forall c :: c in r ==> r[c] == comments[c]
  {
    map c | c in comments && comments[c].author != u :: comments[c]
  }

  // ----- inserting and replacing rows -----
  // A new row takes id `nextId` and the counter moves to `nextId + 1`; a
  // replaced row keeps its id and the counter stays. Both are `id < n` with
  // `nextId <= n` for the new counter `n`.

  /** The counter's next id names no stored row yet. */
  lemma NextIdIsFresh(t: Tables)
    requires IdsIssued(t)
    ensures t.nextId !in t.users && t.nextId !in t.projects && t.nextId !in t.sprints
    ensures t.nextId !in t.stories && t.nextId !in t.tasks && t.nextId !in t.comments
  {
  }

  /** A new user account keeps every rule. */
  lemma AddUserKeepsValid(t: Tables)
    requires TablesValid(t)
    ensures TablesValid(t.(users := t.users + {t.nextId}, nextId := t.nextId + 1))
  {
    AddUserKeepsIds(t);
    AddUserKeepsKeys(t);
    AddUserKeepsUsers(t);
    AddUserKeepsFields(t);
  }

  lemma AddUserKeepsIds(t: Tables)
    requires IdsIssued(t)
    ensures IdsIssued(t.(users := t.users + {t.nextId}, nextId := t.nextId + 1))
  {
  }

  lemma AddUserKeepsKeys(t: Tables)
    requires KeysResolve(t)
    ensures KeysResolve(t.(users := t.users + {t.nextId}, nextId := t.nextId + 1))
  {
  }

  lemma AddUserKeepsUsers(t: Tables)
    requires UsersResolve(t)
    ensures UsersResolve(t.(users := t.users + {t.nextId}, nextId := t.nextId + 1))
  {
    var r := t.(users := t.users + {t.nextId}, nextId := t.nextId + 1);
    forall p | p in r.projects ensures ProjectOk(r.projects[p], r.users) {
      assert ProjectOk(t.projects[p], t.users);
    }
  }

  lemma AddUserKeepsFields(t: Tables)
    requires FieldsValid(t)
    ensures FieldsValid(t.(users := t.users + {t.nextId}, nextId := t.nextId + 1))
  {
  }

  /** Saving a project whose owner, scrum master and team are users and whose dates are in order keeps every rule. */
  lemma PutProjectKeepsValid(t: Tables, id: ProjectId, row: Project, n: nat)
    requires TablesValid(t) && id < n && t.nextId <= n
    requires ProjectOk(row, t.users)
    ensures TablesValid(t.(projects := t.projects[id := row], nextId := n))
  {
    PutProjectKeepsIds(t, id, row, n);
    PutProjectKeepsKeys(t, id, row, n);
    PutProjectKeepsUsers(t, id, row, n);
    PutProjectKeepsFields(t, id, row, n);
  }

  lemma PutProjectKeepsIds(t: Tables, id: ProjectId, row: Project, n: nat)
    requires IdsIssued(t) && id < n && t.nextId <= n
    ensures IdsIssued(t.(projects := t.projects[id := row], nextId := n))
  {
  }

  lemma PutProjectKeepsKeys(t: Tables, id: ProjectId, row: Project, n: nat)
    requires KeysResolve(t)
    ensures KeysResolve(t.(projects := t.projects[id := row], nextId := n))
  {
  }

  lemma PutProjectKeepsUsers(t: Tables, id: ProjectId, row: Project, n: nat)
    requires UsersResolve(t) && ProjectOk(row, t.users)
    ensures UsersResolve(t.(projects := t.projects[id := row], nextId := n))
  {
  }

  lemma PutProjectKeepsFields(t: Tables, id: ProjectId, row: Project, n: nat)
    requires FieldsValid(t)
    ensures FieldsValid(t.(projects := t.projects[id := row], nextId := n))
  {
  }

  /**
   * Saving a valid sprint of an existing project keeps every rule, provided
   * numbers stay unique and a replaced sprint stays in its project.
   */
  lemma PutSprintKeepsValid(t: Tables, id: SprintId, row: Sprint, n: nat)
    requires TablesValid(t) && id < n && t.nextId <= n
    requires row.project in t.projects && SprintOk(row) && NumbersUnique(t.sprints[id := row])
    requires id in t.sprints ==> t.sprints[id].project == row.project
    ensures TablesValid(t.(sprints := t.sprints[id := row], nextId := n))
  {
    PutSprintKeepsIds(t, id, row, n);
    PutSprintKeepsKeys(t, id, row, n);
    PutSprintKeepsUsers(t, id, row, n);
    PutSprintKeepsFields(t, id, row, n);
  }

  lemma PutSprintKeepsIds(t: Tables, id: SprintId, row: Sprint, n: nat)
    requires IdsIssued(t) && id < n && t.nextId <= n
    ensures IdsIssued(t.(sprints := t.sprints[id := row], nextId := n))
  {
  }

  lemma PutSprintKeepsKeys(t: Tables, id: SprintId, row: Sprint, n: nat)
    requires KeysResolve(t) && row.project in t.projects
    requires id in t.sprints ==> t.sprints[id].project == row.project
    ensures KeysResolve(t.(sprints := t.sprints[id := row], nextId := n))
  {
    var r := t.(sprints := t.sprints[id := row], nextId := n);
    forall k | k in r.stories ensures SprintLinkOk(r.sprints, r.stories[k]) {
      assert SprintLinkOk(t.sprints, t.stories[k]);
    }
  }

  lemma PutSprintKeepsUsers(t: Tables, id: SprintId, row: Sprint, n: nat)
    requires UsersResolve(t)
    ensures UsersResolve(t.(sprints := t.sprints[id := row], nextId := n))
  {
  }

  lemma PutSprintKeepsFields(t: Tables, id: SprintId, row: Sprint, n: nat)
    requires FieldsValid(t) && SprintOk(row) && NumbersUnique(t.sprints[id := row])
    ensures FieldsValid(t.(sprints := t.sprints[id := row], nextId := n))
  {
  }

  /** Saving a story whose references resolve and whose points are in range keeps every rule. */
  lemma PutStoryKeepsValid(t: Tables, id: StoryId, row: UserStory, n: nat)
    requires TablesValid(t) && id < n && t.nextId <= n
    requires row.project in t.projects && SprintLinkOk(t.sprints, row)
    requires row.createdBy in t.users && OptIn(row.assignedTo, t.users) && StoryPointsOk(row.storyPoints)
    ensures TablesValid(t.(stories := t.stories[id := row], nextId := n))
  {
    PutStoryKeepsIds(t, id, row, n);
    PutStoryKeepsKeys(t, id, row, n);
    PutStoryKeepsUsers(t, id, row, n);
    PutStoryKeepsFields(t, id, row, n);
  }

  lemma PutStoryKeepsIds(t: Tables, id: StoryId, row: UserStory, n: nat)
    requires IdsIssued(t) && id < n && t.nextId <= n
    ensures IdsIssued(t.(stories := t.stories[id := row], nextId := n))
  {
  }

  lemma PutStoryKeepsKeys(t: Tables, id: StoryId, row: UserStory, n: nat)
    requires KeysResolve(t) && row.project in t.projects && SprintLinkOk(t.sprints, row)
    ensures KeysResolve(t.(stories := t.stories[id := row], nextId := n))
  {
  }

  lemma PutStoryKeepsUsers(t: Tables, id: StoryId, row: UserStory, n: nat)
    requires UsersResolve(t) && row.createdBy in t.users && OptIn(row.assignedTo, t.users)
    ensures UsersResolve(t.(stories := t.stories[id := row], nextId := n))
  {
  }

  lemma PutStoryKeepsFields(t: Tables, id: StoryId, row: UserStory, n: nat)
    requires FieldsValid(t) && StoryPointsOk(row.storyPoints)
    ensures FieldsValid(t.(stories := t.stories[id := row], nextId := n))
  {
  }

  /** Saving a task of an existing story, with a user as assignee and hours in range, keeps every rule. */
  lemma PutTaskKeepsValid(t: Tables, id: TaskId, row: Task, n: nat)
    requires TablesValid(t) && id < n && t.nextId <= n
    requires row.userStory in t.stories && OptIn(row.assignedTo, t.users) && TaskOk(row)
    ensures TablesValid(t.(tasks := t.tasks[id := row], nextId := n))
  {
    PutTaskKeepsIds(t, id, row, n);
    PutTaskKeepsKeys(t, id, row, n);
    PutTaskKeepsUsers(t, id, row, n);
    PutTaskKeepsFields(t, id, row, n);
  }

  lemma PutTaskKeepsIds(t: Tables, id: TaskId, row: Task, n: nat)
    requires IdsIssued(t) && id < n && t.nextId <= n
    ensures IdsIssued(t.(tasks := t.tasks[id := row], nextId := n))
  {
  }

  lemma PutTaskKeepsKeys(t: Tables, id: TaskId, row: Task, n: nat)
    requires KeysResolve(t) && row.userStory in t.stories
    ensures KeysResolve(t.(tasks := t.tasks[id := row], nextId := n))
  {
  }

  lemma PutTaskKeepsUsers(t: Tables, id: TaskId, row: Task, n: nat)
    requires UsersResolve(t) && OptIn(row.assignedTo, t.users)
    ensures UsersResolve(t.(tasks := t.tasks[id := row], nextId := n))
  {
  }

  lemma PutTaskKeepsFields(t: Tables, id: TaskId, row: Task, n: nat)
    requires FieldsValid(t) && TaskOk(row)
    ensures FieldsValid(t.(tasks := t.tasks[id := row], nextId := n))
  {
  }

  /** Saving a non-blank comment by a user on an existing story keeps every rule. */
  lemma PutCommentKeepsValid(t: Tables, id: CommentId, row: Comment, n: nat)
    requires TablesValid(t) && id < n && t.nextId <= n
    requires row.userStory in t.stories && row.author in t.users && SavedCommentOk(row.content)
    ensures TablesValid(t.(comments := t.comments[id := row], nextId := n))
  {
    PutCommentKeepsIds(t, id, row, n);
    PutCommentKeepsKeys(t, id, row, n);
    PutCommentKeepsUsers(t, id, row, n);
    PutCommentKeepsFields(t, id, row, n);
  }

  lemma PutCommentKeepsIds(t: Tables, id: CommentId, row: Comment, n: nat)
    requires IdsIssued(t) && id < n && t.nextId <= n
    ensures IdsIssued(t.(comments := t.comments[id := row], nextId := n))
  {
  }

  lemma PutCommentKeepsKeys(t: Tables, id: CommentId, row: Comment, n: nat)
    requires KeysResolve(t) && row.userStory in t.stories
    ensures KeysResolve(t.(comments := t.comments[id := row], nextId := n))
  {
  }

  lemma PutCommentKeepsUsers(t: Tables, id: CommentId, row: Comment, n: nat)
    requires UsersResolve(t) && row.author in t.users
    ensures UsersResolve(t.(comments := t.comments[id := row], nextId := n))
  {
  }

  lemma PutCommentKeepsFields(t: Tables, id: CommentId, row: Comment, n: nat)
    requires FieldsValid(t) && SavedCommentOk(row.content)
    ensures FieldsValid(t.(comments := t.comments[id := row], nextId := n))
  {
  }

  // ----- deletions -----

  /**
   * Deleting a sprint: its stories stay, with their sprint cleared; no other
   * story, no other field and no other table changes.
   */
  function DeleteSprintFrom(t: Tables, sid: SprintId): (r: Tables)
    ensures r.sprints == t.sprints - {sid}
    ensures r.stories.Keys == t.stories.Keys
    ensures forall k :: k in r.stories ==> r.stories[k].sprint != Some(sid)
    ensures forall k :: k in r.stories ==> r.stories[k] == t.stories[k].(sprint := r.stories[k].sprint)
    ensures forall k :: k in r.stories && t.stories[k].sprint != Some(sid) ==> r.stories[k] == t.stories[k]
    ensures forall k :: k in r.stories && t.stories[k].sprint == Some(sid) ==> r.stories[k].sprint == None
    ensures r.(sprints := t.sprints, stories := t.stories) == t
  {
    t.(sprints := t.sprints - {sid}, stories := ClearSprint(t.stories, sid))
  }

  /** Deleting a story removes exactly its tasks and comments; every other row stays as it was. */
  function DeleteStoryFrom(t: Tables, sid: StoryId): (r: Tables)
    ensures r.stories == t.stories - {sid}
    ensures forall k :: k in r.tasks <==> k in t.tasks && t.tasks[k].userStory != sid
    ensures forall k :: k in r.tasks ==> r.tasks[k] == t.tasks[k]
    ensures forall c :: c in r.comments <==> c in t.comments && t.comments[c].userStory != sid
    ensures forall c :: c in r.comments ==> r.comments[c] == t.comments[c]
    ensures r.(stories := t.stories, tasks := t.tasks, comments := t.comments) == t
  {
    t.(stories := t.stories - {sid},
       tasks := TasksOutside(t.tasks, {sid}),
       comments := CommentsOutside(t.comments, {sid}))
  }

  /**
   * Deleting a project removes its sprints and stories, and the tasks and
   * comments of those stories; every other row stays as it was.
   */
  function DeleteProjectFrom(t: Tables, pid: ProjectId): (r: Tables)
    ensures r.projects == t.projects - {pid}
    ensures forall s :: s in r.sprints <==> s in t.sprints && t.sprints[s].project != pid
    ensures forall s :: s in r.sprints ==> r.sprints[s] == t.sprints[s]
    ensures forall k :: k in r.stories <==> k in t.stories && t.stories[k].project != pid
    ensures forall k :: k in r.stories ==> r.stories[k] == t.stories[k]
    ensures forall k :: k in r.tasks <==>
      k in t.tasks && !(t.tasks[k].userStory in t.stories && t.stories[t.tasks[k].userStory].project == pid)
    ensures forall k :: k in r.tasks ==> r.tasks[k] == t.tasks[k]
    ensures forall c :: c in r.comments <==>
      c in t.comments && !(t.comments[c].userStory in t.stories && t.stories[t.comments[c].userStory].project == pid)
    ensures forall c :: c in r.comments ==> r.comments[c] == t.comments[c]
    ensures r.users == t.users && r.nextId == t.nextId
  {
    var gone := StoriesOf(t.stories, pid);
    t.(projects := t.projects - {pid},
       sprints := SprintsOutside(t.sprints, pid),
       stories := StoriesOutside(t.stories, pid),
       tasks := TasksOutside(t.tasks, gone),
       comments := CommentsOutside(t.comments, gone))
  }

  /** A PROTECT key refers to the user: they own or run a project, or created a story. */
  predicate UserProtected(t: Tables, u: UserId) {
    || (exists p :: p in t.projects && (t.projects[p].productOwner == u || t.projects[p].scrumMaster == u))
    || (exists k :: k in t.stories && t.stories[k].createdBy == u)
  }

  /**
   * Deleting a user: they leave every team, their story and task
   * assignments are cleared and their comments are deleted; no other row,
   * field or table changes.
   */
  function DeleteUserFrom(t: Tables, u: UserId): (r: Tables)
    ensures r.users == t.users - {u}
    ensures r.projects.Keys == t.projects.Keys && r.stories.Keys == t.stories.Keys && r.tasks.Keys == t.tasks.Keys
    ensures forall p :: p in r.projects ==> u !in r.projects[p].team
    ensures forall p :: p in r.projects ==> r.projects[p] == t.projects[p].(team := t.projects[p].team - {u})
    ensures forall k :: k in r.stories ==> r.stories[k].assignedTo != Some(u)
    ensures forall k :: k in r.stories ==> r.stories[k] == t.stories[k].(assignedTo := r.stories[k].assignedTo)
    ensures forall k :: k in r.stories && t.stories[k].assignedTo != Some(u) ==> r.stories[k] == t.stories[k]
    ensures forall k :: k in r.stories && t.stories[k].assignedTo == Some(u) ==> r.stories[k].assignedTo == None
    ensures forall k :: k in r.tasks ==> r.tasks[k].assignedTo != Some(u)
    ensures forall k :: k in r.tasks ==> r.tasks[k] == t.tasks[k].(assignedTo := r.tasks[k].assignedTo)
    ensures forall k :: k in r.tasks && t.tasks[k].assignedTo != Some(u) ==> r.tasks[k] == t.tasks[k]
    ensures forall k :: k in r.tasks && t.tasks[k].assignedTo == Some(u) ==> r.tasks[k].assignedTo == None
    ensures forall c :: c in r.comments <==> c in t.comments && t.comments[c].author != u
    ensures forall c :: c in r.comments ==> r.comments[c] == t.comments[c]
    ensures r.sprints == t.sprints && r.nextId == t.nextId
  {
    t.(users := t.users - {u},
       projects := LeaveTeams(t.projects, u),
       stories := UnassignStories(t.stories, u),
       tasks := UnassignTasks(t.tasks, u),
       comments := CommentsNotBy(t.comments, u))
  }

  /** Deleting a sprint leaves no story pointing at it and keeps every rule. */
  lemma DeleteSprintKeepsValid(t: Tables, sid: SprintId)
    requires TablesValid(t) && sid in t.sprints
    ensures TablesValid(DeleteSprintFrom(t, sid))
  {
    DeleteSprintKeepsIds(t, sid);
    DeleteSprintKeepsKeys(t, sid);
    DeleteSprintKeepsUsers(t, sid);
    DeleteSprintKeepsFields(t, sid);
  }

  lemma DeleteSprintKeepsIds(t: Tables, sid: SprintId)
    requires IdsIssued(t)
    ensures IdsIssued(DeleteSprintFrom(t, sid))
  {
  }

  lemma DeleteSprintKeepsKeys(t: Tables, sid: SprintId)
    requires KeysResolve(t)
    ensures KeysResolve(DeleteSprintFrom(t, sid))
  {
    var r := DeleteSprintFrom(t, sid);
    forall k | k in r.stories ensures r.stories[k].project in r.projects && SprintLinkOk(r.sprints, r.stories[k]) {
      assert SprintLinkOk(t.sprints, t.stories[k]);
      assert r.stories[k].project == t.stories[k].project;
    }
  }

  lemma DeleteSprintKeepsUsers(t: Tables, sid: SprintId)
    requires UsersResolve(t)
    ensures UsersResolve(DeleteSprintFrom(t, sid))
  {
    var r := DeleteSprintFrom(t, sid);
    forall k | k in r.stories ensures r.stories[k].createdBy in r.users && OptIn(r.stories[k].assignedTo, r.users) {
      assert r.stories[k].createdBy == t.stories[k].createdBy && r.stories[k].assignedTo == t.stories[k].assignedTo;
    }
  }

  lemma DeleteSprintKeepsFields(t: Tables, sid: SprintId)
    requires FieldsValid(t)
    ensures FieldsValid(DeleteSprintFrom(t, sid))
  {
    var r := DeleteSprintFrom(t, sid);
    forall k | k in r.stories ensures StoryPointsOk(r.stories[k].storyPoints) {
      assert r.stories[k].storyPoints == t.stories[k].storyPoints;
    }
  }

  /** Deleting a story leaves no task or comment pointing at it and keeps every rule. */
  lemma DeleteStoryKeepsValid(t: Tables, sid: StoryId)
    requires TablesValid(t) && sid in t.stories
    ensures TablesValid(DeleteStoryFrom(t, sid))
  {
    DeleteStoryKeepsIds(t, sid);
    DeleteStoryKeepsKeys(t, sid);
    DeleteStoryKeepsUsers(t, sid);
    DeleteStoryKeepsFields(t, sid);
  }

  lemma DeleteStoryKeepsIds(t: Tables, sid: StoryId)
    requires IdsIssued(t)
    ensures IdsIssued(DeleteStoryFrom(t, sid))
  {
  }

  lemma DeleteStoryKeepsKeys(t: Tables, sid: StoryId)
    requires KeysResolve(t)
    ensures KeysResolve(DeleteStoryFrom(t, sid))
  {
  }

  lemma DeleteStoryKeepsUsers(t: Tables, sid: StoryId)
    requires UsersResolve(t)
    ensures UsersResolve(DeleteStoryFrom(t, sid))
  {
  }

  lemma DeleteStoryKeepsFields(t: Tables, sid: StoryId)
    requires FieldsValid(t)
    ensures FieldsValid(DeleteStoryFrom(t, sid))
  {
  }

  /** After a project is deleted, every remaining foreign key still names a stored row. */
  lemma DeleteProjectKeepsKeys(t: Tables, pid: ProjectId)
    requires KeysResolve(t)
    ensures KeysResolve(DeleteProjectFrom(t, pid))
  {
    var r := DeleteProjectFrom(t, pid);
    var gone := StoriesOf(t.stories, pid);
    forall k | k in r.stories ensures r.stories[k].project in r.projects && SprintLinkOk(r.sprints, r.stories[k]) {
      assert SprintLinkOk(t.sprints, t.stories[k]);
    }
    forall k | k in r.tasks ensures r.tasks[k].userStory in r.stories {
      assert t.tasks[k].userStory !in gone;
    }
    forall c | c in r.comments ensures r.comments[c].userStory in r.stories {
      assert t.comments[c].userStory !in gone;
    }
  }

  /** Deleting a project keeps the id, user and field rules of the rows that remain. */
  lemma DeleteProjectKeepsRows(t: Tables, pid: ProjectId)
    requires IdsIssued(t) && UsersResolve(t) && FieldsValid(t)
    ensures IdsIssued(DeleteProjectFrom(t, pid)) && UsersResolve(DeleteProjectFrom(t, pid))
    ensures FieldsValid(DeleteProjectFrom(t, pid))
  {
    var r := DeleteProjectFrom(t, pid);
    assert NumbersUnique(r.sprints);
  }

  /** Deleting a project leaves no row that reaches it and keeps every rule. */
  lemma DeleteProjectKeepsValid(t: Tables, pid: ProjectId)
    requires TablesValid(t) && pid in t.projects
    ensures TablesValid(DeleteProjectFrom(t, pid))
  {
    DeleteProjectKeepsKeys(t, pid);
    DeleteProjectKeepsRows(t, pid);
  }

  /** Projects that `u` neither owns nor runs still name only users once `u` is gone. */
  lemma LeaveTeamsKeepsProjects(projects: map<ProjectId, Project>, users: set<UserId>, u: UserId)
    requires forall p :: p in projects ==> ProjectOk(projects[p], users)
    requires forall p :: p in projects ==> projects[p].productOwner != u && projects[p].scrumMaster != u
    ensures forall p :: p in LeaveTeams(projects, u) ==> ProjectOk(LeaveTeams(projects, u)[p], users - {u})
  {
    var r := LeaveTeams(projects, u);
    forall p | p in r ensures ProjectOk(r[p], users - {u}) {
      assert ProjectOk(projects[p], users);
    }
  }

  /** Stories that `u` did not create still name only users once `u` is gone and unassigned. */
  lemma UnassignStoriesKeepsUsers(stories: map<StoryId, UserStory>, users: set<UserId>, u: UserId)
    requires forall k :: k in stories ==> stories[k].createdBy in users && OptIn(stories[k].assignedTo, users)
    requires forall k :: k in stories ==> stories[k].createdBy != u
    ensures forall k :: k in UnassignStories(stories, u) ==>
      UnassignStories(stories, u)[k].createdBy in users - {u} && OptIn(UnassignStories(stories, u)[k].assignedTo, users - {u})
  {
    var r := UnassignStories(stories, u);
    forall k | k in r ensures r[k].createdBy in users - {u} && OptIn(r[k].assignedTo, users - {u}) {
      assert r[k].createdBy == stories[k].createdBy;
    }
  }

  /** Tasks still name only users once `u` is gone and unassigned. */
  lemma UnassignTasksKeepsUsers(tasks: map<TaskId, Task>, users: set<UserId>, u: UserId)
    requires forall k :: k in tasks ==> OptIn(tasks[k].assignedTo, users)
    ensures forall k :: k in UnassignTasks(tasks, u) ==> OptIn(UnassignTasks(tasks, u)[k].assignedTo, users - {u})
  {
    var r := UnassignTasks(tasks, u);
    forall k | k in r ensures OptIn(r[k].assignedTo, users - {u}) {
      assert OptIn(tasks[k].assignedTo, users);
    }
  }

  /** After a user is deleted, every remaining reference to a user still names one. */
  lemma DeleteUserKeepsUsers(t: Tables, u: UserId)
    requires UsersResolve(t) && !UserProtected(t, u)
    ensures UsersResolve(DeleteUserFrom(t, u))
  {
    LeaveTeamsKeepsProjects(t.projects, t.users, u);
    UnassignStoriesKeepsUsers(t.stories, t.users, u);
    UnassignTasksKeepsUsers(t.tasks, t.users, u);
  }

  /** Clearing a user's assignments leaves every foreign key between tables as it was. */
  lemma DeleteUserKeepsKeys(t: Tables, u: UserId)
    requires KeysResolve(t)
    ensures KeysResolve(DeleteUserFrom(t, u))
  {
    var r := DeleteUserFrom(t, u);
    forall k | k in r.stories ensures r.stories[k].project in r.projects && SprintLinkOk(r.sprints, r.stories[k]) {
      assert SprintLinkOk(t.sprints, t.stories[k]);
      assert r.stories[k].project == t.stories[k].project && r.stories[k].sprint == t.stories[k].sprint;
    }
    forall k | k in r.tasks ensures r.tasks[k].userStory in r.stories {
      assert r.tasks[k].userStory == t.tasks[k].userStory;
    }
  }

  /** Clearing a user's assignments leaves every field rule as it was. */
  lemma DeleteUserKeepsFields(t: Tables, u: UserId)
    requires FieldsValid(t)
    ensures FieldsValid(DeleteUserFrom(t, u))
  {
    var r := DeleteUserFrom(t, u);
    forall k | k in r.stories ensures StoryPointsOk(r.stories[k].storyPoints) {
      assert r.stories[k].storyPoints == t.stories[k].storyPoints;
    }
    forall k | k in r.tasks ensures TaskOk(r.tasks[k]) {
      assert TaskOk(t.tasks[k]);
      assert r.tasks[k].estimatedHours == t.tasks[k].estimatedHours && r.tasks[k].actualHours == t.tasks[k].actualHours;
    }
  }

  /**
   * Deleting a user no PROTECT key refers to leaves no team, assignment or
   * comment pointing at them and keeps every rule.
   */
  lemma DeleteUserKeepsValid(t: Tables, u: UserId)
    requires TablesValid(t) && !UserProtected(t, u)
    ensures TablesValid(DeleteUserFrom(t, u))
  {
    DeleteUserKeepsUsers(t, u);
    DeleteUserKeepsKeys(t, u);
    DeleteUserKeepsFields(t, u);
  }

  // ----- what the integrity rules give the pages -----

  /**
   * On a valid database the sprint page lists every story planned into the
   * sprint, and only stories of the sprint's own project.
   */
  lemma SprintPageStaysInProject(t: Tables, sid: SprintId)
    requires TablesValid(t) && sid in t.sprints
    ensures SprintStories(t.sprints, t.stories, t.nextId, sid).Ok?
    ensures forall k :: k in t.stories && t.stories[k].sprint == Some(sid) ==>
              k in SprintStories(t.sprints, t.stories, t.nextId, sid).value
    ensures forall k :: k in SprintStories(t.sprints, t.stories, t.nextId, sid).value ==>
              k in t.stories && t.stories[k].project == t.sprints[sid].project
  {
    var listed := SprintStories(t.sprints, t.stories, t.nextId, sid).value;
    forall k | k in listed ensures k in t.stories && t.stories[k].project == t.sprints[sid].project {
      assert SprintLinkOk(t.sprints, t.stories[k]);
    }
  }
}
