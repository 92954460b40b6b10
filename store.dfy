/**
 * The tracker's database as one object: a table per entity, each a map from
 * row id to row, the set of existing users and the id counter. Writes go
 * through the same checks as the forms and views that perform them, and
 * deletions follow the foreign keys' `on_delete` policies.
 */
module Store {
  import opened Wrappers
  import opened Choices
  import opened Records
  import opened Forms
  import opened Listing
  import opened Views
  import opened Database

  class Store {
    var users: set<UserId>
    var projects: map<ProjectId, Project>
    var sprints: map<SprintId, Sprint>
    var stories: map<StoryId, UserStory>
    var tasks: map<TaskId, Task>
    var comments: map<CommentId, Comment>
    /** The next id to hand out; ids are never reused, so a larger id is a newer row. */
    var nextId: nat

    /** The current contents of all tables. */
    function Snapshot(): Tables
      reads this
    {
      Tables(users, projects, sprints, stories, tasks, comments, nextId)
    }

    /** The integrity rules of the database hold. */
    ghost predicate Valid()
      reads this
    {
      TablesValid(Snapshot())
    }

    constructor ()
      ensures Valid()
      ensures users == {} && projects == map[] && sprints == map[] && stories == map[]
      ensures tasks == map[] && comments == map[] && nextId == 0
    {
      users, projects, sprints, stories, tasks, comments := {}, map[], map[], map[], map[], map[];
      nextId := 0;
    }

    /** Overwrites every table, and the counter, with `t`. */
    method Replace(t: Tables)
      modifies this
      ensures Snapshot() == t
    {
      users, projects, sprints, stories, tasks, comments, nextId := t.users, t.projects, t.sprints, t.stories, t.tasks, t.comments, t.nextId;
    }

    /** A user account appears (the authentication system creates users; they are not a form here). */
    method AddUser() returns (u: UserId)
      requires Valid()
      modifies this
      ensures Valid()
      ensures u == old(nextId) && u !in old(users) && users == old(users) + {u} && nextId == old(nextId) + 1
      ensures unchanged(this`projects, this`sprints, this`stories, this`tasks, this`comments)
    {
      var tables := Snapshot();
      NextIdIsFresh(tables);
      AddUserKeepsValid(tables);
      u := tables.nextId;
      Replace(tables.(users := tables.users + {tables.nextId}, nextId := tables.nextId + 1));
    }

    // ----- projects -----

    /** `project_create`: any signed-in user may create a project the project form accepts. */
    method CreateProject(input: ProjectInput) returns (r: Result<ProjectId, Failure>)
      requires Valid()
      modifies this
      ensures Valid()
      ensures ProjectErrors(old(users), input) != {} ==>
        r == Err(Invalid(ProjectErrors(old(users), input))) && unchanged(this)
      ensures ProjectErrors(old(users), input) == {} ==>
        && r == Ok(old(nextId)) && old(nextId) !in old(projects)
        && projects == old(projects)[old(nextId) := ProjectFromInput(input)]
        && nextId == old(nextId) + 1
        && unchanged(this`users, this`sprints, this`stories, this`tasks, this`comments)
    {
      var errs := ProjectErrors(users, input);
      if errs != {} {
        return Err(Invalid(errs));
      }
      var id := nextId;
      var row := ProjectFromInput(input);
      var tables := Snapshot();
      NextIdIsFresh(tables);
      PutProjectKeepsValid(tables, id, row, id + 1);
      Replace(tables.(projects := tables.projects[id := row], nextId := id + 1));
      r := Ok(id);
    }

    /** `project_update`: only the product owner or scrum master, and only what the project form accepts. */
    method UpdateProject(requester: UserId, pk: ProjectId, input: ProjectInput) returns (r: Result<ProjectId, Failure>)
      requires Valid()
      modifies this
      ensures Valid()
      ensures pk !in old(projects) ==> r == Err(NotFound)
      ensures pk in old(projects) && !CanEdit(old(projects)[pk], requester) ==> r == Err(Denied)
      ensures pk in old(projects) && CanEdit(old(projects)[pk], requester) && ProjectErrors(old(users), input) != {} ==>
        r == Err(Invalid(ProjectErrors(old(users), input)))
      ensures pk in old(projects) && CanEdit(old(projects)[pk], requester) && ProjectErrors(old(users), input) == {} ==>
        r.Ok?
      ensures r.Err? ==> unchanged(this)
      ensures r.Ok? ==>
        && pk in old(projects) && CanEdit(old(projects)[pk], requester) && ProjectErrors(old(users), input) == {}
        && r.value == pk
        && projects == old(projects)[pk := ProjectFromInput(input)]
        && unchanged(this`users, this`sprints, this`stories, this`tasks, this`comments, this`nextId)
    {
      var access := EditAccess(projects, requester, pk);
      if access.Err? {
        return Err(access.error);
      }
      var errs := ProjectErrors(users, input);
      if errs != {} {
        return Err(Invalid(errs));
      }
      var row := ProjectFromInput(input);
      var tables := Snapshot();
      PutProjectKeepsValid(tables, pk, row, tables.nextId);
      Replace(tables.(projects := tables.projects[pk := row], nextId := tables.nextId));
      r := Ok(pk);
    }

    // ----- sprints -----

    /**
     * `sprint_create`: the sprint is attached to the project named in the
     * request, whatever the submission says; no membership check is made.
     */
    method CreateSprint(pk: ProjectId, input: SprintInput) returns (r: Result<SprintId, Failure>)
      requires Valid()
      modifies this
      ensures Valid()
      ensures pk !in old(projects) ==> r == Err(NotFound)
      ensures r.Err? ==> unchanged(this)
      ensures pk in old(projects) ==>
        var errs := SprintErrors(old(sprints), pk, None, input);
        && (errs != {} ==> r == Err(Invalid(errs)))
        && (errs == {} ==>
              && r == Ok(old(nextId)) && old(nextId) !in old(sprints)
              && sprints == old(sprints)[old(nextId) := SprintFromInput(pk, input)]
              && sprints[old(nextId)].project == pk
              && nextId == old(nextId) + 1
              && unchanged(this`users, this`projects, this`stories, this`tasks, this`comments))
    {
      if pk !in projects {
        return Err(NotFound);
      }
      var errs := SprintErrors(sprints, pk, None, input);
      if errs != {} {
        return Err(Invalid(errs));
      }
      var tables := Snapshot();
      NextIdIsFresh(tables);
      var id := nextId;
      var row := SprintFromInput(pk, input);
      AcceptedSprintKeepsNumbersUnique(tables.sprints, pk, None, input, id);
      PutSprintKeepsValid(tables, id, row, id + 1);
      Replace(tables.(sprints := tables.sprints[id := row], nextId := id + 1));
      r := Ok(id);
    }

    /** Saving the sprint form over an existing sprint: its own number does not count as taken. */
    method UpdateSprint(sid: SprintId, input: SprintInput) returns (r: Result<SprintId, Failure>)
      requires Valid()
      modifies this
      ensures Valid()
      ensures sid !in old(sprints) ==> r == Err(NotFound)
      ensures sid in old(sprints) && SprintErrors(old(sprints), old(sprints)[sid].project, Some(sid), input) != {} ==>
        r == Err(Invalid(SprintErrors(old(sprints), old(sprints)[sid].project, Some(sid), input)))
      ensures sid in old(sprints) && SprintErrors(old(sprints), old(sprints)[sid].project, Some(sid), input) == {} ==>
        r.Ok?
      ensures r.Err? ==> unchanged(this)
      ensures r.Ok? ==>
        && sid in old(sprints) && SprintErrors(old(sprints), old(sprints)[sid].project, Some(sid), input) == {}
        && r.value == sid
        && sprints == old(sprints)[sid := SprintFromInput(old(sprints)[sid].project, input)]
        && unchanged(this`users, this`projects, this`stories, this`tasks, this`comments, this`nextId)
    {
      if sid !in sprints {
        return Err(NotFound);
      }
      var p := sprints[sid].project;
      var errs := SprintErrors(sprints, p, Some(sid), input);
      if errs != {} {
        return Err(Invalid(errs));
      }
      var row := SprintFromInput(p, input);
      AcceptedSprintKeepsNumbersUnique(sprints, p, Some(sid), input, sid);
      var tables := Snapshot();
      PutSprintKeepsValid(tables, sid, row, tables.nextId);
      Replace(tables.(sprints := tables.sprints[sid := row], nextId := tables.nextId));
      r := Ok(sid);
    }

    /**
     * `SprintForm.__init__`: the number offered for a new sprint is one past
     * the highest number the project uses, or 1; nothing is offered when
     * editing.
     */
    method SuggestSprintNumber(pk: ProjectId, editing: bool) returns (initial: Option<int>)
      requires Valid()
      ensures editing ==> initial == None
      ensures !editing ==> initial.Some? && IsNextNumber(sprints, pk, initial.value)
    {
      if editing {
        return None;
      }
      var highest := 0;
      var rest := sprints.Keys;
      while rest != {}
        invariant rest <= sprints.Keys
        invariant highest >= 0
        invariant forall s :: s in sprints && s !in rest && sprints[s].project == pk ==> sprints[s].number <= highest
        invariant highest == 0 || exists s :: s in sprints && sprints[s].project == pk && sprints[s].number == highest
        decreases rest
      {
        var s :| s in rest;
        if sprints[s].project == pk && sprints[s].number > highest {
          highest := sprints[s].number;
        }
        rest := rest - {s};
      }
      initial := Some(highest + 1);
    }

    // ----- user stories -----

    /**
     * `user_story_create`: the story belongs to the request's project and is
     * created by the requester; the sprint and assignee must be that
     * project's sprint and team member.
     */
    method CreateStory(requester: UserId, pk: ProjectId, input: StoryInput) returns (r: Result<StoryId, Failure>)
      requires Valid() && requester in users
      modifies this
      ensures Valid()
      ensures pk !in old(projects) ==> r == Err(NotFound)
      ensures r.Err? ==> unchanged(this)
      ensures pk in old(projects) ==>
        var errs := StoryErrors(StorySprintChoices(old(sprints), pk), old(projects)[pk].team, input);
        && (errs != {} ==> r == Err(Invalid(errs)))
        && (errs == {} ==>
              && r == Ok(old(nextId)) && old(nextId) !in old(stories)
              && stories == old(stories)[old(nextId) := StoryFromInput(pk, requester, input)]
              && stories[old(nextId)].project == pk && stories[old(nextId)].createdBy == requester
              && nextId == old(nextId) + 1
              && unchanged(this`users, this`projects, this`sprints, this`tasks, this`comments))
    {
      if pk !in projects {
        return Err(NotFound);
      }
      var errs := StoryErrors(StorySprintChoices(sprints, pk), projects[pk].team, input);
      if errs != {} {
        return Err(Invalid(errs));
      }
      var id := nextId;
      var row := StoryFromInput(pk, requester, input);
      assert ProjectOk(projects[pk], users);
      assert SprintLinkOk(sprints, row);
      var tables := Snapshot();
      NextIdIsFresh(tables);
      PutStoryKeepsValid(tables, id, row, id + 1);
      Replace(tables.(stories := tables.stories[id := row], nextId := id + 1));
      r := Ok(id);
    }

    /**
     * `user_story_update`: the form is bound to the story's own project; the
     * project and creator never change. Any status may be written.
     */
    method UpdateStory(sid: StoryId, input: StoryInput) returns (r: Result<StoryId, Failure>)
      requires Valid()
      modifies this
      ensures Valid()
      ensures sid !in old(stories) ==> r == Err(NotFound)
      ensures r.Err? ==> unchanged(this)
      ensures sid in old(stories) ==>
        var st := old(stories)[sid];
        var errs := StoryErrors(StorySprintChoices(old(sprints), st.project), old(projects)[st.project].team, input);
        && (errs != {} ==> r == Err(Invalid(errs)))
        && (errs == {} ==>
              && r == Ok(sid)
              && stories == old(stories)[sid := StoryFromInput(st.project, st.createdBy, input)]
              && unchanged(this`users, this`projects, this`sprints, this`tasks, this`comments, this`nextId))
    {
      if sid !in stories {
        return Err(NotFound);
      }
      var st := stories[sid];
      var errs := StoryErrors(StorySprintChoices(sprints, st.project), projects[st.project].team, input);
      if errs != {} {
        return Err(Invalid(errs));
      }
      var row := StoryFromInput(st.project, st.createdBy, input);
      assert row.assignedTo.Some? ==> row.assignedTo.value in projects[st.project].team && projects[st.project].team <= users;
      var tables := Snapshot();
      PutStoryKeepsValid(tables, sid, row, tables.nextId);
      Replace(tables.(stories := tables.stories[sid := row], nextId := tables.nextId));
      r := Ok(sid);
    }

    /**
     * `user_story_list`: the project's stories, narrowed step by step by the
     * status filter and then the priority filter.
     */
    method UserStoryList(pk: ProjectId, status: Option<string>, priority: Option<string>)
      returns (r: Result<seq<StoryId>, Failure>)
      ensures pk !in projects ==> r == Err(NotFound)
      ensures pk in projects ==> r == Ok(FilteredStories(stories, nextId, pk, status, priority))
    {
      if pk !in projects {
        return Err(NotFound);
      }
      var listed := ProjectStories(stories, nextId, pk);
      if FilterOn(status) {
        listed := Keep(listed, StatusFilter(stories, status));
      }
      if FilterOn(priority) {
        listed := Keep(listed, PriorityFilter(stories, priority));
      }
      ChainedFiltersAgree(stories, nextId, pk, status, priority);
      r := Ok(listed);
    }

    // ----- tasks and comments -----

    /** `task_create`: the task belongs to the request's story; its assignee must be on that story's project team. */
    method CreateTask(storyPk: StoryId, input: TaskInput) returns (r: Result<TaskId, Failure>)
      requires Valid()
      modifies this
      ensures Valid()
      ensures storyPk !in old(stories) ==> r == Err(NotFound)
      ensures r.Err? ==> unchanged(this)
      ensures storyPk in old(stories) ==>
        var errs := TaskErrors(old(projects)[old(stories)[storyPk].project].team, input);
        && (errs != {} ==> r == Err(Invalid(errs)))
        && (errs == {} ==>
              && r == Ok(old(nextId)) && old(nextId) !in old(tasks)
              && tasks == old(tasks)[old(nextId) := TaskFromInput(storyPk, input)]
              && nextId == old(nextId) + 1
              && unchanged(this`users, this`projects, this`sprints, this`stories, this`comments))
    {
      if storyPk !in stories {
        return Err(NotFound);
      }
      var errs := TaskErrors(projects[stories[storyPk].project].team, input);
      if errs != {} {
        return Err(Invalid(errs));
      }
      var id := nextId;
      var row := TaskFromInput(storyPk, input);
      var team := projects[stories[storyPk].project].team;
      assert row.assignedTo.Some? ==> row.assignedTo.value in team && team <= users;
      var tables := Snapshot();
      NextIdIsFresh(tables);
      PutTaskKeepsValid(tables, id, row, id + 1);
      Replace(tables.(tasks := tables.tasks[id := row], nextId := id + 1));
      r := Ok(id);
    }

    /** `task_update`: the task stays on its story; its assignee must be on that story's project team. */
    method UpdateTask(tid: TaskId, input: TaskInput) returns (r: Result<TaskId, Failure>)
      requires Valid()
      modifies this
      ensures Valid()
      ensures tid !in old(tasks) ==> r == Err(NotFound)
      ensures r.Err? ==> unchanged(this)
      ensures tid in old(tasks) ==>
        var t := old(tasks)[tid];
        var errs := TaskErrors(old(projects)[old(stories)[t.userStory].project].team, input);
        && (errs != {} ==> r == Err(Invalid(errs)))
        && (errs == {} ==>
              && r == Ok(tid)
              && tasks == old(tasks)[tid := TaskFromInput(t.userStory, input)]
              && unchanged(this`users, this`projects, this`sprints, this`stories, this`comments, this`nextId))
    {
      if tid !in tasks {
        return Err(NotFound);
      }
      var t := tasks[tid];
      var errs := TaskErrors(projects[stories[t.userStory].project].team, input);
      if errs != {} {
        return Err(Invalid(errs));
      }
      var row := TaskFromInput(t.userStory, input);
      var team := projects[stories[t.userStory].project].team;
      assert row.assignedTo.Some? ==> row.assignedTo.value in team && team <= users;
      var tables := Snapshot();
      PutTaskKeepsValid(tables, tid, row, tables.nextId);
      Replace(tables.(tasks := tables.tasks[tid := row], nextId := tables.nextId));
      r := Ok(tid);
    }

    /**
     * `user_story_detail` POST: the comment is attached to the request's
     * story and authored by the requester; its content is saved stripped.
     */
    method AddComment(requester: UserId, storyPk: StoryId, content: string) returns (r: Result<CommentId, Failure>)
      requires Valid() && requester in users
      modifies this
      ensures Valid()
      ensures storyPk !in old(stories) ==> r == Err(NotFound)
      ensures storyPk in old(stories) && CommentErrors(content) != {} ==> r == Err(Invalid(CommentErrors(content)))
      ensures storyPk in old(stories) && CommentErrors(content) == {} ==> r.Ok?
      ensures r.Err? ==> unchanged(this)
      ensures r.Ok? ==>
        && storyPk in old(stories) && CommentErrors(content) == {}
        && r.value == old(nextId) && old(nextId) !in old(comments)
        && comments == old(comments)[r.value := Comment(storyPk, requester, Strip(content))]
        && nextId == old(nextId) + 1
        && unchanged(this`users, this`projects, this`sprints, this`stories, this`tasks)
    {
      if storyPk !in stories {
        return Err(NotFound);
      }
      var errs := CommentErrors(content);
      if errs != {} {
        return Err(Invalid(errs));
      }
      StrippedCommentAccepted(content);
      var id := nextId;
      var row := Comment(storyPk, requester, Strip(content));
      var tables := Snapshot();
      NextIdIsFresh(tables);
      PutCommentKeepsValid(tables, id, row, id + 1);
      Replace(tables.(comments := tables.comments[id := row], nextId := id + 1));
      r := Ok(id);
    }

    // ----- deletion -----

    /** Deleting a sprint moves its stories back to the product backlog; nothing else changes. */
    method DeleteSprint(sid: SprintId)
      requires Valid() && sid in sprints
      modifies this
      ensures Valid()
      ensures Snapshot() == DeleteSprintFrom(old(Snapshot()), sid)
    {
      DeleteSprintKeepsValid(Snapshot(), sid);
      Replace(DeleteSprintFrom(Snapshot(), sid));
    }

    /** Deleting a story deletes exactly its tasks and its comments. */
    method DeleteStory(sid: StoryId)
      requires Valid() && sid in stories
      modifies this
      ensures Valid()
      ensures Snapshot() == DeleteStoryFrom(old(Snapshot()), sid)
    {
      DeleteStoryKeepsValid(Snapshot(), sid);
      Replace(DeleteStoryFrom(Snapshot(), sid));
    }

    /**
     * Deleting a project deletes its sprints and stories, and with the
     * stories their tasks and comments; the rest of the tables are untouched.
     */
    method DeleteProject(pid: ProjectId)
      requires Valid() && pid in projects
      modifies this
      ensures Valid()
      ensures Snapshot() == DeleteProjectFrom(old(Snapshot()), pid)
    {
      DeleteProjectKeepsValid(Snapshot(), pid);
      Replace(DeleteProjectFrom(Snapshot(), pid));
    }

    /**
     * Deleting a user is refused, with no effect, while the user owns or runs
     * a project or created a story. Otherwise the user leaves every team,
     * their story and task assignments are cleared, and their comments are
     * deleted.
     */
    method DeleteUser(u: UserId) returns (deleted: bool)
      requires Valid() && u in users
      modifies this
      ensures Valid()
      ensures deleted == !UserProtected(old(Snapshot()), u)
      ensures !deleted ==> unchanged(this)
      ensures deleted ==> Snapshot() == DeleteUserFrom(old(Snapshot()), u)
    {
      if UserProtected(Snapshot(), u) {
        return false;
      }
      DeleteUserKeepsValid(Snapshot(), u);
      Replace(DeleteUserFrom(Snapshot(), u));
      deleted := true;
    }
  }
}
