/**
 * Read queries and access checks of the request handlers, as functions of
 * the stored tables. `n` is the store's id counter: every stored id is below
 * it, and a larger id is a newer row. A listing follows its table's default
 * order:
 *  - projects: newest first;
 *  - sprints: number descending;
 *  - user stories: priority CODE descending, then newest first;
 *  - tasks: status CODE ascending, then newest first.
 */
module Views {
  import opened Wrappers
  import opened Choices
  import opened Records
  import opened Forms
  import opened Listing

  /** How a request is refused. */
  datatype Failure = NotFound | Denied | Invalid(errors: set<FormError>)

  // ----- access -----

  /** Who may see a project: its team members, its product owner and its scrum master. */
  predicate CanView(p: Project, u: UserId) {
    u in p.team || u == p.productOwner || u == p.scrumMaster
  }

  /** Who may edit a project: its product owner and its scrum master only. */
  predicate CanEdit(p: Project, u: UserId) {
    u == p.productOwner || u == p.scrumMaster
  }

  /** Editing rights imply viewing rights; a plain team member may view but not edit. */
  lemma EditIsNarrowerThanView(p: Project, u: UserId)
    ensures CanEdit(p, u) ==> CanView(p, u)
    ensures u in p.team && u != p.productOwner && u != p.scrumMaster ==> CanView(p, u) && !CanEdit(p, u)
  {
  }

  // ----- orderings stated on the stored codes -----

  /** Story `a` is listed before story `b`: a larger priority code, or the same priority and newer. */
  predicate StoryBefore(stories: map<StoryId, UserStory>, a: StoryId, b: StoryId) {
    && a in stories && b in stories
    && (|| LexLess(PriorityCode(stories[b].priority), PriorityCode(stories[a].priority))
        || (stories[a].priority == stories[b].priority && a > b))
  }

  function StoryOrder(stories: map<StoryId, UserStory>): (nat, nat) -> bool {
    (a: nat, b: nat) => StoryBefore(stories, a, b)
  }

  /** Every id is a story, ordered by priority code descending and then newest first. */
  predicate StoriesOrdered(stories: map<StoryId, UserStory>, r: seq<StoryId>) {
    && (forall i :: 0 <= i < |r| ==> r[i] in stories)
    && Ordered(r, StoryOrder(stories))
  }

  /** Task `a` is listed before task `b`: a smaller status code, or the same status and newer. */
  predicate TaskBefore(tasks: map<TaskId, Task>, a: TaskId, b: TaskId) {
    && a in tasks && b in tasks
    && (|| LexLess(TaskStatusCode(tasks[a].status), TaskStatusCode(tasks[b].status))
        || (tasks[a].status == tasks[b].status && a > b))
  }

  function TaskOrder(tasks: map<TaskId, Task>): (nat, nat) -> bool {
    (a: nat, b: nat) => TaskBefore(tasks, a, b)
  }

  /** Every id is a task, ordered by status code ascending and then newest first. */
  predicate TasksOrdered(tasks: map<TaskId, Task>, r: seq<TaskId>) {
    && (forall i :: 0 <= i < |r| ==> r[i] in tasks)
    && Ordered(r, TaskOrder(tasks))
  }

  function StoryRank(stories: map<StoryId, UserStory>): nat -> nat {
    (k: nat) => if k in stories then PriorityRank(stories[k].priority) else 0
  }

  function TaskRank(tasks: map<TaskId, Task>): nat -> nat {
    (k: nat) => if k in tasks then TaskStatusRank(tasks[k].status) else 0
  }

  /** Listing by priority rank is listing by priority code, descending. */
  lemma StoryRankGivesCodeOrder(stories: map<StoryId, UserStory>, r: seq<StoryId>)
    requires forall i :: 0 <= i < |r| ==> r[i] in stories
    requires RankOrdered(r, StoryRank(stories))
    ensures StoriesOrdered(stories, r)
  {
    forall i, j | 0 <= i < j < |r| ensures StoryOrder(stories)(r[i], r[j]) {
      var a, b := stories[r[i]].priority, stories[r[j]].priority;
      assert StoryRank(stories)(r[i]) == PriorityRank(a) && StoryRank(stories)(r[j]) == PriorityRank(b);
      PriorityRankFollowsCodeDescending(a, b);
    }
  }

  /** Listing by status rank is listing by status code, ascending. */
  lemma TaskRankGivesCodeOrder(tasks: map<TaskId, Task>, r: seq<TaskId>)
    requires forall i :: 0 <= i < |r| ==> r[i] in tasks
    requires RankOrdered(r, TaskRank(tasks))
    ensures TasksOrdered(tasks, r)
  {
    forall i, j | 0 <= i < j < |r| ensures TaskOrder(tasks)(r[i], r[j]) {
      var a, b := tasks[r[i]].status, tasks[r[j]].status;
      assert TaskRank(tasks)(r[i]) == TaskStatusRank(a) && TaskRank(tasks)(r[j]) == TaskStatusRank(b);
      TaskStatusRankFollowsCodeAscending(a, b);
    }
  }

  // ----- listings -----

  /** The stories below `n` that satisfy `keep`, in the story table's default order. */
  function StoryListing(stories: map<StoryId, UserStory>, n: nat, keep: nat -> bool): (r: seq<StoryId>)
    ensures forall t :: t in r <==> t in stories && t < n && keep(t)
    ensures StoriesOrdered(stories, r)
    ensures Distinct(r)
  {
    var r := ByRank(n, (k: nat) => k in stories && keep(k), StoryRank(stories), 0, 4);
    StoryRankGivesCodeOrder(stories, r);
    r
  }

  /** The tasks below `n` that satisfy `keep`, in the task table's default order. */
  function TaskListing(tasks: map<TaskId, Task>, n: nat, keep: nat -> bool): (r: seq<TaskId>)
    ensures forall k :: k in r <==> k in tasks && k < n && keep(k)
    ensures TasksOrdered(tasks, r)
    ensures Distinct(r)
  {
    var r := ByRank(n, (k: nat) => k in tasks && keep(k), TaskRank(tasks), 0, 3);
    TaskRankGivesCodeOrder(tasks, r);
    r
  }

  /** A project's stories in default order (`project.user_stories.all()`). */
  function ProjectStories(stories: map<StoryId, UserStory>, n: nat, project: ProjectId): (r: seq<StoryId>)
    ensures forall t :: t in r <==> t in stories && t < n && stories[t].project == project
    ensures StoriesOrdered(stories, r)
    ensures Distinct(r)
  {
    StoryListing(stories, n, (k: nat) => k in stories && stories[k].project == project)
  }

  function SprintNumber(sprints: map<SprintId, Sprint>): nat -> int {
    (k: nat) => if k in sprints then sprints[k].number else 0
  }

  /** A project's sprints, highest number first (`project.sprints.all()`). */
  function ProjectSprints(sprints: map<SprintId, Sprint>, n: nat, project: ProjectId): (r: seq<SprintId>)
    ensures forall s :: s in r <==> s in sprints && s < n && sprints[s].project == project
    ensures KeyDescending(r, SprintNumber(sprints))
    ensures Distinct(r)
  {
    var ids := Newest(n, (k: nat) => k in sprints && sprints[k].project == project);
    var r := SortByKey(ids, SprintNumber(sprints));
    DistinctPermutation(ids, r);
    assert forall s :: s in r <==> s in ids by {
      forall s ensures s in r <==> s in ids {
        assert s in r <==> s in multiset(r);
        assert s in ids <==> s in multiset(ids);
      }
    }
    r
  }

  // ----- project_list -----

  /** The projects `u` may see, each once, newest first. */
  function VisibleProjects(projects: map<ProjectId, Project>, n: nat, u: UserId): (r: seq<ProjectId>)
    ensures forall p :: p in r <==> p in projects && p < n && CanView(projects[p], u)
    ensures Descending(r)
  {
    Newest(n, (k: nat) => k in projects && CanView(projects[k], u))
  }

  datatype ProjectRow = ProjectRow(project: ProjectId, storyCount: nat, sprintCount: nat)

  /** The number of stories of `project` (the intended `Count('user_stories')`). */
  function StoryCount(stories: map<StoryId, UserStory>, project: ProjectId): nat {
    |set t: nat | t in stories && stories[t].project == project|
  }

  /** The number of sprints of `project` (the intended `Count('sprints')`). */
  function SprintCount(sprints: map<SprintId, Sprint>, project: ProjectId): nat {
    |set s: nat | s in sprints && sprints[s].project == project|
  }

  /** `project_list`: the visible projects, each with its story and sprint counts. */
  function ProjectList(projects: map<ProjectId, Project>, sprints: map<SprintId, Sprint>,
                       stories: map<StoryId, UserStory>, n: nat, u: UserId): (rows: seq<ProjectRow>)
    ensures |rows| == |VisibleProjects(projects, n, u)|
    ensures forall i :: 0 <= i < |rows| ==> rows[i].project == VisibleProjects(projects, n, u)[i]
    ensures forall i :: 0 <= i < |rows| ==>
      rows[i].storyCount == StoryCount(stories, rows[i].project) && rows[i].sprintCount == SprintCount(sprints, rows[i].project)
  {
    var visible := VisibleProjects(projects, n, u);
    seq(|visible|, i requires 0 <= i < |visible| =>
      ProjectRow(visible[i], StoryCount(stories, visible[i]), SprintCount(sprints, visible[i])))
  }

  /** A project's story count is the length of its story listing. */
  lemma StoryCountIsListingLength(stories: map<StoryId, UserStory>, n: nat, project: ProjectId)
    requires forall t :: t in stories ==> t < n
    ensures StoryCount(stories, project) == |ProjectStories(stories, n, project)|
  {
    var r := ProjectStories(stories, n, project);
    DistinctLength(r, set t: nat | t in stories && stories[t].project == project);
  }

  /** A project's sprint count is the length of its sprint listing. */
  lemma SprintCountIsListingLength(sprints: map<SprintId, Sprint>, n: nat, project: ProjectId)
    requires forall s :: s in sprints ==> s < n
    ensures SprintCount(sprints, project) == |ProjectSprints(sprints, n, project)|
  {
    var r := ProjectSprints(sprints, n, project);
    DistinctLength(r, set s: nat | s in sprints && sprints[s].project == project);
  }

  // ----- project_detail and project_update access -----

  /** What the project page shows: the project, its first sprints and its first stories. */
  datatype Detail = Detail(project: ProjectId, sprints: seq<SprintId>, stories: seq<StoryId>)

  /** The most sprints and stories the project page shows. */
  const DetailSprints: nat := 5
  const DetailStories: nat := 10

  /** The sprints the project page shows: the first `DetailSprints` of the project's listing. */
  function DetailSprintPage(sprints: map<SprintId, Sprint>, n: nat, pk: ProjectId): (r: seq<SprintId>)
    ensures |r| == if |ProjectSprints(sprints, n, pk)| < DetailSprints then |ProjectSprints(sprints, n, pk)| else DetailSprints
    ensures r == ProjectSprints(sprints, n, pk)[..|r|]
    ensures forall s :: s in r ==> s in sprints && sprints[s].project == pk
  {
    Page(ProjectSprints(sprints, n, pk), DetailSprints)
  }

  /** The stories the project page shows: the first `DetailStories` of the project's listing, in its order. */
  function DetailStoryPage(stories: map<StoryId, UserStory>, n: nat, pk: ProjectId): (r: seq<StoryId>)
    ensures |r| == if |ProjectStories(stories, n, pk)| < DetailStories then |ProjectStories(stories, n, pk)| else DetailStories
    ensures r == ProjectStories(stories, n, pk)[..|r|]
    ensures forall t :: t in r ==> t in stories && stories[t].project == pk
    ensures StoriesOrdered(stories, r)
  {
    var ts := ProjectStories(stories, n, pk);
    var r := Page(ts, DetailStories);
    PageFromList(ts, DetailStories);
    PageKeepsOrder(ts, DetailStories, StoryOrder(stories));
    assert forall i :: 0 <= i < |r| ==> r[i] in stories by {
      forall i | 0 <= i < |r| ensures r[i] in stories {
        assert r[i] in r;
      }
    }
    r
  }

  /** `project_detail`: missing project, refusal, or the page's contents. */
  function ProjectDetail(projects: map<ProjectId, Project>, sprints: map<SprintId, Sprint>,
                         stories: map<StoryId, UserStory>, n: nat, u: UserId, pk: ProjectId)
    : (r: Result<Detail, Failure>)
    ensures pk !in projects ==> r == Err(NotFound)
    ensures pk in projects && !CanView(projects[pk], u) ==> r == Err(Denied)
    ensures pk in projects && CanView(projects[pk], u) ==> r.Ok? && r.value.project == pk
    ensures r.Ok? ==> |r.value.sprints| <= DetailSprints && |r.value.stories| <= DetailStories
    ensures r.Ok? ==> r.value.sprints == DetailSprintPage(sprints, n, pk) && r.value.stories == DetailStoryPage(stories, n, pk)
    ensures r.Ok? ==> forall s :: s in r.value.sprints ==> s in sprints && sprints[s].project == pk
    ensures r.Ok? ==> forall t :: t in r.value.stories ==> t in stories && stories[t].project == pk
    ensures r.Ok? ==> StoriesOrdered(stories, r.value.stories)
  {
    if pk !in projects then Err(NotFound)
    else if !CanView(projects[pk], u) then Err(Denied)
    else Ok(Detail(pk, DetailSprintPage(sprints, n, pk), DetailStoryPage(stories, n, pk)))
  }

  /**
   * The project page shows the highest-numbered sprints: a sprint of the
   * project left off the page has a number no higher than any shown one, and
   * one is left off only when the page is full.
   */
  lemma DetailShowsHighestSprints(projects: map<ProjectId, Project>, sprints: map<SprintId, Sprint>,
                                  stories: map<StoryId, UserStory>, n: nat, u: UserId, pk: ProjectId,
                                  hidden: SprintId)
    requires ProjectDetail(projects, sprints, stories, n, u, pk).Ok?
    requires hidden in sprints && hidden < n && sprints[hidden].project == pk
    requires hidden !in ProjectDetail(projects, sprints, stories, n, u, pk).value.sprints
    ensures |ProjectDetail(projects, sprints, stories, n, u, pk).value.sprints| == DetailSprints
    ensures forall s :: s in ProjectDetail(projects, sprints, stories, n, u, pk).value.sprints ==>
              sprints[s].number >= sprints[hidden].number
  {
    var r := ProjectSprints(sprints, n, pk);
    PageHoldsLargestKeys(r, SprintNumber(sprints), DetailSprints, hidden);
    var shown := ProjectDetail(projects, sprints, stories, n, u, pk).value.sprints;
    assert shown == DetailSprintPage(sprints, n, pk) == Page(r, DetailSprints);
    forall s | s in shown ensures sprints[s].number >= sprints[hidden].number {
      assert SprintNumber(sprints)(s) >= SprintNumber(sprints)(hidden);
    }
  }

  /** The project page opens exactly for the projects the project list shows. */
  lemma DetailAgreesWithList(projects: map<ProjectId, Project>, sprints: map<SprintId, Sprint>,
                             stories: map<StoryId, UserStory>, n: nat, u: UserId, pk: ProjectId)
    requires forall p :: p in projects ==> p < n
    ensures ProjectDetail(projects, sprints, stories, n, u, pk).Ok? <==> pk in VisibleProjects(projects, n, u)
  {
  }

  /** `project_update`: who may open the edit form (the form itself is checked by the store). */
  function EditAccess(projects: map<ProjectId, Project>, u: UserId, pk: ProjectId): (r: Result<ProjectId, Failure>)
    ensures pk !in projects ==> r == Err(NotFound)
    ensures r.Ok? <==> pk in projects && (u == projects[pk].productOwner || u == projects[pk].scrumMaster)
    ensures r.Err? && pk in projects ==> r.error == Denied
  {
    if pk !in projects then Err(NotFound)
    else if !CanEdit(projects[pk], u) then Err(Denied)
    else Ok(pk)
  }

  // ----- sprint_list, sprint_detail and the user_story_detail page -----

  /** `sprint_list`: every sprint of the project, highest number first; no access check. */
  function SprintList(projects: map<ProjectId, Project>, sprints: map<SprintId, Sprint>, n: nat, pk: ProjectId)
    : (r: Result<seq<SprintId>, Failure>)
    ensures pk !in projects ==> r == Err(NotFound)
    ensures pk in projects ==> r.Ok?
    ensures r.Ok? ==> forall s :: s in r.value <==> s in sprints && s < n && sprints[s].project == pk
    ensures r.Ok? ==> KeyDescending(r.value, SprintNumber(sprints)) && Distinct(r.value)
  {
    if pk !in projects then Err(NotFound) else Ok(ProjectSprints(sprints, n, pk))
  }

  /** `sprint_detail`: the stories planned into the sprint, in the story order; no access check. */
  function SprintStories(sprints: map<SprintId, Sprint>, stories: map<StoryId, UserStory>, n: nat, sid: SprintId)
    : (r: Result<seq<StoryId>, Failure>)
    ensures sid !in sprints ==> r == Err(NotFound)
    ensures sid in sprints ==> r.Ok?
    ensures r.Ok? ==> forall t :: t in r.value <==> t in stories && t < n && stories[t].sprint == Some(sid)
    ensures r.Ok? ==> StoriesOrdered(stories, r.value)
  {
    if sid !in sprints then Err(NotFound)
    else Ok(StoryListing(stories, n, (k: nat) => k in stories && stories[k].sprint == Some(sid)))
  }

  /** What the story page lists besides the story: its tasks and its comments. */
  datatype StoryPage = StoryPage(story: StoryId, tasks: seq<TaskId>, comments: seq<CommentId>)

  /**
   * `user_story_detail` (shown, not posted): the story's tasks in the task
   * order and its comments newest first; no access check.
   */
  function StoryDetail(stories: map<StoryId, UserStory>, tasks: map<TaskId, Task>,
                       comments: map<CommentId, Comment>, n: nat, sid: StoryId): (r: Result<StoryPage, Failure>)
    ensures sid !in stories ==> r == Err(NotFound)
    ensures sid in stories ==> r.Ok? && r.value.story == sid
    ensures r.Ok? ==> forall k :: k in r.value.tasks <==> k in tasks && k < n && tasks[k].userStory == sid
    ensures r.Ok? ==> TasksOrdered(tasks, r.value.tasks)
    ensures r.Ok? ==> forall c :: c in r.value.comments <==> c in comments && c < n && comments[c].userStory == sid
    ensures r.Ok? ==> Descending(r.value.comments)
  {
    if sid !in stories then Err(NotFound)
    else
      Ok(StoryPage(sid,
        TaskListing(tasks, n, (k: nat) => k in tasks && tasks[k].userStory == sid),
        Newest(n, (c: nat) => c in comments && comments[c].userStory == sid)))
  }

  // ----- user_story_list filters -----

  /** A query-string filter restricts only when it is present and non-empty. */
  predicate FilterOn(f: Option<string>) {
    f.Some? && f.value != ""
  }

  /** The story passes both optional exact-match filters. */
  predicate StoryMatches(st: UserStory, status: Option<string>, priority: Option<string>) {
    && (FilterOn(status) ==> StoryStatusCode(st.status) == status.value)
    && (FilterOn(priority) ==> PriorityCode(st.priority) == priority.value)
  }

  /** The filter the query string selects, as a test on story ids. */
  function StoryFilter(stories: map<StoryId, UserStory>, status: Option<string>, priority: Option<string>)
    : nat -> bool
  {
    (k: nat) => k in stories && StoryMatches(stories[k], status, priority)
  }

  /** The stories of a project that pass the filters (a query-set `filter` of the project's stories). */
  function FilteredStories(stories: map<StoryId, UserStory>, n: nat, project: ProjectId,
                           status: Option<string>, priority: Option<string>): (r: seq<StoryId>)
    ensures forall t :: t in r <==>
      t in stories && t < n && stories[t].project == project && StoryMatches(stories[t], status, priority)
  {
    Keep(ProjectStories(stories, n, project), StoryFilter(stories, status, priority))
  }

  /** Filtering keeps the default order: priority code descending, then newest first. */
  lemma FilteredStoriesOrdered(stories: map<StoryId, UserStory>, n: nat, project: ProjectId,
                               status: Option<string>, priority: Option<string>)
    ensures StoriesOrdered(stories, FilteredStories(stories, n, project, status, priority))
  {
    var all := ProjectStories(stories, n, project);
    var r := FilteredStories(stories, n, project, status, priority);
    KeepKeepsOrder(all, StoryFilter(stories, status, priority), StoryOrder(stories));
    forall i | 0 <= i < |r| ensures r[i] in stories {
      assert r[i] in r;
    }
  }

  /** The `status` query parameter as a filter on story ids. */
  function StatusFilter(stories: map<StoryId, UserStory>, status: Option<string>): nat -> bool {
    (k: nat) => k in stories && (FilterOn(status) ==> StoryStatusCode(stories[k].status) == status.value)
  }

  /** The `priority` query parameter as a filter on story ids. */
  function PriorityFilter(stories: map<StoryId, UserStory>, priority: Option<string>): nat -> bool {
    (k: nat) => k in stories && (FilterOn(priority) ==> PriorityCode(stories[k].priority) == priority.value)
  }

  /** The combined filter is the two parameter filters together; an empty parameter filters nothing. */
  lemma FilterSplits(stories: map<StoryId, UserStory>, status: Option<string>, priority: Option<string>, k: nat)
    ensures StoryFilter(stories, status, priority)(k) ==
            (StatusFilter(stories, status)(k) && PriorityFilter(stories, priority)(k))
    ensures !FilterOn(priority) ==> StoryFilter(stories, status, priority)(k) == StatusFilter(stories, status)(k)
    ensures !FilterOn(status) ==> StoryFilter(stories, status, priority)(k) == PriorityFilter(stories, priority)(k)
    ensures !FilterOn(status) && !FilterOn(priority) ==> StoryFilter(stories, status, priority)(k) == (k in stories)
  {
  }

  /**
   * Applying the status filter and then the priority filter, each only when
   * its parameter is non-empty, lists exactly the filtered stories.
   */
  lemma ChainedFiltersAgree(stories: map<StoryId, UserStory>, n: nat, project: ProjectId,
                            status: Option<string>, priority: Option<string>)
    ensures FilteredStories(stories, n, project, status, priority) ==
      var all := ProjectStories(stories, n, project);
      var byStatus := if FilterOn(status) then Keep(all, StatusFilter(stories, status)) else all;
      if FilterOn(priority) then Keep(byStatus, PriorityFilter(stories, priority)) else byStatus
  {
    var all := ProjectStories(stories, n, project);
    var spec := StoryFilter(stories, status, priority);
    var fs, fp := StatusFilter(stories, status), PriorityFilter(stories, priority);
    var both := (k: nat) => fs(k) && fp(k);
    forall k | k in all ensures spec(k) == both(k) {
      FilterSplits(stories, status, priority, k);
    }
    if FilterOn(status) && FilterOn(priority) {
      KeepTwice(all, fs, fp);
      KeepSame(all, both, spec);
    } else if FilterOn(status) {
      forall k | k in all ensures fs(k) == spec(k) {
        FilterSplits(stories, status, priority, k);
      }
      KeepSame(all, fs, spec);
    } else if FilterOn(priority) {
      forall k | k in all ensures fp(k) == spec(k) {
        FilterSplits(stories, status, priority, k);
      }
      KeepSame(all, fp, spec);
    } else {
      forall k | k in all ensures spec(k) {
        FilterSplits(stories, status, priority, k);
      }
      KeepAll(all, spec);
    }
  }

  /** Without an active filter the listing is all of the project's stories. */
  lemma NoFilterListsAll(stories: map<StoryId, UserStory>, n: nat, project: ProjectId,
                         status: Option<string>, priority: Option<string>)
    requires !FilterOn(status) && !FilterOn(priority)
    ensures FilteredStories(stories, n, project, status, priority) == ProjectStories(stories, n, project)
  {
    KeepAll(ProjectStories(stories, n, project), StoryFilter(stories, status, priority));
  }

  // ----- dashboard -----

  datatype Dashboard = Dashboard(projects: seq<ProjectId>, stories: seq<StoryId>, tasks: seq<TaskId>)

  /** Each dashboard panel shows at most this many entries. */
  const DashboardPage: nat := 5

  /** The stories assigned to `u`, in any project, in the story order. */
  function AssignedStories(stories: map<StoryId, UserStory>, n: nat, u: UserId): (r: seq<StoryId>)
    ensures forall t :: t in r <==> t in stories && t < n && stories[t].assignedTo == Some(u)
    ensures StoriesOrdered(stories, r)
  {
    StoryListing(stories, n, (k: nat) => k in stories && stories[k].assignedTo == Some(u))
  }

  /** The tasks assigned to `u`, in any project, in the task order. */
  function AssignedTasks(tasks: map<TaskId, Task>, n: nat, u: UserId): (r: seq<TaskId>)
    ensures forall k :: k in r <==> k in tasks && k < n && tasks[k].assignedTo == Some(u)
    ensures TasksOrdered(tasks, r)
  {
    TaskListing(tasks, n, (k: nat) => k in tasks && tasks[k].assignedTo == Some(u))
  }

  /** The dashboard's project panel: the first visible projects. */
  function DashboardProjects(projects: map<ProjectId, Project>, n: nat, u: UserId): (r: seq<ProjectId>)
    ensures |r| <= DashboardPage && |r| <= |VisibleProjects(projects, n, u)|
    ensures r == VisibleProjects(projects, n, u)[..|r|]
    ensures forall p :: p in r ==> p in projects && CanView(projects[p], u)
    ensures forall p :: p in projects && p < n && CanView(projects[p], u) && p !in r ==> |r| == DashboardPage
  {
    var ps := VisibleProjects(projects, n, u);
    PageFromList(ps, DashboardPage);
    Page(ps, DashboardPage)
  }

  /** The dashboard's story panel: the first stories assigned to `u`. */
  function DashboardStories(stories: map<StoryId, UserStory>, n: nat, u: UserId): (r: seq<StoryId>)
    ensures |r| <= DashboardPage && |r| <= |AssignedStories(stories, n, u)|
    ensures r == AssignedStories(stories, n, u)[..|r|]
    ensures forall t :: t in r ==> t in stories && stories[t].assignedTo == Some(u)
    ensures forall t :: t in stories && t < n && stories[t].assignedTo == Some(u) && t !in r ==> |r| == DashboardPage
  {
    var ss := AssignedStories(stories, n, u);
    PageFromList(ss, DashboardPage);
    Page(ss, DashboardPage)
  }

  /** The dashboard's task panel: the first tasks assigned to `u`. */
  function DashboardTasks(tasks: map<TaskId, Task>, n: nat, u: UserId): (r: seq<TaskId>)
    ensures |r| <= DashboardPage && |r| <= |AssignedTasks(tasks, n, u)|
    ensures r == AssignedTasks(tasks, n, u)[..|r|]
    ensures forall k :: k in r ==> k in tasks && tasks[k].assignedTo == Some(u)
    ensures forall k :: k in tasks && k < n && tasks[k].assignedTo == Some(u) && k !in r ==> |r| == DashboardPage
  {
    var ts := AssignedTasks(tasks, n, u);
    PageFromList(ts, DashboardPage);
    Page(ts, DashboardPage)
  }

  /**
   * `dashboard`: each panel is the `[:5]` slice of its listing, the visible
   * projects and the stories and tasks assigned to `u` in any project.
   */
  function DashboardFor(projects: map<ProjectId, Project>, stories: map<StoryId, UserStory>,
                        tasks: map<TaskId, Task>, n: nat, u: UserId): (d: Dashboard)
    ensures var ps := VisibleProjects(projects, n, u);
      d.projects == ps[..if |ps| < DashboardPage then |ps| else DashboardPage]
    ensures var ss := AssignedStories(stories, n, u);
      d.stories == ss[..if |ss| < DashboardPage then |ss| else DashboardPage]
    ensures var ts := AssignedTasks(tasks, n, u);
      d.tasks == ts[..if |ts| < DashboardPage then |ts| else DashboardPage]
  {
    Dashboard(DashboardProjects(projects, n, u), DashboardStories(stories, n, u), DashboardTasks(tasks, n, u))
  }
}
