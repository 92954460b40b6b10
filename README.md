# Liskov project tracker — a Dafny model of the `projects` app

The `projects` app of the Liskov project-management site is a Scrum tracker
built on Django. It stores projects, the sprints of a project, user stories
(optionally planned into a sprint), the tasks of a story and comments on a
story. This project models the app's core in Dafny and proves properties of
that model:

- the enumerated fields and the database order of their stored codes
  (`choices.dfy`);
- the entity records and the field rules of the models (`records.dfy`);
- what each form accepts, how an accepted submission becomes a row, and the
  sprint-number suggestion (`forms.dfy`);
- the read queries of the views: visibility, access, the project list and
  page, the sprint pages, the story page, the filtered story list and the
  dashboard, each in its table's default order (`views.dfy`, built on the
  ordered listings of `listing.dfy`);
- the database's integrity rules and the effect of every `on_delete` policy
  (`database.dfy`);
- the database itself as a `Store` object whose methods are the writing
  views (`store.dfy`);
- the admin's comment preview (`admin.dfy`).

Representation:

- Every id comes from one counter (`nextId`), so a larger id is a later
  `created_at`, and "newest first" means "largest id first".
- Dates are day numbers.
- Hours are whole hundredths, from 0 to 99999. The fields are decimals with
  5 digits, 2 of them after the point.
- Status and priority values are datatypes, and each has a code string.
  Listings sort by the stored code under plain string order, as the database
  does. For example, priority `MEDIUM` sorts above `LOW`, `HIGH` and
  `CRITICAL`.

Where the code and the project's own description differ, the model follows
the code:

- A project name is not unique.
- Any status may be written: there is no transition rule.
- Sprint velocity is a plain optional field and is not derived from stories.
- Only `project_detail` and `project_update` check who is asking. The sprint,
  story and task views do not check, so the model does not either.
- Only the story and task forms keep assignees to the project team. The
  database keeps an assignee only to an existing user.
- The dashboard lists assigned stories and tasks in their tables' default
  order, not "most recent first".
- There is no sprint update view. `UpdateSprint` models the sprint form
  bound to an existing sprint.
- There are no delete views. Deletions model the foreign keys' `on_delete`
  policies.

## Model

| member | source | states |
|---|---|---|
| `Choices.ParseProjectStatus` | projects/models.py:17-23 | a code parses exactly when it is a project status's code, back to that status |
| `Choices.ParseSprintStatus` | projects/models.py:89-94 | a code parses exactly when it is a sprint status's code, back to that status |
| `Choices.ParsePriority` | projects/models.py:156-161 | a code parses exactly when it is a priority's code, back to that priority |
| `Choices.ParseStoryStatus` | projects/models.py:163-170 | a code parses exactly when it is a story status's code, back to that status |
| `Choices.ParseTaskStatus` | projects/models.py:253-257 | a code parses exactly when it is a task status's code, back to that status |
| `Choices.PriorityRankFollowsCodeDescending` | projects/models.py:242 | a lower listing rank is exactly a larger priority code in string order (`-priority`) |
| `Choices.TaskStatusRankFollowsCodeAscending` | projects/models.py:315 | a lower listing rank is exactly a smaller status code in string order (`status`) |
| `Records.SprintOk` | projects/models.py:110-131 | a stored sprint has a number of at least 1 and no velocity or a non-negative one (the model's field validators), and a start date before its end date (the sprint form's rule at projects/forms.py:83-86; the model has no date rule) |
| `Records.VelocityOk` | projects/models.py:126-131 | a velocity is absent or a non-negative integer |
| `Records.NumbersUnique` | projects/models.py:145 | no two sprints of one project share a number |
| `Records.StoryPointsOk` | projects/models.py:198-203 | story points are absent or between 1 and 100 |
| `Records.HoursOk` | projects/models.py:279-294 | hours are absent or between 0 and 999.99, in hundredths |
| `Listing.Newest` | projects/models.py:78 | exactly the kept ids below the counter, strictly newest first (`-created_at`) |
| `Listing.ByRank` | projects/models.py:242 | exactly the kept ids with a rank in range, by rank and then newest first |
| `Listing.SortByKey` | projects/models.py:144 | a permutation of its input, largest key first (`-number`) |
| `Listing.Page` | projects/views.py:49-50 | a `[:k]` slice: a prefix of at most `k` entries, exactly `k` when the listing has that many, and the whole listing when it has at most `k` |
| `Listing.PageHoldsLargestKeys` | projects/views.py:49 | an entry left off a page has a key no larger than any entry on it, and only a full page leaves one off |
| `Listing.Keep` | projects/views.py:186-189 | a query-set `filter`: exactly the listed ids that pass the test |
| `Listing.KeepKeepsOrder` | projects/views.py:186-189 | filtering keeps the listing's order |
| `Listing.KeepTwice` | projects/views.py:186-189 | two chained filters equal one filter on both conditions |
| `Forms.ProjectErrors` | projects/forms.py:32-43 | the form accepts exactly the projects whose users exist and whose end date is not before the start |
| `Forms.SprintErrors` | projects/forms.py:76-98 | the date error exactly when the end is not after the start; the duplicate error exactly when the dates pass, the number is at least 1 and another sprint of the project has it; acceptance exactly for valid rows with a free number |
| `Forms.SuggestedNumberIsFree` | projects/forms.py:68-74 | the suggested number passes the number checks and is free |
| `Forms.ResubmitOwnNumber` | projects/forms.py:91-92 | re-saving a sprint with its own number is not a duplicate |
| `Forms.AcceptedSprintKeepsNumbersUnique` | projects/models.py:145 | saving an accepted sprint keeps `unique_together (project, number)` |
| `Forms.StorySprintChoices` | projects/forms.py:136-137 | the sprint choices are exactly the sprints of the story's project |
| `Forms.StoryErrors` | projects/forms.py:131-142 | accepts exactly points in 1..100 or none, a sprint among the choices or none, and an assignee among the team or none |
| `Forms.TaskErrors` | projects/forms.py:162-170 | accepts exactly hours in range or none, and an assignee among the story's project team or none |
| `Forms.CommentErrors` | projects/forms.py:173-190 | refuses content as blank exactly when every character is whitespace (the form's stripped value is empty), and for a null character exactly when the content holds U+0000; accepts exactly the non-blank content without one |
| `Forms.Strip` | projects/forms.py:173-190 | the form field's whitespace strip: empty exactly when the content is all whitespace, otherwise starting and ending with a non-space character |
| `Forms.StripCutsOnlyEnds` | projects/forms.py:173-190 | stripping removes only leading and trailing whitespace and keeps the middle as it is |
| `Forms.StripIdempotent` | projects/forms.py:173-190 | stripping stripped content changes nothing |
| `Forms.StripKeepsNonSpace` | projects/forms.py:173-190 | a character that is not whitespace is in the stripped value exactly when it is in the content |
| `Forms.StrippedCommentAccepted` | projects/models.py:338 | content the form accepts is saved stripped: not empty, no whitespace at either end and no null character |
| `Views.CanView` | projects/views.py:43-45 | a user may view a project exactly when on its team, its product owner or its scrum master |
| `Views.CanEdit` | projects/views.py:93 | a user may edit a project exactly when its product owner or its scrum master |
| `Views.EditIsNarrowerThanView` | projects/views.py:92-95 | who may edit may view; a plain team member may view but not edit |
| `Views.StoryRankGivesCodeOrder` | projects/models.py:242 | a listing ordered by priority rank is ordered by priority code descending, then newest first |
| `Views.TaskRankGivesCodeOrder` | projects/models.py:315 | a listing ordered by status rank is ordered by status code ascending, then newest first |
| `Views.StoryListing` | projects/models.py:239-242 | exactly the selected stories, each once, in the story order |
| `Views.TaskListing` | projects/models.py:312-315 | exactly the selected tasks, each once, in the task order |
| `Views.ProjectStories` | projects/models.py:172-177 | exactly the project's stories, each once, in the story order |
| `Views.ProjectSprints` | projects/models.py:141-144 | exactly the project's sprints, each once, highest number first |
| `Views.VisibleProjects` | projects/views.py:20-24 | exactly the projects where the user is on the team, owner or scrum master, each once, newest first |
| `Views.ProjectList` | projects/views.py:11-32 | one row per visible project, in the visible order, each with its project's story count and sprint count |
| `Views.StoryCountIsListingLength` | projects/views.py:25 | a project's story count is the length of its story listing |
| `Views.SprintCountIsListingLength` | projects/views.py:26 | a project's sprint count is the length of its sprint listing |
| `Views.DetailSprintPage` | projects/views.py:49 | the first 5 of the project's sprints (all of them when fewer), highest number first |
| `Views.DetailStoryPage` | projects/views.py:50 | the first 10 of the project's stories (all of them when fewer), in the story order |
| `Views.ProjectDetail` | projects/views.py:35-57 | not found for a missing project, denied unless the user may view it, otherwise the project with the first 5 of its sprints and the first 10 of its stories |
| `Views.DetailShowsHighestSprints` | projects/views.py:49 | a sprint left off the page is numbered no higher than every shown one, and only when 5 are shown |
| `Views.DetailAgreesWithList` | projects/views.py:43-47 | the page opens exactly for the projects the project list shows |
| `Views.EditAccess` | projects/views.py:90-95 | not found for a missing project; allowed exactly for the owner and the scrum master, denied otherwise |
| `Views.SprintList` | projects/views.py:116-128 | not found for a missing project, otherwise exactly its sprints, highest number first |
| `Views.SprintStories` | projects/views.py:131-143 | not found for a missing sprint, otherwise exactly the stories planned into it, in the story order |
| `Views.StoryDetail` | projects/views.py:198-205 | not found for a missing story, otherwise exactly its tasks in the task order and its comments newest first |
| `Views.FilteredStories` | projects/views.py:182-189 | exactly the project's stories whose status and priority codes match the non-empty filters |
| `Views.FilteredStoriesOrdered` | projects/views.py:180-189 | the filtered list keeps the story order |
| `Views.FilterSplits` | projects/views.py:186-189 | the combined test is the status test and the priority test; an empty parameter tests nothing |
| `Views.ChainedFiltersAgree` | projects/views.py:186-189 | filtering by status and then by priority, each only when given, lists exactly the filtered stories |
| `Views.NoFilterListsAll` | projects/views.py:183-189 | with no filter the list is all the project's stories |
| `Views.AssignedStories` | projects/views.py:344 | exactly the stories assigned to the user, each once, in the story order |
| `Views.AssignedTasks` | projects/views.py:345 | exactly the tasks assigned to the user, each once, in the task order |
| `Views.DashboardProjects` | projects/views.py:338-342 | the first at most 5 visible projects, in the visible order; a visible project is left off only when 5 are shown |
| `Views.DashboardStories` | projects/views.py:344 | the first at most 5 stories assigned to the user; an assigned story is left off only when 5 are shown |
| `Views.DashboardTasks` | projects/views.py:345 | the first at most 5 tasks assigned to the user; an assigned task is left off only when 5 are shown |
| `Views.DashboardFor` | projects/views.py:333-352 | each panel is the first 5 of its listing (all of it when shorter): the visible projects, the stories and the tasks assigned to the user |
| `Database.TablesValid` | projects/models.py:96-145 | the integrity rules: ids issued by the counter, every foreign key resolves, every field rule holds and sprint numbers are unique per project |
| `Database.ClearSprint` | projects/models.py:178-185 | SET_NULL: every story of the sprint gets no sprint; every other field and every other story is unchanged |
| `Database.SprintsOutside` | projects/models.py:96-101 | CASCADE: exactly the sprints of other projects, unchanged |
| `Database.StoriesOutside` | projects/models.py:172-177 | CASCADE: exactly the stories of other projects, unchanged |
| `Database.TasksOutside` | projects/models.py:259-264 | CASCADE: exactly the tasks of the remaining stories, unchanged |
| `Database.CommentsOutside` | projects/models.py:326-331 | CASCADE: exactly the comments of the remaining stories, unchanged |
| `Database.LeaveTeams` | projects/models.py:60-65 | the user leaves every team; nothing else about a project changes |
| `Database.UnassignStories` | projects/models.py:216-223 | SET_NULL: every story assigned to the user becomes unassigned; nothing else changes |
| `Database.UnassignTasks` | projects/models.py:295-302 | SET_NULL: every task assigned to the user becomes unassigned; nothing else changes |
| `Database.CommentsNotBy` | projects/models.py:332-337 | CASCADE: exactly the comments by other authors, unchanged |
| `Database.PutProjectKeepsValid` | projects/views.py:71-72 | saving a project the form accepts keeps every integrity rule |
| `Database.PutSprintKeepsValid` | projects/views.py:155-158 | saving an accepted sprint of an existing project keeps every integrity rule |
| `Database.PutStoryKeepsValid` | projects/views.py:237-241 | saving an accepted story keeps every integrity rule |
| `Database.PutTaskKeepsValid` | projects/views.py:290-293 | saving an accepted task keeps every integrity rule |
| `Database.PutCommentKeepsValid` | projects/views.py:209-213 | saving an accepted comment keeps every integrity rule |
| `Database.DeleteSprintFrom` | projects/models.py:178-185 | deleting a sprint: its stories remain and get no sprint; nothing else changes |
| `Database.DeleteStoryFrom` | projects/models.py:259-264 | deleting a story deletes exactly its tasks and comments; nothing else changes |
| `Database.DeleteProjectFrom` | projects/models.py:96-101 | deleting a project deletes exactly its sprints and stories and their stories' tasks and comments |
| `Database.UserProtected` | projects/models.py:224-229 | a PROTECT key refers to the user: they own or run a project (lines 48-59) or created a story |
| `Database.DeleteUserFrom` | projects/models.py:332-337 | deleting a user: they leave every team, their stories and tasks become unassigned, their comments are deleted; nothing else changes |
| `Database.DeleteSprintKeepsValid` | projects/models.py:178-185 | deleting a sprint keeps every integrity rule |
| `Database.DeleteStoryKeepsValid` | projects/models.py:259-264 | deleting a story keeps every integrity rule |
| `Database.DeleteProjectKeepsValid` | projects/models.py:172-177 | deleting a project keeps every integrity rule |
| `Database.DeleteUserKeepsValid` | projects/models.py:224-229 | deleting a user no PROTECT key refers to keeps every integrity rule |
| `Database.SprintPageStaysInProject` | projects/views.py:137 | on a valid database the sprint page lists every story of the sprint and only stories of its project |
| `Store.Store.AddUser` | projects/models.py:48-65 | a new user with the next id; no other table changes; integrity kept |
| `Store.Store.CreateProject` | projects/views.py:60-82 | refused with the form's errors, or a new project with the next id; integrity kept |
| `Store.Store.UpdateProject` | projects/views.py:85-111 | not found, denied unless owner or scrum master, refused with the form's errors, or the project replaced; an editor's valid input always succeeds; integrity kept |
| `Store.Store.CreateSprint` | projects/views.py:146-169 | not found, refused with the form's errors, or a new sprint of the request's project; integrity kept |
| `Store.Store.UpdateSprint` | projects/forms.py:88-96 | not found, refused with the form's errors (its own number allowed), or the sprint replaced within its project; valid input for an existing sprint always succeeds |
| `Store.Store.SuggestSprintNumber` | projects/forms.py:64-74 | nothing when editing, otherwise one past the project's highest number, or 1 |
| `Store.Store.CreateStory` | projects/views.py:228-252 | not found, refused with the form's errors, or a new story of the project created by the requester |
| `Store.Store.UpdateStory` | projects/views.py:255-276 | not found, refused with the form's errors, or the story replaced with its project and creator kept |
| `Store.Store.UserStoryList` | projects/views.py:174-195 | not found, or the project's stories filtered as `FilteredStories` states |
| `Store.Store.CreateTask` | projects/views.py:281-304 | not found, refused with the form's errors, or a new task of the request's story |
| `Store.Store.UpdateTask` | projects/views.py:307-328 | not found, refused with the form's errors, or the task replaced on its story |
| `Store.Store.AddComment` | projects/views.py:198-225 | not found, refused when blank or holding a null character, or a new comment on the story by the requester holding the stripped content; non-blank content without a null character on an existing story always succeeds |
| `Store.Store.DeleteSprint` | projects/models.py:178-185 | the tables become `DeleteSprintFrom` of the old ones; integrity kept |
| `Store.Store.DeleteStory` | projects/models.py:259-264 | the tables become `DeleteStoryFrom` of the old ones; integrity kept |
| `Store.Store.DeleteProject` | projects/models.py:96-101 | the tables become `DeleteProjectFrom` of the old ones; integrity kept |
| `Store.Store.DeleteUser` | projects/models.py:224-229 | refused with no effect exactly when a PROTECT key refers to the user, otherwise `DeleteUserFrom`; integrity kept |
| `Admin.ContentPreview` | projects/admin.py:129-131 | content of at most 50 characters unchanged, otherwise its first 50 characters and `...` |
| `Admin.PreviewIdempotent` | projects/admin.py:131 | previewing a preview changes nothing |

## Left out

- Timestamps are not modelled: `created_at` is the id order, and `updated_at` is left out.
- Text fields are not checked for `max_length`. The project, sprint, story and task forms strip surrounding whitespace from their text fields and refuse a required one left blank; the model keeps those text fields as given and does not refuse them, nor a null character in them. Comment content is stripped, and refused when blank or when it holds a null character.
- Login, messages, redirects, templates, the admin's list and form settings, and the URL table are left out. They are framework configuration.
- Users are created and deleted by the authentication system. `AddUser` and `DeleteUser` are how the model's users change.
- The sample-data and password scripts are not part of this model.
- The model's default values for status and priority are left out. The forms list these fields as required choices, so a default is only the initial value a new form shows.
- Hours are whole hundredths. Decimal input with more than two decimal places, which the form refuses, is not modelled.
- Views.ProjectList: the counts are the number of stories and sprints of each project. Two `Count` annotations over joined tables can multiply each other in SQL, and that effect is not modelled.
- Transactions and concurrent requests are not modelled. Every method runs alone.
- Store.Store.SuggestSprintNumber relies on the stored sprint numbers being at least 1, as the model's validators ensure.
- Records.SprintOk: does not bound the sprint number or the velocity by 2147483647, the largest value the database stores in a `PositiveIntegerField`. The model's integers are unbounded, so a larger number or velocity is not refused.
- Store.Store.SuggestSprintNumber: can suggest 2147483648 when a project already has a sprint numbered 2147483647. The database would refuse to store that number.
