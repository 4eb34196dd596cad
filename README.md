# TaskFlow core in Dafny

A model of the task-management rules of TaskFlow, an Express/Mongoose task
server with a React client, together with proofs about them.

On the server side it covers:

- the Task document schema: field limits, trimming, defaults and the status enum;
- the owner-scoped task handlers: list with filters, sort and pages; get; create; update; delete; statistics;
- the request validation rule sets and their error formatter;
- the `protect` authentication middleware.

On the client side it covers:

- the task cache that the React context keeps;
- the filter and pagination logic of the task list page;
- the task form and its submit handler;
- the task card's toggle, badges, overdue flag and labels;
- the dashboard's greeting, recent tasks, stat cards and completion rate;
- the profile form's rules, including its email pattern.

Each source file is one module:

| file | module | what it holds |
|---|---|---|
| `js.dfy` | `Js` | the JavaScript runtime pieces every module uses: option values, JSON values and falsiness, `trim`, ASCII case mapping, `split` |
| `task_model.dfy` | `TaskSchema` | `server/models/Task.js` |
| `task_query.dfy` | `TaskQuery` | how the document store answers a `find().sort().limit().skip()` query |
| `task_controller.dfy` | `TaskController` | `server/controllers/taskController.js`: a `TaskStore` class holding the collection as a map from id to document |
| `validation.dfy` | `Validation` | `server/middleware/validation.js` |
| `auth.dfy` | `Auth` | `server/middleware/auth.js`: a `Request` class whose `user` field the middleware sets |
| `task_context.dfy` | `TaskContext` | `client/src/contexts/TaskContext.jsx`: a `TaskProvider` class with the `tasks`, `stats`, `pagination` and `loading` state |
| `tasks_page.dfy` | `TasksPage` | `client/src/pages/Tasks.jsx` |
| `task_modal.dfy` | `TaskModal` | `client/src/components/TaskModal.jsx` |
| `task_card.dfy` | `TaskCard` | `client/src/components/TaskCard.jsx` |
| `dashboard.dfy` | `Dashboard` | `client/src/pages/Dashboard.jsx` |
| `profile.dfy` | `Profile` | `client/src/pages/Profile.jsx` |

Every async handler is split at its `await`. The part before the await is
one method. The part after it is a second method, whose parameter is what
the awaited call settled to. The database, `jwt.verify`, the user lookup
and express-validator's `isEmail`, `isISO8601` and `normalizeEmail` are
function parameters. Clocks are integer parameters.

Behaviours of the code that the model keeps, and that a reader of the
design might not expect:

- **Two-valued status enum.** The status enum literal in `server/models/Task.js:18` has an empty middle slot, so the schema admits only "pending" and "completed". The request rules and the client both name a third status, "in-progress". The model follows the code: a create or update that asks for "in-progress" is refused by the schema with a 500.
- **Validation is not enforced.** `handleValidationErrors` is not exported (`server/middleware/validation.js:185-190`). The task routes list only `validateTask` (`server/routes/tasks.js:18,25`). Nothing reads the rule sets' errors, so they are stated as rules and no handler depends on them.
- **Client stats cover one page.** `fetchTaskStats` asks for the list with no parameters. The server then answers with at most 10 tasks, so the client's totals count only those 10.
- **The card's toggle never alerts.** The toggle's `alert` path is unreachable, because the context's `updateTask` catches every error.
- **The form's length check is dead.** The task form's own title length check cannot fire, because the form library already bounds the untrimmed title.
- **Profile submit can stay loading.** The profile page's submit has no `finally`, so a rejected update leaves `loading` set.
- **Name length, client against server.** The profile form counts the name's length untrimmed. The server trims the name first.

## Model

| member | source | states |
|---|---|---|
| Js.TrimEmptyIffBlank | server/middleware/validation.js:158-159 | `trim()` yields "" exactly when every character is white space |
| Js.TrimIdempotent | server/models/Task.js:8 | trimming twice is trimming once |
| Js.TrimIsInfix | server/models/Task.js:8 | the trim is the infix after the leading white space, and only white space follows it |
| Js.TrimFixedPoint | server/models/Task.js:8 | a string with no white space at either end is its own trim |
| Js.ContainsInfix | server/controllers/taskController.js:20-24 | any piece of a string is found in it by the case-insensitive search |
| Js.ContainsIgnoreCaseOfLowered | server/controllers/taskController.js:22-23 | the `"i"` flag ignores the case of the term's letters |
| Js.JoinSplit | server/middleware/auth.js:11 | joining the pieces of `split(" ")` with the separator gives the string back |
| Js.SplitAfterFirst | server/middleware/auth.js:11 | a first piece without the separator, then the separator, splits into that piece and the split of the rest |
| Js.Capitalize | client/src/components/TaskCard.jsx:139-140 | the first character is upper-cased and the rest is kept |
| Js.ToString | server/middleware/validation.js:107-108 | validators see a string as it is and `undefined` or `null` as "" |
| Js.Split | server/middleware/auth.js:11 | `split` gives at least one piece, no piece holds the separator, and more than one exactly when the string has it |
| Js.SplitWithoutSeparator | server/middleware/auth.js:11 | a string without the separator is a single piece |
| TaskSchema.StatusEnumIsTwoValued | server/models/Task.js:18 | the enum with a hole admits exactly "pending" and "completed" |
| TaskSchema.FailingPaths | server/models/Task.js:5-39 | each path's validator fails exactly when its constraint is broken: title required and at most 100, description at most 500, status and priority in their enums, category at most 50, owner required |
| TaskSchema.ApplySchema | server/models/Task.js:3-48 | a created document is trimmed, takes the defaults "pending", "medium" and "General", satisfies every constraint; a refusal is non-empty and names the title, status, priority and owner paths exactly when they fail |
| TaskSchema.PassingIsValid | server/models/Task.js:3-39 | a document on which no validator fails is schema-valid |
| TaskSchema.DefaultsForTitleOnly | server/models/Task.js:16-34 | a body with only a title gets status "pending", priority "medium", category "General" and the trimmed title |
| TaskSchema.BlankTitleRefused | server/models/Task.js:7-8 | a whitespace-only title is trimmed to "" and refused as missing |
| TaskSchema.InProgressRefused | server/models/Task.js:18 | a document asking for "in-progress" is refused |
| TaskQuery.InIdOrder | server/controllers/taskController.js:27 | the natural order holds exactly the stored documents, by increasing id |
| TaskQuery.Select | server/controllers/taskController.js:27 | `find(query)` returns exactly the documents that satisfy the criteria, in the order given |
| TaskQuery.ParseSort | server/controllers/taskController.js:12-28 | a leading "-" asks for descending order of the field named after it |
| TaskQuery.StrLeTotal | server/controllers/taskController.js:28 | string order is total |
| TaskQuery.StrLeTransitive | server/controllers/taskController.js:28 | string order is transitive |
| TaskQuery.KeyLeTotal | server/controllers/taskController.js:28 | sort-key order is total, with missing values first |
| TaskQuery.KeyLeTransitive | server/controllers/taskController.js:28 | sort-key order is transitive |
| TaskQuery.BeforeTotal | server/controllers/taskController.js:28 | any two documents are comparable under a sort specification |
| TaskQuery.BeforeTransitive | server/controllers/taskController.js:28 | the sort order is transitive, ascending or descending |
| TaskQuery.Insert | server/controllers/taskController.js:28 | inserting into a sorted sequence keeps it sorted and adds exactly the one document |
| TaskQuery.Sort | server/controllers/taskController.js:28 | `sort(sort)` returns a sorted permutation of its input |
| TaskQuery.SortedPairwise | server/controllers/taskController.js:28 | in a sorted sequence every document may precede every later one |
| TaskQuery.PageOf | server/controllers/taskController.js:29-30 | `skip(s).limit(n)` is the slice starting at `s` of at most `n` documents; a limit of 0 means no limit |
| TaskQuery.PageCount | server/controllers/taskController.js:39 | `ceil(total / limit)` is the least page count covering `total`; it is 0 exactly when nothing matches, and null for a limit of 0 |
| TaskQuery.CeilDivBounds | server/controllers/taskController.js:39 | the integer ceiling bounds `total` from above within one page |
| TaskController.Filter | server/controllers/taskController.js:17-19 | a filter takes part exactly when its parameter is truthy |
| TaskController.ListCriteria | server/controllers/taskController.js:15-25 | the criteria always name the caller; status, priority, category and search are present exactly when the query parameter is truthy, and then carry its value |
| TaskController.EmptyFilterIsAbsent | server/controllers/taskController.js:17-25 | an empty filter selects the same documents as an absent one |
| TaskController.NoFilterSelectsOwner | server/controllers/taskController.js:15 | with no filters exactly the caller's documents are selected |
| TaskController.SearchMatchesTitleOrDescription | server/controllers/taskController.js:20-24 | a term found in the title or in the description selects the caller's document |
| TaskController.ListSpec | server/controllers/taskController.js:3-48 | the answer to a list query: a negative skip is a 500; otherwise `page` defaults to 1, `total` counts every match, `count` is the page's length, `pages` is `ceil(total / limit)`, and the data is the slice at `(page-1)*limit` of the sorted matches, all of them the caller's |
| TaskController.TaskStore.List | server/controllers/taskController.js:3-48 | the handler builds the criteria field by field and answers exactly `ListSpec` over the stored documents |
| TaskController.TaskStore.Documents | server/controllers/taskController.js:27 | the collection in natural order holds exactly the stored documents |
| TaskController.TaskStore.constructor | server/models/Task.js:57 | the collection starts empty and valid |
| TaskController.TaskStore.Get | server/controllers/taskController.js:51-80 | an absent id is a 404 "Task not found", another owner's task is a 403, and the caller's task is returned with 200 |
| TaskController.TaskStore.Create | server/controllers/taskController.js:82-99 | the owner is forced to the caller; a document the schema accepts is stored under a fresh id with 201; a refusal is a 500 and changes nothing |
| TaskController.TaskStore.Update | server/controllers/taskController.js:101-144 | 404 and 403 change nothing; otherwise only the status (and update time) is written, a string status as sent, else a toggle; a status outside the enum is a 500 and changes nothing |
| TaskController.TaskStore.Delete | server/controllers/taskController.js:146-177 | 404 and 403 change nothing; otherwise exactly the target document is removed |
| TaskController.TaskStore.Stats | server/controllers/taskController.js:179-234 | the corrected statistics over the caller's documents: no "in-progress", pending plus completed is the total, the priorities sum to the total, and the total is the caller's unfiltered list size |
| TaskController.Toggle | server/controllers/taskController.js:123 | "completed" becomes "pending", everything else "completed" |
| TaskController.RequestedStatus | server/controllers/taskController.js:119-124 | a string status in the body is taken as sent; otherwise the current status is toggled |
| TaskController.ToggleTwice | server/controllers/taskController.js:123 | a toggle always lands in the enum, and two toggles return a stored status to itself |
| TaskController.StoreValidAfterPut | server/controllers/taskController.js:126-130 | storing a schema-valid document under its id keeps the store valid |
| TaskController.StatusChangeKeepsSchema | server/controllers/taskController.js:126-130 | writing a status the enum admits keeps a document schema-valid |
| TaskController.StoreValidAfterRemove | server/controllers/taskController.js:164 | removing a document keeps the store valid |
| TaskController.PageOfSortedIsSorted | server/controllers/taskController.js:28-30 | a page of sorted matches is sorted |
| TaskController.PageMembers | server/controllers/taskController.js:27-30 | every document on a page is one of the matches |
| TaskController.UnlimitedPageHoldsAllMatches | server/controllers/taskController.js:29-30 | with no skip and no limit the page is a permutation of all matches |
| TaskController.Tally | server/controllers/taskController.js:185-208 | the group counts every input document once, and each status and priority count is at most the total |
| TaskController.TallyOfValid | server/controllers/taskController.js:185-208 | over schema-valid documents nothing is "in-progress", pending plus completed is the total, and the priorities sum to it |
| TaskController.MatchOwner | server/controllers/taskController.js:184 | `$match` keeps exactly the documents whose owner matches the argument |
| TaskController.StatsOver | server/controllers/taskController.js:183-221 | the statistics' total is the number of documents the match kept |
| TaskController.NothingMatchesAString | server/controllers/taskController.js:181-184 | a string id never equals a stored owner id, so the as-written match keeps nothing |
| TaskController.StatsAsWrittenAlwaysZero | server/controllers/taskController.js:181-221 | as written, every count is 0 whatever the caller owns |
| TaskController.StatsAsWrittenMissesOwnedTask | server/controllers/taskController.js:181-221 | for one owned task the corrected total is 1 and the as-written total 0 |
| TaskController.NoOwnedNoMatch | server/controllers/taskController.js:184 | with no owned document the corrected match keeps nothing |
| TaskController.StatsForCountsOwned | server/controllers/taskController.js:183-221 | the corrected total counts the caller's documents: all zeros exactly when there are none, positive when there is one |
| TaskController.StatsMatchIsUnfilteredList | server/controllers/taskController.js:184 | the corrected match selects what the list selects with no filters |
| Validation.Field | server/middleware/validation.js:106 | a field the body lacks reads as `undefined` |
| Validation.TrimValue | server/middleware/validation.js:107 | the `trim()` sanitizer writes back the trimmed string form of the value |
| Validation.Check | server/middleware/validation.js:108-109 | a validator leaves the value and records one error with its path, message and value exactly when it fails |
| Validation.OptionalFalsy | server/middleware/validation.js:140 | `optional({ nullable, checkFalsy })` skips the rest of the chain on a falsy value; the test is repeated after a sanitizer that can make the value falsy |
| Validation.TrimmedLengthChain | server/middleware/validation.js:106-109 | `trim().isLength({min, max})` accepts exactly a trimmed length in range, with one error otherwise |
| Validation.RequiredEmailChain | server/middleware/validation.js:110-117 | a missing email gives only "Email is required", an invalid one only "Please enter a valid email", a valid one is normalised |
| Validation.EmailChain | server/middleware/validation.js:144-149 | an email is accepted exactly when valid, then normalised |
| Validation.RequiredPasswordChain | server/middleware/validation.js:118-123 | a password must exist, then have at least 6 characters, with one error at most |
| Validation.ChoiceChain | server/middleware/validation.js:168 | `isIn` accepts exactly the listed choices |
| Validation.TrimmedMaxChain | server/middleware/validation.js:163-164 | `trim().isLength({max})` accepts exactly a trimmed length within the bound |
| Validation.AllErrors | server/middleware/validation.js:85 | a rule set has no errors exactly when none of its chains has |
| Validation.Store | server/middleware/validation.js:107 | after a sanitizer the field holds the chain's value, and gains a key when that value is defined; every other field is unchanged |
| Validation.WriteBack | server/middleware/validation.js:107 | writing back keeps the body's keys, and a field no chain names keeps its value and its presence |
| Validation.WriteBackOwnValue | server/middleware/validation.js:105-124 | in a rule set with distinct fields, each field ends up holding its own chain's value |
| Validation.WriteBackUnchanged | server/middleware/validation.js:105-124 | chains that keep their values leave the body as it was |
| Validation.WellFormedTwo | server/middleware/validation.js:126-136 | two chains on distinct fields each tagging their errors form a rule set |
| Validation.WellFormedThree | server/middleware/validation.js:105-124 | three such chains form a rule set |
| Validation.WellFormedSix | server/middleware/validation.js:156-183 | six such chains form a rule set |
| Validation.RegisterChains | server/middleware/validation.js:105-124 | the register chains are name, email and password, each tagging its own errors |
| Validation.LoginChains | server/middleware/validation.js:126-136 | the login chains are email and password |
| Validation.UpdateProfileChains | server/middleware/validation.js:138-154 | the profile chains are name, email and password on distinct fields; the name's optional test is repeated after `trim()` |
| Validation.TitleChain | server/middleware/validation.js:157-160 | the title chain tags its errors with the title |
| Validation.DescriptionChain | server/middleware/validation.js:161-165 | the description chain tags its errors with the description |
| Validation.StatusChain | server/middleware/validation.js:166-169 | the status chain tags its errors with the status |
| Validation.PriorityChain | server/middleware/validation.js:170-173 | the priority chain tags its errors with the priority |
| Validation.CategoryChain | server/middleware/validation.js:174-178 | the category chain tags its errors with the category |
| Validation.DueDateChain | server/middleware/validation.js:179-182 | the due-date chain tags its errors with the due date |
| Validation.TaskChains | server/middleware/validation.js:156-183 | the task chains are six chains on distinct fields |
| Validation.ErrorsFor | server/middleware/validation.js:88 | a field's errors are exactly the errors with its path |
| Validation.ErrorsForConcat | server/middleware/validation.js:88 | a field's errors of two lists are its errors of each, in order |
| Validation.ErrorsForTagged | server/middleware/validation.js:88 | errors all on one path are that path's errors and no other's |
| Validation.ErrorsOfChain | server/middleware/validation.js:85-88 | in a rule set, the errors recorded for a chain's field are exactly that chain's errors |
| Validation.NoErrorsOfOtherPath | server/middleware/validation.js:85-88 | a field no chain names has no errors |
| Validation.RegisterNameRule | server/middleware/validation.js:106-109 | register: the name is accepted exactly when its trim has 2 to 50 characters |
| Validation.RegisterEmailRules | server/middleware/validation.js:110-117 | register: missing gives only "Email is required", invalid only "Please enter a valid email", valid no error |
| Validation.RegisterPasswordRule | server/middleware/validation.js:118-123 | register: the password is accepted exactly when present with at least 6 characters |
| Validation.RegisterAcceptsIff | server/middleware/validation.js:105-124 | register accepts a body exactly when all three rules hold |
| Validation.LoginRules | server/middleware/validation.js:126-136 | login: the email follows the register rule; the password only has to exist |
| Validation.UpdateProfileSkipsFalsy | server/middleware/validation.js:138-154 | profile update: a falsy field is skipped, and a body with all three falsy passes unchanged |
| Validation.UpdateProfileUsesRegisterRules | server/middleware/validation.js:138-154 | profile update: a truthy field gets exactly the register errors, a name only when its trim is truthy too |
| Validation.UpdateProfileNameRule | server/middleware/validation.js:139-143 | profile update: the name is accepted exactly when it is falsy, trims to "", or its trim has 2 to 50 characters |
| Validation.UpdateProfileBlankNameStoredEmpty | server/middleware/validation.js:139-143 | profile update: a name of white space only is no error and is stored as "" |
| Validation.TaskTitleRule | server/middleware/validation.js:157-160 | task: the title is accepted exactly when its trim has 1 to 100 characters |
| Validation.TaskStatusRule | server/middleware/validation.js:166-169 | task: the status is accepted exactly when falsy or one of the three listed statuses |
| Validation.TaskDescriptionRule | server/middleware/validation.js:161-165 | task: the description is accepted exactly when falsy or its trim has at most 500 characters |
| Validation.TaskPriorityRule | server/middleware/validation.js:170-173 | task: the priority is accepted exactly when falsy or one of low, medium and high |
| Validation.TaskCategoryRule | server/middleware/validation.js:174-178 | task: the category is accepted exactly when falsy or its trim has at most 50 characters |
| Validation.TaskTrimmedChainsNeedNoRecheck | server/middleware/validation.js:161-178 | task: repeating the optional test after `trim()` leaves the description and category chains as they are |
| Validation.TaskDueDateRule | server/middleware/validation.js:179-182 | task: the due date is accepted exactly when falsy or an ISO 8601 date |
| Validation.AbsentTitleStoredEmpty | server/middleware/validation.js:156-159 | task: a body without a title leaves validation with the title "" |
| Validation.TaskOptionalFieldsSkipFalsy | server/middleware/validation.js:161-182 | task: each optional field that is falsy has no error |
| Validation.StatusRuleWiderThanSchema | server/middleware/validation.js:168 | "in-progress" passes the request rule but not the schema's enum |
| Validation.TitleRuleAgreesWithSchema | server/middleware/validation.js:157-160 | a string title passes the request rule exactly when the schema accepts its trim |
| Validation.HandleValidationErrors | server/middleware/validation.js:83-103 | no errors calls next; otherwise a 422 "Validation Error" with one `{field, message, value}` per error, in order |
| Auth.SecondPiece | server/middleware/auth.js:11 | the second space-separated piece, absent exactly when there is no space |
| Auth.Request.constructor | server/middleware/auth.js:4 | a request carries its header and cookies and no user yet |
| Auth.TokenOf | server/middleware/auth.js:7-15 | a truthy header token wins; otherwise the cookie's token, and a chosen token is never empty |
| Auth.Request.Protect | server/middleware/auth.js:4-53 | the token is picked step by step and the reply is the decision on it; the user is attached only when the request goes on |
| Auth.BearerHeaderWins | server/middleware/auth.js:7-12 | "Bearer <token>" yields the token whatever the cookie says |
| Auth.DoubleSpaceFallsBackToCookie | server/middleware/auth.js:11-15 | a header with two spaces after "Bearer" yields "" and the cookie is used |
| Auth.RepliesByCase | server/middleware/auth.js:16-52 | no token, an expired token, another verification failure and a missing user each get their 401 message; a failing lookup gets a 500 |
| Auth.NextIffAuthenticated | server/middleware/auth.js:36-45 | the request goes on exactly when a user is attached, and that user is the one the token's id looks up |
| Auth.RefusalCodes | server/middleware/auth.js:16-52 | every refusal is a 401, except the 500 for exactly a failing lookup |
| TaskContext.TaskProvider.constructor | client/src/contexts/TaskContext.jsx:16-23 | an empty list, not loading, zero stats, page 1 of 1 of 0 |
| TaskContext.TaskProvider.FetchTasksBegin | client/src/contexts/TaskContext.jsx:26 | loading starts |
| TaskContext.TaskProvider.FetchTasksSettle | client/src/contexts/TaskContext.jsx:27-43 | a fetched page replaces the list and the pagination; a failure keeps both; loading ends on every path |
| TaskContext.TaskProvider.FetchTaskStats | client/src/contexts/TaskContext.jsx:46-62 | the stats become those of the fetched list; a failure keeps them |
| TaskContext.TaskProvider.CreateTask | client/src/contexts/TaskContext.jsx:64-78 | a created task is prepended; a failure keeps the list and returns the rejection's message or "Failed to create task" |
| TaskContext.TaskProvider.UpdateTask | client/src/contexts/TaskContext.jsx:80-94 | the tasks with the id are replaced; a failure keeps the list and returns the message or "Failed to update task" |
| TaskContext.TaskProvider.DeleteTask | client/src/contexts/TaskContext.jsx:96-108 | the tasks with the id are dropped; a failure keeps the list and returns the message or "Failed to delete task" |
| TaskContext.TaskProvider.GetTask | client/src/contexts/TaskContext.jsx:110-119 | the fetched task, or the message or "Failed to get task" |
| TaskContext.FailedWith | client/src/contexts/TaskContext.jsx:74-76 | a failed result carries the message when truthy, else the fallback |
| TaskContext.ReplaceById | client/src/contexts/TaskContext.jsx:83-85 | the map keeps the list's length |
| TaskContext.ReplaceByIdChangesOnlyMatches | client/src/contexts/TaskContext.jsx:83-85 | exactly the elements with the id become the update; the others stay in place; an absent id changes nothing |
| TaskContext.RemoveById | client/src/contexts/TaskContext.jsx:99 | the filter keeps exactly the tasks with another id |
| TaskContext.RemoveByIdOfConcat | client/src/contexts/TaskContext.jsx:99 | the filter works piecewise, so the order of what remains is kept |
| TaskContext.RemoveAbsentId | client/src/contexts/TaskContext.jsx:99 | deleting an id nothing has changes nothing |
| TaskContext.RemoveByIdCount | client/src/contexts/TaskContext.jsx:99 | a delete drops exactly as many tasks as have the id |
| TaskContext.CreateThenDeleteRestores | client/src/contexts/TaskContext.jsx:69-99 | deleting a just-created task with a fresh id restores the list |
| TaskContext.DeleteAfterUpdate | client/src/contexts/TaskContext.jsx:83-99 | updating a task and then deleting it is deleting it |
| TaskContext.NotCompleted | client/src/contexts/TaskContext.jsx:49-51 | the filter keeps exactly the tasks not "completed" |
| TaskContext.NotCompletedCount | client/src/contexts/TaskContext.jsx:49-56 | the tasks not completed and the completed ones make up the list |
| TaskContext.StatsOfCounts | client/src/contexts/TaskContext.jsx:52-57 | total is the list's length, completed counts "completed", pending the rest, "in-progress" included |
| TaskContext.StatusCountsBounded | client/src/contexts/TaskContext.jsx:49-57 | the three status counts together are at most the list's length |
| TaskContext.FetchedStatsCoverFirstPage | client/src/contexts/TaskContext.jsx:48 | the stats' total is the smaller of 10 and the number of the caller's tasks |
| TasksPage.TasksPage.constructor | client/src/pages/Tasks.jsx:11-17 | all four filters empty and page 1 |
| TasksPage.Spread | client/src/pages/Tasks.jsx:21-24 | the spread has the four filters, the page and the limit |
| TasksPage.NonEmpty | client/src/pages/Tasks.jsx:26-30 | exactly the keys whose value is not "" remain, with their values |
| TasksPage.BuildParams | client/src/pages/Tasks.jsx:20-33 | the delete loop leaves exactly the spread's keys whose value is not "" |
| TasksPage.ParamsKeepNonEmptyFilters | client/src/pages/Tasks.jsx:21-30 | page and limit 10 are always sent, and a filter key exactly when the filter is not empty |
| TasksPage.SentQueryMatchesFilters | client/src/pages/Tasks.jsx:20-33 | the server builds the same criteria from the sent parameters as from all four filters |
| TasksPage.TasksPage.HandleFilterChange | client/src/pages/Tasks.jsx:35-41 | the key takes the value and the page goes back to 1 |
| TasksPage.Changed | client/src/pages/Tasks.jsx:35-41 | the changed key holds the value, the page is 1, and every other filter is kept |
| TasksPage.ChangeOverrides | client/src/pages/Tasks.jsx:35-41 | setting a filter twice is setting it to the second value |
| TasksPage.TasksPage.HandlePageChange | client/src/pages/Tasks.jsx:43-48 | only the page changes |
| TasksPage.TasksPage.ClearFilters | client/src/pages/Tasks.jsx:50-58 | all four filters empty and page 1 |
| TasksPage.BadgeCount | client/src/pages/Tasks.jsx:114-118 | the badge counts at most three filters |
| TasksPage.BadgeAndActiveFilters | client/src/pages/Tasks.jsx:60-118 | filters are active exactly when the search or a badge filter is set; cleared filters are inactive |
| TasksPage.RangeCountsPage | client/src/pages/Tasks.jsx:226-230 | for a non-empty page the server answered, the displayed range counts exactly the tasks on it |
| TasksPage.LastPageEndsAtTotal | client/src/pages/Tasks.jsx:215-230 | when Next is disabled, the range ends at the total |
| TaskModal.FormErrorsOf | client/src/components/TaskModal.jsx:148-222 | the title is required and at most 100 as typed, the description at most 500, the category at most 50 |
| TaskModal.TrimmedOrAbsent | client/src/components/TaskModal.jsx:81-84 | the trimmed value, or undefined when empty, is a non-empty trimmed value, or absent exactly when the trim is empty |
| TaskModal.TaskModal.constructor | client/src/components/TaskModal.jsx:7-10 | the modal keeps the edited task, is not loading and shows no error |
| TaskModal.TaskModal.SubmitBegin | client/src/components/TaskModal.jsx:58-93 | a blank title is "Title is required", a trimmed title over 100 a length error, both send nothing; otherwise the title error is cleared and the payload is sent as an update of the edited task or as a create |
| TaskModal.TaskModal.SubmitSettle | client/src/components/TaskModal.jsx:95-112 | a success closes the modal and clears the title error; a failure shows its message or "Failed to save task"; a throw shows "An unexpected error occurred"; loading ends on every path |
| TaskModal.BlankTitleReachesHandler | client/src/components/TaskModal.jsx:62-69 | a whitespace-only title passes `required` and the handler refuses it |
| TaskModal.LengthCheckUnreachable | client/src/components/TaskModal.jsx:70-77 | a form that reaches the handler has a trimmed title of at most 100, so the length check never fires |
| TaskModal.PayloadFitsSchema | client/src/components/TaskModal.jsx:79-86 | the payload's title, description and category are trimmed and within the schema's limits; an empty due date is left out; priority and status default to "medium" and "pending" |
| TaskCard.NextStatus | client/src/components/TaskCard.jsx:23 | "pending" exactly for a completed task, "completed" otherwise |
| TaskCard.TaskCard.constructor | client/src/components/TaskCard.jsx:17 | no toggle in flight |
| TaskCard.TaskCard.ToggleBegin | client/src/components/TaskCard.jsx:20-28 | a toggle in flight makes the call do nothing; otherwise one is marked in flight and the next status is requested |
| TaskCard.TaskCard.ToggleSettle | client/src/components/TaskCard.jsx:33-35 | the in-flight flag is cleared |
| TaskCard.ToggleAgreesWithServer | client/src/components/TaskCard.jsx:23 | the card requests what the server's toggle would pick, the server stores it as sent, and the enum admits it |
| TaskCard.ToggleTwiceOnCard | client/src/components/TaskCard.jsx:23 | two toggles restore "pending" or "completed", and turn "in-progress" into "pending" |
| TaskCard.PriorityColor | client/src/components/TaskCard.jsx:44-55 | any priority but "high" and "medium" gets the gray default |
| TaskCard.StatusColor | client/src/components/TaskCard.jsx:57-68 | a status gets the gray default exactly when it is none of the three |
| TaskCard.ColoursDistinguish | client/src/components/TaskCard.jsx:44-68 | the three statuses get three colours; high and medium differ from each other and from low, whose colour is the default |
| TaskCard.OverdueProperties | client/src/components/TaskCard.jsx:70-73 | a completed task is never overdue, an overdue task stays overdue later, and toggling it clears the flag |
| TaskCard.ReplaceFirstDash | client/src/components/TaskCard.jsx:131 | the replace keeps the length and changes nothing without a dash |
| TaskCard.ReplaceFirstDashAt | client/src/components/TaskCard.jsx:131 | only the first dash becomes a space |
| TaskCard.StatusLabel | client/src/components/TaskCard.jsx:130-131 | the label keeps the status's length |
| TaskCard.StatusLabelOfDashed | client/src/components/TaskCard.jsx:130-131 | the first character is upper-cased and the first dash becomes a space, later dashes kept |
| TaskCard.StatusLabelWithoutDash | client/src/components/TaskCard.jsx:130-131 | without a dash only the first character is upper-cased |
| TaskCard.PendingLabel | client/src/components/TaskCard.jsx:130-131 | "pending" shows as "Pending" |
| TaskCard.CompletedLabel | client/src/components/TaskCard.jsx:130-131 | "completed" shows as "Completed" |
| TaskCard.PriorityLabel | client/src/components/TaskCard.jsx:139-140 | the label keeps the priority's length |
| TaskCard.PriorityLabels | client/src/components/TaskCard.jsx:139-140 | "low", "medium" and "high" show as "Low", "Medium" and "High" |
| Dashboard.Greeting | client/src/pages/Dashboard.jsx:56-61 | "Good morning" exactly before 12, "Good afternoon" exactly from 12 to before 17, "Good evening" exactly from 17 |
| Dashboard.GreetingMonotone | client/src/pages/Dashboard.jsx:56-61 | as the hour grows the greeting never goes back |
| Dashboard.RecentTasks | client/src/pages/Dashboard.jsx:28-30 | the recent tasks are the first `min(5, n)` tasks, in order |
| Dashboard.Dashboard.constructor | client/src/pages/Dashboard.jsx:19 | the recent tasks start empty |
| Dashboard.Dashboard.SyncRecent | client/src/pages/Dashboard.jsx:28-30 | the effect sets the recent tasks to the list's prefix |
| Dashboard.RecentOfShort | client/src/pages/Dashboard.jsx:29 | a list of at most five is its own prefix, and taking it twice takes nothing more |
| Dashboard.RecentIsFetchedPage | client/src/pages/Dashboard.jsx:23-29 | the server answers the dashboard's query with at most five tasks, so the recent list is all of them |
| Dashboard.CardValue | client/src/pages/Dashboard.jsx:35-51 | a falsy stat shows as 0, anything else unchanged |
| Dashboard.CardsShowStats | client/src/pages/Dashboard.jsx:35-51 | the stats the cache computes show unchanged |
| Dashboard.CompletionRate | client/src/pages/Dashboard.jsx:130-132 | the rate is 0 without tasks, and otherwise the nearest integer to `100 * completed / total` (halves up) |
| Dashboard.CompletionRateBounds | client/src/pages/Dashboard.jsx:130-132 | for counts the rate is between 0 and 100, 100 when all are completed and 0 when none is |
| Dashboard.StatsRateIsPercentage | client/src/pages/Dashboard.jsx:130-132 | the rate of the cache's own stats is always a percentage |
| Profile.NameError | client/src/pages/Profile.jsx:75-85 | no error exactly when the name as typed has 2 to 50 characters; "Name is required" exactly for "" |
| Profile.EmailError | client/src/pages/Profile.jsx:105-111 | no error exactly when the pattern matches; "Email is required" exactly for "" |
| Profile.DefaultsWithoutUser | client/src/pages/Profile.jsx:17-20 | without a user both fields default to "" and are reported missing |
| Profile.EmailOKIffPattern | client/src/pages/Profile.jsx:108 | the pattern matches exactly a dotted name, one "@", a dotted domain and a final dot with 2 or 3 word characters |
| Profile.PatternIsEmailOK | client/src/pages/Profile.jsx:108 | a pattern match passes the shape check |
| Profile.EmailOKIsPattern | client/src/pages/Profile.jsx:108 | a string passing the shape check matches the pattern |
| Profile.EmailOKOfParts | client/src/pages/Profile.jsx:108 | a dotted name, "@" and a valid domain make a valid address |
| Profile.ChainIffDotted | client/src/pages/Profile.jsx:108 | `\w+([.-]?\w+)*` matches exactly words joined by single dots or dashes |
| Profile.DomainPartIffOK | client/src/pages/Profile.jsx:108 | the part after "@" matches exactly a dotted name ending in a dot and 2 or 3 word characters |
| Profile.DomainPartIsOK | client/src/pages/Profile.jsx:108 | a domain the pattern matches passes the domain check |
| Profile.TopLevelIsDomainPart | client/src/pages/Profile.jsx:108 | a dotted name with a 2- or 3-character top level matches the domain pattern |
| Profile.GroupsAfterDotted | client/src/pages/Profile.jsx:108 | a dotted name followed by `(\.\w{2,3})+` passes the domain check |
| Profile.DottedExtend | client/src/pages/Profile.jsx:108 | a dotted name followed by a dot group is dotted |
| Profile.RepeatIsClean | client/src/pages/Profile.jsx:108 | `([.-]?\w+)*` matches only word characters with each separator followed by a word character |
| Profile.CleanIsRepeat | client/src/pages/Profile.jsx:108 | every such string matches `([.-]?\w+)*` |
| Profile.CleanConcat | client/src/pages/Profile.jsx:108 | two such strings joined are one |
| Profile.CleanSuffix | client/src/pages/Profile.jsx:108 | a suffix of such a string is one |
| Profile.WordRunIsClean | client/src/pages/Profile.jsx:108 | a run of word characters is one |
| Profile.UnitIsClean | client/src/pages/Profile.jsx:108 | one `[.-]?\w+` is one and ends in a word character |
| Profile.DomainOKIsClean | client/src/pages/Profile.jsx:108 | a valid domain has only word characters and separators |
| Profile.CleanHasNoAt | client/src/pages/Profile.jsx:108 | such a string has no "@" |
| Profile.OnlyAt | client/src/pages/Profile.jsx:108 | between parts without "@", the joining "@" is the only one |
| Profile.TwoAtsRefused | client/src/pages/Profile.jsx:108 | an address with two "@" is refused |
| Profile.EmailAccepted | client/src/pages/Profile.jsx:108 | "a.b@c-d.io" is accepted |
| Profile.ShortTopLevelRefused | client/src/pages/Profile.jsx:108 | "a@b.c" is refused: the top level needs 2 or 3 characters |
| Profile.DoubleDotRefused | client/src/pages/Profile.jsx:108 | "a..b@c.io" is refused: two separators in a row |
| Profile.NameRulesDisagree | client/src/pages/Profile.jsx:75-85 | "  a " passes the form's untrimmed length rule and fails the server's trimmed one |
| Profile.AvatarInitial | client/src/pages/Profile.jsx:36 | the upper-cased first character of a truthy name, else "U"; one character, never a lower-case letter |
| Profile.ProfilePage.constructor | client/src/pages/Profile.jsx:9 | the page starts not loading |
| Profile.ProfilePage.Submit | client/src/pages/Profile.jsx:23-24 | a form with errors sends nothing; otherwise loading starts and the form is sent |
| Profile.ProfilePage.SubmitSettle | client/src/pages/Profile.jsx:25-26 | a settled update ends loading; a rejected one leaves it as it was |

## Findings

| source | as written | input that shows it | evidently intended | confidence | as-written member | corrected member |
|---|---|---|---|---|---|---|
| server/controllers/taskController.js:181-184 | `$match: { user: userId }` with `userId = req.user.id`, a string. Aggregation pipelines do not cast values to the schema's types, so a string never equals a stored `ObjectId`. The match keeps nothing and the fallback at 213-221 answers all zeros. | a caller who owns one task: the statistics say `total: 0` | match on the caller's id as an `ObjectId`, counting the caller's tasks | not executed | TaskController.StatsAsWrittenMissesOwnedTask | TaskController.StatsForCountsOwned |

`TaskController.StatsAsWritten` models the handler as written, and `TaskController.StatsAsWrittenAlwaysZero` proves that every count is then 0. `TaskController.TaskStore.Stats` uses the corrected `TaskController.StatsFor`.

## Left out

- I/O: toasts, `console` output and the `alert` call are left out. React's effect scheduling and re-rendering are left out too. Each state update is applied when its handler runs.
- The stats refresh is not awaited. `createTask`, `updateTask` and `deleteTask` call `fetchTaskStats()` without awaiting it. The model leaves that call to the caller, as a separate `FetchTaskStats` step.
- TaskCard.TaskCard.ToggleSettle: the catch branch with its `alert` is not modelled. The context's `updateTask` never throws, so that branch cannot run.
- Regular-expression semantics are limited. Category and search terms are modelled as plain substrings matched with ASCII case folding. Terms with RegExp metacharacters are left out.
- Case mapping covers ASCII letters only. Unicode case mapping and UTF-16 lengths are not modelled.
- Dates and the clock are integers. The current time and the hour are parameters. `toISOString` and the date-fns formatting are left out.
- The completion rate uses exact rationals, not floating point. The progress bar's width is not modelled.
- Mongoose casting of non-string values, malformed ids (a cast error is a 500), and the actual database calls are not modelled. The collection is a map from id to document. Its natural order is increasing id.
- `createdAt` and `updatedAt` are taken from the clock parameter.
- Foreign code is parameters. `jwt.verify`, the user lookup (`server/models/User.js` is not part of this model), `isEmail`, `isISO8601` and `normalizeEmail` are function parameters.
- `Validation.HandleValidationErrors` uses the error's path for `field`. The code reads `err.param`. No route uses the formatter.
- `client/src/contexts/AuthContext.jsx` (`updateProfile`) is not part of this model. The profile page's update is an outcome parameter.
- The browser's own `type="email"` check is not modelled.
- Profile.ProfilePage.SubmitSettle: a rejected update leaves `loading` as it was, because the handler has no `finally`. The error the rejection raises is not modelled.
- Sort ties are broken by increasing id. MongoDB leaves the order of equal sort keys unspecified.
- The sort string is read as one field with an optional leading `-`. A sort string naming several fields is not parsed.
- `page` and `limit` are integers. A non-numeric value is left out: `"abc" * 1` is `NaN` in server/controllers/taskController.js:29-30.
- Server wiring is not modelled: the app setup, the routes, the rate limiting and the client's layout and route guards.
