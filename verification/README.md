# GitActions webhook pipeline: a Dafny model

GitActions lets a user register a GitHub repository as a *project* and attach
*event triggers* to it. A trigger says "when this kind of GitHub event happens, run
this code file". This project models the parts of the system that hold logic, and
proves properties about them:

- **The inbound webhook handler** (`supabase/functions/github-webhook/index.ts`).
  A GitHub delivery passes three guards:
  - the `id` query parameter;
  - the payload and the `X-GitHub-Event` header;
  - the project whose stored `webhook_url` is exactly the inbound URL for that id.

  The handler then turns the raw event into a canonical event type, selects the
  project's active triggers of that exact type, and writes one `event_logs` row per
  trigger. Its answer is one result per trigger.
- **The webhook registrar** (`supabase/functions/create-webhook/index.ts`). It
  answers the CORS preflight and validates `{repo, events}`. It builds the inbound
  URL from a fresh id, checks that a GitHub token is configured, and asks GitHub to
  create the hook. It then stores the hook id and URL in every project row of that
  repository.
- **The project form** (`src/pages/CreateProject.tsx`). It checks the login, then
  checks the repository against `^[a-zA-Z0-9-_]+\/[a-zA-Z0-9-_]+$`, then calls
  `createProject` with a loading flag.
- **The project page** (`src/pages/ProjectDetail.tsx`). These are the state changes
  after loading a project, deleting it, setting up its webhook, and adding, updating
  or deleting a trigger.

How the model is built:

- The data store is a class `Database.Store` with three sequence fields. The two
  edge functions are methods that modify it.
- Each page is a class whose fields are the page's React state. Each store call the
  page makes is recorded in a `requests` or `calls` list, and each toast in
  `notices`.
- Everything the programs learn from outside is a parameter: answers of the data
  store, GitHub's reply, `crypto.randomUUID()`, the environment variables and the
  confirm dialogs.
- The JavaScript behaviour the code relies on is written out:
  - truthiness (`!payload`, `&& payload.ref_type`);
  - template-literal rendering, where `undefined` becomes "undefined";
  - `split("/")`;
  - `.single()`, which fails unless exactly one row matches;
  - `error.message || fallback`;
  - `Promise.all`, which rejects when one task rejects.
- A TypeError raised by the JavaScript engine itself has one constant message,
  `Http.EngineTypeError`. The cases are:
  - destructuring a `null` body;
  - `split` on a non-string `repo`;
  - `.toString()` of a missing or null hook id;
  - reading `message` from a `null` GitHub reply;
  - converting to a string a JSON object that has its own `toString` member, or an
    array holding one (`Json.Renderable`). Such a member is never a function, so the
    conversion raises. This applies to the `action` or `ref_type` in the event type,
    to GitHub's `message`, and to the hook id.
- Both edge functions create the data-store client with `Deno.env.get(...) ?? ""`
  for the URL and the service-role key. The client refuses an empty URL or key by
  raising, and the outer `catch` answers 500 with that message (`Rows.ClientError`).
  The inbound handler does this before the project lookup, and the registrar before
  the token check and the GitHub call.

The code is followed where it differs from the documented intent:

- A body that is not valid JSON makes `req.json()` throw. The outer `catch` then
  answers **500**, not 400 (`github-webhook/index.ts:21`, `:146-158`;
  `create-webhook/index.ts:21`, `:108-119`).
- The registrar does not check the `owner/repo` shape itself. A repository without
  '/' reaches GitHub with the repository name "undefined"
  (`Registrar.RepositoryWithoutSlashReachesGitHub`). Only the project form checks
  the shape.
- A pull request always becomes `"pull_request." + action`, even without an action
  (`Normalize.PullRequestWithoutAction`). The trigger type `pull_request.merged`,
  offered by the trigger form, is produced only for the literal action "merged"
  (`Normalize.MergedOnlyFromMergedAction`). A merge as GitHub reports it has the
  action "closed", so it normalises to `pull_request.closed`
  (`Normalize.MergedPullRequestIsClosed`).
- Projects are found by URL with `.single()`. When two projects share a repository,
  one registration gives both the same URL, and the inbound handler then finds
  neither project and answers 404 (`Registrar.SharedRepositoryIsNotFound`).
- An `event_logs` insert that the data store refuses comes back as an error value,
  and the code never inspects it. The trigger is then reported as a success with no
  log row (`Inbound.TaskWrites`, `Inbound.RefusedInsertIsSilentSuccess`).

## Model

| member | source | states |
|---|---|---|
| Json.MemberText | supabase/functions/github-webhook/index.ts:63-67 | a member read inside a template literal, when it converts without raising, renders an absent member as "undefined" and a string member as itself |
| Json.AsString | supabase/functions/create-webhook/index.ts:81-88 | `String(v)` for a value that converts without raising: a string is itself, an integer is `IntText` of it, a boolean "true" or "false", an object "[object Object]", an empty array "", and a one-item array its item |
| Json.NatText | supabase/functions/create-webhook/index.ts:88 | the decimal text of a natural number is digits only, has no leading zero, and reads back as the number |
| Json.IntText | supabase/functions/create-webhook/index.ts:88 | the text of an integer starts with '-' exactly when it is negative, and its digits read back as its magnitude |
| Text.Split | supabase/functions/create-webhook/index.ts:51 | `split` gives at least one piece, and no piece contains the separator. It gives a single piece exactly when the separator does not occur, and that piece is the whole string |
| Text.JoinSplit | supabase/functions/create-webhook/index.ts:51 | joining the pieces of `split` with the separator gives the original string back |
| Text.SplitAtFirst | supabase/functions/create-webhook/index.ts:51 | the first piece of `split` is the text before the first separator; the other pieces are those of the rest |
| Http.ErrorText | supabase/functions/github-webhook/index.ts:151 | the exception message or, when that is empty, the fallback; so with a non-empty fallback every 500 body carries a non-empty error text |
| Rows.WebhookUrl | supabase/functions/create-webhook/index.ts:41 | the inbound URL is the base URL, then the fixed path, then the id; its length is the sum of the three and it ends in the id |
| Rows.ClientError | supabase/functions/github-webhook/index.ts:35-38 | the client is created exactly when the URL and the service-role key are both set and non-empty. An empty or unset URL is reported first, then the key, and the error text is never empty |
| Rows.ConfiguredBaseUrl | supabase/functions/create-webhook/index.ts:34-41 | once the client exists, the base URL of the inbound URL is the configured URL and never "undefined" |
| Rows.WebhookUrlInjective | supabase/functions/github-webhook/index.ts:44 | under one environment, two ids that give the same inbound URL are equal |
| Database.Store.InsertLog | supabase/functions/github-webhook/index.ts:108-112 | an insert appends exactly that row to `event_logs` and leaves the other tables unchanged |
| Database.Store.UpdateWebhookWhereRepository | supabase/functions/create-webhook/index.ts:85-91 | the update makes the projects table `SetWebhookWhere` of the old one and leaves the events and logs tables unchanged |
| Database.SetWebhookWhere | supabase/functions/create-webhook/index.ts:85-91 | every row of the repository gets both webhook columns; every other row stays as it was; the length and order of rows are kept |
| Database.SetWebhookKeepsPairing | supabase/functions/create-webhook/index.ts:87-90 | the update keeps `webhook_id` and `webhook_url` both set or both null in every row |
| Database.SetWebhookIdempotent | supabase/functions/create-webhook/index.ts:85-91 | running the same update twice gives the same table as running it once |
| Database.ProjectsWithUrl | supabase/functions/github-webhook/index.ts:41-44 | the rows selected are exactly the rows whose `webhook_url` equals the URL, each as many times as the table holds it, so their number is the number of such rows in the table |
| Database.FindProject | supabase/functions/github-webhook/index.ts:41-45 | `.single()` finds a project exactly when one row has the URL; the project found is a row of the table with that URL |
| Normalize.CanonicalEventType | supabase/functions/github-webhook/index.ts:59-68 | the raw event is always a prefix of the canonical type; only pull_request, create and delete are ever refined or can raise; pull_request is never left as it is |
| Normalize.UnrenderableMemberRaises | supabase/functions/github-webhook/index.ts:62-68 | the normaliser raises exactly when the member it renders (a pull request's `action`, a create or delete's truthy `ref_type`) does not convert to a string |
| Normalize.ActionWithOwnToStringRaises | supabase/functions/github-webhook/index.ts:63 | a pull request whose payload is `{"action": {"toString": 1}}` raises |
| Normalize.PullRequestNamesAction | supabase/functions/github-webhook/index.ts:62-63 | a pull request with the string action `a` becomes "pull_request." + a |
| Normalize.PullRequestWithoutAction | supabase/functions/github-webhook/index.ts:62-63 | a pull request without an action becomes "pull_request.undefined" and is not rejected |
| Normalize.RefTypeSuffix | supabase/functions/github-webhook/index.ts:64-67 | create or delete with a non-empty string `ref_type` becomes "create." or "delete." followed by the ref type |
| Normalize.PassThrough | supabase/functions/github-webhook/index.ts:59-68 | any other raw event, and create or delete with a falsy or absent `ref_type`, comes back unchanged |
| Normalize.MergedOnlyFromMergedAction | supabase/functions/github-webhook/index.ts:59-68 | the type is "pull_request.merged" if and only if the action renders as "merged", or the raw header already is that string |
| Normalize.SelectableTypesReachable | src/components/EventForm.tsx:16-23 | every trigger type the dashboard offers is the canonical type of some delivery |
| Normalize.MergedPullRequestIsClosed | supabase/functions/github-webhook/index.ts:62-63 | a pull request with the action "closed", which is how GitHub reports a merge, becomes "pull_request.closed" and never "pull_request.merged" |
| Inbound.MatchingEvents | supabase/functions/github-webhook/index.ts:71-76 | a row is matched if and only if it is in the table, belongs to the project, has exactly that event type and is active |
| Inbound.MatchingEventsAppend | supabase/functions/github-webhook/index.ts:71-76 | matching keeps table order: matching a concatenation is the concatenation of the matches |
| Inbound.MatchingNoTriggers | supabase/functions/github-webhook/index.ts:89-97 | a project without trigger rows matches nothing |
| Inbound.Settle | supabase/functions/github-webhook/index.ts:101-133 | a task's result names its own trigger. It is a success exactly when its first insert did not raise, and a failure carries that exception's message. The task rejects exactly when both inserts raise |
| Inbound.TaskWrites | supabase/functions/github-webhook/index.ts:108-125 | a task writes at most one row, carrying its trigger's id and the payload verbatim. It writes none exactly when the first insert is refused, or raises and the error insert is not stored. The row has status "success" when the first insert did not raise, and otherwise status "error" with the exception's message |
| Inbound.RefusedInsertIsSilentSuccess | supabase/functions/github-webhook/index.ts:108-117 | a refused success insert is never inspected: the trigger is reported as a success and no log row is written |
| Inbound.TwoRaisesWriteNothing | supabase/functions/github-webhook/index.ts:118-125 | when both inserts raise, the task rejects with the second exception's message and writes no log row |
| Inbound.Settlements | supabase/functions/github-webhook/index.ts:100-134 | there is one settlement per matched trigger, in trigger order, and each one depends only on that trigger and its own insert outcomes |
| Inbound.Gather | supabase/functions/github-webhook/index.ts:100-101 | `Promise.all` gives every result in order exactly when no task rejects, and otherwise the message of a rejected task |
| Inbound.FanOutWritesBounded | supabase/functions/github-webhook/index.ts:100-134 | the fan-out writes at most one row per matched trigger, each carrying the payload and the id of a matched trigger |
| Inbound.ExpectedRow | supabase/functions/github-webhook/index.ts:108-125 | the row a landed insert writes carries the trigger's id and the payload. Its status is "success" exactly when the first insert did not raise, and otherwise "error" with that exception's message |
| Inbound.OneLogRowPerTrigger | supabase/functions/github-webhook/index.ts:100-134 | when every insert lands, the new log rows, taken as a multiset so in any order, are exactly one expected row per matched trigger |
| Inbound.LogRowAgreesWithResult | supabase/functions/github-webhook/index.ts:108-131 | a trigger whose insert lands writes exactly its expected row. The row's status is "success" or "error" as the trigger's result succeeded or failed, with the same error message |
| Inbound.ResultsFollowTriggers | supabase/functions/github-webhook/index.ts:127-139 | when no task rejects, `results` has one entry per matched trigger. Entry i names trigger i and succeeds exactly when its first insert did not raise |
| Inbound.Isolation | supabase/functions/github-webhook/index.ts:101-133 | one trigger's result does not depend on what happens to the inserts of the other triggers |
| Inbound.RejectionNeedsTwoRaises | supabase/functions/github-webhook/index.ts:118-125 | the handler can fail after the fan-out only when some trigger's success insert and error insert both raise |
| Inbound.RunTask | supabase/functions/github-webhook/index.ts:101-133 | one task settles as `Settle` says and appends exactly the rows `TaskWrites` says; projects and events are unchanged |
| Inbound.FanOut | supabase/functions/github-webhook/index.ts:100-134 | the loop settles every matched trigger as `Settlements` says. It keeps the earlier log rows in front and appends, as a multiset, exactly `FanOutWrites`. Projects and events are unchanged |
| Inbound.HandleDelivery | supabase/functions/github-webhook/index.ts:4-159 | covers every path. A missing id gives 400, a malformed body 500, a falsy payload or missing header 400, a store client that cannot be created 500 with the client's message, and a failed or non-single lookup 404. A member that the event type cannot render gives 500 with the TypeError. An events error gives 500 and no match gives 200 "No matching event configurations found". None of these writes a log. Otherwise it returns the fan-out's answer, and the new log rows are, as a multiset, the fan-out's rows. Projects and events never change |
| RepositoryName.AcceptedIsOwnerSlashName | src/pages/CreateProject.tsx:25 | every repository the pattern accepts is a non-empty owner segment, one '/', and a non-empty name segment, over letters, digits, '-' and '_' |
| RepositoryName.OwnerSlashNameIsAccepted | src/pages/CreateProject.tsx:25 | every such owner/name string is accepted by the pattern |
| RepositoryName.PatternMeaning | src/pages/CreateProject.tsx:25 | the pattern accepts a repository if and only if it is owner '/' name |
| RepositoryName.AcceptedSplitsInTwo | src/pages/CreateProject.tsx:25 | an accepted repository has exactly one '/'. Splitting on it gives exactly two non-empty segments, which join back to the repository |
| Registrar.OwnerAndName | supabase/functions/create-webhook/index.ts:51 | the owner is the text before the first '/' and the repository name the next piece, or "undefined" when there is no '/' |
| Registrar.PlannedCall | supabase/functions/create-webhook/index.ts:54-75 | the hook request subscribes exactly the given `events` list and carries the inbound URL of the fresh id |
| Registrar.HookId | supabase/functions/create-webhook/index.ts:88 | `webhookData.id.toString()` has a value exactly when the reply is an object whose `id` is present, not null, and converts without raising. A string id is stored as itself, and a non-negative numeric id as digits that read back as the number |
| Registrar.RefusalMessage | supabase/functions/create-webhook/index.ts:79-82 | a non-ok reply with a string `message` s gives "Failed to create GitHub webhook: " + s, and one without a `message` gives that prefix + "undefined". A null reply, or a `message` that does not convert, gives the TypeError instead |
| Registrar.Register | supabase/functions/create-webhook/index.ts:10-121 | covers every path. OPTIONS gives 204 and the CORS headers. Invalid parameters give 400. A store client that cannot be created gives 500 with the client's message, before any token check or GitHub call. A missing token, GitHub failure, hook id whose `.toString()` raises (absent, null, or an object with its own `toString`) or update error gives 500, with projects unchanged. Every non-preflight answer carries the CORS headers. GitHub is called exactly when the request is valid, the client was created, a token is set and `repo` is a string. Projects change only on 200, and then exactly by `SetWebhookWhere`. Events and logs never change |
| Registrar.RowsOfRepository | supabase/functions/create-webhook/index.ts:91 | the rows of a repository are exactly the rows whose `repository` equals it, each as many times as the table holds it |
| Registrar.RowsWithNewUrl | supabase/functions/create-webhook/index.ts:85-91 | if no row had the new URL before, then after the update the rows with the URL are exactly the repository's rows, updated |
| Registrar.RegisteredProjectIsFound | supabase/functions/github-webhook/index.ts:41-45 | a repository held by one project is registered with a fresh id. The inbound lookup for that id then finds that project, with the new webhook id and URL |
| Registrar.SharedRepositoryIsNotFound | supabase/functions/github-webhook/index.ts:41-56 | after registering a repository held by two or more projects, the inbound lookup finds none of them |
| Registrar.HookTargetsFormRepository | supabase/functions/create-webhook/index.ts:51-55 | for a repository the project form accepts, owner and name are non-empty and join back to the repository, so the endpoint is `/repos/<repository>/hooks` |
| Registrar.RepositoryWithoutSlashReachesGitHub | supabase/functions/create-webhook/index.ts:51-55 | a repository without '/' passes validation and reaches GitHub, with the repository as owner and "undefined" as name |
| TriggerList.UpdateById | src/pages/ProjectDetail.tsx:146-150 | the update keeps length and order. Rows with the id take the form's three fields, and every other row is unchanged |
| TriggerList.RemoveById | src/pages/ProjectDetail.tsx:173 | a row remains if and only if it was in the list and has another id |
| TriggerList.RemoveByIdAppend | src/pages/ProjectDetail.tsx:173 | the filter keeps order: filtering a concatenation is the concatenation of the filtered parts |
| TriggerList.RemoveByIdLength | src/pages/ProjectDetail.tsx:173 | exactly the rows carrying the id disappear: the length drops by their count |
| TriggerList.RemoveAfterAppend | src/pages/ProjectDetail.tsx:124 | deleting a trigger just added gives the list that deleting its id alone would give |
| TriggerList.RemoveAfterUpdate | src/pages/ProjectDetail.tsx:146-150 | updating and then deleting an id is the same as deleting it |
| TriggerList.UpdateByIdIdempotent | src/pages/ProjectDetail.tsx:146-150 | an update keeps every row's id, and repeating it changes nothing further |
| TriggerList.UpdateUnknownId | src/pages/ProjectDetail.tsx:146-150 | an update for an id no row carries leaves the list unchanged |
| CreateProjectPage.InsertRecord | src/pages/CreateProject.tsx:33-38 | the record carries the name, repository and user id; the description is absent exactly when it was empty, and otherwise it is kept |
| CreateProjectPage.CreateProjectForm.constructor | src/pages/CreateProject.tsx:9-12 | the form starts empty, not loading, with no calls made |
| CreateProjectPage.CreateProjectForm.Submit | src/pages/CreateProject.tsx:16-52 | with no user, or a repository the pattern rejects, it shows an error and makes no call, leaving `loading` as it was. Otherwise it makes one call with the record while loading, clears `loading`, and navigates to the new project or shows an error. Every project ever sent has an owner/name repository |
| ProjectDetailPage.ProjectDetailView.constructor | src/pages/ProjectDetail.tsx:14-20 | the page starts with no project, no triggers, loading, and no form open |
| ProjectDetailPage.ProjectDetailView.FetchProject | src/pages/ProjectDetail.tsx:24-53 | does nothing without an id. Otherwise it loads the project once and ends not loading. On an error it shows an error. With no data it shows "Project not found" and goes to /projects. On success it takes the project, and its triggers or [] |
| ProjectDetailPage.ProjectDetailView.DeleteProjectClicked | src/pages/ProjectDetail.tsx:55-75 | does nothing without an id or project, or when the user declines. Otherwise it deletes once, then goes to /projects, or shows an error and stays |
| ProjectDetailPage.ProjectDetailView.SetupWebhookClicked | src/pages/ProjectDetail.tsx:77-105 | does nothing without an id or project. Otherwise it requests exactly pull_request, push, create and delete for the project's repository and re-reads the project only after success. It takes the re-read project and always clears `setupWebhookLoading`. The trigger list is unchanged |
| ProjectDetailPage.ProjectDetailView.AddEvent | src/pages/ProjectDetail.tsx:107-131 | does nothing without an id or project. Otherwise it creates the trigger for this project. On success it appends the row at the end and closes the form. On an error the list and form are unchanged |
| ProjectDetailPage.ProjectDetailView.UpdateEventSubmitted | src/pages/ProjectDetail.tsx:133-159 | on success the list becomes `UpdateById` of it and the form closes with nothing being edited. On an error the list and form are unchanged |
| ProjectDetailPage.ProjectDetailView.DeleteEventClicked | src/pages/ProjectDetail.tsx:161-179 | does nothing when the user declines. On success the list becomes `RemoveById` of it. On an error the list is unchanged |

## Left out

- Inbound.FanOut: runs the tasks one after the other. Under `Promise.all` the tasks run concurrently. Its contract, that of `Inbound.HandleDelivery` and `Inbound.OneLogRowPerTrigger` therefore state the new log rows as a multiset, since the inserts land in any order. The order of `results` is the trigger order, as `Promise.all` keeps it. The model does not capture:
  - that on a rejection the 500 is sent before the other tasks finish, so some rows may land after the answer;
  - that when several tasks reject, the message is the one that comes first in time.
- Inbound.Gather: on a rejection it reports the first rejected task in trigger order, not the first to reject in time.
- Inbound.HandleDelivery: does not state that the guards answer before the data store is read. Reads are not observable in the model.
- Numbers in JSON are integers. JavaScript floats, and the exponent notation `String()` uses for magnitudes of 10^21 and above, are not modelled. This affects the rendering of a numeric `action`, `ref_type` or hook id.
- Registrar.RefusalMessage: no longer promises the "Failed to create GitHub webhook: " prefix for every non-null reply. A `message` that does not convert to a string raises a TypeError while the message is built, so the handler answers with the TypeError instead.
- The exact wording of TypeErrors raised by the JavaScript engine is engine-specific. All such errors share one constant message.
- The data store's own behaviour:
  - a failed query is an input flag, not derived from a connection;
  - the order in which rows come back is the table order;
  - ids and `created_at` values are generated by the store;
  - deleting a project does not cascade to its triggers in the model.
- The client library's checks beyond an empty URL or key (for example the form of the URL) are not modelled. Its two messages are the library's own wording.
- `fetch` to GitHub. Only its outcome is an input. The request headers (Accept, Authorization, API version) and the constant body fields `name`, `active`, `content_type` and `insecure_ssl` are not modelled.
- Console logging, which has no effect on responses or tables.
- The React render cycle, including the stale `events` closure when two handlers overlap, and all rendering and routing.
- `setupGitHubWebhook`, `getProject` and the other wrappers in `src/lib/supabase.ts` are not part of this model. The page's calls are recorded with the arguments the page passes, and their answers are inputs.
- `src/lib/env.ts` (schema validation) and `src/contexts/SettingsContext.tsx` (client setup) are not part of this model.
- The form state of `src/components/EventForm.tsx` is not part of this model. Only its list of trigger types (`Normalize.SelectableEventTypes`, used by `Normalize.SelectableTypesReachable`) and the shape of the data it submits are used.
