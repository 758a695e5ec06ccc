# NeoFi event scheduling, modelled in Dafny

NeoFi is a Flask REST service for calendar events. Its users share events with one
another under three roles (owner, editor, viewer), and every change to an event is
versioned. This project models the core of that service as Dafny datatypes, functions,
classes and methods, and proves properties about it:

- the role model and the route decorators that guard every handler;
- the API error classes;
- the input validators;
- events, their recurrence patterns and the JSON snapshot each version stores;
- versions and changelog entries, with the line diff between two snapshots and its
  HTML rendering;
- the sharing routes (share, list, update and remove permissions);
- the versioning routes (history, changelog, one version, rollback, compare);
- the event routes (create, list, get, update, delete, batch create).

The database is a `Store.Database` object. It holds the events by id, the grant table
keyed by (event id, user id), the user ids, the changelog rows and the next free primary
keys. Each event is an `EventModel.Event` object whose fields the routes update in place.
A route is one transaction, so every path that the source rolls back leaves the modelled
state unchanged. Handlers take the JWT identity as a parameter. They take the request body
as the loaded schema gives it, with absent keys as `None`.

Modules, one per file:

| file | module | source |
|---|---|---|
| wrappers.dfy | `Wrappers` | `Option` and `Result` |
| json.dfy | `JsonText` | JSON values; the lines of `json.dumps(..., indent=4)`; `json.loads` |
| permission.dfy | `Permissions` | app/models/permission.py |
| errors.dfy | `Errors` | app/utils/errors.py |
| decorators.dfy | `Decorators` | app/utils/decorators.py |
| validators.dfy | `Validators` | app/utils/validators.py |
| diff.dfy | `LineDiff` | the line diff `difflib.Differ` computes |
| version.dfy | `Versions` | app/models/version.py |
| event.dfy | `EventModel` | app/models/event.py |
| database.dfy | `Store` | the session and tables the routes share |
| collaboration.dfy | `Collaboration` | app/routes/collaboration.py |
| versioning.dfy | `Versioning` | app/routes/versioning.py |
| events.dfy | `EventRoutes` | app/routes/events.py |

Behaviours of the code worth knowing, which the model keeps:

- Removing or demoting an event's last owner answers 400. `ConflictError` (409) is never raised.
- `share_event` has no last-owner guard at all. `Collaboration.ShareCanDemoteSoleOwner`
  shows a sole owner leaving their event without any owner.
- `create_event` and `update_event` never call `validate_event`, so an event may end
  before it starts. `Event.Valid` therefore does not require `start < end`.
- `jwt_required_with_role` tests whether the role's name is in the list; it does not rank
  roles. A route guarded by `['editor']` turns owners away
  (`Decorators.EditorListDeniesOwner`).
- The first version an event stores is number 2, because `create_version` bumps the
  counter from 1 before it takes the snapshot.
- Rollback copies the six scalar fields back and keeps the current recurrence pattern.
- `compare_versions` answers 500 whenever both versions exist. It renders
  `source.diff_with(target).to_dict()`, and that entry is never added to the session, so
  its `timestamp` is None and `isoformat()` raises. `Versioning.CompareVersions` models
  this; `Versioning.CompareVersionsIntended` is the evident intent, an entry from the `to`
  version to the `from` version with the request's own labels (see "## Findings").

## Model

| member | source | states |
|---|---|---|
| Permissions.ParseRole | app/models/permission.py:7-10 | `RoleType(s)` succeeds exactly for the three role names, and the role it yields has `s` as its value |
| Permissions.RoleValueRoundTrip | app/models/permission.py:7-10 | every role's value parses back to that role, and distinct roles have distinct values |
| Permissions.Capabilities | app/models/permission.py:46-56 | `can_edit` holds for owner and editor, `can_delete` and `can_share` only for owner, `can_view` for every role; every role that may delete may also edit |
| Errors.NewAPIError | app/utils/errors.py:6-10 | the error keeps its message, status code (400 unless given) and payload |
| Errors.Raise | app/utils/errors.py:17-40 | each subclass fixes its status code and uses its default message when none is given |
| Errors.StatusCodes | app/utils/errors.py:17-40 | the codes are 404, 401, 403, 400 and 409, the base class's default is 400, the five classes have distinct codes, and all are client errors |
| Errors.ToDict | app/utils/errors.py:12-15 | the body has the payload's keys plus `error`; `error` is the message and every other payload entry is copied |
| Errors.ToDictWithoutPayload | app/utils/errors.py:12-15 | with no payload, or an empty one, the body is exactly `{'error': message}` |
| Decorators.JwtRequiredWithRole | app/utils/decorators.py:7-41 | no roles, or no non-zero `id`, runs the handler with no grant; otherwise it denies with 403 exactly when the caller has no grant on the event or the grant's role name is not in the list, and runs with that grant otherwise |
| Decorators.OwnerRequired | app/utils/decorators.py:71-89 | the handler runs exactly when the caller's grant on `id` has role owner, and it receives that grant; otherwise 403 |
| Decorators.EditorRequired | app/utils/decorators.py:91-109 | the handler runs exactly when the caller's grant on `id` satisfies `can_edit`, and it receives that grant; otherwise 403 |
| Decorators.EditorListDeniesOwner | app/utils/decorators.py:29-35 | an owner is refused by the list `['editor']` but admitted by `editor_required` |
| Decorators.FixedChecksAreRoleLists | app/utils/decorators.py:71-109 | `owner_required` admits the callers that `['owner']` admits; `editor_required` admits those of `['owner', 'editor']`; the three-role list admits exactly the callers with a grant |
| Decorators.Missing | app/utils/decorators.py:63 | the missing names are exactly the expected names absent from the body |
| Decorators.MissingKeepsOrder | app/utils/decorators.py:63 | the missing names come in the order of `expected_args` |
| Decorators.ValidateJson | app/utils/decorators.py:54-69 | an absent or empty body gets 400 "No JSON data provided"; the handler runs exactly when every expected name is present; otherwise 400 lists the missing names joined by ", " |
| Validators.ValidatePassword | app/utils/validators.py:82-92 | accepted exactly when the password has at least 8 characters and contains an upper-case letter, a lower-case letter and a digit; a short password gets the length message |
| Validators.ValidateDateRange | app/utils/validators.py:95-103 | accepted exactly when start < end, which returns the pair; otherwise a 400 validation error |
| Validators.ValidateRecurrence | app/utils/validators.py:106-125 | accepted exactly when the type is given, the fields its type needs are present, and an end date or a non-zero count is given; a missing type and a missing end condition each get their own message |
| Validators.EndConditions | app/utils/validators.py:122-123 | an end date together with a count is accepted; a zero count counts as absent |
| Validators.EmailMatch | app/utils/validators.py:76 | the deterministic split at the first `@` and the last `.` decides exactly the strings of the form `local@domain.tld` |
| Validators.ValidateEmail | app/utils/validators.py:74-79 | as written: accepted exactly for strings of that form, and for such a string followed by one newline |
| Validators.ValidateEmailStrict | app/utils/validators.py:74-79 | as intended: accepted exactly for strings of that form, which never contain a newline |
| Validators.TrailingNewlineAccepted | app/utils/validators.py:76-77 | `"a@b.cc\n"` passes the check as written and fails the intended one |
| Validators.DeclaredBounds | app/utils/validators.py:28-45 | the schemas' declared ranges at their edges (interval 1..365, day 1..31, month 1..12, count at least 1, a non-empty title); a pattern without a valid type, an event without title, start or end, or with a pattern outside its schema, is outside the schema |
| Validators.RoleChoicesAreRoles | app/utils/validators.py:63-66 | `PermissionSchema`'s role choices are exactly the names `RoleType` accepts |
| Validators.ValidateEvent | app/utils/validators.py:50-60 | accepted exactly when the start time is before the end time (when both are given) and a recurring event has a non-empty pattern; the time check comes first |
| JsonText.LoadsDumps | app/models/version.py:27-28 | `json.loads(json.dumps(j)) == j` for every snapshot value |
| JsonText.DumpsInjective | app/models/version.py:43-44 | two values with the same JSON text are equal |
| JsonText.GetAt | app/routes/versioning.py:93-98 | `get` on a decoded object finds a member that no later member with the same key overrides |
| JsonText.GetDistinct | app/routes/versioning.py:93-98 | in an object without repeated keys, `get` finds every member |
| LineDiff.Compare | app/models/version.py:46-47 | the diff is an edit script: dropping its added lines gives the old text, and dropping its removed lines gives the new text |
| LineDiff.ChangesIffDifferent | app/models/version.py:46-47 | the diff has an added or removed line exactly when the two texts differ |
| LineDiff.CompareSelf | app/models/version.py:46-47 | comparing a text with itself marks every line unchanged |
| LineDiff.Antisymmetric | app/models/version.py:46-47 | comparing the other way round swaps the texts the two sides reproduce |
| LineDiff.DiffText | app/models/version.py:54 | `diff_text` has one line per diff entry: its two-character marker followed by the JSON line |
| Versions.GetDataDictInverts | app/models/version.py:27-28 | a version whose data is the dump of a snapshot decodes to that snapshot |
| Versions.DiffWith | app/models/version.py:41-56 | the entry belongs to this version's event and author and runs from the other version's number to this one's; its old side is the other version's text and its new side this version's; None exactly when either version's data does not decode |
| Versions.DiffOfSnapshots | app/models/version.py:41-56 | for stored snapshots the diff exists, reproduces both stored texts, and has a change exactly when the snapshots differ |
| Versions.CssClass | app/models/version.py:101-108 | a line starting with `+` is an addition, `-` a deletion, `?` info, and anything else unchanged |
| Versions.RenderLines | app/models/version.py:97-108 | the loop emits one block per line, in order, each with the line's class |
| Versions.HtmlDiff | app/models/version.py:95-110 | `get_html_diff` renders each line of `diff_text` as one block, in order |
| Versions.HtmlClassFollowsKind | app/models/version.py:95-110 | added lines render as additions, removed lines as deletions, and unchanged lines as unchanged |
| Versions.IdenticalRendersUnchanged | app/models/version.py:95-110 | the diff of two identical snapshots renders without additions or deletions |
| EventModel.ParseType | app/models/event.py:10-15 | `RecurrenceType(s)` succeeds exactly for the five type names, and the type it yields has `s` as its value |
| EventModel.TypeValueRoundTrip | app/models/event.py:10-15 | every type's value parses back to that type, and distinct types have distinct values |
| EventModel.PatternToDict | app/models/event.py:33-44 | the dictionary has the nine pattern keys in order, with the type's value and a null end date exactly when there is none |
| EventModel.PatternDictGets | app/models/event.py:33-44 | `get` on the dictionary finds every column of the pattern under its key: id, type value, interval, days, day, month, end date, count and rule, absent ones as null |
| EventModel.SnapshotContents | app/models/event.py:107-126 | a snapshot has the six scalar keys in order, plus `recurrence_pattern` with the eight pattern keys exactly when the event has a pattern |
| EventModel.SnapshotGets | app/models/event.py:107-114 | `get` on a snapshot finds each of the six scalar fields of the event |
| EventModel.Restore | app/routes/versioning.py:93-98 | each scalar field whose key is absent keeps its current value, and the empty object restores the current details unchanged |
| EventModel.RestoreFrom | app/routes/versioning.py:93-98 | an object whose six scalar entries hold some details restores to exactly those details |
| EventModel.RestoreSnapshot | app/routes/versioning.py:93-98 | restoring any snapshot gives back exactly the details it recorded, whatever the current ones |
| EventModel.Event.constructor | app/models/event.py:72-81 | a new event has the given fields, no pattern, counter 1 and no versions |
| EventModel.Event.CreateVersion | app/models/event.py:99-135 | the counter goes up by one, and the version carries the event's id, the new counter, the author and the dump of the current snapshot; nothing else changes |
| EventModel.Event.RecordVersion | app/models/event.py:99-135 | `create_version` followed by storing its version: the counter and the stored versions grow together, so the event stays valid |
| EventModel.Event.Revise | app/models/event.py:99-135 | the snapshot of the old state is stored as the next version, then the fields and the pattern take their new values |
| EventModel.Event.FindVersion | app/routes/versioning.py:55-61 | a version numbered `n` is found exactly when 2 <= n <= the counter, it belongs to this event, and the counter's own number finds the newest version |
| EventModel.Event.ToDict | app/models/event.py:83-97 | the dictionary has the event's keys in order, absent values as null, a null pattern exactly when there is none, and the current version |
| EventModel.EventDictGets | app/models/event.py:83-97 | `get` on the dictionary finds every column of the event under its key, the pattern as its own dictionary or null, and the current version |
| Store.Database.constructor | app/__init__.py:64 | an empty, valid database with the given users and the first ids 1 |
| Store.Database.ReviseEvent | app/models/event.py:99-135 | `Event.Revise` on one stored event keeps the whole database valid |
| Store.OwnersAfterRemove | app/routes/collaboration.py:182-184 | deleting a row takes exactly that row out of the event's owners |
| Store.OwnersAfterStore | app/routes/collaboration.py:135-136 | storing a row changes the event's owners at that row only |
| Store.FirstGrant | app/routes/events.py:71-77 | a new event's first grant is its only row and its only owner |
| Collaboration.LoadPermission | app/utils/validators.py:63-66 | loading succeeds exactly when both fields are given and the role is one of the three names |
| Collaboration.LoadShares | app/routes/collaboration.py:26-27 | the list loads exactly when every entry loads, giving each loaded entry in order |
| Collaboration.ShareOne | app/routes/collaboration.py:38-56 | updating an existing row and adding a new one store the same grant: the requested role, granted by the caller |
| Collaboration.ApplySharesKeys | app/routes/collaboration.py:38-56 | sharing adds exactly the rows of the named users that were missing |
| Collaboration.ApplySharesKeeps | app/routes/collaboration.py:38-56 | every row other than those of the named users on this event is unchanged |
| Collaboration.ApplySharesLastWins | app/routes/collaboration.py:38-56 | each named user has a row granted by the caller, holding the role of the last request naming them |
| Collaboration.ShareOneOwners | app/routes/collaboration.py:38-56 | one share makes its target an owner exactly when the requested role is owner, and leaves the event's other owners alone |
| Collaboration.ShareCanDemoteSoleOwner | app/routes/collaboration.py:14-70 | an event's sole owner may share it with themself as viewer, leaving it with no owner |
| Collaboration.ShareAll | app/routes/collaboration.py:38-56 | the loop stops exactly when some requested user does not exist; otherwise it applies every request in order and lists the rows it wrote |
| Collaboration.ShareEvent | app/routes/collaboration.py:14-70 | 403 unless the caller is owner, 404 for a missing event or an unknown user, 400 when the list does not load, else 200 with every request applied; nothing changes unless 200 |
| Collaboration.GetPermissions | app/routes/collaboration.py:72-96 | any grant on the event lets the caller list all of the event's rows; no grant gets 403 |
| Collaboration.UpdatePermission | app/routes/collaboration.py:98-150 | 403 unless owner; 404 for an unknown user or a missing row; 400 when demoting the last owner; else 200 with the row's new role granted by the caller. An event with an owner keeps one, and other events' owners are untouched |
| Collaboration.RemovePermission | app/routes/collaboration.py:152-192 | 403 unless owner, 404 for an unknown user or a missing row, 400 for the last owner, else 200 with exactly that row deleted. An event with an owner keeps one, and other events' owners are untouched |
| Versioning.PerPage | app/routes/versioning.py:28-29 | the page size is the requested one (10 by default) capped at 100 |
| Versioning.PageSize | app/routes/versioning.py:31 | a size below 1 falls back to 20; any other size is kept |
| Versioning.PageLength | app/routes/versioning.py:31 | a page holds between 0 and the page size rows |
| Versioning.Paginate | app/routes/versioning.py:31 | a page is the run of consecutive rows starting at the page's first row: a full page while enough rows remain, the remaining rows on the last page, and nothing past the end |
| Versioning.Pages | app/routes/versioning.py:31 | the page count is the fewest pages of the page size that hold every row, and 0 without rows |
| Versioning.Reverse | app/routes/versioning.py:31 | the rows in the opposite order |
| Versioning.HistoryOrder | app/routes/versioning.py:31 | the event's versions, newest first |
| Versioning.HistoryPage | app/routes/versioning.py:31 | one page of the history, newest first: as many rows as the page holds, the i-th being the version numbered counter − start − i |
| Versioning.GetEventHistory | app/routes/versioning.py:18-42 | 403 without a grant, 404 for a missing event, else 200 with that page of the versions newest first (row i is version counter − start − i), the total, the page count, the page and a page size of at most 100 |
| Versioning.LogsOf | app/routes/versioning.py:129 | exactly the changelog rows of the event |
| Versioning.LogsOfConcat | app/routes/versioning.py:129 | the event's rows keep their insertion order: filtering two runs of rows is filtering each and joining them |
| Versioning.NewestLogFirst | app/routes/versioning.py:129 | a newly appended entry heads the newest-first listing, followed by the earlier listing |
| Versioning.GetEventChangelog | app/routes/versioning.py:115-140 | 403 without a grant, 404 for a missing event, else 200 with the requested page of the event's own changelog rows newest first, their total, the page count, the page and a page size of at most 100 |
| Versioning.GetSpecificVersion | app/routes/versioning.py:45-66 | 403 without a grant; 200 exactly when the event and the version numbered `n` exist, returning that version; otherwise 404 |
| Versioning.CompareVersions | app/routes/versioning.py:143-182 | as written: 403 without a grant, 404 for a missing event or version, 400 when either number is absent or 0, and 500 for every pair of found versions; it never answers 200 |
| Versioning.CompareVersionsIntended | app/routes/versioning.py:143-182 | as intended: the same 403, 404 and 400 cases, 500 exactly when a found version's data does not decode, else 200 with `diff_with` of the `from` version against the `to` version (an entry from `to` to `from`) and the requested labels echoed; nothing is stored |
| Versioning.CompareFoundPairFails | app/routes/versioning.py:173 | for any two found versions whose data decode, the route as written answers 500 where the intended one answers 200 with their diff |
| Versioning.RestoreVersion | app/routes/versioning.py:88-109 | 500, with nothing changed, when the target does not decode or a field has the wrong type; otherwise the old state becomes the next version, the six fields are restored from the target, the pattern stays, and one changelog from the target to the new version is appended |
| Versioning.RollbackEvent | app/routes/versioning.py:69-112 | 403 unless editor or owner; 404 for a missing event or version; otherwise as `RestoreVersion`; nothing changes unless 200 |
| EventRoutes.NewDetails | app/routes/events.py:34-52 | the new event takes the title and times given, an empty description by default, the location given, and is recurring only when the body says so |
| EventRoutes.NewPattern | app/routes/events.py:56-65 | the pattern is built exactly when the type is one of the five names; it takes interval 1 by default and every other field as given |
| EventRoutes.PatternFor | app/routes/events.py:54-66 | a pattern is built only for a recurring event whose body has `recurrence_pattern`, and fails exactly when that pattern cannot be built |
| EventRoutes.SchemaPassesRouteChecks | app/routes/events.py:41-66 | a body the schema accepts passes the required-field check and builds its pattern |
| EventRoutes.AddEvent | app/routes/events.py:68-80 | the event is stored under the next id with its details and pattern, the creator's owner row is its only grant, and its one version is number 2 with the snapshot of the new event |
| EventRoutes.CreateEvent | app/routes/events.py:18-94 | 400 exactly when a required field is missing, 500 exactly when the pattern cannot be built (nothing changes), else 201 with one new event under the next id, with the body's details and pattern, the caller as creator and sole owner, a pattern id taken when it has a pattern, and one version, number 2, holding its snapshot |
| EventRoutes.UpdatedDetails | app/routes/events.py:174-182 | each field given in the body replaces the stored one, and each absent field keeps it |
| EventRoutes.UpdatedDetailsLaws | app/routes/events.py:174-182 | an empty update keeps every field, and repeating an update changes nothing more |
| EventRoutes.MergePattern | app/routes/events.py:199-207 | the merged pattern is the same row, each sub-field given replacing the stored one; it fails exactly when a given type is not one of the five names |
| EventRoutes.MergePatternLaws | app/routes/events.py:199-207 | merging nothing keeps the pattern, and merging twice is merging once |
| EventRoutes.UpdatedPattern | app/routes/events.py:184-211 | not recurring removes the pattern; recurring without pattern data keeps it; with data it is created when absent and merged when present |
| EventRoutes.UpdateEvent | app/routes/events.py:160-225 | 403 unless editor or owner, 404 for a missing event, 500 when the pattern fails (nothing changes), else 200: the old state is stored as the next version, then the fields and the pattern take their updated values |
| EventRoutes.UpdateVersionRestores | app/routes/events.py:184-211 | the version an update stores restores, on rollback, the details the event had before the update |
| EventRoutes.WithoutEvent | app/models/event.py:64-68 | the grant table without exactly the rows of the event |
| EventRoutes.WithoutEventOwners | app/models/event.py:64-68 | after the cascade the deleted event has no owner, and every other event keeps its owners |
| EventRoutes.DeleteEvent | app/routes/events.py:227-244 | 403 unless owner, 404 for a missing event, else 200 with the event and all its grant rows gone; nothing else changes |
| EventRoutes.Kept | app/routes/events.py:267-276 | every kept entry has title, start and end |
| EventRoutes.KeptMembers | app/routes/events.py:267-276 | an entry is kept exactly when it is in the batch and has title, start and end |
| EventRoutes.KeptConcat | app/routes/events.py:267-276 | skipping keeps the batch's order: the kept entries of two runs are those of the first followed by those of the second |
| EventRoutes.SchemaKeepsAll | app/routes/events.py:267-276 | entries the schema accepts are never skipped |
| EventRoutes.WithOwnersOwnedOnce | app/routes/events.py:267-321 | each event of the batch is owned exactly once, by the caller |
| EventRoutes.BatchedStep | app/routes/events.py:267-321 | adding the next event and its owner row extends the batch by that id |
| EventRoutes.AddKept | app/routes/events.py:267-321 | one kept entry adds its event and owner row under the next id, takes a pattern id when it has a pattern, and the event has the entry's details and pattern, the caller as creator, and one version, number 2, with its snapshot |
| EventRoutes.AddEntries | app/routes/events.py:267-321 | the loop fails exactly when some kept entry's pattern cannot be built; otherwise it adds one event and owner row per kept entry, under consecutive new ids, and leaves the existing events alone |
| EventRoutes.BatchCreateEvents | app/routes/events.py:246-333 | 400 exactly when no entry is kept, 500 exactly when a kept entry's pattern fails (nothing changes in either case), else 201 with one event per kept entry, each owned once by the caller |
| EventRoutes.PercentMatchesAll | app/routes/events.py:127-128 | the pattern `%` matches every text |
| EventRoutes.PrefixLike | app/routes/events.py:127-128 | `s%` matches exactly the texts that start with `s`, ignoring ASCII case |
| EventRoutes.LeadingPercent | app/routes/events.py:127-128 | `%q` matches exactly the texts with a suffix that `q` matches |
| EventRoutes.SearchIsContains | app/routes/events.py:127-128 | `title ILIKE '%s%'` holds exactly when the title contains `s`, ignoring ASCII case |
| EventRoutes.WindowIsOverlap | app/routes/events.py:113-125 | with both dates given, the filter keeps exactly the events whose time span overlaps the window |
| EventRoutes.GetEvents | app/routes/events.py:96-143 | 400 exactly for an unparsable date; otherwise 200 with exactly the events the caller has a grant on that pass the filters, their count, the page count, and a page size of at most 100 |
| EventRoutes.GetEvent | app/routes/events.py:145-158 | 403 without a grant, 404 for a missing event, else 200 with the event's dictionary |

## Left out

- Authentication is not modelled: JWT verification, login, registration and the user
  model. The JWT identity is a parameter of every handler.
- `admin_required` is not modelled; it passes every request through.
- `Permission.to_dict` and `EventVersion.to_dict` are not modelled. They only render
  usernames, timestamps and decoded data into responses.
- `schema.load` is treated as external. Handlers receive its result, and a body it
  rejects (400) is not modelled. `EventSchema` requires title, start and end, so a PUT
  without them is rejected there, and the batch route's skip of incomplete entries can
  never fire (`EventRoutes.SchemaKeepsAll`); the handlers are modelled on any loaded
  body. The model does not tell an absent key from an explicit `null`: both are `None`.
- Times are integers. ISO-8601 text, `fromisoformat` and time zones are not modelled, and
  a snapshot stores a time as the JSON integer of the same value.
- JSON text is modelled as its lines, not its characters; `json.dumps` and `json.loads`
  work on that line structure. A line carries no `indent=4` indentation, no trailing
  comma and no string escaping, so `diff_text` lines are not character for character the
  source's.
- LineDiff.Compare: a stand-in for `difflib.Differ`. It keeps the common prefix, then
  lists the rest of the old text as removed and the rest of the new text as added. It
  does not reproduce difflib's matching or its `?` hint lines. Only the properties every
  line edit script has are proved.
- Timestamps (`created_at`, `updated_at` and the changelog's `timestamp`) are not
  modelled. Changelog rows are ordered by insertion instead of by `timestamp`. A
  `timestamp` is None until its row is inserted; the model keeps that only where it
  decides an answer, in `Versioning.CompareVersions`.
- EventRoutes.GetEvents: the result is the set of matching events, their count and the
  page arguments. The rows of the requested page and their order are not modelled.
- EventRoutes.BatchCreateEvents: the 201 contract states the new ids, the owner rows and
  the untouched existing events. It does not state each new event's fields and first
  version, which `CreateEvent` states for a single event.
- EventRoutes.AddEntries: states the same as `BatchCreateEvents` and no more, for the
  same reason.
- Events and their versions deleted by `delete_event` cascade away with the event.
  Changelog rows have no cascade in the source and are kept.
- Event ids are never reused in the model: `nextEventId` only grows. The default SQLite
  store gives integer keys without AUTOINCREMENT, so it reuses the highest deleted id.
  A new event under such an id would then list the deleted event's kept changelog rows
  in `get_event_changelog`. The model does not show this.
- Decorators.ValidateJson: the body is a dictionary of names. A JSON list or a scalar
  body, for which the source's `in` test means something else, cannot be expressed.
- A route that raises and rolls back its session is modelled as leaving the database
  unchanged. The error text of a 500 response (`str(e)`) is not modelled.
- EventModel.Restore: an explicit `null` title, start or end, or a non-boolean
  `is_recurring`, is treated as a failure (500). The source assigns the value and fails
  only at commit, or for `is_recurring` stores it. No stored snapshot contains such
  values.
- Validators.ValidatePassword: uses the ASCII letter and digit classes. Python's
  `isupper`, `islower` and `isdigit` also accept other Unicode characters.
- The marshmallow schemas are modelled only through the bounds they declare
  (`EventWithinSchema`, `PatternWithinSchema`) and `validate_event`.
- The error handlers registered with Flask (`register_error_handlers`) are not modelled.
  They render `to_dict` as the response body.

## Findings

| source | as written | input that shows it | evidently intended | confidence | as-written member | corrected member |
|---|---|---|---|---|---|---|
| app/routes/versioning.py:173 | `source_version.diff_with(target_version).to_dict()` on an entry never added to the session, whose `timestamp` (app/models/version.py:69) is still None when `to_dict` calls `isoformat()` on it (app/models/version.py:90) | any two existing versions, e.g. `from=2&to=3` after one update, answer 500 | 200 with the diff of the two versions | not executed | Versioning.CompareVersions, Versioning.CompareFoundPairFails | Versioning.CompareVersionsIntended |
| app/utils/validators.py:76-77 | `re.match` with a pattern that ends in `$`, which in Python also matches just before a final newline | `"a@b.cc\n"` is accepted | the whole string must be an address, so no newline can appear | not executed | Validators.ValidateEmail, Validators.TrailingNewlineAccepted | Validators.ValidateEmailStrict |
