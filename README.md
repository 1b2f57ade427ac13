# Group, User and Task handlers: a Dafny model

The repository serves three record kinds, groups, users and tasks, over HTTP.
Each kind has an AWS Lambda handler (`lambda/groups.js`, `lambda/users.js`,
`lambda/tasks.js`) backed by a DynamoDB table. A handler switches on the
HTTP method and runs one table call: `put` for POST, `get` or `scan` for
GET, `update` for PUT and `delete` for DELETE. Only POST and PUT parse and
validate the body. GET and DELETE never read it. Every answer has a status
code and three fixed CORS headers. A DELETE answer has no body, and neither
does a GET for an absent record. The other answers have a JSON body. A
`catch` block turns any thrown error into an error response.

The three handler files have the same shape. The model writes that shape once,
over an entity schema, and instantiates it three times:

- `JsValues`: JSON values, JavaScript truthiness and `x || d`. The handlers'
  "present" test `!data[field]` (`lambda/tasks.js:13`) is `Truthy`, so `""`,
  `0`, `false` and `null` count as missing. `Or` is the defaulting
  `data.status || 'PENDING'` (`lambda/tasks.js:24,26`, `lambda/users.js:19`).
  `Field` is the property read `data[f]`, `undefined` when absent.
- `Http`: the request and response shapes, the CORS headers, thrown errors and
  the catch block (`ErrorResponse`). `Param` is the optional read
  `pathParameters?.taskId` or `queryStringParameters?.groupId`
  (`lambda/tasks.js:45,50,85`): the string, or `undefined`. `NullRead` is the
  `TypeError` thrown by a property read on `null`. A `null` POST body throws
  it at `lambda/tasks.js:13`. A PUT or DELETE without path parameters throws
  it at `lambda/tasks.js:62,84`.
- `Store`: the table as a map from primary key to record. The class `Table`
  has one method per DocumentClient call. Pure functions `Put`, `Update` and
  `Delete` say what each write does. `Valid()` says that every record is
  stored under the key its own attributes give.
- `Crud`: the shared validator and handler. `Validate` checks the required
  fields in order, then the enumerated-value check, then rebuilds the record
  from an explicit field list with defaults. `QuerySort` is the sort value a
  GET or DELETE reads from the query (`lambda/tasks.js:50,85`). `RecordSort`
  is the one a PUT takes from the validated record (`lambda/tasks.js:69`).
  `Step` is the pure specification
  of one handler call. `Handle` is the imperative handler, proved equal to
  `Step`.
- `CrudLaws`: what each method does to the table and the response, the key
  invariant, validator idempotence, and what sequences of requests see.
- `Tasks`, `Users`, `Groups`: the three schemas, each validator with
  field-by-field contracts, each handler, and the properties specific to that
  kind.

Inputs the code reads from its environment become parameters:

- `now` is the value `new Date().toISOString()` would give.
- `fault` is the error the store call raises, if any.
- `trace` is the opaque `error.stack` text.

The table names from `process.env` are not modelled. A table object stands
for the table.

Four behaviours of the code that a reader may not expect:

- A validation failure answers **500**, not 400. The validators throw a plain
  `Error`, whose name is `"Error"`. The catch block gives 400 only for the name
  `"ValidationError"`.
- A single-record GET or DELETE on users or tasks with no `groupId` in the
  query is **not** rejected. It addresses the key whose sort part is
  `undefined`.
- The catch block always includes `details` (the stack trace), on every error
  status.
- Extra input fields are dropped by the rebuild.

## Model

| member | source | states |
|---|---|---|
| Http.PlainError | lambda/tasks.js:14 | `new Error(m)` has name "Error", which is never "ValidationError", and message `m` |
| Http.ErrorResponse | lambda/tasks.js:97-104 | a thrown error answers 400 exactly when its name is "ValidationError", and 500 otherwise; the CORS headers are attached and the body is `{error: message, details: stack}` |
| Store.Put | lambda/tasks.js:38-41 | `put` files the item under the key its own attributes give and replaces whatever was there; no other entry changes |
| Store.Update | lambda/tasks.js:65-77 | `update ... set` overwrites exactly the named attributes and keeps every other attribute of the stored item and every other entry. On an absent key it creates the item from the set attributes and the key attributes, and files it under its own key |
| Store.Delete | lambda/tasks.js:81-87 | `delete` removes the key and keeps all other entries; deleting an absent key leaves the table equal to before |
| Store.UpdateKeepsKeys | lib/task-manager-stack.js:19-35 | an update that does not touch the key attributes keeps every record filed under its own key |
| Store.ScanLosesNothing | lambda/tasks.js:55-56 | in a table that files every record under its own key, the scanned records are exactly as many as the entries |
| Store.Table.PutItem | lambda/tasks.js:38-41 | the `put` call: on success the table becomes `Put` of the old table; a failing call raises its error and changes nothing |
| Store.Table.GetItem | lambda/tasks.js:46-53 | the `get` call returns the item under the key, or nothing when the key is absent, and raises the store's error if the call fails |
| Store.Table.UpdateItem | lambda/tasks.js:65-77 | the `update` call: on success the table becomes `Update` of the old table; a failing call changes nothing |
| Store.Table.DeleteItem | lambda/tasks.js:81-87 | the `delete` call: on success the table becomes `Delete` of the old table; a failing call changes nothing |
| Store.Table.Scan | lambda/tasks.js:55 | the `scan` call returns every stored record |
| Crud.MissingAt | lambda/tasks.js:11-16 | the loop over the required fields stops at the first falsy one; every field before it is truthy |
| Crud.Validate | lambda/tasks.js:10-28 | a validator fails with a plain `Error` named "Error". It succeeds exactly when every required field is truthy and the enumerated value is falsy or allowed. The first falsy required field is reported as "Missing required field: f", and a disallowed value only once all required fields are present. On success it returns the rebuilt record |
| Crud.ValidateBody | lambda/tasks.js:37 | POST validates the parsed body; an object body is validated as its properties, and a `null` body throws a `TypeError` when its first required field is read |
| Crud.Merged | lambda/tasks.js:60-63 | the record a PUT validates holds exactly the body's properties plus the path id, with the path id written over the body's id and every other property taken from the body |
| Crud.Step | lambda/tasks.js:30-106 | every response carries the three CORS headers and one of the statuses 200, 201, 204, 400 or 500. A response of 400 or more leaves the table unchanged, and only POST, PUT and DELETE change it. Any other method answers 400 `{error: "Unsupported method"}` without touching the table |
| Crud.Handle | lambda/tasks.js:30-106 | the handler's response and the table after the call are those `Step` specifies, and every record stays filed under its own key |
| CrudLaws.ValidateFixpoint | lambda/tasks.js:20-27 | validating a validated record gives it back, even at a later time |
| CrudLaws.StepKeepsKeyConsistent | lambda/tasks.js:30-96 | after any request, every record is still filed under the key its own attributes give |
| CrudLaws.PostStores | lambda/tasks.js:36-42 | POST files the validated record under its key, replacing any record there, and answers 201 with it |
| CrudLaws.InvalidBodyIs500 | lambda/tasks.js:36-37 | a POST whose body fails validation answers 500 with the validator's message, whatever the path parameters, and leaves the table unchanged |
| CrudLaws.InvalidUpdateIs500 | lambda/tasks.js:59-63 | a PUT whose merged body fails validation answers 500 with the validator's message and leaves the table unchanged: no update is sent |
| CrudLaws.GetOneReadsKey | lambda/tasks.js:45-53 | GET with a truthy path id reads the key (path id, query sort value) and answers 200 with the record, or with no body when it is absent; the table is unchanged |
| CrudLaws.GetWithoutSortValueIsNotRejected | lambda/users.js:41-49 | a GET by id whose query has no `groupId` is not rejected, whether there is no query string or one without that parameter. It reads the key whose sort part is `undefined` and answers 200 |
| CrudLaws.GetAllListsEverything | lambda/tasks.js:54-57 | GET without a path id answers 200 with every stored record, one per entry, and the table is unchanged |
| CrudLaws.PutOutcome | lambda/tasks.js:59-78 | a PUT whose merged body validates answers 200 with the whole validated record and performs one partial update of the mutable fields |
| CrudLaws.PutWritesOnlyMutable | lambda/tasks.js:59-78 | the path id overrides the body's id. The key is (path id, validated sort value). Only the mutable fields are written, every other stored field is kept, and an existing item gains no other attribute. The answer is 200 with the full validated record |
| CrudLaws.DeleteRemovesKey | lambda/tasks.js:80-88 | DELETE removes the key (path id, query sort value) whether or not a record is there, and answers 204 with no body |
| CrudLaws.CreateThenRead | lambda/tasks.js:36-53 | a record created by POST is what a GET on its key reads back |
| CrudLaws.DeleteThenReadAbsent | lambda/tasks.js:44-88 | after DELETE, a GET on the key answers 200 with no body, and a second DELETE still answers 204 and changes nothing |
| CrudLaws.StoreFaultIsCaught | lambda/tasks.js:97-104 | once a GET, a DELETE with path parameters, or a POST or PUT whose body validates reaches its store call, a failing call answers exactly the catch block's response for that error, `{error: message, details: stack}`, and the table is unchanged |
| CrudLaws.StoreFaultChangesNothing | lambda/tasks.js:97-104 | a failing store call leaves the table unchanged and answers 500, or 400 only when the error is named "ValidationError" |
| Tasks.ValidateTask | lambda/tasks.js:10-28 | a disallowed truthy status (not PENDING or COMPLETED) fails with "Status must be either PENDING or COMPLETED" once the required fields are present. Validation succeeds exactly when the four required fields are truthy and the status is falsy or allowed. The output is exactly taskId, groupId, description, status (default "PENDING"), assignedTo and createdAt (default `now`) |
| Tasks.TaskMissingFieldReported | lambda/tasks.js:11-15 | the first falsy field among taskId, groupId, description, assignedTo is reported as "Missing required field: f" |
| Tasks.TaskRequiredOrder | lambda/tasks.js:11-12 | the required fields are checked in the order taskId, groupId, description, assignedTo |
| Tasks.TaskStatusRule | lambda/tasks.js:17 | the status check rejects exactly a truthy status other than PENDING and COMPLETED |
| Tasks.TaskRebuilt | lambda/tasks.js:20-27 | the rebuilt task has exactly the six task fields with their defaults |
| Tasks.HandleTask | lambda/tasks.js:30-106 | the tasks handler behaves as `Step` over the task schema with key (taskId, groupId) |
| Tasks.BadStatusIs500 | lambda/tasks.js:17-18 | a task whose status is "ARCHIVED" is refused with 500 and the status message, and nothing is stored |
| Tasks.UpdateToArchivedIs500 | lambda/tasks.js:59-63 | PUT /tasks/{taskId} with a complete body whose status is "ARCHIVED" answers 500 with the status message and writes nothing |
| Tasks.PutAnswersValidatedTask | lambda/tasks.js:59-78 | PUT answers 200 with the whole validated task, whose createdAt is the body's or `now` |
| Tasks.PutKeepsCreatedAt | lambda/tasks.js:65-77 | PUT writes description, status and assignedTo under (path taskId, validated groupId) and keeps the stored createdAt |
| Users.UserRequiredOrder | lambda/users.js:11-12 | the required fields are checked in the order userId, name, email, role |
| Users.UserRebuilt | lambda/users.js:17-23 | the rebuilt user has exactly userId, groupId (default `null`), name, email and role |
| Users.ValidateUser | lambda/users.js:10-24 | validation succeeds exactly when userId, name, email and role are truthy. The output is exactly userId, groupId (default `null`), name, email and role, so extra fields such as createdAt are dropped. The result does not depend on the clock |
| Users.UserMissingFieldReported | lambda/users.js:11-16 | the first falsy field among userId, name, email, role is reported as "Missing required field: f" |
| Users.ValidateUserIdempotent | lambda/users.js:17-23 | validating a validated user gives it back |
| Users.HandleUser | lambda/users.js:26-106 | the users handler behaves as `Step` over the user schema with key (userId, groupId) |
| Users.PutWritesNameEmailRole | lambda/users.js:55-78 | PUT addresses (path userId, body groupId or `null`) and writes name, email and role there and nothing else. An existing user keeps every other attribute and gains no new one, and every other user is unchanged. The answer is 200 with the validated user |
| Users.PostFilesUnderUserAndGroup | lambda/users.js:32-38 | POST files the user under (userId, groupId or `null`), replacing any user there, and answers 201 with it |
| Users.NullGroupUserUnreachable | lambda/users.js:40-88 | in any table holding a user filed under (userId, `null`), a GET or DELETE by that id never addresses that key, whatever the query holds. The GET changes nothing, and answers 200 with no body when that user is the only one stored. The DELETE answers 204 and leaves that user in place |
| Users.MissingEmailIs500 | lambda/users.js:11-16 | POST with body {"userId":"u1","name":"Ann"} answers 500 with "Missing required field: email", and nothing is stored |
| Groups.GroupRequiredOrder | lambda/groups.js:11-12 | the required fields are checked in the order groupId, name |
| Groups.GroupRebuilt | lambda/groups.js:17-22 | the rebuilt group has exactly groupId, name, leaderId (default `null`) and createdAt (default `now`) |
| Groups.ValidateGroup | lambda/groups.js:10-23 | a falsy groupId is reported first, then a falsy name. Validation succeeds exactly when both are truthy. The output is exactly groupId, name, leaderId (default `null`) and createdAt (default `now`) |
| Groups.ValidateGroupIdempotent | lambda/groups.js:17-22 | validating a validated group gives it back, even at a later time |
| Groups.HandleGroup | lambda/groups.js:25-92 | the groups handler behaves as `Step` over the group schema with the single key groupId |
| Groups.PutKeepsStoredCreatedAt | lambda/groups.js:51-67 | PUT writes name and leaderId under the path groupId and nothing else. An existing group keeps every other attribute, including its stored createdAt, and gains no new one. Every other group is unchanged. The 200 response carries the validated createdAt, which is `now` when the body has none |
| Groups.DeleteAbsentKeepsTable | lambda/groups.js:69-74 | DELETE of an absent group answers 204 and leaves the table equal to before |
| Groups.ListOfEmptyTableIsEmpty | lambda/groups.js:47-48 | GET /groups on an empty table answers 200 with an empty list |

## Left out

- The AWS SDK DocumentClient is replaced by a map-backed table. DynamoDB's
  update-expression syntax, reserved-word handling, marshalling, scan
  pagination and scan order are not modelled. A scan answers a set of records;
  `Store.ScanLosesNothing` shows that no entry is lost by that.
- The key attributes are declared as strings
  (`lib/task-manager-stack.js:13-33`), and the real table rejects a key part
  that is not a non-empty string. Examples are an undefined `groupId` from a
  missing query parameter, an empty one from `?groupId=`, or a `null` user
  group. Such a request would answer 500. The abstract table accepts such key parts. Whatever
  error the store raises is the `fault` parameter.
- A user POSTed without a `groupId` is filed under `(userId, null)`
  (`lambda/users.js:19`) in the abstract table. No GET or DELETE by id can
  address that key, because query values are strings or `undefined`; see
  `Users.NullGroupUserUnreachable`. For the same reason,
  `CrudLaws.CreateThenRead` assumes that both key parts are strings.
- `status` is a DynamoDB reserved word. The tasks update expression uses it
  without an alias (`lambda/tasks.js:71`), so the real store refuses every PUT
  /tasks, and that request answers 500. The users and groups updates alias
  `name` and `role` (`lambda/users.js:67-71`, `lambda/groups.js:60-61`). The
  abstract table does not check reserved words, so in the model a tasks PUT
  succeeds unless a `fault` is given.
- `update` on an absent key is modelled as DynamoDB's UpdateItem upsert: the
  new item is the key attributes plus the set attributes.
- `JSON.parse` and `JSON.stringify` are not modelled as text. A body is a
  parsed value, or `Malformed` with an opaque message, which leads to the 500
  path.
- For a body that parses to a string, number, boolean or array, no schema
  field is read from it. No field name the schemas use is `length` or an
  array index. A spread of such a value copies only index properties, and the
  rebuild drops those.
- The text of `error.stack`, `console.error` logging and the table names read
  from `process.env` are not modelled.
- The `TypeError` message for a property read on `null` follows Node 18's
  wording.
- JavaScript numbers are reals, with no NaN and no negative zero.
- async/await and concurrent invocations are not modelled. Each call is one
  sequential step on the table, so the last write wins.
- `lib/task-manager-stack.js` (tables, Lambdas, API Gateway routes, the S3
  site) and `website/script.js` (browser form bindings and `fetch` calls) are
  deployment and UI code. They are not part of this model.
