# Todo API statement builders

A Dafny model of the request-handling logic of a small Express/SQLite todo
API (`app.js`). Every handler turns a request into one of two things:

- an early answer (400 for an enumerated field outside its set, 404 for an
  unknown id, 500 for a failure inside the update's `try`);
- exactly one parameterised SQL statement: its text plus the ordered list of
  values bound to its `?` placeholders.

The model stops there. HTTP and the database are not part of it.

Modules:

- `Wrappers`: the `Option` type. A request field is `Option<string>`, where
  `None` is `undefined`.
- `Validation`: the three enumerated fields (status, priority, category) and
  their fixed value sets, checked with `includes`. It also holds JavaScript
  truthiness (`if (status)`: absent and `""` both count as not supplied) and
  the first-failure rule that picks the 400 message.
- `Sql`: statements, clause fragments with their bound values, the text that
  repeated `+=`/`push` leaves behind (`Render`, `Terminated`, `Join`,
  `Values`), JavaScript `slice(0, -k)`, and placeholder counting.
- `Responses`: the early answers (status code and JSON message) and the
  `Outcome` of a handler.
- `ListTodos`: `GET /todos/`.
- `CreateTodo`: `POST /todos/`.
- `TodoById`: `PUT` and `DELETE /todos/:todoId/`. They are methods of a
  `TodoTable` class whose `ids` field is the set of ids the table holds. The
  existence check reads it; delete removes the id.

Each handler is an imperative method. Its variables are extended step by step
as in the source, and its `ensures` ties the outcome to a reference function
(`ListSpec`, `CreateSpec`, `UpdateSpec`, `DeleteSpec`). Lemmas about those
functions state what the handlers promise.

The update handler is split along its own structure:

- `BuildSetList` validates the body and builds the SET list. Each of its
  blocks is a guard for an invalid value, followed by the guarded append
  `AddAssignment`. The branches are the same as in the source's nested `if`s.
- `Update` does the existence check, the `slice(0, -2)` and the id filter.

The due-date formatter (`format(new Date(d), "yyyy-MM-dd")`) is a parameter
`string -> Option<string>`, where `None` means the formatter throws.

An invalid date makes `format` from date-fns (version 2 and later) throw a
`RangeError`, and the update's `catch` (app.js:217-219) answers 500. That is
`None`. Version 1 of the library returned the string `Invalid Date` instead,
which would be bound as the due date; that is `Some("Invalid Date")`.

Quirks are reproduced, not fixed. With no field supplied, the unconditional
trim cuts into the SET keyword and gives `UPDATE todo SE WHERE id = ?`
(`UpdateNothingSupplied`). Create rejects a missing enumerated field, while
list and update skip it.

## Model

| member | source | states |
|---|---|---|
| Validation.FirstFailure | app.js:43-73 | no field is reported exactly when every check passes; a reported field failed its check and every check before it passed |
| Validation.FirstFailureOfThree | app.js:118-125 | for three checks, the reported field is the first failing one in order, or none |
| Validation.IncludedIsSupplied | app.js:44 | a value in a field's set is never absent or empty |
| Validation.MandatoryIsStricter | app.js:118-125 | a mandatory check passing implies the optional one passes; a missing value passes the optional check and fails the mandatory one |
| Validation.MessagesIdentifyField | app.js:48-71 | the three 400 messages are pairwise distinct |
| Responses.AnswersIdentifyFailure | app.js:48-219 | status code and message together determine which early answer was given: the three 400s (app.js:48, 57, 71), the 404 (app.js:160) and the 500 (app.js:219) |
| Responses.WhereIdPlaceholder | app.js:210 | the id filter ` WHERE id = ?` has exactly one placeholder |
| Sql.Values | app.js:41-73 | the parameters have one entry per appended clause, each that clause's value, in append order |
| Sql.SliceOffEnd | app.js:207 | `slice(0, -k)` drops exactly the last k characters, keeps a prefix, and gives `""` on a shorter string |
| Sql.SliceOffSuffix | app.js:207 | slicing off a suffix of its own length gives back the text before it |
| Sql.TerminatedIsJoined | app.js:167-207 | fragments each followed by the separator are the joined fragments plus one trailing separator |
| Sql.TrimTerminated | app.js:207 | trimming the last separator off a non-empty terminated list gives the separator-joined list |
| Sql.RenderPlaceholders | app.js:43-73 | appending one-placeholder clauses gives as many placeholders as bound values |
| Sql.JoinPlaceholders | app.js:164-207 | joining one-placeholder assignments with a `?`-free separator gives as many placeholders as bound values |
| Sql.JoinSameShape | app.js:164-207 | the joined text depends only on the fragments, never on the bound values |
| Sql.AppendIfOnePlaceholder | app.js:167-203 | a guarded append keeps every fragment at exactly one placeholder |
| ListTodos.List | app.js:37-74 | the handler's outcome is the reference outcome `ListSpec` |
| ListTodos.ListOutcomes | app.js:43-73 | 400 naming status, priority or category exactly when that filter is supplied and outside its set and every earlier filter passes; otherwise the SELECT runs |
| ListTodos.ListUnfiltered | app.js:40-41 | with no filter supplied the statement is `SELECT * FROM todo WHERE 1` with no parameters |
| ListTodos.ListAllFilters | app.js:43-73 | with all filters supplied and valid, the four clauses appear in order status, priority, search, category, bound to the status, priority, `%search_q%` and category values |
| ListTodos.ListRendered | app.js:43-73 | the clause text is each supplied filter's fixed clause, in order |
| ListTodos.ListWellFormed | app.js:40-76 | a SELECT that runs binds exactly one value per placeholder |
| ListTodos.ListSearchNeverRejected | app.js:61-64 | the search term never causes or prevents a 400 |
| ListTodos.ListEmptyIsAbsent | app.js:43-66 | an empty filter behaves exactly like a missing one |
| ListTodos.ListAgrees | app.js:43-73 | two requests that agree on whether each filter is supplied, and on every supplied value, get the same outcome |
| ListTodos.ListTextIgnoresValues | app.js:43-73 | two accepted requests supplying the same filters run the same text, whatever the values |
| CreateTodo.Create | app.js:112-129 | the handler's outcome is the reference outcome `CreateSpec` |
| CreateTodo.CreateOutcomes | app.js:118-129 | 400 naming status, priority or category exactly when it is the first not in its set; otherwise the INSERT with id, todo, category, priority, status, dueDate bound in that order |
| CreateTodo.CreateRejectsMissing | app.js:118-119 | a missing or empty status is rejected, though the optional check of list and update would let it through |
| CreateTodo.CreateAcceptedPassesOptional | app.js:118-125 | an accepted body also passes the optional checks |
| CreateTodo.CreateUnvalidatedFields | app.js:113-129 | id, todo and dueDate never cause or prevent a 400 |
| CreateTodo.InsertPlaceholders | app.js:128 | the INSERT text has six placeholders |
| CreateTodo.CreateWellFormed | app.js:127-129 | the INSERT binds exactly one value per placeholder |
| TodoById.TodoTable.constructor | app.js:155-158 | builds the table's id set, which the existence lookup of update and delete consults, from the given ids |
| TodoById.TodoTable.Update | app.js:144-211 | the handler's outcome is the reference outcome `UpdateSpec`, with the existence check against the table's ids |
| TodoById.BuildSetList | app.js:164-203 | the failure is `UpdateFailure`; without one, the text is the SET keyword plus each supplied assignment followed by `, `, and the parameters are their values in order |
| TodoById.AddAssignment | app.js:168-171 | a supplied field adds its assignment and a separator to the text and its value to the parameters; an unsupplied one changes nothing |
| TodoById.TodoTable.Delete | app.js:224-237 | 404 for an unknown id; otherwise `DELETE FROM todo WHERE id = ?` binding the id, and the id is removed from the table with nothing else changed |
| TodoById.UpdateFailures | app.js:167-202 | 400 for a field exactly when it is supplied, outside its set, and every earlier field passes; 500 exactly when all pass and the formatter throws on a supplied due date |
| TodoById.UpdateFailureInOrder | app.js:167-202 | the failure is decided by the guards in the order status, priority, category, due date |
| TodoById.UpdateOutcomes | app.js:156-211 | 404 exactly when the id is unknown, whatever the body; for a known id the failures of `UpdateFailures`; otherwise the UPDATE runs |
| TodoById.UpdateAccepted | app.js:164-211 | a known id with passing fields and a formattable date runs the UPDATE built from the supplied assignments, with the id bound last |
| TodoById.TrimmedUpdateText | app.js:207-210 | trimming two characters and appending the id filter gives the UPDATE text, in both the empty and the non-empty case |
| TodoById.TrimmedHead | app.js:164-207 | with nothing assigned the trim leaves `UPDATE todo SE` |
| TodoById.UpdateNothingSupplied | app.js:164-211 | with no field supplied the statement is `UPDATE todo SE WHERE id = ?` with only the id bound |
| TodoById.UpdateAllFields | app.js:164-211 | with every field supplied and valid, the assignments appear comma-separated in order status, priority, todo, category, due_date, and the parameters are their values, the formatted date, then the id |
| TodoById.AllAssigned | app.js:167-203 | with every field supplied, all five assignments are made in order |
| TodoById.UpdateIdBoundLast | app.js:209 | a running UPDATE has one to six parameters, the last being the id |
| TodoById.AssignmentsAtMostFive | app.js:167-203 | at most five assignments are made |
| TodoById.AssignmentsOnePlaceholder | app.js:167-203 | every assignment carries exactly one placeholder |
| TodoById.UpdateTextPlaceholders | app.js:164-210 | the UPDATE text holds one placeholder per assignment plus the id's |
| TodoById.UpdateWellFormed | app.js:164-213 | an UPDATE that runs binds exactly one value per placeholder |
| TodoById.DeleteWellFormed | app.js:235 | the DELETE binds exactly one value per placeholder |
| TodoById.AssignmentsSameShape | app.js:167-203 | bodies supplying the same fields get the same assignment fragments in the same order |
| TodoById.UpdateTextIgnoresValues | app.js:164-210 | two accepted updates supplying the same fields run the same text, whatever the values and ids |
| TodoById.UpdateAgrees | app.js:167-203 | bodies agreeing on every supplied value get the same outcome |
| TodoById.UpdateEmptyIsAbsent | app.js:167-203 | an empty field in the body behaves exactly like a missing one |

## Left out

- Database and server start-up, `app.listen` and `process.exit` (app.js:11-34, 80). These are I/O.
- The execution of `db.all`, `db.get` and `db.run` by sqlite3. Each handler stops at the statement it would run. Storage errors, and the 500 they cause in update and delete, are not modelled. In the list handler a storage error exits the process.
- The existence lookup (`SELECT * FROM todo WHERE id = ?`). It is modelled only by its answer, membership in `TodoTable.ids`.
- The date library. Parsing and formatting of the due date are a parameter. The source's formatter throws on an invalid date, which gives 500. A formatter that returned a sentinel such as `Invalid Date` would be bound as that string instead. The parameter covers both readings.
- Get-by-id (app.js:85-96) and the agenda handler (app.js:99-109). They are a single interpolated query and a date check through the date library.
- The create handler's callback and response (app.js:130-140), including its double send. The effect of an INSERT on the table is also left out: create is not a method of `TodoTable`, since whether a row is added depends on the database.
- The `!updateData` guard (app.js:148). The body is destructured on the line before it, and the JSON parser always supplies an object, so the guard never decides anything.
- Request values that are not strings (numbers or arrays in a JSON body). Every field is an optional string.
- The race between the existence check and the write in update and delete. That is concurrency.
- The HTTP response bodies of successful requests ("Todo Updated", "Todo Deleted", the row list).
