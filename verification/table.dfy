/**
 * PUT and DELETE /todos/:todoId/: the two handlers that first look the todo up
 * by id and answer 404 when it does not exist. The table is reduced to the set
 * of ids it holds; update builds its SET list step by step, trims the last
 * separator and appends the id filter; delete removes the row.
 */
module TodoById {
  import opened Wrappers
  import opened Validation
  import opened Sql
  import opened Responses

  /** The JSON body fields the update handler destructures. */
  datatype UpdateBody = UpdateBody(status: Option<string>, priority: Option<string>, todo: Option<string>,
                                   category: Option<string>, dueDate: Option<string>)

  /**
   * The date formatter (`format(new Date(d), "yyyy-MM-dd")`) is a parameter of
   * the model: `None` stands for a formatter that throws on its input.
   */
  type DateFormatter = string -> Option<string>

  const UPDATE_HEAD := "UPDATE todo SET "
  const SEPARATOR := ", "
  const DELETE_TEXT := "DELETE FROM todo WHERE id = ?"

  /** The enumerated fields of the update body, in the order the handler validates them; each is optional. */
  function UpdateChecks(b: UpdateBody): seq<Check> {
    [Check(Status, b.status), Check(Priority, b.priority), Check(Category, b.category)]
  }

  function StatusAssignment(b: UpdateBody): Binding {
    Binding("status = ?", b.status)
  }

  function PriorityAssignment(b: UpdateBody): Binding {
    Binding("priority = ?", b.priority)
  }

  function TodoAssignment(b: UpdateBody): Binding {
    Binding("todo = ?", b.todo)
  }

  function CategoryAssignment(b: UpdateBody): Binding {
    Binding("category = ?", b.category)
  }

  /** The due-date assignment binds the formatted date, not the date the body carried. */
  function DueDateAssignment(formatted: Param): Binding {
    Binding("due_date = ?", formatted)
  }

  /** The value bound for the due date: what the formatter makes of a supplied date. */
  function FormattedDate(b: UpdateBody, format: DateFormatter): Param {
    if Supplied(b.dueDate) then format(b.dueDate.value) else None
  }

  /** The assignments of the supplied fields, in the order status, priority, todo, category, due_date. */
  function UpdateAssignments(b: UpdateBody, formatted: Param): seq<Binding> {
    var xs := AppendIf([], Supplied(b.status), StatusAssignment(b));
    var xs := AppendIf(xs, Supplied(b.priority), PriorityAssignment(b));
    var xs := AppendIf(xs, Supplied(b.todo), TodoAssignment(b));
    var xs := AppendIf(xs, Supplied(b.category), CategoryAssignment(b));
    AppendIf(xs, Supplied(b.dueDate), DueDateAssignment(formatted))
  }

  /**
   * The UPDATE text: the assignments separated by commas between the SET
   * keyword and the id filter. With no assignment at all the trim that should
   * remove the last separator cuts into the keyword instead.
   */
  function UpdateText(xs: seq<Binding>): string {
    if xs == [] then "UPDATE todo SE" + WHERE_ID
    else UPDATE_HEAD + Join(xs, SEPARATOR) + WHERE_ID
  }

  /**
   * Why the update handler gives up on a known id: the first supplied
   * enumerated field outside its domain, in the order status, priority,
   * category, and then a supplied due date the formatter throws on.
   */
  function UpdateFailure(b: UpdateBody, format: DateFormatter): Option<Failure> {
    match FirstFailure(UpdateChecks(b), false)
    case Some(f) => Some(InvalidField(f))
    case None => if Supplied(b.dueDate) && format(b.dueDate.value).None? then Some(InternalError) else None
  }

  /**
   * Reference outcome of the update handler: 404 for an unknown id before
   * anything else, then its failure, else the UPDATE with the id bound last.
   */
  function UpdateSpec(found: bool, todoId: string, b: UpdateBody, format: DateFormatter): Outcome {
    if !found then Reject(TodoNotFound)
    else match UpdateFailure(b, format)
      case Some(f) => Reject(f)
      case None =>
        var xs := UpdateAssignments(b, FormattedDate(b, format));
        Execute(Statement(UpdateText(xs), Values(xs) + [Some(todoId)]))
  }

  /** Reference outcome of the delete handler. */
  function DeleteSpec(found: bool, todoId: string): Outcome {
    if !found then Reject(TodoNotFound)
    else Execute(Statement(DELETE_TEXT, [Some(todoId)]))
  }

  /** The todo table, as far as these handlers can observe it: the ids of its rows. */
  class TodoTable {
    var ids: set<string>

    constructor(ids: set<string>)
      ensures this.ids == ids
    {
      this.ids := ids;
    }

    /** The update handler up to the point where it runs `db.run(updateQuery, updateParams)`. */
    method Update(todoId: string, b: UpdateBody, format: DateFormatter) returns (o: Outcome)
      ensures o == UpdateSpec(todoId in ids, todoId, b, format)
    {
      if todoId !in ids {
        return Reject(TodoNotFound);
      }
      var failure, updateQuery, updateParams := BuildSetList(b, format);
      if failure.Some? {
        return Reject(failure.value);
      }
      ghost var xs := UpdateAssignments(b, FormattedDate(b, format));
      TrimmedUpdateText(xs);
      updateQuery := SliceOffEnd(updateQuery, 2);
      updateQuery := updateQuery + WHERE_ID;
      updateParams := updateParams + [Some(todoId)];
      o := Execute(Statement(updateQuery, updateParams));
    }

    /**
     * The delete handler up to the point where it runs `db.run(delete, [todoId])`;
     * a present id is removed from the table, and nothing else changes.
     */
    method Delete(todoId: string) returns (o: Outcome)
      modifies this
      ensures o == DeleteSpec(old(todoId in ids), todoId)
      ensures ids == old(ids) - {todoId}
    {
      if todoId !in ids {
        return Reject(TodoNotFound);
      }
      ids := ids - {todoId};
      o := Execute(Statement(DELETE_TEXT, [Some(todoId)]));
    }
  }

  /**
   * The part of the update handler that validates the supplied fields and
   * builds the SET list, each assignment followed by a separator: it stops at
   * the first failure, or returns the text and parameters built so far.
   */
  method BuildSetList(b: UpdateBody, format: DateFormatter)
    returns (failure: Option<Failure>, updateQuery: string, updateParams: seq<Param>)
    ensures failure == UpdateFailure(b, format)
    ensures failure.None? ==>
      var xs := UpdateAssignments(b, FormattedDate(b, format));
      updateQuery == UPDATE_HEAD + Terminated(xs, SEPARATOR) && updateParams == Values(xs)
  {
    updateQuery := UPDATE_HEAD;
    updateParams := [];
    ghost var xs: seq<Binding> := [];
    EmptyTerminated(UPDATE_HEAD, SEPARATOR);

    if Supplied(b.status) && !Includes(Status, b.status) {
      UpdateFailureInOrder(b, format);
      return Some(InvalidField(Status)), updateQuery, updateParams;
    }
    updateQuery, updateParams := AddAssignment(updateQuery, updateParams, xs, Supplied(b.status), StatusAssignment(b));
    xs := AppendIf(xs, Supplied(b.status), StatusAssignment(b));

    if Supplied(b.priority) && !Includes(Priority, b.priority) {
      UpdateFailureInOrder(b, format);
      return Some(InvalidField(Priority)), updateQuery, updateParams;
    }
    updateQuery, updateParams := AddAssignment(updateQuery, updateParams, xs, Supplied(b.priority), PriorityAssignment(b));
    xs := AppendIf(xs, Supplied(b.priority), PriorityAssignment(b));

    updateQuery, updateParams := AddAssignment(updateQuery, updateParams, xs, Supplied(b.todo), TodoAssignment(b));
    xs := AppendIf(xs, Supplied(b.todo), TodoAssignment(b));

    if Supplied(b.category) && !Includes(Category, b.category) {
      UpdateFailureInOrder(b, format);
      return Some(InvalidField(Category)), updateQuery, updateParams;
    }
    updateQuery, updateParams := AddAssignment(updateQuery, updateParams, xs, Supplied(b.category), CategoryAssignment(b));
    xs := AppendIf(xs, Supplied(b.category), CategoryAssignment(b));

    var formattedDate: Param := None;
    if Supplied(b.dueDate) {
      formattedDate := format(b.dueDate.value);
      if formattedDate.None? {
        UpdateFailureInOrder(b, format);
        return Some(InternalError), updateQuery, updateParams;
      }
    }
    updateQuery, updateParams := AddAssignment(updateQuery, updateParams, xs, Supplied(b.dueDate), DueDateAssignment(formattedDate));
    xs := AppendIf(xs, Supplied(b.dueDate), DueDateAssignment(formattedDate));

    UpdateFailureInOrder(b, format);
    failure := None;
  }

  /**
   * One guarded block of the SET list: when the field was supplied, append
   * its assignment and a separator to the text and its value to the parameters.
   */
  method AddAssignment(updateQuery: string, updateParams: seq<Param>, ghost xs: seq<Binding>, supplied: bool, x: Binding)
    returns (q: string, ps: seq<Param>)
    requires updateQuery == UPDATE_HEAD + Terminated(xs, SEPARATOR) && updateParams == Values(xs)
    ensures q == UPDATE_HEAD + Terminated(AppendIf(xs, supplied, x), SEPARATOR)
    ensures ps == Values(AppendIf(xs, supplied, x))
  {
    q, ps := updateQuery, updateParams;
    if supplied {
      TerminatedSnoc(UPDATE_HEAD, xs, x, SEPARATOR, x.fragment + SEPARATOR);
      ValuesSnoc(xs, x);
      q := q + (x.fragment + SEPARATOR);
      ps := ps + [x.value];
    }
  }

  /** With nothing assigned, slicing two characters off the SET keyword leaves `UPDATE todo SE`. */
  lemma TrimmedHead()
    ensures SliceOffEnd(UPDATE_HEAD + Terminated([], SEPARATOR), 2) == "UPDATE todo SE"
  {
    EmptyTerminated(UPDATE_HEAD, SEPARATOR);
    var s := UPDATE_HEAD;
    assert s[..14] == "UPDATE todo SE";
  }

  /** Trimming the built text and appending the id filter gives the UPDATE text. */
  lemma TrimmedUpdateText(xs: seq<Binding>)
    ensures SliceOffEnd(UPDATE_HEAD + Terminated(xs, SEPARATOR), 2) + WHERE_ID == UpdateText(xs)
  {
    if xs == [] {
      TrimmedHead();
    } else {
      TrimTerminated(UPDATE_HEAD, xs, SEPARATOR);
    }
  }

  /**
   * The update handler's failures for a known id: the first supplied
   * enumerated field outside its domain, in the order status, priority,
   * category; then a supplied due date the formatter throws on.
   */
  lemma UpdateFailures(b: UpdateBody, format: DateFormatter)
    ensures UpdateFailure(b, format) == Some(InvalidField(Status)) <==> Supplied(b.status) && !Includes(Status, b.status)
    ensures UpdateFailure(b, format) == Some(InvalidField(Priority)) <==>
      Passes(Check(Status, b.status), false) && Supplied(b.priority) && !Includes(Priority, b.priority)
    ensures UpdateFailure(b, format) == Some(InvalidField(Category)) <==>
      Passes(Check(Status, b.status), false) && Passes(Check(Priority, b.priority), false) &&
      Supplied(b.category) && !Includes(Category, b.category)
    ensures UpdateFailure(b, format) == Some(InternalError) <==>
      (forall c :: c in UpdateChecks(b) ==> Passes(c, false)) && Supplied(b.dueDate) && format(b.dueDate.value).None?
    ensures UpdateFailure(b, format) == None <==>
      (forall c :: c in UpdateChecks(b) ==> Passes(c, false)) && !(Supplied(b.dueDate) && format(b.dueDate.value).None?)
  {
    FirstFailureOfThree(Check(Status, b.status), Check(Priority, b.priority), Check(Category, b.category), false);
  }

  /** The update handler's failure, as the sequence of guards it passes through. */
  lemma UpdateFailureInOrder(b: UpdateBody, format: DateFormatter)
    ensures UpdateFailure(b, format) ==
      if Supplied(b.status) && !Includes(Status, b.status) then Some(InvalidField(Status))
      else if Supplied(b.priority) && !Includes(Priority, b.priority) then Some(InvalidField(Priority))
      else if Supplied(b.category) && !Includes(Category, b.category) then Some(InvalidField(Category))
      else if Supplied(b.dueDate) && format(b.dueDate.value).None? then Some(InternalError)
      else None
  {
    FirstFailureOfThree(Check(Status, b.status), Check(Priority, b.priority), Check(Category, b.category), false);
  }

  /**
   * The update handler answers 404 exactly when the id is unknown, whatever the
   * body; for a known id, 400 for the first supplied enumerated field outside
   * its domain in the order status, priority, category; then 500 exactly when
   * the formatter throws on a supplied due date; otherwise it runs its UPDATE.
   */
  lemma UpdateOutcomes(found: bool, todoId: string, b: UpdateBody, format: DateFormatter)
    ensures UpdateSpec(found, todoId, b, format) == Reject(TodoNotFound) <==> !found
    ensures UpdateSpec(found, todoId, b, format) == Reject(InvalidField(Status)) <==>
      found && Supplied(b.status) && !Includes(Status, b.status)
    ensures UpdateSpec(found, todoId, b, format) == Reject(InvalidField(Priority)) <==>
      found && Passes(Check(Status, b.status), false) &&
      Supplied(b.priority) && !Includes(Priority, b.priority)
    ensures UpdateSpec(found, todoId, b, format) == Reject(InvalidField(Category)) <==>
      found && Passes(Check(Status, b.status), false) && Passes(Check(Priority, b.priority), false) &&
      Supplied(b.category) && !Includes(Category, b.category)
    ensures UpdateSpec(found, todoId, b, format) == Reject(InternalError) <==>
      found && (forall c :: c in UpdateChecks(b) ==> Passes(c, false)) &&
      Supplied(b.dueDate) && format(b.dueDate.value).None?
    ensures UpdateSpec(found, todoId, b, format).Execute? <==>
      found && (forall c :: c in UpdateChecks(b) ==> Passes(c, false)) &&
      !(Supplied(b.dueDate) && format(b.dueDate.value).None?)
  {
    UpdateFailures(b, format);
  }

  /** A known id with valid fields and a formattable due date runs the UPDATE built from the supplied fields. */
  lemma UpdateAccepted(todoId: string, b: UpdateBody, format: DateFormatter)
    requires Passes(Check(Status, b.status), false) && Passes(Check(Priority, b.priority), false)
    requires Passes(Check(Category, b.category), false)
    requires Supplied(b.dueDate) ==> format(b.dueDate.value).Some?
    ensures UpdateSpec(true, todoId, b, format) ==
      var xs := UpdateAssignments(b, FormattedDate(b, format));
      Execute(Statement(UpdateText(xs), Values(xs) + [Some(todoId)]))
  {
    UpdateFailures(b, format);
  }

  /**
   * The degenerate update: a known id and a body with nothing supplied runs
   * `UPDATE todo SE WHERE id = ?` with the id as its only parameter.
   */
  lemma UpdateNothingSupplied(todoId: string, b: UpdateBody, format: DateFormatter)
    requires !Supplied(b.status) && !Supplied(b.priority) && !Supplied(b.todo)
    requires !Supplied(b.category) && !Supplied(b.dueDate)
    ensures UpdateSpec(true, todoId, b, format) == Execute(Statement("UPDATE todo SE" + " WHERE id = ?", [Some(todoId)]))
  {
    UpdateAccepted(todoId, b, format);
    assert UpdateAssignments(b, FormattedDate(b, format)) == [];
  }

  /**
   * With every field supplied and valid, the five assignments appear in order,
   * comma-separated, and the parameters are their values followed by the id.
   */
  lemma UpdateAllFields(todoId: string, b: UpdateBody, format: DateFormatter)
    requires Includes(Status, b.status) && Includes(Priority, b.priority) && Includes(Category, b.category)
    requires Supplied(b.todo) && Supplied(b.dueDate) && format(b.dueDate.value).Some?
    ensures UpdateSpec(true, todoId, b, format) == Execute(Statement(
      "UPDATE todo SET " + "status = ?" + ", " + "priority = ?" + ", " + "todo = ?" + ", " +
      "category = ?" + ", " + "due_date = ?" + " WHERE id = ?",
      [b.status, b.priority, b.todo, b.category, format(b.dueDate.value), Some(todoId)]))
  {
    IncludedIsSupplied(Status, b.status);
    IncludedIsSupplied(Priority, b.priority);
    IncludedIsSupplied(Category, b.category);
    UpdateAccepted(todoId, b, format);
    var d := FormattedDate(b, format);
    AllAssigned(b, d);
    JoinOfFive(StatusAssignment(b), PriorityAssignment(b), TodoAssignment(b), CategoryAssignment(b),
               DueDateAssignment(d), SEPARATOR);
  }

  /** With every field supplied, every assignment is made. */
  lemma AllAssigned(b: UpdateBody, d: Param)
    requires Supplied(b.status) && Supplied(b.priority) && Supplied(b.todo)
    requires Supplied(b.category) && Supplied(b.dueDate)
    ensures UpdateAssignments(b, d) ==
      [StatusAssignment(b), PriorityAssignment(b), TodoAssignment(b), CategoryAssignment(b), DueDateAssignment(d)]
    ensures Values(UpdateAssignments(b, d)) == [b.status, b.priority, b.todo, b.category, d]
  {
  }

  /** Whenever the update handler runs a statement, the id is bound last, after at most five field values. */
  lemma UpdateIdBoundLast(found: bool, todoId: string, b: UpdateBody, format: DateFormatter)
    ensures var o := UpdateSpec(found, todoId, b, format);
      o.Execute? ==> 1 <= |o.statement.params| <= 6 && o.statement.params[|o.statement.params| - 1] == Some(todoId)
  {
    var xs := UpdateAssignments(b, FormattedDate(b, format));
    AssignmentsAtMostFive(b, FormattedDate(b, format));
  }

  lemma AssignmentsAtMostFive(b: UpdateBody, formatted: Param)
    ensures |UpdateAssignments(b, formatted)| <= 5
  {
  }

  lemma StatusAssignmentClause(b: UpdateBody)
    ensures Placeholders(StatusAssignment(b).fragment) == 1
  {
    var s := "status = ?";
    assert '?' !in s[..9];
    PlaceholderAtEnd(s);
  }

  lemma PriorityAssignmentClause(b: UpdateBody)
    ensures Placeholders(PriorityAssignment(b).fragment) == 1
  {
    var s := "priority = ?";
    assert '?' !in s[..11];
    PlaceholderAtEnd(s);
  }

  lemma TodoAssignmentClause(b: UpdateBody)
    ensures Placeholders(TodoAssignment(b).fragment) == 1
  {
    var s := "todo = ?";
    assert '?' !in s[..7];
    PlaceholderAtEnd(s);
  }

  lemma CategoryAssignmentClause(b: UpdateBody)
    ensures Placeholders(CategoryAssignment(b).fragment) == 1
  {
    var s := "category = ?";
    assert '?' !in s[..11];
    PlaceholderAtEnd(s);
  }

  lemma DueDateAssignmentClause(formatted: Param)
    ensures Placeholders(DueDateAssignment(formatted).fragment) == 1
  {
    var s := "due_date = ?";
    assert '?' !in s[..11];
    PlaceholderAtEnd(s);
  }

  /** Every assignment the handler can make carries exactly one placeholder. */
  lemma AssignmentsOnePlaceholder(b: UpdateBody, formatted: Param)
    ensures OnePlaceholderEach(UpdateAssignments(b, formatted))
  {
    StatusAssignmentClause(b);
    PriorityAssignmentClause(b);
    TodoAssignmentClause(b);
    CategoryAssignmentClause(b);
    DueDateAssignmentClause(formatted);
    var xs := AppendIf([], Supplied(b.status), StatusAssignment(b));
    AppendIfOnePlaceholder([], Supplied(b.status), StatusAssignment(b));
    AppendIfOnePlaceholder(xs, Supplied(b.priority), PriorityAssignment(b));
    xs := AppendIf(xs, Supplied(b.priority), PriorityAssignment(b));
    AppendIfOnePlaceholder(xs, Supplied(b.todo), TodoAssignment(b));
    xs := AppendIf(xs, Supplied(b.todo), TodoAssignment(b));
    AppendIfOnePlaceholder(xs, Supplied(b.category), CategoryAssignment(b));
    xs := AppendIf(xs, Supplied(b.category), CategoryAssignment(b));
    AppendIfOnePlaceholder(xs, Supplied(b.dueDate), DueDateAssignment(formatted));
  }

  lemma UpdateHeadFree()
    ensures Placeholders(UPDATE_HEAD) == 0
  {
    var s := UPDATE_HEAD;
    assert '?' !in s;
    NoPlaceholder(s);
  }

  lemma TrimmedHeadFree()
    ensures Placeholders("UPDATE todo SE") == 0
  {
    var s := "UPDATE todo SE";
    assert '?' !in s;
    NoPlaceholder(s);
  }

  /** The UPDATE text holds one placeholder per assignment plus the id's, with or without assignments. */
  lemma UpdateTextPlaceholders(xs: seq<Binding>)
    requires OnePlaceholderEach(xs)
    ensures Placeholders(UpdateText(xs)) == |Values(xs)| + 1
  {
    WhereIdPlaceholder();
    if xs == [] {
      TrimmedHeadFree();
      PlaceholdersAppend("UPDATE todo SE", WHERE_ID);
    } else {
      var s := SEPARATOR;
      assert '?' !in s;
      UpdateHeadFree();
      JoinPlaceholders(xs, SEPARATOR);
      PlaceholdersAppend(UPDATE_HEAD, Join(xs, SEPARATOR));
      PlaceholdersAppend(UPDATE_HEAD + Join(xs, SEPARATOR), WHERE_ID);
    }
  }

  /** Whenever the update handler runs a statement, it is the UPDATE of the supplied fields' assignments. */
  lemma UpdateRunsAssignments(found: bool, todoId: string, b: UpdateBody, format: DateFormatter)
    ensures UpdateSpec(found, todoId, b, format).Execute? ==>
      var xs := UpdateAssignments(b, FormattedDate(b, format));
      UpdateSpec(found, todoId, b, format).statement == Statement(UpdateText(xs), Values(xs) + [Some(todoId)])
  {
  }

  /** The update handler only ever runs a statement with one value per placeholder. */
  lemma UpdateWellFormed(found: bool, todoId: string, b: UpdateBody, format: DateFormatter)
    ensures WellFormed(UpdateSpec(found, todoId, b, format))
  {
    var xs := UpdateAssignments(b, FormattedDate(b, format));
    UpdateRunsAssignments(found, todoId, b, format);
    AssignmentsOnePlaceholder(b, FormattedDate(b, format));
    UpdateTextPlaceholders(xs);
  }

  /** The delete handler only ever runs a statement with one value per placeholder. */
  lemma DeleteWellFormed(found: bool, todoId: string)
    ensures WellFormed(DeleteSpec(found, todoId))
  {
    var s := DELETE_TEXT;
    assert '?' !in s[..28];
    PlaceholderAtEnd(s);
  }

  /** Bodies supplying the same fields get assignments with the same fragments in the same order. */
  lemma AssignmentsSameShape(b: UpdateBody, d: Param, c: UpdateBody, e: Param)
    requires Supplied(b.status) == Supplied(c.status) && Supplied(b.priority) == Supplied(c.priority)
    requires Supplied(b.todo) == Supplied(c.todo) && Supplied(b.category) == Supplied(c.category)
    requires Supplied(b.dueDate) == Supplied(c.dueDate)
    ensures SameShape(UpdateAssignments(b, d), UpdateAssignments(c, e))
  {
    var xs, ys := AppendIf([], Supplied(b.status), StatusAssignment(b)), AppendIf([], Supplied(c.status), StatusAssignment(c));
    AppendIfSameShape([], [], Supplied(b.status), StatusAssignment(b), StatusAssignment(c));
    AppendIfSameShape(xs, ys, Supplied(b.priority), PriorityAssignment(b), PriorityAssignment(c));
    xs, ys := AppendIf(xs, Supplied(b.priority), PriorityAssignment(b)), AppendIf(ys, Supplied(c.priority), PriorityAssignment(c));
    AppendIfSameShape(xs, ys, Supplied(b.todo), TodoAssignment(b), TodoAssignment(c));
    xs, ys := AppendIf(xs, Supplied(b.todo), TodoAssignment(b)), AppendIf(ys, Supplied(c.todo), TodoAssignment(c));
    AppendIfSameShape(xs, ys, Supplied(b.category), CategoryAssignment(b), CategoryAssignment(c));
    xs, ys := AppendIf(xs, Supplied(b.category), CategoryAssignment(b)), AppendIf(ys, Supplied(c.category), CategoryAssignment(c));
    AppendIfSameShape(xs, ys, Supplied(b.dueDate), DueDateAssignment(d), DueDateAssignment(e));
  }

  /**
   * Values are bound, never spliced into the text: two accepted updates that
   * supply the same fields run the same UPDATE text, whatever the values and the ids.
   */
  lemma UpdateTextIgnoresValues(id1: string, b: UpdateBody, format1: DateFormatter,
                                id2: string, c: UpdateBody, format2: DateFormatter)
    requires Supplied(b.status) == Supplied(c.status) && Supplied(b.priority) == Supplied(c.priority)
    requires Supplied(b.todo) == Supplied(c.todo) && Supplied(b.category) == Supplied(c.category)
    requires Supplied(b.dueDate) == Supplied(c.dueDate)
    requires UpdateSpec(true, id1, b, format1).Execute? && UpdateSpec(true, id2, c, format2).Execute?
    ensures UpdateSpec(true, id1, b, format1).statement.text == UpdateSpec(true, id2, c, format2).statement.text
  {
    var xs, ys := UpdateAssignments(b, FormattedDate(b, format1)), UpdateAssignments(c, FormattedDate(c, format2));
    UpdateRunsAssignments(true, id1, b, format1);
    UpdateRunsAssignments(true, id2, c, format2);
    AssignmentsSameShape(b, FormattedDate(b, format1), c, FormattedDate(c, format2));
    JoinSameShape(xs, ys, SEPARATOR);
  }

  /** Two bodies that agree on every supplied value get the same outcome. */
  lemma UpdateAgrees(found: bool, todoId: string, b: UpdateBody, c: UpdateBody, format: DateFormatter)
    requires Supplied(b.status) == Supplied(c.status) && (Supplied(b.status) ==> b.status == c.status)
    requires Supplied(b.priority) == Supplied(c.priority) && (Supplied(b.priority) ==> b.priority == c.priority)
    requires Supplied(b.todo) == Supplied(c.todo) && (Supplied(b.todo) ==> b.todo == c.todo)
    requires Supplied(b.category) == Supplied(c.category) && (Supplied(b.category) ==> b.category == c.category)
    requires Supplied(b.dueDate) == Supplied(c.dueDate) && (Supplied(b.dueDate) ==> b.dueDate == c.dueDate)
    ensures UpdateSpec(found, todoId, b, format) == UpdateSpec(found, todoId, c, format)
  {
    UpdateFailureInOrder(b, format);
    UpdateFailureInOrder(c, format);
    assert UpdateAssignments(b, FormattedDate(b, format)) == UpdateAssignments(c, FormattedDate(c, format));
  }

  /** An empty string in the update body is treated exactly like a missing field. */
  lemma UpdateEmptyIsAbsent(found: bool, todoId: string, b: UpdateBody, format: DateFormatter)
    ensures UpdateSpec(found, todoId, b.(status := Some("")), format) == UpdateSpec(found, todoId, b.(status := None), format)
    ensures UpdateSpec(found, todoId, b.(priority := Some("")), format) == UpdateSpec(found, todoId, b.(priority := None), format)
    ensures UpdateSpec(found, todoId, b.(todo := Some("")), format) == UpdateSpec(found, todoId, b.(todo := None), format)
    ensures UpdateSpec(found, todoId, b.(category := Some("")), format) == UpdateSpec(found, todoId, b.(category := None), format)
    ensures UpdateSpec(found, todoId, b.(dueDate := Some("")), format) == UpdateSpec(found, todoId, b.(dueDate := None), format)
  {
    UpdateAgrees(found, todoId, b.(status := Some("")), b.(status := None), format);
    UpdateAgrees(found, todoId, b.(priority := Some("")), b.(priority := None), format);
    UpdateAgrees(found, todoId, b.(todo := Some("")), b.(todo := None), format);
    UpdateAgrees(found, todoId, b.(category := Some("")), b.(category := None), format);
    UpdateAgrees(found, todoId, b.(dueDate := Some("")), b.(dueDate := None), format);
  }
}
