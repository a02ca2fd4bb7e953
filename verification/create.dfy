/**
 * POST /todos/: create a todo. Status, priority and category are mandatory and
 * validated in that order; the first one outside its domain (or missing) ends
 * the request with 400. Otherwise one INSERT binds all six body fields.
 */
module CreateTodo {
  import opened Wrappers
  import opened Validation
  import opened Sql
  import opened Responses

  /** The JSON body fields the create handler destructures. */
  datatype CreateBody = CreateBody(id: Option<string>, todo: Option<string>, category: Option<string>,
                                   priority: Option<string>, status: Option<string>, dueDate: Option<string>)

  /**
   * The INSERT statement text. It is one string literal in the handler; it is
   * written here in pieces so that each piece's placeholders can be counted alone.
   */
  const INSERT_TEXT := "INSERT INTO todo (id, todo, category, " + "priority, status, due_date) " +
    "VALUES (?" + ", ?" + ", ?" + ", ?" + ", ?" + ", ?" + ")"

  /** The mandatory enumerated fields, in the order the handler validates them. */
  function CreateChecks(b: CreateBody): seq<Check> {
    [Check(Status, b.status), Check(Priority, b.priority), Check(Category, b.category)]
  }

  /** The values bound to the INSERT, in column order; none of id, todo or dueDate is checked. */
  function InsertParams(b: CreateBody): seq<Param> {
    [b.id, b.todo, b.category, b.priority, b.status, b.dueDate]
  }

  /** Reference outcome of the create handler: the first failing mandatory field's 400, else the INSERT. */
  function CreateSpec(b: CreateBody): Outcome {
    match FirstFailure(CreateChecks(b), true)
    case Some(f) => Reject(InvalidField(f))
    case None => Execute(Statement(INSERT_TEXT, InsertParams(b)))
  }

  /** The create handler up to the point where it runs `db.run(insert, params)`. */
  method Create(b: CreateBody) returns (o: Outcome)
    ensures o == CreateSpec(b)
  {
    CreateOutcomes(b);
    if !Includes(Status, b.status) {
      return Reject(InvalidField(Status));
    }
    if !Includes(Priority, b.priority) {
      return Reject(InvalidField(Priority));
    }
    if !Includes(Category, b.category) {
      return Reject(InvalidField(Category));
    }
    o := Execute(Statement(INSERT_TEXT, [b.id, b.todo, b.category, b.priority, b.status, b.dueDate]));
  }

  /**
   * The create handler answers 400 for the first of status, priority, category
   * that is not in its domain, and otherwise runs the INSERT with the six body
   * fields bound in column order.
   */
  lemma CreateOutcomes(b: CreateBody)
    ensures CreateSpec(b) == Reject(InvalidField(Status)) <==> !Includes(Status, b.status)
    ensures CreateSpec(b) == Reject(InvalidField(Priority)) <==>
      Includes(Status, b.status) && !Includes(Priority, b.priority)
    ensures CreateSpec(b) == Reject(InvalidField(Category)) <==>
      Includes(Status, b.status) && Includes(Priority, b.priority) && !Includes(Category, b.category)
    ensures CreateSpec(b) == Execute(Statement(INSERT_TEXT, [b.id, b.todo, b.category, b.priority, b.status, b.dueDate])) <==>
      Includes(Status, b.status) && Includes(Priority, b.priority) && Includes(Category, b.category)
    ensures CreateSpec(b).Reject? || CreateSpec(b).Execute?
  {
    FirstFailureOfThree(Check(Status, b.status), Check(Priority, b.priority), Check(Category, b.category), true);
  }

  /**
   * Unlike list and update, create does not skip a missing or empty enumerated
   * field: it is rejected, even though an optional check would have let it through.
   */
  lemma CreateRejectsMissing(b: CreateBody)
    requires !Supplied(b.status)
    ensures CreateSpec(b) == Reject(InvalidField(Status))
    ensures Passes(Check(Status, b.status), false)
  {
    CreateOutcomes(b);
    MandatoryIsStricter(Check(Status, b.status));
  }

  /** An accepted body would also pass the optional checks of the list and update handlers. */
  lemma CreateAcceptedPassesOptional(b: CreateBody)
    requires CreateSpec(b).Execute?
    ensures forall c :: c in CreateChecks(b) ==> Passes(c, false)
  {
    CreateOutcomes(b);
    MandatoryIsStricter(Check(Status, b.status));
    MandatoryIsStricter(Check(Priority, b.priority));
    MandatoryIsStricter(Check(Category, b.category));
  }

  /**
   * id, todo and dueDate are never validated: replacing them cannot change
   * whether or why the request is rejected.
   */
  lemma CreateUnvalidatedFields(b: CreateBody, id: Option<string>, todo: Option<string>, dueDate: Option<string>)
    ensures CreateSpec(b).Reject? ==> CreateSpec(b.(id := id, todo := todo, dueDate := dueDate)) == CreateSpec(b)
    ensures CreateSpec(b).Execute? <==> CreateSpec(b.(id := id, todo := todo, dueDate := dueDate)).Execute?
  {
    assert CreateChecks(b.(id := id, todo := todo, dueDate := dueDate)) == CreateChecks(b);
  }

  lemma InsertHeadFirst()
    ensures Placeholders("INSERT INTO todo (id, todo, category, ") == 0
  {
    var s := "INSERT INTO todo (id, todo, category, ";
    assert '?' !in s;
    NoPlaceholder(s);
  }

  lemma InsertHeadSecond()
    ensures Placeholders("priority, status, due_date) ") == 0
  {
    var s := "priority, status, due_date) ";
    assert '?' !in s;
    NoPlaceholder(s);
  }

  lemma InsertValuesOpen()
    ensures Placeholders("VALUES (?") == 1
  {
    var s := "VALUES (?";
    assert '?' !in s[..8];
    PlaceholderAtEnd(s);
  }

  lemma InsertValuesNext()
    ensures Placeholders(", ?") == 1
  {
    var s := ", ?";
    assert '?' !in s[..2];
    PlaceholderAtEnd(s);
  }

  lemma InsertValuesClose()
    ensures Placeholders(")") == 0
  {
    var s := ")";
    assert '?' !in s;
    NoPlaceholder(s);
  }

  /** Two placeholder-free pieces, an opening placeholder, five more and a closing piece hold six placeholders. */
  lemma InsertPiecesAddUp(h1: string, h2: string, open: string, next: string, close: string)
    requires Placeholders(h1) == 0 && Placeholders(h2) == 0 && Placeholders(open) == 1
    requires Placeholders(next) == 1 && Placeholders(close) == 0
    ensures Placeholders(h1 + h2 + open + next + next + next + next + next + close) == 6
  {
    var s := h1 + h2;
    PlaceholdersAppend(h1, h2);
    PlaceholdersAppend(s, open);
    s := s + open;
    PlaceholdersAppend(s, next);
    s := s + next;
    PlaceholdersAppend(s, next);
    s := s + next;
    PlaceholdersAppend(s, next);
    s := s + next;
    PlaceholdersAppend(s, next);
    s := s + next;
    PlaceholdersAppend(s, next);
    s := s + next;
    PlaceholdersAppend(s, close);
  }

  /** The INSERT text has one placeholder per column. */
  lemma InsertPlaceholders()
    ensures Placeholders(INSERT_TEXT) == 6
  {
    InsertHeadFirst();
    InsertHeadSecond();
    InsertValuesOpen();
    InsertValuesNext();
    InsertValuesClose();
    InsertPiecesAddUp("INSERT INTO todo (id, todo, category, ", "priority, status, due_date) ", "VALUES (?", ", ?", ")");
  }

  /** The INSERT binds exactly one value per placeholder, whatever the body. */
  lemma InsertWellBound(b: CreateBody)
    ensures WellBound(Statement(INSERT_TEXT, InsertParams(b)))
  {
    InsertPlaceholders();
  }

  /** Whenever the create handler runs a statement, it is the INSERT of the body's six fields. */
  lemma CreateRunsInsert(b: CreateBody)
    ensures CreateSpec(b).Execute? ==> CreateSpec(b).statement == Statement(INSERT_TEXT, InsertParams(b))
  {
  }

  /** The create handler only ever runs a statement with one value per placeholder. */
  lemma CreateWellFormed(b: CreateBody)
    ensures WellFormed(CreateSpec(b))
  {
    CreateRunsInsert(b);
    InsertWellBound(b);
  }
}
