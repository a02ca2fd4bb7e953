/**
 * GET /todos/: the filtered list. Each supplied filter is validated and, when
 * valid, appended as an `AND` clause with its value bound to the clause's
 * placeholder; the first invalid enumerated filter ends the request with 400.
 */
module ListTodos {
  import opened Wrappers
  import opened Validation
  import opened Sql
  import opened Responses

  /** The query-string fields of the list request. */
  datatype ListQuery = ListQuery(status: Option<string>, priority: Option<string>,
                                 search_q: Option<string>, category: Option<string>)

  const LIST_BASE := "SELECT * FROM todo WHERE 1"

  /** The enumerated filters, in the order the handler validates them; each is optional. */
  function ListChecks(q: ListQuery): seq<Check> {
    [Check(Status, q.status), Check(Priority, q.priority), Check(Category, q.category)]
  }

  /** `%search_q%`: the LIKE pattern for a substring search. */
  function SearchPattern(s: string): string {
    "%" + s + "%"
  }

  /** The status clause, binding the status value. */
  function StatusFilter(q: ListQuery): Binding {
    Binding(" AND status = ?", q.status)
  }

  /** The priority clause, binding the priority value. */
  function PriorityFilter(q: ListQuery): Binding {
    Binding(" AND priority = ?", q.priority)
  }

  /** The search clause, binding `%search_q%` rather than the bare term. */
  function SearchFilter(q: ListQuery): Binding {
    Binding(" AND todo LIKE ?", if q.search_q.Some? then Some(SearchPattern(q.search_q.value)) else None)
  }

  /** The category clause, binding the category value. */
  function CategoryFilter(q: ListQuery): Binding {
    Binding(" AND category = ?", q.category)
  }

  /** The clauses of the supplied filters, in the order status, priority, search, category. */
  function ListFilters(q: ListQuery): seq<Binding> {
    var bs := AppendIf([], Supplied(q.status), StatusFilter(q));
    var bs := AppendIf(bs, Supplied(q.priority), PriorityFilter(q));
    var bs := AppendIf(bs, Supplied(q.search_q), SearchFilter(q));
    AppendIf(bs, Supplied(q.category), CategoryFilter(q))
  }

  /** Reference outcome of the list handler: the first invalid filter's 400, else the filtered SELECT. */
  function ListSpec(q: ListQuery): Outcome {
    match FirstFailure(ListChecks(q), false)
    case Some(f) => Reject(InvalidField(f))
    case None => Execute(Statement(LIST_BASE + Render(ListFilters(q)), Values(ListFilters(q))))
  }

  /** The list handler up to the point where it runs `db.all(query, params)`. */
  method List(q: ListQuery) returns (o: Outcome)
    ensures o == ListSpec(q)
  {
    var query := LIST_BASE;
    var params: seq<Param> := [];
    ghost var filters: seq<Binding> := [];
    ListOutcomes(q);
    assert query == LIST_BASE + Render(filters) by { assert Render(filters) == ""; }

    if Supplied(q.status) {
      if Includes(Status, q.status) {
        AppendFragment(LIST_BASE, Render(filters), " AND status = ?");
        query := query + " AND status = ?";
        params := params + [q.status];
      } else {
        return Reject(InvalidField(Status));
      }
    }
    RenderAppendIf(filters, Supplied(q.status), StatusFilter(q));
    ValuesAppendIf(filters, Supplied(q.status), StatusFilter(q));
    filters := AppendIf(filters, Supplied(q.status), StatusFilter(q));
    assert query == LIST_BASE + Render(filters) && params == Values(filters);

    if Supplied(q.priority) {
      if Includes(Priority, q.priority) {
        AppendFragment(LIST_BASE, Render(filters), " AND priority = ?");
        query := query + " AND priority = ?";
        params := params + [q.priority];
      } else {
        return Reject(InvalidField(Priority));
      }
    }
    RenderAppendIf(filters, Supplied(q.priority), PriorityFilter(q));
    ValuesAppendIf(filters, Supplied(q.priority), PriorityFilter(q));
    filters := AppendIf(filters, Supplied(q.priority), PriorityFilter(q));
    assert query == LIST_BASE + Render(filters) && params == Values(filters);

    if Supplied(q.search_q) {
      AppendFragment(LIST_BASE, Render(filters), " AND todo LIKE ?");
      query := query + " AND todo LIKE ?";
      params := params + [Some(SearchPattern(q.search_q.value))];
    }
    RenderAppendIf(filters, Supplied(q.search_q), SearchFilter(q));
    ValuesAppendIf(filters, Supplied(q.search_q), SearchFilter(q));
    filters := AppendIf(filters, Supplied(q.search_q), SearchFilter(q));
    assert query == LIST_BASE + Render(filters) && params == Values(filters);

    if Supplied(q.category) {
      if Includes(Category, q.category) {
        AppendFragment(LIST_BASE, Render(filters), " AND category = ?");
        query := query + " AND category = ?";
        params := params + [q.category];
      } else {
        return Reject(InvalidField(Category));
      }
    }
    RenderAppendIf(filters, Supplied(q.category), CategoryFilter(q));
    ValuesAppendIf(filters, Supplied(q.category), CategoryFilter(q));
    filters := AppendIf(filters, Supplied(q.category), CategoryFilter(q));
    o := Execute(Statement(query, params));
  }

  /**
   * The list handler answers 400 exactly when a supplied enumerated filter is
   * outside its domain, naming the first such field in the order status,
   * priority, category; otherwise it runs its SELECT.
   */
  lemma ListOutcomes(q: ListQuery)
    ensures ListSpec(q) == Reject(InvalidField(Status)) <==>
      Supplied(q.status) && !Includes(Status, q.status)
    ensures ListSpec(q) == Reject(InvalidField(Priority)) <==>
      Passes(Check(Status, q.status), false) &&
      Supplied(q.priority) && !Includes(Priority, q.priority)
    ensures ListSpec(q) == Reject(InvalidField(Category)) <==>
      Passes(Check(Status, q.status), false) && Passes(Check(Priority, q.priority), false) &&
      Supplied(q.category) && !Includes(Category, q.category)
    ensures ListSpec(q).Execute? <==>
      Passes(Check(Status, q.status), false) && Passes(Check(Priority, q.priority), false) &&
      Passes(Check(Category, q.category), false)
  {
    FirstFailureOfThree(Check(Status, q.status), Check(Priority, q.priority), Check(Category, q.category), false);
  }

  /** A request whose enumerated filters all pass runs the SELECT built from its supplied filters. */
  lemma ListAccepted(q: ListQuery)
    requires Passes(Check(Status, q.status), false) && Passes(Check(Priority, q.priority), false)
    requires Passes(Check(Category, q.category), false)
    ensures ListSpec(q) == Execute(Statement(LIST_BASE + Render(ListFilters(q)), Values(ListFilters(q))))
  {
    FirstFailureOfThree(Check(Status, q.status), Check(Priority, q.priority), Check(Category, q.category), false);
  }

  /** With no filter supplied, the list handler selects every row and binds nothing. */
  lemma ListUnfiltered(q: ListQuery)
    requires !Supplied(q.status) && !Supplied(q.priority) && !Supplied(q.search_q) && !Supplied(q.category)
    ensures ListSpec(q) == Execute(Statement("SELECT * FROM todo WHERE 1", []))
  {
    FirstFailureOfThree(Check(Status, q.status), Check(Priority, q.priority), Check(Category, q.category), false);
    assert ListFilters(q) == [];
  }

  /** With every filter supplied and valid, all four clauses appear, in order, each with its value. */
  lemma ListAllFilters(q: ListQuery)
    requires Includes(Status, q.status) && Includes(Priority, q.priority) && Includes(Category, q.category)
    requires Supplied(q.search_q)
    ensures ListSpec(q) ==
      Execute(Statement(
        "SELECT * FROM todo WHERE 1" + " AND status = ?" + " AND priority = ?" + " AND todo LIKE ?" + " AND category = ?",
        [q.status, q.priority, Some("%" + q.search_q.value + "%"), q.category]))
  {
    IncludedIsSupplied(Status, q.status);
    IncludedIsSupplied(Priority, q.priority);
    IncludedIsSupplied(Category, q.category);
    ListAccepted(q);
    ListRendered(q);
    ListFiltersAll(q);
    ValuesOfFour(StatusFilter(q), PriorityFilter(q), SearchFilter(q), CategoryFilter(q));
  }

  /** With every field supplied, every clause is appended. */
  lemma ListFiltersAll(q: ListQuery)
    requires Supplied(q.status) && Supplied(q.priority) && Supplied(q.search_q) && Supplied(q.category)
    ensures ListFilters(q) == [StatusFilter(q), PriorityFilter(q), SearchFilter(q), CategoryFilter(q)]
  {
  }

  /**
   * The filter clauses in the statement text depend only on which fields were
   * supplied: each supplied field contributes its fixed clause, in order.
   */
  lemma ListRendered(q: ListQuery)
    ensures Render(ListFilters(q)) ==
      Emitted(Supplied(q.status), StatusFilter(q)) + Emitted(Supplied(q.priority), PriorityFilter(q)) +
      Emitted(Supplied(q.search_q), SearchFilter(q)) + Emitted(Supplied(q.category), CategoryFilter(q))
  {
    RenderFour(Supplied(q.status), StatusFilter(q), Supplied(q.priority), PriorityFilter(q),
               Supplied(q.search_q), SearchFilter(q), Supplied(q.category), CategoryFilter(q));
  }

  /** Each of the four clauses has exactly one placeholder. */
  lemma FilterPlaceholders(q: ListQuery)
    ensures Placeholders(StatusFilter(q).fragment) == 1
    ensures Placeholders(PriorityFilter(q).fragment) == 1
    ensures Placeholders(SearchFilter(q).fragment) == 1
    ensures Placeholders(CategoryFilter(q).fragment) == 1
  {
    StatusFilterClause(q);
    PriorityFilterClause(q);
    SearchFilterClause(q);
    CategoryFilterClause(q);
  }

  lemma StatusFilterClause(q: ListQuery)
    ensures Placeholders(StatusFilter(q).fragment) == 1
  {
    var s := " AND status = ?";
    assert '?' !in s[..14];
    PlaceholderAtEnd(s);
  }

  lemma PriorityFilterClause(q: ListQuery)
    ensures Placeholders(PriorityFilter(q).fragment) == 1
  {
    var s := " AND priority = ?";
    assert '?' !in s[..16];
    PlaceholderAtEnd(s);
  }

  lemma SearchFilterClause(q: ListQuery)
    ensures Placeholders(SearchFilter(q).fragment) == 1
  {
    var s := " AND todo LIKE ?";
    assert '?' !in s[..15];
    PlaceholderAtEnd(s);
  }

  lemma CategoryFilterClause(q: ListQuery)
    ensures Placeholders(CategoryFilter(q).fragment) == 1
  {
    var s := " AND category = ?";
    assert '?' !in s[..16];
    PlaceholderAtEnd(s);
  }

  /** Every clause of the list query carries one placeholder. */
  lemma ListFiltersOnePlaceholder(q: ListQuery)
    ensures OnePlaceholderEach(ListFilters(q))
  {
    FilterPlaceholders(q);
    var bs: seq<Binding> := [];
    AppendIfOnePlaceholder(bs, Supplied(q.status), StatusFilter(q));
    bs := AppendIf(bs, Supplied(q.status), StatusFilter(q));
    AppendIfOnePlaceholder(bs, Supplied(q.priority), PriorityFilter(q));
    bs := AppendIf(bs, Supplied(q.priority), PriorityFilter(q));
    AppendIfOnePlaceholder(bs, Supplied(q.search_q), SearchFilter(q));
    bs := AppendIf(bs, Supplied(q.search_q), SearchFilter(q));
    AppendIfOnePlaceholder(bs, Supplied(q.category), CategoryFilter(q));
  }

  /** The list query binds exactly one parameter per placeholder. */
  lemma ListWellFormed(q: ListQuery)
    ensures WellFormed(ListSpec(q))
  {
    var fs := ListFilters(q);
    ListFiltersOnePlaceholder(q);
    RenderPlaceholders(fs);
    ListBaseFree();
    PlaceholdersAppend(LIST_BASE, Render(fs));
  }

  /** The unfiltered SELECT has no placeholder. */
  lemma ListBaseFree()
    ensures Placeholders(LIST_BASE) == 0
  {
    NoPlaceholder(LIST_BASE);
  }

  /** The search term is never validated: changing it cannot turn an answer into a query or back. */
  lemma ListSearchNeverRejected(q: ListQuery, search: Option<string>)
    ensures ListSpec(q).Reject? ==> ListSpec(q.(search_q := search)) == ListSpec(q)
    ensures ListSpec(q).Execute? <==> ListSpec(q.(search_q := search)).Execute?
  {
    var r := q.(search_q := search);
    assert ListChecks(r) == ListChecks(q);
  }

  /** Truthiness: an empty query-string value behaves exactly like an absent one, for every field. */
  lemma ListEmptyIsAbsent(q: ListQuery)
    ensures ListSpec(q.(status := Some(""))) == ListSpec(q.(status := None))
    ensures ListSpec(q.(priority := Some(""))) == ListSpec(q.(priority := None))
    ensures ListSpec(q.(search_q := Some(""))) == ListSpec(q.(search_q := None))
    ensures ListSpec(q.(category := Some(""))) == ListSpec(q.(category := None))
  {
    ListAgrees(q.(status := Some("")), q.(status := None));
    ListAgrees(q.(priority := Some("")), q.(priority := None));
    ListAgrees(q.(search_q := Some("")), q.(search_q := None));
    ListAgrees(q.(category := Some("")), q.(category := None));
  }

  /** Two queries that agree on every supplied value get the same outcome. */
  lemma ListAgrees(q: ListQuery, r: ListQuery)
    requires Supplied(q.status) == Supplied(r.status) && (Supplied(q.status) ==> q.status == r.status)
    requires Supplied(q.priority) == Supplied(r.priority) && (Supplied(q.priority) ==> q.priority == r.priority)
    requires Supplied(q.search_q) == Supplied(r.search_q) && (Supplied(q.search_q) ==> q.search_q == r.search_q)
    requires Supplied(q.category) == Supplied(r.category) && (Supplied(q.category) ==> q.category == r.category)
    ensures ListSpec(q) == ListSpec(r)
  {
    FirstFailureOfThree(Check(Status, q.status), Check(Priority, q.priority), Check(Category, q.category), false);
    FirstFailureOfThree(Check(Status, r.status), Check(Priority, r.priority), Check(Category, r.category), false);
    assert ListFilters(q) == ListFilters(r);
  }

  /**
   * Values are bound, never spliced into the text: two requests that supply
   * the same fields get the same statement text, whatever the values.
   */
  lemma ListTextIgnoresValues(q: ListQuery, r: ListQuery)
    requires Supplied(q.status) == Supplied(r.status) && Supplied(q.priority) == Supplied(r.priority)
    requires Supplied(q.search_q) == Supplied(r.search_q) && Supplied(q.category) == Supplied(r.category)
    requires ListSpec(q).Execute? && ListSpec(r).Execute?
    ensures ListSpec(q).statement.text == ListSpec(r).statement.text
  {
    ListRendered(q);
    ListRendered(r);
  }
}
