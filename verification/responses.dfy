/**
 * What a handler does with a request once HTTP and the database are taken
 * away: answer at once with an error status (no statement run), or hand one
 * parameterised statement to the driver.
 */
module Responses {
  import opened Validation
  import opened Sql

  /** Why a handler answered without running its statement. */
  datatype Failure = InvalidField(field: Field) | TodoNotFound | InternalError

  /** The HTTP status of the early answer. */
  function Code(f: Failure): nat {
    match f
    case InvalidField(_) => 400
    case TodoNotFound => 404
    case InternalError => 500
  }

  /** The JSON string the early answer carries. */
  function Message(f: Failure): string {
    match f
    case InvalidField(field) => InvalidMessage(field)
    case TodoNotFound => "Todo not found"
    case InternalError => "Internal Server Error"
  }

  /** The result of a handler: an early answer, or the statement it runs. */
  datatype Outcome = Reject(failure: Failure) | Execute(statement: Statement)

  /** A statement outcome binds one value per placeholder; an early answer runs nothing. */
  predicate WellFormed(o: Outcome) {
    o.Execute? ==> WellBound(o.statement)
  }

  /** The suffix shared by the update and delete statements. */
  const WHERE_ID := " WHERE id = ?"

  /** The id filter holds one placeholder, the one the id is bound to. */
  lemma WhereIdPlaceholder()
    ensures Placeholders(WHERE_ID) == 1
  {
    var s := WHERE_ID;
    assert '?' !in s[..12];
    PlaceholderAtEnd(s);
  }

  /** Status code and message together tell every early answer apart. */
  lemma AnswersIdentifyFailure(f: Failure, g: Failure)
    ensures Code(f) == Code(g) && Message(f) == Message(g) <==> f == g
  {
    if f.InvalidField? && g.InvalidField? {
      MessagesIdentifyField(f.field, g.field);
    }
  }
}
