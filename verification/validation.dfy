/**
 * The field validator: the three enumerated todo fields, their fixed domains,
 * the JavaScript truthiness test the handlers apply before validating, and the
 * first-failure rule by which a handler picks its 400 message.
 */
module Validation {
  import opened Wrappers

  /** A todo field whose value must come from a fixed set. */
  datatype Field = Status | Priority | Category

  /** The allowed values, as the array literals the handlers call `includes` on. */
  function Domain(f: Field): seq<string> {
    match f
    case Status => ["TO DO", "IN PROGRESS", "DONE"]
    case Priority => ["HIGH", "MEDIUM", "LOW"]
    case Category => ["WORK", "HOME", "LEARNING"]
  }

  /** The body of the 400 answer for a value outside the field's domain. */
  function InvalidMessage(f: Field): string {
    match f
    case Status => "Invalid Todo Status"
    case Priority => "Invalid Todo Priority"
    case Category => "Invalid Todo Category"
  }

  /** JavaScript truthiness of a string field (`if (status)`): absent and empty both count as not supplied. */
  predicate Supplied(v: Option<string>) {
    v.Some? && v.value != ""
  }

  /** `[...].includes(v)` on the field's domain; an absent value is never included. */
  predicate Includes(f: Field, v: Option<string>) {
    v.Some? && v.value in Domain(f)
  }

  /** One field to validate, with the value the request carried for it. */
  datatype Check = Check(field: Field, value: Option<string>)

  /**
   * Whether a check passes. Optional checks (list and update) let a value that
   * is not supplied through; mandatory checks (create) demand a value in the domain.
   */
  predicate Passes(c: Check, mandatory: bool) {
    if mandatory then Includes(c.field, c.value)
    else !Supplied(c.value) || Includes(c.field, c.value)
  }

  /**
   * The field of the first failing check, or None when all pass: the handlers
   * validate in a fixed order and return on the first failure.
   */
  function FirstFailure(checks: seq<Check>, mandatory: bool): (r: Option<Field>)
    ensures r.None? <==> forall i :: 0 <= i < |checks| ==> Passes(checks[i], mandatory)
    ensures r.Some? ==>
      exists i :: 0 <= i < |checks| && checks[i].field == r.value && !Passes(checks[i], mandatory) &&
          forall j :: 0 <= j < i ==> Passes(checks[j], mandatory)
  {
    if checks == [] then None
    else if !Passes(checks[0], mandatory) then Some(checks[0].field)
    else
      var r := FirstFailure(checks[1..], mandatory);
      assert r.Some? ==>
        exists i :: 1 <= i < |checks| && checks[i].field == r.value && !Passes(checks[i], mandatory) &&
          forall j :: 0 <= j < i ==> Passes(checks[j], mandatory) by {
        if r.Some? {
          var k :| 0 <= k < |checks[1..]| && checks[1..][k].field == r.value && !Passes(checks[1..][k], mandatory) &&
                   forall j :: 0 <= j < k ==> Passes(checks[1..][j], mandatory);
          assert checks[k + 1] == checks[1..][k];
          assert forall j :: 1 <= j < k + 1 ==> checks[j] == checks[1..][j - 1];
        }
      }
      r
  }

  /** The first-failure rule spelled out for the three enumerated fields every handler checks. */
  lemma FirstFailureOfThree(a: Check, b: Check, c: Check, mandatory: bool)
    ensures FirstFailure([a, b, c], mandatory) ==
      if !Passes(a, mandatory) then Some(a.field)
      else if !Passes(b, mandatory) then Some(b.field)
      else if !Passes(c, mandatory) then Some(c.field)
      else None
  {
    assert [c][1..] == [];
    assert FirstFailure([c], mandatory) == if !Passes(c, mandatory) then Some(c.field) else None;
    assert [b, c][1..] == [c];
    assert FirstFailure([b, c], mandatory) ==
      if !Passes(b, mandatory) then Some(b.field) else FirstFailure([c], mandatory);
    assert [a, b, c][1..] == [b, c];
  }

  /** No domain holds the empty string, so a value in a domain is always a supplied one. */
  lemma IncludedIsSupplied(f: Field, v: Option<string>)
    ensures Includes(f, v) ==> Supplied(v)
  {
  }

  /** A mandatory check is stricter than an optional one, and strictly so on missing values. */
  lemma MandatoryIsStricter(c: Check)
    ensures Passes(c, true) ==> Passes(c, false)
    ensures !Supplied(c.value) ==> Passes(c, false) && !Passes(c, true)
  {
    IncludedIsSupplied(c.field, c.value);
  }

  /** The three 400 messages are distinct, so a message identifies the field that failed. */
  lemma MessagesIdentifyField(f: Field, g: Field)
    ensures InvalidMessage(f) == InvalidMessage(g) <==> f == g
  {
  }
}
