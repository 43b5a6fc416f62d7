/** `RequestValidationResult`: error messages accumulated per field name. */
module Validation {

  /** The dictionary after one AddError: the field's list, created empty if
      it was missing, gains the message at its end; every other field keeps
      its list. */
  function WithError(errors: map<string, seq<string>>, fieldName: string, errorMessage: string): (r: map<string, seq<string>>)
    ensures r.Keys == errors.Keys + {fieldName}
    ensures fieldName !in errors ==> r[fieldName] == [errorMessage]
    ensures fieldName in errors ==> r[fieldName] == errors[fieldName] + [errorMessage]
    ensures forall f :: f in errors && f != fieldName ==> r[f] == errors[f]
  {
    var current := if fieldName in errors then errors[fieldName] else [];
    errors[fieldName := current + [errorMessage]]
  }

  /** The dictionary after AddError was called with each (field, message)
      pair of `calls`, first to last, on a fresh result. */
  function ErrorsOf(calls: seq<(string, string)>): map<string, seq<string>> {
    if calls == [] then map[]
    else WithError(ErrorsOf(calls[..|calls| - 1]), calls[|calls| - 1].0, calls[|calls| - 1].1)
  }

  /** The messages passed for `field`, in call order, duplicates included. */
  function MessagesFor(calls: seq<(string, string)>, field: string): seq<string> {
    if calls == [] then []
    else
      var last := calls[|calls| - 1];
      MessagesFor(calls[..|calls| - 1], field) + (if last.0 == field then [last.1] else [])
  }

  /** The field names passed. */
  function FieldsOf(calls: seq<(string, string)>): set<string> {
    set i | 0 <= i < |calls| :: calls[i].0
  }

  /** The dictionary has a key for exactly the field names that were passed. */
  lemma {:induction false} ErrorsOfKeys(calls: seq<(string, string)>)
    ensures ErrorsOf(calls).Keys == FieldsOf(calls)
  {
    if calls != [] {
      var prefix := calls[..|calls| - 1];
      ErrorsOfKeys(prefix);
      assert FieldsOf(calls) == FieldsOf(prefix) + {calls[|calls| - 1].0} by {
        forall f | f in FieldsOf(calls)
          ensures f in FieldsOf(prefix) + {calls[|calls| - 1].0}
        {
          var i :| 0 <= i < |calls| && calls[i].0 == f;
          if i < |calls| - 1 {
            assert prefix[i] == calls[i];
          }
        }
        forall f | f in FieldsOf(prefix)
          ensures f in FieldsOf(calls)
        {
          var i :| 0 <= i < |prefix| && prefix[i].0 == f;
          assert calls[i] == prefix[i];
        }
      }
    }
  }

  /** Each field's list holds that field's messages in call order, duplicates
      kept, and a listed field has at least one message. */
  lemma {:induction false} ErrorsOfMessages(calls: seq<(string, string)>, field: string)
    ensures field in ErrorsOf(calls) ==> ErrorsOf(calls)[field] == MessagesFor(calls, field)
    ensures field in ErrorsOf(calls) <==> MessagesFor(calls, field) != []
  {
    if calls != [] {
      ErrorsOfMessages(calls[..|calls| - 1], field);
    }
  }

  class RequestValidationResult {
    /** The error dictionary: field name to its messages, oldest first. */
    var errors: map<string, seq<string>>

    /** A field is listed only once it has a message. */
    ghost predicate Valid()
      reads this
    {
      forall f :: f in errors ==> errors[f] != []
    }

    constructor ()
      ensures Valid() && errors == map[] && IsValid()
    {
      errors := map[];
    }

    /** Creates an empty list for a new field, then appends the message;
        afterwards the result is no longer valid. */
    method AddError(fieldName: string, errorMessage: string)
      requires Valid()
      modifies this
      ensures Valid() && !IsValid()
      ensures errors == WithError(old(errors), fieldName, errorMessage)
    {
      ghost var current := if fieldName in errors then errors[fieldName] else [];
      if fieldName !in errors {
        errors := errors[fieldName := []];
      }
      assert errors == old(errors)[fieldName := current];
      errors := errors[fieldName := errors[fieldName] + [errorMessage]];
      assert errors == old(errors)[fieldName := current + [errorMessage]];
    }

    /** `IsValid`: no field has an error message. */
    predicate IsValid()
      reads this
      ensures Valid() ==> (IsValid() <==> forall f :: f in errors ==> |errors[f]| == 0)
    {
      |errors| == 0
    }
  }
}
