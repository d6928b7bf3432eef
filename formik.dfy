/**
 * The Formik form state the screens keep: a values object in field order,
 * updated by `setFieldValue`/`handleChange`, and the multipart request a
 * submit builds from it.
 */
module Formik {
  import opened Wrappers
  import Json
  import FormData
  import AxiosInstance
  import Validation

  /** The field names of a values object, in order. */
  function Names(o: Json.Object): seq<string> {
    if o == [] then [] else [o[0].0] + Names(o[1..])
  }

  /** `setFieldValue(k, v)` (and `handleChange(k)`): `{...values, [k]: v}`. */
  function SetFieldValue(values: Json.Object, k: string, v: string): Json.Object {
    FormData.Spread(values, [(k, v)])
  }

  /** After setting `k`, `k` reads the new value and every other field is unchanged. */
  lemma SetFieldValueGet(values: Json.Object, k: string, v: string, k': string)
    ensures Json.Get(SetFieldValue(values, k, v), k') == if k' == k then Some(v) else Json.Get(values, k')
  {
    FormData.SpreadGet(values, [(k, v)], k');
  }

  lemma {:induction false} OverwriteNames(a: Json.Object, b: Json.Object)
    ensures Names(FormData.Overwrite(a, b)) == Names(a)
  {
    if a != [] {
      OverwriteNames(a[1..], b);
    }
  }

  /** Setting a field the form already has keeps the field order. */
  lemma SetFieldValueNames(values: Json.Object, k: string, v: string)
    requires FormData.HasKey(values, k)
    ensures Names(SetFieldValue(values, k, v)) == Names(values)
  {
    OverwriteNames(values, [(k, v)]);
    assert FormData.NewMembers([(k, v)], values) == [];
    assert SetFieldValue(values, k, v) == FormData.Overwrite(values, [(k, v)]);
  }

  lemma {:induction false} NamesTextEntries(o: Json.Object)
    ensures FormData.Keys(FormData.TextEntries(o)) == Names(o)
  {
    if o != [] {
      NamesTextEntries(o[1..]);
      FormData.KeysAppend([(o[0].0, FormData.Text(o[0].1))], FormData.TextEntries(o[1..]));
    }
  }

  /** `forEach(append)` over the values, then `userId` and `role` from the session. */
  function SessionForm(values: Json.Object, user: Json.Object): seq<FormData.Entry> {
    FormData.TextEntries(values) + FormData.SessionEntries(user)
  }

  /** The request's keys are the form's fields, in order, then the two session fields. */
  lemma SessionFormKeys(values: Json.Object, user: Json.Object)
    ensures FormData.Keys(SessionForm(values, user)) == Names(values) + ["userId", "role"]
  {
    NamesTextEntries(values);
    FormData.KeysAppend(FormData.TextEntries(values), FormData.SessionEntries(user));
    var s := FormData.SessionEntries(user);
    assert FormData.Keys(s[1..]) == ["role"];
  }

  /**
   * The `if (!values.f) setFieldError(f, message)` statements of a submit
   * handler, in order: the (field, message) pairs whose field is falsy.
   */
  function FieldErrors(values: Json.Object, checks: seq<(string, string)>): seq<(string, string)> {
    if checks == [] then []
    else (if Validation.Required(Json.Get(values, checks[0].0)) then [] else [checks[0]])
         + FieldErrors(values, checks[1..])
  }

  /** The errors set are exactly the checks whose field is falsy. */
  lemma {:induction false} FieldErrorsMeans(values: Json.Object, checks: seq<(string, string)>)
    ensures forall e :: e in FieldErrors(values, checks) ==> e in checks && !Validation.Required(Json.Get(values, e.0))
    ensures forall c :: c in checks && !Validation.Required(Json.Get(values, c.0)) ==> c in FieldErrors(values, checks)
  {
    if checks != [] {
      FieldErrorsMeans(values, checks[1..]);
      forall c | c in checks && !Validation.Required(Json.Get(values, c.0))
        ensures c in FieldErrors(values, checks)
      {
        if c != checks[0] {
          assert c in checks[1..];
        }
      }
    }
  }

  /** A reply the `.then` callback reads with `response.data.status === 'OK'`. */
  predicate StatusOk(reply: AxiosInstance.Settled<Json.Object>) {
    AxiosInstance.Delivered(reply).Some? && Json.Get(AxiosInstance.Delivered(reply).value, "status") == Some("OK")
  }

  /** No field error is set exactly when every checked field is filled. */
  lemma {:induction false} FieldErrorsEmpty(values: Json.Object, checks: seq<(string, string)>)
    ensures FieldErrors(values, checks) == [] <==>
      forall i :: 0 <= i < |checks| ==> Validation.Required(Json.Get(values, checks[i].0))
  {
    if checks != [] {
      FieldErrorsEmpty(values, checks[1..]);
      assert forall i :: 1 <= i < |checks| ==> checks[i] == checks[1..][i - 1];
    }
  }
}
