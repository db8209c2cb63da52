/** Request validation in `predict` (app.py:90-107): the required-field check
    and the check of the two numbers fed to the regression model. */
module Validation {
  import opened FormData

  /** `required_fields`, in the order they are checked. */
  const RequiredFields: seq<string> := [
    "property_type", "area", "total_area", "bedrooms", "bathrooms",
    "floor", "age", "furnishing", "parking", "overallqual"
  ]

  /** `field not in form_data or not form_data[field]`: absent, or present
      with the empty string (the only falsy string). */
  predicate IsMissing(form: Form, field: string)
  {
    field !in form || form[field] == ""
  }

  /** Field `i` is missing and no field before it is. */
  predicate IsFirstMissing(form: Form, fields: seq<string>, i: int)
  {
    0 <= i < |fields| && IsMissing(form, fields[i])
    && forall j :: 0 <= j < i ==> !IsMissing(form, fields[j])
  }

  /** The first field of `fields`, in order, that is missing; `None` when all
      of them are filled in. */
  function FirstMissing(form: Form, fields: seq<string>): (r: Option<string>)
    ensures r.None? <==> forall i :: 0 <= i < |fields| ==> !IsMissing(form, fields[i])
    ensures r.Some? ==> exists i :: IsFirstMissing(form, fields, i) && fields[i] == r.value
  {
    if fields == [] then None
    else if IsMissing(form, fields[0]) then
      assert IsFirstMissing(form, fields, 0);
      Some(fields[0])
    else
      var r := FirstMissing(form, fields[1..]);
      assert r.Some? ==> exists i :: IsFirstMissing(form, fields, i) && fields[i] == r.value by {
        if r.Some? {
          var k :| IsFirstMissing(form, fields[1..], k) && fields[1..][k] == r.value;
          assert IsFirstMissing(form, fields, k + 1) by {
            forall j | 0 <= j < k + 1 ensures !IsMissing(form, fields[j]) {
              if j > 0 { assert fields[j] == fields[1..][j - 1]; }
            }
          }
        }
      }
      r
  }

  /** Only which fields are missing matters to the check, not what the
      filled-in fields contain. */
  lemma {:induction false} FirstMissingDependsOnPresence(form: Form, form': Form, fields: seq<string>)
    requires forall i :: 0 <= i < |fields| ==> IsMissing(form, fields[i]) == IsMissing(form', fields[i])
    ensures FirstMissing(form, fields) == FirstMissing(form', fields)
  {
    if fields != [] && !IsMissing(form, fields[0]) {
      assert forall i :: 0 <= i < |fields[1..]| ==> fields[1..][i] == fields[i + 1];
      FirstMissingDependsOnPresence(form, form', fields[1..]);
    }
  }

  /** The loop over `required_fields`: it stops at, and reports, the first
      field that is missing, and checks nothing after it. */
  method CheckRequiredFields(form: Form) returns (missing: Option<string>)
    ensures missing == FirstMissing(form, RequiredFields)
  {
    for i := 0 to |RequiredFields|
      invariant FirstMissing(form, RequiredFields[i..]) == FirstMissing(form, RequiredFields)
    {
      var field := RequiredFields[i];
      if field !in form || form[field] == "" {
        return Some(field);
      }
      assert RequiredFields[i..][1..] == RequiredFields[i + 1..];
    }
    assert RequiredFields[|RequiredFields|..] == [];
    return None;
  }

  /** `total_area` and `overallqual` once both have been converted and
      accepted. */
  datatype Primary = Primary(totalArea: real, overallQual: real)

  /** `float(total_area)` and `float(overallqual)` followed by the range
      check of line 103; `None` is the single generic error, whichever of
      the four causes raised it. */
  function ParsePrimary(totalAreaText: string, overallQualText: string, parseFloat: FloatParser): (r: Option<Primary>)
    ensures r.Some? <==>
      && parseFloat(totalAreaText).Some? && parseFloat(overallQualText).Some?
      && parseFloat(totalAreaText).value > 0.0
      && 1.0 <= parseFloat(overallQualText).value <= 10.0
    ensures r.Some? ==>
      && r.value.totalArea == parseFloat(totalAreaText).value
      && r.value.overallQual == parseFloat(overallQualText).value
  {
    match parseFloat(totalAreaText)
    case None => None
    case Some(totalArea) =>
      match parseFloat(overallQualText)
      case None => None
      case Some(overallQual) =>
        if totalArea <= 0.0 || overallQual < 1.0 || overallQual > 10.0 then None
        else Some(Primary(totalArea, overallQual))
  }
}
