/** The submitted form and the parsing boundary around it.

    A form submission is a map from field name to the text the user typed.
    Python's `int()` and `float()` on that text are not modelled character by
    character: each is a parameter of type `string -> Option<_>`, `None`
    standing for the `ValueError` the conversion raises. */
module FormData {

  datatype Option<+T> = None | Some(value: T)

  /** `request.form.to_dict()`: field name to submitted text. */
  type Form = map<string, string>

  /** Python's `int(text)`; `None` is a raised `ValueError`. */
  type IntParser = string -> Option<int>

  /** Python's `float(text)`; `None` is a raised `ValueError`. */
  type FloatParser = string -> Option<real>

  /** `int(form_data.get(key, default))`: a field that is absent falls back to
      the integer default, which `int()` returns unchanged; a field that is
      present is parsed and may fail. */
  function IntField(form: Form, key: string, default: int, parseInt: IntParser): Option<int>
  {
    if key in form then parseInt(form[key]) else Some(default)
  }
}
