/** The pieces the two form modals share: each keeps its error messages in a
    map from field to string, fills a fresh map in `validate` one check at a
    time, and blanks a field's message in `handleChange`. */
module Forms {
  import opened Text

  /** Every entry of the error map holds its field's message. */
  predicate MessagesFrom<F(==)>(errors: map<F, string>, message: F -> string)
  {
    forall f :: f in errors ==> errors[f] == message(f)
  }

  /** `if (!value.trim()) newErrors[f] = message`: the field's message is
      recorded exactly when the value is whitespace only. */
  method RequireNonBlank<F(==)>(errors: map<F, string>, value: string, f: F, message: F -> string)
    returns (r: map<F, string>)
    ensures r == if AllWhitespace(value) then errors[f := message(f)] else errors
    ensures MessagesFrom(errors, message) ==> MessagesFrom(r, message)
  {
    r := errors;
    if IsBlank(value) {
      r := errors[f := message(f)];
    }
  }

  /** `if (!value) newErrors[f] = message`: the field's message is recorded
      exactly when the value is the empty string. */
  method RequireNonEmpty<F(==)>(errors: map<F, string>, value: string, f: F, message: F -> string)
    returns (r: map<F, string>)
    ensures r == if value == [] then errors[f := message(f)] else errors
    ensures MessagesFrom(errors, message) ==> MessagesFrom(r, message)
  {
    r := errors;
    if value == [] {
      r := errors[f := message(f)];
    }
  }

  /** `if (errors[name]) setErrors(prev => ({ ...prev, [name]: "" }))`: a
      non-empty message of the named field is blanked, and nothing else
      changes. */
  function ClearError<F(==)>(errors: map<F, string>, name: F): (r: map<F, string>)
    ensures r.Keys == errors.Keys
    ensures name in errors ==> r[name] == ""
    ensures forall f :: f in errors && f != name ==> r[f] == errors[f]
  {
    if name in errors && errors[name] != "" then errors[name := ""] else errors
  }
}
