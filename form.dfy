/**
  The inbound request as the value-bearing components see it: a parsed form
  that maps each parameter name to the list of values it was sent with
  (Go's `http.Request.Form`), and the "present versus absent" rule that
  decides whether a request carries a new component value.
 */
module Form {

  datatype Option<+T> = None | Some(value: T)

  /** A parsed request form: parameter name to the values sent under it. */
  type FormData = map<string, seq<string>>

  /** An inbound request; only its parsed form is used. */
  datatype Request = Request(form: FormData)

  /**
    Name of the parameter that carries a component's new value. It is
    defined outside the widget files; the model only needs it to be one
    fixed name.
   */
  const ParamCompValue: string

  /**
    `r.FormValue(key)` of Go's net/http: the first value sent under `key`,
    or the empty string when `key` is missing or was sent with no value.
   */
  function FormValue(form: FormData, key: string): string
  {
    if key in form && |form[key]| > 0 then form[key][0] else ""
  }

  /**
    The value a request supplies under `key`, if any. A parameter sent with
    at least one value supplies its first value, even when that value is the
    empty string; a missing parameter, or one with no values, supplies none.
   */
  function Supplied(form: FormData, key: string): Option<string>
  {
    if key in form && form[key] != [] then Some(form[key][0]) else None
  }

  /**
    The text a value-bearing component holds after a request: the supplied
    component value, verbatim, or the old text when none is supplied.
   */
  function ValueIntake(text: string, form: FormData): string
  {
    match Supplied(form, ParamCompValue)
    case Some(v) => v
    case None => text
  }

  /**
    The order in which the widgets test a request (a non-empty form value
    first; otherwise the first value of a parameter that is present with
    values; otherwise nothing) gives the text the value-intake rule gives.
   */
  lemma FormValueFirstMatchesIntake(text: string, form: FormData)
    ensures (if |FormValue(form, ParamCompValue)| > 0 then FormValue(form, ParamCompValue)
             else if ParamCompValue in form && |form[ParamCompValue]| > 0 then form[ParamCompValue][0]
             else text) == ValueIntake(text, form)
  {
  }

  /** A supplied empty value is a value: it replaces the text with "". */
  lemma EmptyValueIsApplied(text: string, form: FormData)
    requires ParamCompValue in form && form[ParamCompValue] != []
    requires form[ParamCompValue][0] == ""
    ensures ValueIntake(text, form) == ""
  {
  }

  /** A missing parameter, or one with an empty value list, changes nothing. */
  lemma AbsentValueKeepsText(text: string, form: FormData)
    requires ParamCompValue !in form || form[ParamCompValue] == []
    ensures ValueIntake(text, form) == text
  {
  }

  /** Applying the same request twice is the same as applying it once. */
  lemma ValueIntakeIdempotent(text: string, form: FormData)
    ensures ValueIntake(ValueIntake(text, form), form) == ValueIntake(text, form)
  {
  }

  /** Only the component-value parameter matters; every other parameter is ignored. */
  lemma ValueIntakeReadsOnlyValueParam(text: string, f1: FormData, f2: FormData)
    requires (ParamCompValue in f1) == (ParamCompValue in f2)
    requires ParamCompValue in f1 ==> f1[ParamCompValue] == f2[ParamCompValue]
    ensures ValueIntake(text, f1) == ValueIntake(text, f2)
  {
  }
}
