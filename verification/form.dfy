/** The form controller around the sign-up schema: the current values, the
    set of fields that have lost focus at least once, which errors are
    displayed, and when the submit button hands the values on. */
module FormController {
  import opened Optional
  import opened Signup

  /** The controller's state. Errors are not stored: they are always
      recomputed from the current values, so they can never be stale. */
  datatype Form = Form(values: Values, touched: set<Field>)

  /** The user's interactions with one field's input. */
  datatype Event =
    | Changed(field: Field, text: string)   // the field's text changed
    | Blurred(field: Field)                 // the field lost focus

  /** Every field starts empty and untouched. */
  function Initial(): (form: Form)
    ensures forall f :: Get(form.values, f) == []
    ensures form.touched == {}
  {
    Form(Values("", "", "", "", ""), {})
  }

  /** A field's text changed: only that field's value is replaced. */
  function Change(form: Form, f: Field, text: string): (r: Form)
    ensures Get(r.values, f) == text
    ensures forall g :: g != f ==> Get(r.values, g) == Get(form.values, g)
    ensures r.touched == form.touched
  {
    form.(values := With(form.values, f, text))
  }

  /** A field lost focus: it becomes touched and nothing else changes. */
  function Blur(form: Form, f: Field): (r: Form)
    ensures r.values == form.values
    ensures r.touched == form.touched + {f}
  {
    form.(touched := form.touched + {f})
  }

  /** Applies one event: a change edits only its field's value, a blur only
      touches its field. */
  function Step(form: Form, e: Event): (r: Form)
    ensures e.Changed? ==> r.touched == form.touched
    ensures e.Changed? ==> Get(r.values, e.field) == e.text
    ensures forall g :: g != e.field ==> Get(r.values, g) == Get(form.values, g)
    ensures e.Blurred? ==> r.values == form.values && r.touched == form.touched + {e.field}
  {
    match e
    case Changed(f, text) => Change(form, f, text)
    case Blurred(f) => Blur(form, f)
  }

  /** Whether event `e` changes the value of field `g`. */
  predicate ChangesField(e: Event, g: Field) {
    e.Changed? && e.field == g
  }

  /** Applies events in order. The touched set only grows, and a field no
      event changes keeps its value. */
  function Run(form: Form, events: seq<Event>): (r: Form)
    ensures form.touched <= r.touched
    ensures forall g ::
      (forall i :: 0 <= i < |events| ==> !ChangesField(events[i], g)) ==>
        Get(r.values, g) == Get(form.values, g)
    decreases |events|
  {
    if events == [] then form else Run(Step(form, events[0]), events[1..])
  }

  /** The fields that some event of `events` blurred. */
  function BlurredIn(events: seq<Event>): (fs: set<Field>)
    ensures forall f :: f in fs <==> exists i :: 0 <= i < |events| && events[i] == Blurred(f)
    decreases |events|
  {
    if events == [] then {}
    else
      var rest := BlurredIn(events[1..]);
      assert forall i :: 1 <= i < |events| ==> events[i] == events[1..][i - 1];
      assert forall i :: 0 <= i < |events| - 1 ==> events[1..][i] == events[i + 1];
      (if events[0].Blurred? then {events[0].field} else {}) + rest
  }

  /** The touched-and-error gate (`touched.f && errors.f`): the error line
      under field `f` is shown when the field is touched and its entry in the
      errors object is a non-empty message. */
  function Shown(form: Form, f: Field, isEmail: string -> bool): (r: Option<string>)
    ensures r.Some? <==> f in form.touched && !Accepted(form.values, f, isEmail)
    ensures r.Some? ==> Some(r.value) == FieldError(form.values, f, isEmail)
  {
    var errors := Errors(form.values, isEmail);
    if f in form.touched && f in errors && errors[f] != "" then Some(errors[f]) else None
  }

  /** The submit button is disabled while the form is not valid. */
  function SubmitEnabled(form: Form, isEmail: string -> bool): (b: bool)
    ensures b <==> forall f :: FieldError(form.values, f, isEmail).None?
  {
    IsValid(form.values, isEmail)
  }

  /** Pressing the submit button. The button is disabled unless the form is
      valid, and the library's submit handler validates the values again
      before calling the submit callback; both gates are the same test, so
      the values are handed on exactly when the form is valid. */
  function Press(form: Form, isEmail: string -> bool): (r: Option<Values>)
    ensures r.Some? <==> forall f :: Accepted(form.values, f, isEmail)
    ensures r.Some? ==> r.value == form.values
  {
    if IsValid(form.values, isEmail) then Some(form.values) else None
  }

  /** Setting a field to the same text twice is the same as setting it once,
      so the errors are the same both times. */
  lemma ChangeIdempotent(form: Form, f: Field, text: string, isEmail: string -> bool)
    ensures Change(Change(form, f, text), f, text) == Change(form, f, text)
    ensures Errors(Change(Change(form, f, text), f, text).values, isEmail) ==
      Errors(Change(form, f, text).values, isEmail)
  {
  }

  /** Touching a field changes neither the values nor any error. */
  lemma BlurKeepsErrors(form: Form, f: Field, isEmail: string -> bool)
    ensures Blur(form, f).values == form.values
    ensures Errors(Blur(form, f).values, isEmail) == Errors(form.values, isEmail)
  {
  }

  /** After any sequence of events, the touched fields are exactly those
      touched before plus those some event blurred. */
  lemma {:induction false} RunTouched(form: Form, events: seq<Event>)
    ensures Run(form, events).touched == form.touched + BlurredIn(events)
    decreases |events|
  {
    if events != [] {
      RunTouched(Step(form, events[0]), events[1..]);
    }
  }

  /** A field that starts untouched and is never blurred never displays an
      error, whatever values the events type into the form. */
  lemma NeverBlurredNeverShown(form: Form, events: seq<Event>, f: Field, isEmail: string -> bool)
    requires f !in form.touched
    requires forall i :: 0 <= i < |events| ==> events[i] != Blurred(f)
    ensures Shown(Run(form, events), f, isEmail) == None
  {
    RunTouched(form, events);
  }

  /** The fresh form has every field in error with its `required` message,
      displays none of them, and cannot be submitted. */
  lemma InitialState(isEmail: string -> bool)
    ensures forall f :: FieldError(Initial().values, f, isEmail).Some?
    ensures forall f :: Shown(Initial(), f, isEmail) == None
    ensures !SubmitEnabled(Initial(), isEmail)
    ensures Press(Initial(), isEmail) == None
  {
    assert !Accepted(Initial().values, Name, isEmail);
  }
}
