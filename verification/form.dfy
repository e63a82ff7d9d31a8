/**
  The state logic of the `ApplyForm` client component: the initial form
  record, the single-field update performed on every input change, the
  `submitted` flag driven by the fetch outcome and the reset button, the
  submit-enabled predicate and the thank-you text choices.
 */
module ApplyForm {
  import opened Wrappers
  import opened JsValues
  import opened Config
  import opened ApplyHandler

  /** The record `useState` starts from. */
  const InitialFormData: Record := map[
    "name" := JStr(""),
    "age" := JStr(""),
    "instagram" := JStr(""),
    "zodiac" := JStr(""),
    "cuddleRating" := JNum(3),
    "punTolerance" := JNum(3),
    "sharesFood" := JBool(true),
    "handlesWeirdness" := JBool(true),
    "showerSingingReaction" := JStr("join"),
    "idealDate" := JStr("netflix"),
    "petApproval" := JBool(false),
    "terms" := JBool(false)
  ]

  /** The component's two pieces of state. */
  datatype FormState = FormState(formData: Record, submitted: bool)

  const InitialState: FormState := FormState(InitialFormData, false)

  /** The defaults a fresh form shows. */
  lemma InitialDefaults()
    ensures Get(InitialFormData, "cuddleRating") == JNum(3) && Get(InitialFormData, "punTolerance") == JNum(3)
    ensures Get(InitialFormData, "sharesFood") == JBool(true) && Get(InitialFormData, "handlesWeirdness") == JBool(true)
    ensures Get(InitialFormData, "petApproval") == JBool(false) && Get(InitialFormData, "terms") == JBool(false)
    ensures Get(InitialFormData, "showerSingingReaction") == JStr("join")
    ensures Get(InitialFormData, "idealDate") == JStr("netflix")
    ensures forall k :: k in ["name", "age", "instagram", "zodiac"] ==> Get(InitialFormData, k) == JStr("")
    ensures !InitialState.submitted
  {
  }

  /** The parts of `e.target` that `handleChange` reads; an input's `value` is always a string. */
  datatype ChangeEvent = ChangeEvent(name: string, value: string, inputType: string, checked: bool)

  /** `{ ...prev, [name]: type === 'checkbox' ? checked : value }`. */
  function HandleChange(prev: Record, e: ChangeEvent): (next: Record)
    ensures next.Keys == prev.Keys + {e.name}
    ensures e.inputType == "checkbox" ==> next[e.name] == JBool(e.checked)
    ensures e.inputType != "checkbox" ==> next[e.name] == JStr(e.value)
    ensures forall k :: k in prev && k != e.name ==> next[k] == prev[k]
  {
    prev[e.name := EventValue(e)]
  }

  /** The value an event stores. */
  function EventValue(e: ChangeEvent): JsValue {
    if e.inputType == "checkbox" then JBool(e.checked) else JStr(e.value)
  }

  /** A run of change events, applied in order. */
  function ApplyChanges(data: Record, events: seq<ChangeEvent>): Record
    decreases |events|
  {
    if events == [] then data
    else ApplyChanges(HandleChange(data, events[0]), events[1..])
  }

  /** The value the last event naming `key` stores, if any event names it. */
  function LastWrite(events: seq<ChangeEvent>, key: string): Option<JsValue>
    decreases |events|
  {
    if events == [] then None
    else if events[|events| - 1].name == key then Some(EventValue(events[|events| - 1]))
    else LastWrite(events[..|events| - 1], key)
  }

  /** Applying a run and then one more event is applying the longer run. */
  lemma {:induction false} ApplyChangesSnoc(data: Record, events: seq<ChangeEvent>, e: ChangeEvent)
    ensures ApplyChanges(data, events + [e]) == HandleChange(ApplyChanges(data, events), e)
    decreases |events|
  {
    if events == [] {
      assert events + [e] == [e];
      assert ApplyChanges(HandleChange(data, e), []) == HandleChange(data, e);
    } else {
      assert (events + [e])[0] == events[0];
      assert (events + [e])[1..] == events[1..] + [e];
      ApplyChangesSnoc(HandleChange(data, events[0]), events[1..], e);
    }
  }

  /**
    After a run of changes, each field holds what the last event naming it
    stored, and a field no event names keeps its earlier value.
   */
  lemma {:induction false} LastChangeWins(data: Record, events: seq<ChangeEvent>, key: string)
    ensures LastWrite(events, key).Some? ==> Get(ApplyChanges(data, events), key) == LastWrite(events, key).value
    ensures LastWrite(events, key).None? ==> Get(ApplyChanges(data, events), key) == Get(data, key)
    decreases |events|
  {
    if events != [] {
      var init := events[..|events| - 1];
      var last := events[|events| - 1];
      assert init + [last] == events;
      ApplyChangesSnoc(data, init, last);
      LastChangeWins(data, init, key);
    }
  }

  /** `disabled={!formData.terms}`. */
  function SubmitDisabled(data: Record): (disabled: bool)
    ensures disabled <==> Get(data, "terms") in FalsyValues
  {
    !Truthy(Get(data, "terms"))
  }

  /**
    What `response.json()` gives: a rejection when the body is not JSON, the
    JSON literal `null`, or any other JSON value. Reading `.message` throws
    only on `null`; on every other value it yields a value or `undefined`.
   */
  datatype ParsedBody = NotJson | JsonNull | JsonValue

  /** What `fetch` produced: a response with its status and how its body parsed, or a thrown error. */
  datatype FetchOutcome = Answered(status: int, body: ParsedBody) | FetchThrew

  /** `response.ok`. */
  predicate ResponseOk(status: int) {
    200 <= status <= 299
  }

  /**
    `handleSubmit` after the request settles: only an ok response whose body
    parses to a value other than `null` sets `submitted`. Every other outcome
    leaves the state as it was, so the same answers can be sent again: a
    body that does not parse rejects, and `result.message` on `null` throws,
    both into the `catch`.
   */
  function HandleSubmit(s: FormState, outcome: FetchOutcome): (t: FormState)
    ensures t.formData == s.formData
    ensures t.submitted <==> s.submitted || (outcome.Answered? && ResponseOk(outcome.status) && outcome.body == JsonValue)
    ensures !(outcome.Answered? && ResponseOk(outcome.status)) ==> t == s
  {
    match outcome
    case Answered(status, body) =>
      if ResponseOk(status) && body == JsonValue then FormState(s.formData, true) else s
    case FetchThrew => s
  }

  /** An ok answer whose body is the JSON literal `null` leaves the form unsubmitted, as `result.message` throws. */
  lemma NullBodyLeavesFormOpen(s: FormState, status: int)
    requires !s.submitted && ResponseOk(status)
    ensures HandleSubmit(s, Answered(status, JsonNull)) == s
    ensures !HandleSubmit(s, Answered(status, JsonNull)).submitted
  {
  }

  /** The "Submit Another Application" button: back to the form with every answer kept. */
  function SubmitAnother(s: FormState): (t: FormState)
    ensures !t.submitted && t.formData == s.formData
  {
    FormState(s.formData, false)
  }

  /** A successful submission followed by "Submit Another Application" returns to the same form, answers intact. */
  lemma SubmitThenResetKeepsAnswers(s: FormState, status: int)
    requires !s.submitted && ResponseOk(status)
    ensures HandleSubmit(s, Answered(status, JsonValue)).submitted
    ensures SubmitAnother(HandleSubmit(s, Answered(status, JsonValue))) == s
  {
  }

  /** `formData.nickname || formData.name || "Applicant"`. */
  function ThankYouName(data: Record): (v: JsValue)
    ensures Truthy(v)
    ensures Truthy(Get(data, "nickname")) ==> v == Get(data, "nickname")
    ensures !Truthy(Get(data, "nickname")) && Truthy(Get(data, "name")) ==> v == Get(data, "name")
    ensures !Truthy(Get(data, "nickname")) && !Truthy(Get(data, "name")) ==> v == JStr("Applicant")
  {
    Or(Or(Get(data, "nickname"), Get(data, "name")), JStr("Applicant"))
  }

  const PetNoted: string := "✅ Pet approval noted (good choice)"
  const NoPets: string := "❌ No pets? We'll talk."

  /** The pet line of the thank-you screen, chosen by the truthiness of `petApproval`. */
  function PetNote(data: Record): (r: string)
    ensures r == PetNoted <==> Truthy(Get(data, "petApproval"))
    ensures r == NoPets <==> !Truthy(Get(data, "petApproval"))
  {
    if Truthy(Get(data, "petApproval")) then PetNoted else NoPets
  }

  /** A fresh form cannot be submitted, and the server would refuse its record anyway. */
  lemma FreshFormRejected(env: Env, submittedAt: string, send: SendOutcome)
    ensures SubmitDisabled(InitialFormData)
    ensures HandleApply(InitialFormData, env, submittedAt, send).response.status == 400
    ensures HandleApply(InitialFormData, env, submittedAt, send).mail == None
  {
  }

  /** Checking the terms box enables the submit button; unchecking it disables it again. */
  lemma TermsCheckboxControlsSubmit(data: Record, checked: bool, value: string)
    ensures SubmitDisabled(HandleChange(data, ChangeEvent("terms", value, "checkbox", checked))) <==> !checked
  {
  }

  /**
    Once name and age are typed and the terms box is checked, the record
    passes the server's required-field check, whatever came before.
   */
  lemma FilledFormPassesValidation(data: Record, name: string, age: string, other: seq<ChangeEvent>)
    requires name != "" && age != ""
    requires forall i :: 0 <= i < |other| ==> other[i].name !in {"name", "age", "terms"}
    ensures var filled := ApplyChanges(data, [ChangeEvent("name", name, "text", false),
                                              ChangeEvent("age", age, "number", false),
                                              ChangeEvent("terms", "on", "checkbox", true)] + other);
      HasRequiredFields(filled) && !SubmitDisabled(filled)
  {
    var events := [ChangeEvent("name", name, "text", false),
                   ChangeEvent("age", age, "number", false),
                   ChangeEvent("terms", "on", "checkbox", true)] + other;
    var e1, e2, e3 := events[0], events[1], events[2];
    assert events[..3] == [e1, e2, e3];
    assert [e1, e2, e3][..2] == [e1, e2];
    assert [e1, e2][..1] == [e1];
    assert LastWrite(events[..3], "terms") == Some(JBool(true));
    assert LastWrite(events[..3], "age") == Some(JStr(age));
    assert LastWrite([e1, e2], "name") == LastWrite([e1], "name") == Some(JStr(name));
    assert LastWrite(events[..3], "name") == Some(JStr(name));
    NotNamedKeepsLastWrite(events, 3, "name");
    NotNamedKeepsLastWrite(events, 3, "age");
    NotNamedKeepsLastWrite(events, 3, "terms");
    LastChangeWins(data, events, "name");
    LastChangeWins(data, events, "age");
    LastChangeWins(data, events, "terms");
  }

  /** Events after position `n` that never name `key` do not change its last write. */
  lemma {:induction false} NotNamedKeepsLastWrite(events: seq<ChangeEvent>, n: nat, key: string)
    requires n <= |events|
    requires forall i :: n <= i < |events| ==> events[i].name != key
    ensures LastWrite(events, key) == LastWrite(events[..n], key)
    decreases |events|
  {
    if |events| > n {
      assert events[..|events| - 1][..n] == events[..n];
      NotNamedKeepsLastWrite(events[..|events| - 1], n, key);
    } else {
      assert events[..n] == events;
    }
  }
}
