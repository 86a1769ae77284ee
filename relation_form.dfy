/** The relation form (`RelationForm.jsx`): five fields, prefilled when a relation is being
    edited, and a submit that updates or creates the relation. */
module RelationForm {
  import opened Wrappers
  import opened Json
  import opened Web
  import Api
  import RelationCard

  /** The inputs, by their `name` attribute. */
  datatype Field = Name | CategoryType | Location | EmailAddress | PhoneNumber

  /** The key each input writes in the form data, which is also the key the body sends. */
  function Key(f: Field): string {
    match f
    case Name => "name"
    case CategoryType => "category_type"
    case Location => "location"
    case EmailAddress => "email_address"
    case PhoneNumber => "phone_number"
  }

  /** `formData`: one value per input. */
  datatype FormData = FormData(name: Json, categoryType: Json, location: Json, emailAddress: Json, phoneNumber: Json)

  function Value(d: FormData, f: Field): Json {
    match f
    case Name => d.name
    case CategoryType => d.categoryType
    case Location => d.location
    case EmailAddress => d.emailAddress
    case PhoneNumber => d.phoneNumber
  }

  /** `{...prev, [name]: value}`: the named input takes the value and the others keep theirs. */
  function With(d: FormData, f: Field, v: Json): (r: FormData)
    ensures Value(r, f) == v
    ensures forall g :: g != f ==> Value(r, g) == Value(d, g)
  {
    match f
    case Name => d.(name := v)
    case CategoryType => d.(categoryType := v)
    case Location => d.(location := v)
    case EmailAddress => d.(emailAddress := v)
    case PhoneNumber => d.(phoneNumber := v)
  }

  /** A new form: every input empty. */
  const Blank := FormData(JStr(""), JStr(""), JStr(""), JStr(""), JStr(""))

  /** `relation.<key> || ''`. */
  function OrEmpty(v: Option<Json>): Json {
    Or(v, Some(JStr(""))).value
  }

  /** The edit form: each input takes the relation's field of the same key, and an empty string
      where that field is missing or falsy. */
  function Prefill(relation: Json): (d: FormData)
    ensures forall f :: Truthy(Get(relation, Key(f))) ==> Value(d, f) == Get(relation, Key(f)).value
    ensures forall f :: !Truthy(Get(relation, Key(f))) ==> Value(d, f) == JStr("")
  {
    FormData(OrEmpty(Get(relation, "name")), OrEmpty(Get(relation, "category_type")), OrEmpty(Get(relation, "location")),
             OrEmpty(Get(relation, "email_address")), OrEmpty(Get(relation, "phone_number")))
  }

  /** The body the form submits: its five values under their keys. */
  function ToJson(d: FormData): (j: Json)
    ensures forall f :: Get(j, Key(f)) == Some(Value(d, f))
  {
    var ms := [("name", d.name), ("category_type", d.categoryType), ("location", d.location),
               ("email_address", d.emailAddress), ("phone_number", d.phoneNumber)];
    assert forall f :: Get(JObj(ms), Key(f)) == Some(Value(d, f)) by {
      forall f ensures Get(JObj(ms), Key(f)) == Some(Value(d, f)) {
        var i := match f case Name => 0 case CategoryType => 1 case Location => 2 case EmailAddress => 3 case PhoneNumber => 4;
        assert ms[i] == (Key(f), Value(d, f));
        LookupUnique(ms, i);
      }
    }
    JObj(ms)
  }

  /** The relationship types the type selector offers, after its empty "Select a type" choice. */
  const RelationshipTypes: seq<string> := ["Work", "Family", "Friends", "Others"]

  /** Each type the form offers gets its own badge colour, none of them the grey of unknown types. */
  lemma OfferedTypesColoured()
    ensures forall i :: 0 <= i < |RelationshipTypes| ==>
              RelationCard.TypeColor(Some(RelationshipTypes[i])) != RelationCard.DefaultColor
    ensures forall i, j :: 0 <= i < j < |RelationshipTypes| ==>
              RelationCard.TypeColor(Some(RelationshipTypes[i])) != RelationCard.TypeColor(Some(RelationshipTypes[j]))
  {
  }

  /** The fallback error text when the rejection has no message. */
  const FallbackError := "An error occurred. Please try again."

  /** The form's state cells; `relation` is the relation being edited, null for a new one. */
  class RelationForm {
    const relation: Json
    var formData: FormData
    var isSubmitting: bool
    var error: Option<string>

    /** `isEdit`. */
    predicate IsEdit() {
      JsTruthy(relation)
    }

    /** The first render, with the prefill effect applied in edit mode. */
    constructor(relation: Json)
      ensures this.relation == relation
      ensures formData == if JsTruthy(relation) then Prefill(relation) else Blank
      ensures !isSubmitting && error.None?
    {
      this.relation := relation;
      formData := Blank;
      isSubmitting := false;
      error := None;
      new;
      if JsTruthy(relation) {
        formData := Prefill(relation);
      }
    }

    /** `handleChange` on an input. */
    method HandleChange(f: Field, value: string)
      modifies this
      ensures formData == With(old(formData), f, JStr(value))
      ensures isSubmitting == old(isSubmitting) && error == old(error)
    {
      formData := With(formData, f, JStr(value));
    }

    /** The synchronous part of `handleSubmit`: the form is marked as submitting, the error is
        cleared, and the request sent is an update of the edited relation (by its
        `relationship_id`) or the creation of a new one, carrying the form data. */
    method BeginSubmit() returns (request: Api.Request)
      modifies this
      ensures isSubmitting && error.None? && formData == old(formData)
      ensures IsEdit() ==> request == Api.UpdateRelation(Get(relation, "relationship_id"), ToJson(formData))
      ensures !IsEdit() ==> request == Api.CreateRelation(ToJson(formData))
    {
      isSubmitting := true;
      error := None;
      if IsEdit() {
        request := Api.UpdateRelation(Get(relation, "relationship_id"), ToJson(formData));
      } else {
        request := Api.CreateRelation(ToJson(formData));
      }
    }

    /** The rest of `handleSubmit` once the request settles (`Failure` carries the rejection's
        `message`): `onSuccess` runs exactly on success, a failure shows its message or the
        fallback text, and the form is no longer submitting either way. */
    method FinishSubmit(outcome: Result<Json, string>) returns (onSuccessCalled: bool)
      modifies this
      ensures onSuccessCalled <==> outcome.Success?
      ensures outcome.Success? ==> error == old(error)
      ensures outcome.Failure? ==> error == Some(if outcome.error != [] then outcome.error else FallbackError)
      ensures !isSubmitting && formData == old(formData)
    {
      match outcome {
        case Success(_) =>
          onSuccessCalled := true;
        case Failure(message) =>
          onSuccessCalled := false;
          error := Some(if message != [] then message else FallbackError);
      }
      isSubmitting := false;
    }
  }

  /** A form whose edited relation has no `relationship_id` (the client's relations carry `id`)
      sends its update to `/relations/undefined`. */
  lemma EditWithoutRelationshipId(relation: Json, d: FormData)
    requires Get(relation, "relationship_id").None?
    ensures Api.UpdateRelation(Get(relation, "relationship_id"), ToJson(d)).path == "/relations/undefined"
  {
  }
}
