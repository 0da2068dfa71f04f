/** The property submission form: a record of raw strings edited one field at
    a time, and the payload it is turned into when the form is submitted. */
module PropertyForm {
  import opened JsText

  /** The form's inputs, by their `name` attribute. */
  datatype Field =
    | OwnerName | OwnerEmail | Address | City | State | ZipCode | PropertyType
    | Bedrooms | Bathrooms | Sqft | AskingPrice | Arv | RepairCost | Notes

  /** The raw text of every input. */
  datatype Form = Form(
    ownerName: string, ownerEmail: string, address: string, city: string,
    state: string, zipCode: string, propertyType: string,
    bedrooms: string, bathrooms: string, sqft: string,
    askingPrice: string, arv: string, repairCost: string, notes: string)

  /** `form[name]`. */
  function Get(f: Form, name: Field): string {
    match name
    case OwnerName => f.ownerName
    case OwnerEmail => f.ownerEmail
    case Address => f.address
    case City => f.city
    case State => f.state
    case ZipCode => f.zipCode
    case PropertyType => f.propertyType
    case Bedrooms => f.bedrooms
    case Bathrooms => f.bathrooms
    case Sqft => f.sqft
    case AskingPrice => f.askingPrice
    case Arv => f.arv
    case RepairCost => f.repairCost
    case Notes => f.notes
  }

  /** `{ ...f, [name]: value }`: field `name` becomes `value`, the rest stay. */
  function Set(f: Form, name: Field, value: string): (g: Form)
    ensures Get(g, name) == value
    ensures forall other :: other != name ==> Get(g, other) == Get(f, other)
  {
    match name
    case OwnerName => f.(ownerName := value)
    case OwnerEmail => f.(ownerEmail := value)
    case Address => f.(address := value)
    case City => f.(city := value)
    case State => f.(state := value)
    case ZipCode => f.(zipCode := value)
    case PropertyType => f.(propertyType := value)
    case Bedrooms => f.(bedrooms := value)
    case Bathrooms => f.(bathrooms := value)
    case Sqft => f.(sqft := value)
    case AskingPrice => f.(askingPrice := value)
    case Arv => f.(arv := value)
    case RepairCost => f.(repairCost := value)
    case Notes => f.(notes := value)
  }

  /** The form as first rendered. */
  function Initial(): (f: Form)
    ensures forall name :: Get(f, name) == (if name == PropertyType then "single_family" else "")
  {
    Form("", "", "", "", "", "", "single_family", "", "", "", "", "", "", "")
  }

  /** The inputs carrying the HTML `required` attribute. */
  predicate IsRequired(name: Field) {
    name in {OwnerName, Address, City, State, ZipCode, AskingPrice}
  }

  /** The browser's constraint validation: no required input is empty. */
  function RequiredFilled(f: Form): (b: bool)
    ensures b <==> (f.ownerName != "" && f.address != "" && f.city != "" &&
                    f.state != "" && f.zipCode != "" && f.askingPrice != "")
  {
    assert Get(f, OwnerName) == f.ownerName && Get(f, Address) == f.address;
    assert Get(f, City) == f.city && Get(f, State) == f.state;
    assert Get(f, ZipCode) == f.zipCode && Get(f, AskingPrice) == f.askingPrice;
    forall name :: IsRequired(name) ==> Get(f, name) != ""
  }

  // ---------------------------------------------------------------------------
  // Payload
  // ---------------------------------------------------------------------------

  /** A value of the payload object handed to `onSubmit`. (`JSON.stringify`
      would later send a NaN number as `null`; that step is not modelled.) */
  datatype Json = JString(s: string) | JNumber(n: JsNumber) | JNull

  datatype Payload = Payload(
    ownerName: string, ownerEmail: string, address: string, city: string,
    state: string, zipCode: string, propertyType: string,
    bedrooms: Nullable<JsNumber>, bathrooms: Nullable<JsNumber>, sqft: Nullable<JsNumber>,
    askingPrice: JsNumber, arv: Nullable<JsNumber>, repairCost: JsNumber, notes: string)

  function NullableJson(v: Nullable<JsNumber>): Json {
    match v
    case Null => JNull
    case NonNull(n) => JNumber(n)
  }

  /** The JSON value the payload sends for field `name`. */
  function Entry(p: Payload, name: Field): Json {
    match name
    case OwnerName => JString(p.ownerName)
    case OwnerEmail => JString(p.ownerEmail)
    case Address => JString(p.address)
    case City => JString(p.city)
    case State => JString(p.state)
    case ZipCode => JString(p.zipCode)
    case PropertyType => JString(p.propertyType)
    case Bedrooms => NullableJson(p.bedrooms)
    case Bathrooms => NullableJson(p.bathrooms)
    case Sqft => NullableJson(p.sqft)
    case AskingPrice => JNumber(p.askingPrice)
    case Arv => NullableJson(p.arv)
    case RepairCost => JNumber(p.repairCost)
    case Notes => JString(p.notes)
  }

  predicate IsTextField(name: Field) {
    name in {OwnerName, OwnerEmail, Address, City, State, ZipCode, PropertyType, Notes}
  }

  /** Numeric inputs whose empty text is sent as `null`. */
  predicate IsNullableNumber(name: Field) {
    name in {Bedrooms, Bathrooms, Sqft, Arv}
  }

  /** Numeric inputs whose empty text is sent as 0. */
  predicate IsZeroDefaultNumber(name: Field) {
    name in {AskingPrice, RepairCost}
  }

  /** The normalisation rule for one field, with `number` standing for `Number`:
      text fields are copied; a numeric field with non-empty text is
      `number(text)`; an empty one is `null` or 0 as the field's kind says. */
  function Normalise(name: Field, text: string, number: string -> JsNumber): Json {
    if IsTextField(name) then JString(text)
    else if text != "" then JNumber(number(text))
    else if IsZeroDefaultNumber(name) then JNumber(Finite(0))
    else JNull
  }

  /** `text ? Number(text) : null`. */
  function NumberOrNull(text: string, number: string -> JsNumber): Nullable<JsNumber> {
    if text != "" then NonNull(number(text)) else Null
  }

  /** The payload built in `handleSubmit`, with `number` standing for `Number`.
      `asking_price` is `Number(text || 0)` and `repair_cost` is
      `text ? Number(text) : 0`; both give 0 for empty text. */
  function ToPayload(f: Form, number: string -> JsNumber): (p: Payload)
    ensures forall name :: Entry(p, name) == Normalise(name, Get(f, name), number)
  {
    Payload(
      f.ownerName, f.ownerEmail, f.address, f.city, f.state, f.zipCode, f.propertyType,
      NumberOrNull(f.bedrooms, number),
      NumberOrNull(f.bathrooms, number),
      NumberOrNull(f.sqft, number),
      if f.askingPrice != "" then number(f.askingPrice) else Finite(0),
      NumberOrNull(f.arv, number),
      if f.repairCost != "" then number(f.repairCost) else Finite(0),
      f.notes)
  }

  /** Every field is exactly one of the three kinds. */
  lemma FieldKinds(name: Field)
    ensures IsTextField(name) || IsNullableNumber(name) || IsZeroDefaultNumber(name)
    ensures !(IsTextField(name) && IsNullableNumber(name))
    ensures !(IsTextField(name) && IsZeroDefaultNumber(name))
    ensures !(IsNullableNumber(name) && IsZeroDefaultNumber(name))
  {
  }

  /** Empty numeric inputs become `null` (bedrooms, bathrooms, sqft, arv) or 0
      (asking_price, repair_cost), whatever `Number` does; never a string or NaN. */
  lemma EmptyNumbersNormalised(f: Form, number: string -> JsNumber, name: Field)
    requires !IsTextField(name) && Get(f, name) == ""
    ensures IsNullableNumber(name) ==> Entry(ToPayload(f, number), name) == JNull
    ensures IsZeroDefaultNumber(name) ==> Entry(ToPayload(f, number), name) == JNumber(Finite(0))
  {
  }

  /** Non-empty numeric text, "0" included, goes through `Number`, and numeric
      fields never carry raw text. */
  lemma NonEmptyNumbersParsed(f: Form, number: string -> JsNumber, name: Field)
    requires !IsTextField(name)
    ensures Get(f, name) != "" ==> Entry(ToPayload(f, number), name) == JNumber(number(Get(f, name)))
    ensures !Entry(ToPayload(f, number), name).JString?
  {
  }

  /** With `Number` on integer text, "0" in bedrooms is sent as 0, not `null`. */
  lemma ZeroTextIsNotEmpty(f: Form)
    requires f.bedrooms == "0"
    ensures ToPayload(f, IntegerNumber).bedrooms == NonNull(Finite(0))
  {
    assert AllDigits("0");
  }

  /** Text fields are copied unchanged. */
  lemma TextFieldsCopied(f: Form, number: string -> JsNumber, name: Field)
    requires IsTextField(name)
    ensures Entry(ToPayload(f, number), name) == JString(Get(f, name))
  {
  }

  /** The example owner from the end-to-end scenario. */
  function ExampleForm(): Form {
    var f := Set(Initial(), OwnerName, "Jane Doe");
    var f := Set(f, Address, "1 Main St");
    var f := Set(f, City, "Springfield");
    var f := Set(f, State, "IL");
    var f := Set(f, ZipCode, "62701");
    Set(f, AskingPrice, "150000")
  }

  /** Filling in the required inputs and submitting sends asking_price 150000,
      repair_cost 0 and bedrooms `null`. */
  lemma ExamplePayload()
    ensures RequiredFilled(ExampleForm())
    ensures var p := ToPayload(ExampleForm(), IntegerNumber);
      p.askingPrice == Finite(150000) && p.repairCost == Finite(0) && p.bedrooms == Null &&
      p.propertyType == "single_family" && p.ownerName == "Jane Doe"
  {
    var f := ExampleForm();
    assert f.askingPrice == "150000";
    IntTextRoundTrip(150000);
    assert IntText(150000) == "150000";
  }

  // ---------------------------------------------------------------------------
  // The component
  // ---------------------------------------------------------------------------

  /** The form component's state: the field record and its own loading and
      error flags. */
  class FormComponent {
    var form: Form
    var loading: bool
    var error: string

    constructor ()
      ensures form == Initial() && !loading && error == ""
    {
      form := Initial();
      loading := false;
      error := "";
    }

    /** The submit button is disabled while a submission is pending. */
    predicate SubmitDisabled()
      reads this
    {
      loading
    }

    /** `handleChange`: one input's new text replaces that field only. */
    method HandleChange(name: Field, value: string)
      modifies this
      ensures form == Set(old(form), name, value)
      ensures loading == old(loading) && error == old(error)
    {
      form := Set(form, name, value);
    }

    /** `handleSubmit` up to its `await`: marks the form busy, clears the error
        and hands back the payload given to `onSubmit`. */
    method SubmitBegin(number: string -> JsNumber) returns (payload: Payload)
      requires RequiredFilled(form)
      modifies this
      ensures payload == ToPayload(form, number)
      ensures form == old(form)
      ensures loading && SubmitDisabled() && error == ""
    {
      loading := true;
      error := "";
      payload := ToPayload(form, number);
    }

    /** The `finally` of `handleSubmit`, once `onSubmit` has settled. */
    method SubmitEnd()
      modifies this
      ensures !loading && !SubmitDisabled()
      ensures form == old(form) && error == old(error)
    {
      loading := false;
    }
  }
}
