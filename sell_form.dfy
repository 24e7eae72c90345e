/**
 * The listing form (src/components/sell/ListingForm.tsx): the schema that
 * validates the four fields, the fixed category and size choices, the rule
 * that enables the submit button, and the data handed to `onSubmit`.
 */
module SellForm {
  import opened Wrappers

  /**
   * The raw form values. `price` is `None` when the number input does not hold
   * a number (`valueAsNumber` gives NaN); `category` and `size` are `None`
   * until a choice is made (the fields have no default value).
   */
  datatype FormValues = FormValues(title: string, price: Option<real>, category: Option<string>, size: Option<string>)

  /** `ListingFormData`: what the schema lets through. */
  datatype ListingFormData = ListingFormData(title: string, price: real, category: string, size: string)

  /** The message of the first failed check of each field, `None` for a field that passed. */
  datatype FieldErrors = FieldErrors(title: Option<string>, price: Option<string>, category: Option<string>, size: Option<string>)

  const NoErrors := FieldErrors(None, None, None, None)

  const TitleMin: nat := 3
  const TitleMax: nat := 100
  const PriceMin: real := 1.0
  const PriceMax: real := 1000.0

  /** The schema's rules, field by field. */
  ghost predicate TitleOk(title: string) { TitleMin <= |title| <= TitleMax }
  ghost predicate PriceOk(price: Option<real>) { price.Some? && PriceMin <= price.value <= PriceMax }
  ghost predicate ChoiceOk(choice: Option<string>) { choice.Some? && |choice.value| >= 1 }

  ghost predicate SchemaAccepts(v: FormValues) {
    TitleOk(v.title) && PriceOk(v.price) && ChoiceOk(v.category) && ChoiceOk(v.size)
  }

  function TitleError(title: string): (e: Option<string>)
    ensures e.None? <==> TitleOk(title)
  {
    if |title| < TitleMin then Some("Title must be at least 3 characters")
    else if |title| > TitleMax then Some("Title too long")
    else None
  }

  function PriceError(price: Option<real>): (e: Option<string>)
    ensures e.None? <==> PriceOk(price)
  {
    match price
    case None => Some("Expected number, received nan")
    case Some(p) =>
      if p < PriceMin then Some("Price must be at least \U{20AC}1")
      else if p > PriceMax then Some("Price too high")
      else None
  }

  function ChoiceError(choice: Option<string>, emptyMessage: string): (e: Option<string>)
    ensures e.None? <==> ChoiceOk(choice)
  {
    match choice
    case None => Some("Required")
    case Some(c) => if |c| < 1 then Some(emptyMessage) else None
  }

  /** Validation of every field (the form validates on each change). */
  function Validate(v: FormValues): (errors: FieldErrors)
    ensures errors == NoErrors <==> SchemaAccepts(v)
    ensures errors.title.None? <==> TitleOk(v.title)
    ensures errors.price.None? <==> PriceOk(v.price)
    ensures errors.category.None? <==> ChoiceOk(v.category)
    ensures errors.size.None? <==> ChoiceOk(v.size)
  {
    FieldErrors(TitleError(v.title), PriceError(v.price),
                ChoiceError(v.category, "Please select a category"),
                ChoiceError(v.size, "Please select a size"))
  }

  /** `isValid`. */
  predicate IsValid(v: FormValues) {
    Validate(v) == NoErrors
  }

  /** The titles the schema accepts are exactly those of 3 to 100 characters. */
  lemma TitleBounds(v: FormValues)
    ensures Validate(v).title == Some("Title must be at least 3 characters") <==> |v.title| < 3
    ensures Validate(v).title == Some("Title too long") <==> |v.title| > 100
  {
  }

  /** The prices the schema accepts are exactly the numbers from 1 to 1000, bounds included. */
  lemma PriceBounds(p: real)
    ensures PriceError(Some(p)).None? <==> 1.0 <= p <= 1000.0
    ensures PriceError(None).Some?
  {
  }

  /** The parse `handleSubmit` performs: the data when the schema accepts the values, every field's error otherwise. */
  function Parse(v: FormValues): (r: Result<ListingFormData, FieldErrors>)
    ensures r.Ok? <==> SchemaAccepts(v)
    ensures r.Err? ==> r.error == Validate(v) && r.error != NoErrors
  {
    if IsValid(v) then Ok(ListingFormData(v.title, v.price.value, v.category.value, v.size.value))
    else Err(Validate(v))
  }

  /** The form values that hold `data`. */
  function Fill(data: ListingFormData): FormValues {
    FormValues(data.title, Some(data.price), Some(data.category), Some(data.size))
  }

  /** Accepted values reach `onSubmit` unchanged: filling the form with the parsed data gives the values back. */
  lemma ParsedDataIsUnchanged(v: FormValues)
    requires SchemaAccepts(v)
    ensures Parse(v).Ok? && Fill(Parse(v).value) == v
  {
  }

  /** Data that meets the schema passes through the form and comes out as it went in. */
  lemma FillThenParse(data: ListingFormData)
    requires TitleOk(data.title) && PriceMin <= data.price <= PriceMax
    requires |data.category| >= 1 && |data.size| >= 1
    ensures Parse(Fill(data)) == Ok(data)
  {
  }

  /** The category choices. */
  const Categories: seq<string> := [
    "Tops & T-Shirts", "Dresses", "Jeans & Trousers", "Skirts & Shorts", "Jackets & Coats",
    "Shoes", "Bags & Accessories", "Activewear", "Lingerie & Sleepwear", "Other"
  ]

  /** The size choices. */
  const Sizes: seq<string> := [
    "XXS", "XS", "S", "M", "L", "XL", "XXL",
    "34", "36", "38", "40", "42", "44", "46", "48",
    "One Size"
  ]

  /** Ten categories and sixteen sizes, none of them empty, none repeated. */
  lemma ChoiceLists()
    ensures |Categories| == 10 && |Sizes| == 16
    ensures forall i :: 0 <= i < |Categories| ==> |Categories[i]| >= 1
    ensures forall i :: 0 <= i < |Sizes| ==> |Sizes[i]| >= 1
    ensures forall i, j :: 0 <= i < j < |Categories| ==> Categories[i] != Categories[j]
    ensures forall i, j :: 0 <= i < j < |Sizes| ==> Sizes[i] != Sizes[j]
  {
  }

  /** Choosing a category sets that field only, and the field then passes validation. */
  function SelectCategory(v: FormValues, choice: nat): (r: FormValues)
    requires choice < |Categories|
    ensures r.category == Some(Categories[choice])
    ensures r.title == v.title && r.price == v.price && r.size == v.size
    ensures Validate(r).category.None?
    ensures Validate(r).title == Validate(v).title && Validate(r).price == Validate(v).price && Validate(r).size == Validate(v).size
  {
    ChoiceLists();
    v.(category := Some(Categories[choice]))
  }

  /** Choosing a size sets that field only, and the field then passes validation. */
  function SelectSize(v: FormValues, choice: nat): (r: FormValues)
    requires choice < |Sizes|
    ensures r.size == Some(Sizes[choice])
    ensures r.title == v.title && r.price == v.price && r.category == v.category
    ensures Validate(r).size.None?
    ensures Validate(r).title == Validate(v).title && Validate(r).price == Validate(v).price && Validate(r).category == Validate(v).category
  {
    ChoiceLists();
    v.(size := Some(Sizes[choice]))
  }

  /** The submit button: disabled while the values are invalid or a submission runs. */
  predicate SubmitDisabled(v: FormValues, isSubmitting: bool) {
    !IsValid(v) || isSubmitting
  }

  /** The button can be pressed only for values the schema accepts and while nothing is being submitted. */
  lemma SubmitEnabledIff(v: FormValues, isSubmitting: bool)
    ensures !SubmitDisabled(v, isSubmitting) <==> SchemaAccepts(v) && !isSubmitting
  {
  }

  /** The button's caption, and whether the spinner shows. */
  datatype ButtonFace = ButtonFace(caption: string, spinner: bool)

  function SubmitButton(isSubmitting: bool): (face: ButtonFace)
    ensures face.caption == "Creating Listing..." <==> isSubmitting
    ensures face.spinner <==> isSubmitting
    ensures !isSubmitting ==> face.caption == "Create Listing"
  {
    if isSubmitting then ButtonFace("Creating Listing...", true) else ButtonFace("Create Listing", false)
  }

  /** A press of the button: the accepted data goes to `onSubmit`; a disabled button or rejected values send nothing. */
  function Submit(v: FormValues, isSubmitting: bool): (sent: Option<ListingFormData>)
    ensures sent.Some? <==> SchemaAccepts(v) && !isSubmitting
    ensures sent.Some? ==> Fill(sent.value) == v
  {
    if SubmitDisabled(v, isSubmitting) then None
    else match Parse(v)
      case Ok(data) => Some(data)
      case Err(_) => None
  }
}
