/**
 * The add-expense form: the text fields as typed, the per-field error
 * messages, and the validation run when the user saves. `parseFloat` is a
 * parameter: `parse(s)` is `None` where JavaScript's `parseFloat(s)` yields
 * `NaN`, and `Some(v)` where it yields the number `v`.
 */
module AddExpenseForm {
  import opened Types
  import opened Text

  /** The keys of the form record. */
  datatype Field = AmountField | CategoryField | DescriptionField | PhotoUriField

  /** The error record: one optional message per validated field. */
  datatype FormErrors = FormErrors(amount: Option<string>, category: Option<string>, description: Option<string>)

  const NoErrors: FormErrors := FormErrors(None, None, None)

  /** The form the screen opens with and returns to after a reset. */
  const InitialForm: FormData := FormData("", "", "", None)

  const AmountMessage: string := "Please enter a valid amount"
  const CategoryMessage: string := "Please select a category"
  const DescriptionMessage: string := "Please enter a description"

  /**
   * The amount check fails when the text is empty or parses to a number that
   * is not positive. A text that does not parse (`NaN`) passes, because a
   * comparison with `NaN` is false.
   */
  predicate AmountRejected(amount: string, parse: string -> Option<real>)
  {
    amount == "" || (parse(amount).Some? && parse(amount).value <= 0.0)
  }

  /** The category check fails when no category was picked. */
  predicate CategoryRejected(category: string)
  {
    category == ""
  }

  /** The description check fails when the text is empty after trimming. */
  predicate DescriptionRejected(description: string)
  {
    Trim(description) == ""
  }

  /** The error record validation produces: the fixed message of each failed check and nothing else. */
  function ErrorsFor(form: FormData, parse: string -> Option<real>): (r: FormErrors)
    ensures r.amount.Some? <==> AmountRejected(form.amount, parse)
    ensures r.category.Some? <==> CategoryRejected(form.category)
    ensures r.description.Some? <==> DescriptionRejected(form.description)
    ensures MessagesOnly(r)
  {
    FormErrors(
      if AmountRejected(form.amount, parse) then Some(AmountMessage) else None,
      if CategoryRejected(form.category) then Some(CategoryMessage) else None,
      if DescriptionRejected(form.description) then Some(DescriptionMessage) else None)
  }

  /** Every error present is the fixed message of its field. */
  predicate MessagesOnly(errors: FormErrors)
  {
    && (errors.amount.Some? ==> errors.amount.value == AmountMessage)
    && (errors.category.Some? ==> errors.category.value == CategoryMessage)
    && (errors.description.Some? ==> errors.description.value == DescriptionMessage)
  }

  /** The form with one field replaced; a photo URI set through `updateField` is present. */
  function WithField(form: FormData, field: Field, value: string): (r: FormData)
    ensures field == AmountField ==> r.amount == value
    ensures field != AmountField ==> r.amount == form.amount
    ensures field != CategoryField ==> r.category == form.category
    ensures field != DescriptionField ==> r.description == form.description
    ensures field != PhotoUriField ==> r.photoUri == form.photoUri
    ensures field == CategoryField ==> r.category == value
    ensures field == DescriptionField ==> r.description == value
    ensures field == PhotoUriField ==> r.photoUri == Some(value)
  {
    match field
    case AmountField => form.(amount := value)
    case CategoryField => form.(category := value)
    case DescriptionField => form.(description := value)
    case PhotoUriField => form.(photoUri := Some(value))
  }

  /** The error record after editing `field`: its message, if any, is removed; the photo has none. */
  function WithoutError(errors: FormErrors, field: Field): (r: FormErrors)
    ensures field == AmountField ==> r == errors.(amount := None)
    ensures field == CategoryField ==> r == errors.(category := None)
    ensures field == DescriptionField ==> r == errors.(description := None)
    ensures field == PhotoUriField ==> r == errors
  {
    match field
    case AmountField => errors.(amount := None)
    case CategoryField => errors.(category := None)
    case DescriptionField => errors.(description := None)
    case PhotoUriField => errors
  }

  /** A description is rejected iff every one of its characters is white space. */
  lemma DescriptionRejectedIffBlank(description: string)
    ensures DescriptionRejected(description) <==> forall i :: 0 <= i < |description| ==> IsWhiteSpace(description[i])
  {
    TrimEmptyIffBlank(description);
  }

  /** An amount that is not a number passes the amount check. */
  lemma UnparsableAmountAccepted(amount: string, parse: string -> Option<real>)
    requires amount != "" && parse(amount).None?
    ensures !AmountRejected(amount, parse)
  {
  }

  /** The form the screen opens with fails all three checks. */
  lemma InitialFormFailsEveryCheck(parse: string -> Option<real>)
    ensures ErrorsFor(InitialForm, parse) == FormErrors(Some(AmountMessage), Some(CategoryMessage), Some(DescriptionMessage))
  {
    assert Trim("") == "";
  }

  /** Editing a field changes at most that field's validation outcome. */
  lemma EditAffectsOnlyItsCheck(form: FormData, field: Field, value: string, parse: string -> Option<real>)
    ensures var before, after := ErrorsFor(form, parse), ErrorsFor(WithField(form, field, value), parse);
      && (field != AmountField ==> after.amount == before.amount)
      && (field != CategoryField ==> after.category == before.category)
      && (field != DescriptionField ==> after.description == before.description)
      && (field == PhotoUriField ==> after == before)
  {
  }

  /** The state of the `useAddExpenseForm` hook: the form record and the error record. */
  class FormState {
    var form: FormData
    var errors: FormErrors

    /** The errors hold only the fixed messages. */
    predicate Valid()
      reads this
    {
      MessagesOnly(errors)
    }

    /** The hook's initial state: empty fields, no photo, no errors. */
    constructor()
      ensures Valid()
      ensures form == InitialForm && errors == NoErrors
    {
      form := InitialForm;
      errors := NoErrors;
    }

    /** `updateField`: store the value and drop that field's error if one is shown. */
    method UpdateField(field: Field, value: string)
      requires Valid()
      modifies this
      ensures Valid()
      ensures form == WithField(old(form), field, value)
      ensures errors == WithoutError(old(errors), field)
    {
      form := WithField(form, field, value);
      var shown := match field
        case AmountField => Truthy(errors.amount)
        case CategoryField => Truthy(errors.category)
        case DescriptionField => Truthy(errors.description)
        case PhotoUriField => false;
      if shown {
        errors := WithoutError(errors, field);
      }
    }

    /** `setPhoto`: attach a photo; the errors are untouched. */
    method SetPhoto(uri: string)
      modifies this
      ensures form == old(form).(photoUri := Some(uri))
      ensures errors == old(errors)
    {
      form := form.(photoUri := Some(uri));
    }

    /** `removePhoto`: detach the photo; the errors are untouched. */
    method RemovePhoto()
      modifies this
      ensures form == old(form).(photoUri := None)
      ensures errors == old(errors)
    {
      form := form.(photoUri := None);
    }

    /**
     * `validateForm`: run the three checks in order, show the messages of
     * those that fail, and report whether none failed. The form is unchanged.
     */
    method ValidateForm(parse: string -> Option<real>) returns (ok: bool)
      modifies this
      ensures Valid()
      ensures form == old(form)
      ensures errors == ErrorsFor(form, parse)
      ensures ok <==> !AmountRejected(form.amount, parse) && !CategoryRejected(form.category)
                      && !DescriptionRejected(form.description)
    {
      var newErrors := NoErrors;
      if form.amount == "" || (parse(form.amount).Some? && parse(form.amount).value <= 0.0) {
        newErrors := newErrors.(amount := Some(AmountMessage));
      }
      if form.category == "" {
        newErrors := newErrors.(category := Some(CategoryMessage));
      }
      if Trim(form.description) == "" {
        newErrors := newErrors.(description := Some(DescriptionMessage));
      }
      errors := newErrors;
      ok := newErrors == NoErrors;
    }

    /** `resetForm`: back to the initial form with no errors. */
    method ResetForm()
      modifies this
      ensures Valid()
      ensures form == InitialForm && errors == NoErrors
    {
      form := InitialForm;
      errors := NoErrors;
    }
  }
}
