/**
 * The admin "Edit Category" form: the category is loaded, validated on submit into
 * an error dictionary, and sent trimmed; the submit button is disabled while the
 * last validation left any error.
 */
module EditCategory {
  import opened Wrappers
  import opened JsText
  import opened Forms

  datatype CategoryField = CategoryName | CategoryDescription

  /** The body of `PUT /api/categories/updateCategory/{id}`. */
  datatype CategoryUpdate = CategoryUpdate(categoryName: string, categoryDescription: string)

  /** What loading the category produced: its fields, a body without `data`, or a failed request. */
  datatype Loaded = Found(name: string, description: string) | NotFound | LoadFailed

  /** The reply to the update: a transport error, or a body with `response.ok` and a `message` ("" when absent). */
  datatype Reply = NetworkError | Replied(ok: bool, message: string)

  const NameRequired := "Category name is required"
  const NameShort := "Category name must be at least 3 characters"
  const NameLong := "Category name cannot exceed 50 characters"
  const DescriptionRequired := "Category description is required"
  const DescriptionShort := "Description must be at least 5 characters"
  const DescriptionLong := "Description cannot exceed 200 characters"
  const Updated := "\U{1F389} Category updated successfully!"
  const UpdateFailed := "Error updating category"
  const Unreachable := "Something went wrong"
  /** The category list the page returns to after an accepted update. */
  const CategoryListRoute := "/admin/CategoryManagement"

  /** The name check: required, then at least 3, then at most 50 characters, measured untrimmed in UTF-16 code units. */
  function NameError(name: string): Option<string> {
    if IsBlank(name) then Some(NameRequired)
    else if Utf16Length(name) < 3 then Some(NameShort)
    else if Utf16Length(name) > 50 then Some(NameLong)
    else None
  }

  /** The description check: required, then at least 5, then at most 200 characters, measured untrimmed in UTF-16 code units. */
  function DescriptionError(description: string): Option<string> {
    if IsBlank(description) then Some(DescriptionRequired)
    else if Utf16Length(description) < 5 then Some(DescriptionShort)
    else if Utf16Length(description) > 200 then Some(DescriptionLong)
    else None
  }

  /** The dictionary `validateInputs` stores. */
  function CategoryErrors(name: string, description: string): map<CategoryField, string> {
    WithError(WithError(map[], CategoryName, NameError(name)), CategoryDescription, DescriptionError(description))
  }

  /** Each field carries its own message, and the dictionary is empty exactly when both values pass. */
  lemma CategoryErrorsSpec(name: string, description: string)
    ensures CategoryName in CategoryErrors(name, description) <==> NameError(name).Some?
    ensures CategoryDescription in CategoryErrors(name, description) <==> DescriptionError(description).Some?
    ensures NameError(name).Some? ==> CategoryErrors(name, description)[CategoryName] == NameError(name).value
    ensures DescriptionError(description).Some? ==>
              CategoryErrors(name, description)[CategoryDescription] == DescriptionError(description).value
    ensures CategoryErrors(name, description) == map[] <==>
              (!IsBlank(name) && 3 <= Utf16Length(name) <= 50 && !IsBlank(description) && 5 <= Utf16Length(description) <= 200)
  {
    if NameError(name).Some? {
      assert CategoryName in CategoryErrors(name, description);
    } else if DescriptionError(description).Some? {
      assert CategoryDescription in CategoryErrors(name, description);
    }
  }

  /** The checks apply in priority order: a blank name is reported as missing, never as short. */
  lemma NameErrorPriority(name: string)
    ensures NameError(name) == Some(NameRequired) <==> IsBlank(name)
    ensures NameError(name) == Some(NameShort) <==> !IsBlank(name) && Utf16Length(name) < 3
    ensures NameError(name) == Some(NameLong) <==> !IsBlank(name) && Utf16Length(name) > 50
  {
  }

  /** Two characters meet the three-unit minimum when one of them lies above U+FFFF. */
  lemma AstralNameAccepted()
    ensures |"a\U{1F600}"| == 2
    ensures NameError("a\U{1F600}") == None
  {
    var n := "a\U{1F600}";
    assert !IsJsSpace(n[0]);
    assert n[..1] == "a";
  }

  /** `{category_name: name.trim(), category_description: description.trim()}` */
  function Payload(name: string, description: string): CategoryUpdate {
    CategoryUpdate(Trim(name), Trim(description))
  }

  /** A payload built after validation passes carries no empty field. */
  lemma PayloadOfValidNonEmpty(name: string, description: string)
    requires CategoryErrors(name, description) == map[]
    ensures Payload(name, description).categoryName != ""
    ensures Payload(name, description).categoryDescription != ""
  {
    CategoryErrorsSpec(name, description);
    BlankIffTrimEmpty(name);
    BlankIffTrimEmpty(description);
  }

  /**
   * As written, the length rules measure the untrimmed value while the payload is trimmed:
   * "a" followed by two spaces passes the three-character minimum and is sent as "a".
   */
  lemma PaddedShortNamePasses()
    ensures NameError("a  ") == None
    ensures CategoryErrors("a  ", "Phones") == map[]
    ensures Payload("a  ", "Phones").categoryName == "a"
  {
    assert !IsJsSpace("a  "[0]);
    assert TrimStart("a  ") == "a  ";
    assert "a  "[..2] == "a ";
    assert "a "[..1] == "a";
    assert TrimEnd("a") == "a";
    assert TrimEnd("a ") == TrimEnd("a");
    assert TrimEnd("a  ") == TrimEnd("a ");
    assert !IsJsSpace("Phones"[0]) && !IsJsSpace("Phones"[5]);
    TrimOfUnpadded("Phones");
  }

  /** The name check measured on the value that is sent. */
  function NameErrorTrimmed(name: string): Option<string> {
    if IsBlank(name) then Some(NameRequired)
    else if Utf16Length(Trim(name)) < 3 then Some(NameShort)
    else if Utf16Length(Trim(name)) > 50 then Some(NameLong)
    else None
  }

  /** The description check measured on the value that is sent. */
  function DescriptionErrorTrimmed(description: string): Option<string> {
    if IsBlank(description) then Some(DescriptionRequired)
    else if Utf16Length(Trim(description)) < 5 then Some(DescriptionShort)
    else if Utf16Length(Trim(description)) > 200 then Some(DescriptionLong)
    else None
  }

  /** With the trimmed check, a name that passes is sent with 3 to 50 characters. */
  lemma TrimmedNameBoundsPayload(name: string, description: string)
    requires NameErrorTrimmed(name).None?
    ensures 3 <= Utf16Length(Payload(name, description).categoryName) <= 50
  {
  }

  /** With the trimmed check, a description that passes is sent with 5 to 200 characters. */
  lemma TrimmedDescriptionBoundsPayload(name: string, description: string)
    requires DescriptionErrorTrimmed(description).None?
    ensures 5 <= Utf16Length(Payload(name, description).categoryDescription) <= 200
  {
  }

  /** Trimming a value without surrounding white space keeps its length. */
  lemma UnpaddedTrimLength(s: string)
    requires Unpadded(s)
    ensures |Trim(s)| == |s|
  {
    assert TrimStart(s) == s;
    assert TrimEnd(s) == s;
  }

  /** On a name without surrounding white space the trimmed check agrees with the original one. */
  lemma TrimmedNameCheckAgrees(name: string)
    requires Unpadded(name)
    ensures NameErrorTrimmed(name) == NameError(name)
  {
    UnpaddedTrimLength(name);
  }

  /** On a description without surrounding white space the trimmed check agrees with the original one. */
  lemma TrimmedDescriptionCheckAgrees(description: string)
    requires Unpadded(description)
    ensures DescriptionErrorTrimmed(description) == DescriptionError(description)
  {
    UnpaddedTrimLength(description);
  }

  /** The toast after a send. */
  function ReplyToast(reply: Reply): (msg: string)
    ensures msg != ""
    ensures reply.Replied? && reply.ok ==> msg == Updated
    ensures reply.Replied? && !reply.ok ==> msg == (if reply.message != "" then reply.message else UpdateFailed)
    ensures reply.NetworkError? ==> msg == Unreachable
  {
    match reply
    case NetworkError => Unreachable
    case Replied(ok, message) => if ok then Updated else if message != "" then message else UpdateFailed
  }

  /*
   * The form as a sequence of user events, for reasoning about what a user can reach.
   * The recorded errors change only on a submit, and a submit click is ignored while the
   * button is disabled.
   */

  datatype FormState = FormState(name: string, description: string, errors: map<CategoryField, string>)

  datatype FormEvent = TypeName(value: string) | TypeDescription(value: string) | Submit

  /** The submit button is enabled only while no error is recorded. */
  predicate SubmitEnabled(s: FormState) { s.errors == map[] }

  /** One event, as written: typing changes only the value; an enabled submit re-validates. */
  function Step(s: FormState, e: FormEvent): FormState {
    match e
    case TypeName(v) => s.(name := v)
    case TypeDescription(v) => s.(description := v)
    case Submit => if SubmitEnabled(s) then s.(errors := CategoryErrors(s.name, s.description)) else s
  }

  /** The update an event sends, if any. */
  function Sends(s: FormState, e: FormEvent): Option<CategoryUpdate> {
    if e.Submit? && SubmitEnabled(s) && CategoryErrors(s.name, s.description) == map[]
    then Some(Payload(s.name, s.description))
    else None
  }

  /** Whether any event of `es`, applied in order from `s` by `step`, sends an update. */
  function AnySent(s: FormState, es: seq<FormEvent>, fixed: bool): bool
    decreases |es|
  {
    if es == [] then false
    else Sends(s, es[0]).Some? || AnySent(if fixed then StepClearing(s, es[0]) else Step(s, es[0]), es[1..], fixed)
  }

  /** The state after the events `es` from `s`, as written (`fixed` false) or with clearing edits. */
  function Run(s: FormState, es: seq<FormEvent>, fixed: bool): FormState
    decreases |es|
  {
    if es == [] then s
    else Run(if fixed then StepClearing(s, es[0]) else Step(s, es[0]), es[1..], fixed)
  }

  /**
   * As written, once a submit records an error no sequence of edits and submits ever
   * sends the update again: the button stays disabled because nothing clears the errors.
   */
  lemma {:induction false} FailedValidationIsFinal(s: FormState, es: seq<FormEvent>)
    requires !SubmitEnabled(s)
    ensures !AnySent(s, es, false)
    ensures !SubmitEnabled(Run(s, es, false))
    decreases |es|
  {
    if es != [] {
      FailedValidationIsFinal(Step(s, es[0]), es[1..]);
    }
  }

  /** One event with the evident intent: editing a field clears the recorded errors. */
  function StepClearing(s: FormState, e: FormEvent): FormState {
    match e
    case TypeName(v) => s.(name := v, errors := map[])
    case TypeDescription(v) => s.(description := v, errors := map[])
    case Submit => Step(s, e)
  }

  /** With clearing edits, correcting both fields and submitting sends the trimmed values, whatever came before. */
  lemma ClearingEditsRecover(s: FormState, name: string, description: string)
    requires !IsBlank(name) && 3 <= Utf16Length(name) <= 50 && !IsBlank(description) && 5 <= Utf16Length(description) <= 200
    ensures AnySent(s, [TypeName(name), TypeDescription(description), Submit], true)
    ensures SubmitEnabled(Run(s, [TypeName(name), TypeDescription(description), Submit], true))
  {
    CategoryErrorsSpec(name, description);
    var es := [TypeName(name), TypeDescription(description), Submit];
    var s1 := StepClearing(s, es[0]);
    var s2 := StepClearing(s1, es[1]);
    assert es[1..] == [TypeDescription(description), Submit];
    assert es[1..][1..] == [Submit];
    assert Sends(s2, Submit) == Some(Payload(name, description));
    var s3 := StepClearing(s2, Submit);
    assert Run(s2, [Submit], true) == Run(s3, [], true) == s3;
  }

  class EditCategoryPage {
    var categoryName: string
    var categoryDescription: string
    var error: string
    var validationErrors: map<CategoryField, string>

    constructor ()
      ensures categoryName == "" && categoryDescription == "" && error == "" && validationErrors == map[]
    {
      categoryName, categoryDescription, error, validationErrors := "", "", "", map[];
    }

    /** The category as the form sees it. */
    function State(): FormState
      reads this
    {
      FormState(categoryName, categoryDescription, validationErrors)
    }

    /** Loading fills both fields, or records why it could not. */
    method Load(loaded: Loaded)
      modifies this`categoryName, this`categoryDescription, this`error
      ensures loaded.Found? ==> categoryName == loaded.name && categoryDescription == loaded.description && error == old(error)
      ensures loaded.NotFound? ==> unchanged(this`categoryName, this`categoryDescription) && error == "Category not found"
      ensures loaded.LoadFailed? ==>
                unchanged(this`categoryName, this`categoryDescription) && error == "Error fetching category details"
    {
      match loaded {
        case Found(name, description) =>
          categoryName, categoryDescription := name, description;
        case NotFound =>
          error := "Category not found";
        case LoadFailed =>
          error := "Error fetching category details";
      }
    }

    /** Typing in the name field, as written: the recorded errors stay. */
    method ChangeName(v: string)
      modifies this`categoryName
      ensures State() == Step(old(State()), TypeName(v))
    {
      categoryName := v;
    }

    /** Typing in the description field, as written: the recorded errors stay. */
    method ChangeDescription(v: string)
      modifies this`categoryDescription
      ensures State() == Step(old(State()), TypeDescription(v))
    {
      categoryDescription := v;
    }

    /** Typing in the name field, clearing the stale errors so the form can be submitted again. */
    method ChangeNameClearing(v: string)
      modifies this`categoryName, this`validationErrors
      ensures State() == StepClearing(old(State()), TypeName(v))
      ensures SubmitEnabled(State())
    {
      categoryName, validationErrors := v, map[];
    }

    /** Typing in the description field, clearing the stale errors so the form can be submitted again. */
    method ChangeDescriptionClearing(v: string)
      modifies this`categoryDescription, this`validationErrors
      ensures State() == StepClearing(old(State()), TypeDescription(v))
      ensures SubmitEnabled(State())
    {
      categoryDescription, validationErrors := v, map[];
    }

    /** `validateInputs`: record the errors; pass when there are none. */
    method ValidateInputs() returns (valid: bool)
      modifies this`validationErrors
      ensures validationErrors == CategoryErrors(categoryName, categoryDescription)
      ensures valid <==> validationErrors == map[]
    {
      var errors: map<CategoryField, string> := map[];
      errors := WithError(errors, CategoryName, NameError(categoryName));
      errors := WithError(errors, CategoryDescription, DescriptionError(categoryDescription));
      validationErrors := errors;
      valid := errors == map[];
    }

    /**
     * A click on "Update Category": ignored while the button is disabled; otherwise
     * `handleUpdate` validates and, when that passes, sends the trimmed values; an ok reply
     * moves on (two seconds later) to the category list.
     */
    method ClickUpdate(reply: Reply) returns (sent: Option<CategoryUpdate>, toast: Option<string>, navigateTo: Option<string>)
      modifies this`validationErrors
      ensures State() == Step(old(State()), Submit)
      ensures sent == Sends(old(State()), Submit)
      ensures toast.Some? <==> sent.Some?
      ensures sent.Some? ==> toast == Some(ReplyToast(reply))
      ensures navigateTo.Some? <==> sent.Some? && reply.Replied? && reply.ok
      ensures navigateTo.Some? ==> navigateTo.value == CategoryListRoute
    {
      if validationErrors != map[] {
        return None, None, None;
      }
      var valid := ValidateInputs();
      if !valid {
        return None, None, None;
      }
      sent := Some(Payload(categoryName, categoryDescription));
      toast := Some(ReplyToast(reply));
      navigateTo := if reply.Replied? && reply.ok then Some(CategoryListRoute) else None;
    }
  }
}
