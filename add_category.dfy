/**
 * The admin "Add New Category" form: live per-field messages while typing, and a
 * submit that only requires both fields to be non-blank before posting them.
 */
module AddCategory {
  import opened Wrappers
  import opened JsText

  /** The keys of `categoryData`, in the order `Object.keys` lists them. */
  const FieldNames: seq<string> := ["category_name", "category_description"]

  /** The reply to the post: a failure before a body was read (with its error message), or a body. */
  datatype Reply = Thrown(errorMessage: string) | Replied(ok: bool, message: string)

  const Added := "\U{2705} Category added successfully!"
  const Fallback := "Something went wrong"
  /** The category list the page returns to after an accepted post. */
  const CategoryListRoute := "/admin/CategoryManagement"

  /** `validateField(name, value)`: the live message for one input; "" when it passes or for any other name. */
  function FieldError(name: string, value: string): (msg: string)
    ensures name != "category_name" && name != "category_description" ==> msg == ""
    ensures name == "category_name" ==>
              msg == (if IsBlank(value) then "Category name is required"
                      else if Utf16Length(value) < 3 then "Category name must be at least 3 characters" else "")
    ensures name == "category_description" ==>
              msg == (if IsBlank(value) then "Category description is required"
                      else if Utf16Length(value) < 10 then "Description must be at least 10 characters" else "")
  {
    var errorMsg :=
      if name == "category_name" then
        (if IsBlank(value) then "Category name is required"
         else if Utf16Length(value) < 3 then "Category name must be at least 3 characters" else "")
      else "";
    if name == "category_description" then
      (if IsBlank(value) then "Category description is required"
       else if Utf16Length(value) < 10 then "Description must be at least 10 characters" else "")
    else errorMsg
  }

  /** The live message is empty exactly when the value passes its field's rules. */
  lemma FieldErrorEmptyIff(name: string, value: string)
    requires name in FieldNames
    ensures FieldError(name, value) == "" <==>
              !IsBlank(value) && Utf16Length(value) >= (if name == "category_name" then 3 else 10)
  {
  }

  /** `` `${field.replace('_', ' ')} is required` ``: only the first underscore becomes a space. */
  function RequiredMessage(field: string): string {
    ReplaceFirst(field, '_', ' ') + " is required"
  }

  /** The message the submit shows for a blank name. */
  lemma NameRequiredMessage()
    ensures RequiredMessage("category_name") == "category name is required"
  {
    var f := "category_name";
    assert f[..8] == "category";
    IndexOfAt(f, '_', 8);
    assert f[8 := ' '] == "category name";
  }

  /** The message the submit shows for a blank description. */
  lemma DescriptionRequiredMessage()
    ensures RequiredMessage("category_description") == "category description is required"
  {
    var f := "category_description";
    assert f[..8] == "category";
    IndexOfAt(f, '_', 8);
    assert f[8 := ' '] == "category description";
  }

  /** The `newErrors` that the submit loop builds over `fields`, in order. */
  function RequiredErrors(data: map<string, string>, fields: seq<string>): map<string, string>
    requires forall f :: f in fields ==> f in data
  {
    if fields == [] then map[]
    else
      var m := RequiredErrors(data, fields[..|fields| - 1]);
      var f := fields[|fields| - 1];
      if IsBlank(data[f]) then m[f := RequiredMessage(f)] else m
  }

  /** A field is listed exactly when it is blank, and then with its "is required" message. */
  lemma {:induction false} RequiredErrorsSpec(data: map<string, string>, fields: seq<string>, k: string)
    requires forall f :: f in fields ==> f in data
    ensures k in RequiredErrors(data, fields) <==> k in fields && IsBlank(data[k])
    ensures k in RequiredErrors(data, fields) ==> RequiredErrors(data, fields)[k] == RequiredMessage(k)
  {
    if fields != [] {
      var init := fields[..|fields| - 1];
      assert forall f :: f in init ==> f in fields;
      RequiredErrorsSpec(data, init, k);
      assert fields == init + [fields[|fields| - 1]];
    }
  }

  /** Nothing is listed exactly when neither field is blank. */
  lemma RequiredErrorsEmptyIff(data: map<string, string>)
    requires forall f :: f in FieldNames ==> f in data
    ensures RequiredErrors(data, FieldNames) == map[] <==>
              !IsBlank(data["category_name"]) && !IsBlank(data["category_description"])
  {
    RequiredErrorsSpec(data, FieldNames, "category_name");
    RequiredErrorsSpec(data, FieldNames, "category_description");
    if RequiredErrors(data, FieldNames) != map[] {
      var k :| k in RequiredErrors(data, FieldNames);
      RequiredErrorsSpec(data, FieldNames, k);
    }
  }

  class AddCategoryPage {
    var categoryData: map<string, string>
    var errors: map<string, string>
    var apiError: string
    var successMessage: string

    /** The form always holds exactly its two fields. */
    ghost predicate Valid()
      reads this
    {
      categoryData.Keys == {"category_name", "category_description"}
    }

    constructor ()
      ensures Valid()
      ensures categoryData == map["category_name" := "", "category_description" := ""]
      ensures errors == map[] && apiError == "" && successMessage == ""
    {
      categoryData := map["category_name" := "", "category_description" := ""];
      errors, apiError, successMessage := map[], "", "";
    }

    /** `handleChange`: store the value and its live message. */
    method HandleChange(name: string, value: string)
      requires Valid() && name in FieldNames
      modifies this`categoryData, this`errors
      ensures Valid()
      ensures categoryData == old(categoryData)[name := value]
      ensures errors == old(errors)[name := FieldError(name, value)]
    {
      categoryData := categoryData[name := value];
      errors := errors[name := FieldError(name, value)];
    }

    /** The `forEach` over the fields: each blank one is marked required and makes the form invalid. */
    method RequiredCheck() returns (isValid: bool, newErrors: map<string, string>)
      requires Valid()
      ensures newErrors == RequiredErrors(categoryData, FieldNames)
      ensures isValid <==> !IsBlank(categoryData["category_name"]) && !IsBlank(categoryData["category_description"])
    {
      isValid := true;
      newErrors := map[];
      var i := 0;
      while i < |FieldNames|
        invariant 0 <= i <= |FieldNames|
        invariant newErrors == RequiredErrors(categoryData, FieldNames[..i])
        invariant isValid <==> forall j :: 0 <= j < i ==> !IsBlank(categoryData[FieldNames[j]])
      {
        var field := FieldNames[i];
        if IsBlank(categoryData[field]) {
          isValid := false;
          newErrors := newErrors[field := RequiredMessage(field)];
        }
        assert FieldNames[..i + 1][..i] == FieldNames[..i];
        i := i + 1;
      }
      assert FieldNames[..i] == FieldNames;
      assert isValid <==> !IsBlank(categoryData[FieldNames[0]]) && !IsBlank(categoryData[FieldNames[1]]);
    }

    /**
     * `handleSubmit`: the required-field messages replace the live ones; the data is posted
     * exactly when no field is blank, and the form is reset when the server accepts it, after
     * which the page moves on (two seconds later) to the category list.
     */
    method HandleSubmit(reply: Reply) returns (sent: Option<map<string, string>>, navigateTo: Option<string>)
      requires Valid()
      modifies this`categoryData, this`errors, this`apiError, this`successMessage
      ensures Valid()
      ensures sent.Some? <==> RequiredErrors(old(categoryData), FieldNames) == map[]
      ensures sent.Some? ==> sent.value == old(categoryData)
      ensures navigateTo.Some? <==> sent.Some? && reply.Replied? && reply.ok
      ensures navigateTo.Some? ==> navigateTo.value == CategoryListRoute
      ensures sent.None? ==>
                (errors == RequiredErrors(old(categoryData), FieldNames) && categoryData == old(categoryData)
                 && apiError == "" && successMessage == "")
      ensures sent.Some? && reply.Replied? && reply.ok ==>
                (categoryData == map["category_name" := "", "category_description" := ""] && errors == map[]
                 && successMessage == Added && apiError == "")
      ensures sent.Some? && !(reply.Replied? && reply.ok) ==>
                (categoryData == old(categoryData) && errors == map[] && successMessage == ""
                 && apiError == ApiErrorOf(reply))
    {
      apiError, successMessage := "", "";
      var isValid, newErrors := RequiredCheck();
      RequiredErrorsEmptyIff(categoryData);
      errors := newErrors;
      if !isValid {
        return None, None;
      }
      sent, navigateTo := Some(categoryData), None;
      if reply.Replied? && reply.ok {
        successMessage := Added;
        navigateTo := Some(CategoryListRoute);
        categoryData := map["category_name" := "", "category_description" := ""];
        errors := map[];
      } else {
        apiError := ApiErrorOf(reply);
      }
    }
  }

  /** The text of the error the post throws: the thrown message, or the server's message or the fallback. */
  function ApiErrorOf(reply: Reply): (msg: string)
    ensures reply.Replied? ==> msg != ""
    ensures reply.Thrown? ==> msg == reply.errorMessage
    ensures reply.Replied? && !reply.ok ==> msg == (if reply.message != "" then reply.message else Fallback)
  {
    match reply
    case Thrown(m) => m
    case Replied(ok, message) => if !ok && message != "" then message else Fallback
  }
}
