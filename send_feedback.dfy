/** The send-feedback page (src/pages/SendFeedback.tsx): the schema the form
    is validated against, the lookup of the chosen recipient and the submit
    handler. Lengths are JavaScript string lengths (UTF-16 code units). */
module SendFeedback {
  import opened Wrappers
  import opened Text
  import opened Categories
  import opened Auth

  const RecipientRequired: string := "送信先を選択してください"
  const CategoryRequired: string := "カテゴリを選択してください"
  const ContentTooShort: string := "メッセージは10文字以上で入力してください"
  const ContentTooLong: string := "メッセージは500文字以下で入力してください"
  /** The schema library's own message for a missing string field. */
  const Required: string := "Required"
  /** Stands for the schema library's own message for a value outside the
      enum; its exact wording is not part of this model. */
  const InvalidCategory: string := "Invalid enum value"
  const SubmitFailed: string := "フィードバックの送信に失敗しました"

  const MinContentLength: nat := 10
  const MaxContentLength: nat := 500

  /** The form values before validation; `None` is a value the form does
      not hold (`undefined`). */
  datatype RawForm = RawForm(recipientId: Option<string>, category: Option<string>, content: Option<string>, isAnonymous: Option<bool>)

  const EmptyForm: RawForm := RawForm(None, None, None, None)

  /** The values after validation (`FeedbackFormData`). */
  datatype FeedbackForm = FeedbackForm(recipientId: string, category: Category, content: string, isAnonymous: bool)

  datatype Field = RecipientField | CategoryField | ContentField

  datatype FieldError = FieldError(field: Field, message: string)

  function RecipientErrors(v: Option<string>): seq<FieldError> {
    if v.None? then [FieldError(RecipientField, Required)]
    else if Utf16Length(v.value) < 1 then [FieldError(RecipientField, RecipientRequired)]
    else []
  }

  function CategoryErrors(v: Option<string>): seq<FieldError> {
    if v.None? then [FieldError(CategoryField, CategoryRequired)]
    else if ParseCategory(v.value).None? then [FieldError(CategoryField, InvalidCategory)]
    else []
  }

  function ContentErrors(v: Option<string>): seq<FieldError> {
    if v.None? then [FieldError(ContentField, Required)]
    else if Utf16Length(v.value) < MinContentLength then [FieldError(ContentField, ContentTooShort)]
    else if Utf16Length(v.value) > MaxContentLength then [FieldError(ContentField, ContentTooLong)]
    else []
  }

  /** `feedbackSchema.safeParse`: the validated values, or every field's
      first failure in field order. */
  function ValidateFeedback(raw: RawForm): (r: Result<FeedbackForm, seq<FieldError>>)
    ensures r.Failure? ==> r.error != []
    ensures r.Success? ==> r.value.isAnonymous == raw.isAnonymous.GetOr(false)
  {
    var errors := RecipientErrors(raw.recipientId) + CategoryErrors(raw.category) + ContentErrors(raw.content);
    if errors != [] then Failure(errors)
    else Success(FeedbackForm(raw.recipientId.value, ParseCategory(raw.category.value).value, raw.content.value, raw.isAnonymous.GetOr(false)))
  }

  /** The schema accepts exactly a non-empty recipient, one of the four
      category names and a message of 10 to 500 characters, and hands them
      on unchanged, with a missing anonymity flag read as false; each
      failing field is reported once. */
  lemma ValidateFeedbackExact(raw: RawForm)
    ensures ValidateFeedback(raw).Success? <==>
      && raw.recipientId.Some? && raw.recipientId.value != ""
      && raw.category.Some? && ParseCategory(raw.category.value).Some?
      && raw.content.Some? && MinContentLength <= Utf16Length(raw.content.value) <= MaxContentLength
    ensures ValidateFeedback(raw).Success? ==>
      var f := ValidateFeedback(raw).value;
      && f.recipientId == raw.recipientId.value
      && CategoryKey(f.category) == raw.category.value
      && f.content == raw.content.value
    ensures ValidateFeedback(raw).Failure? ==>
      var errs := ValidateFeedback(raw).error;
      && (FieldError(RecipientField, Required) in errs <==> raw.recipientId.None?)
      && (FieldError(RecipientField, RecipientRequired) in errs <==> raw.recipientId == Some(""))
      && (FieldError(CategoryField, InvalidCategory) in errs <==> raw.category.Some? && ParseCategory(raw.category.value).None?)
      && (FieldError(CategoryField, CategoryRequired) in errs <==> raw.category.None?)
      && (FieldError(ContentField, Required) in errs <==> raw.content.None?)
      && (FieldError(ContentField, ContentTooShort) in errs <==> raw.content.Some? && Utf16Length(raw.content.value) < MinContentLength)
      && (FieldError(ContentField, ContentTooLong) in errs <==> raw.content.Some? && Utf16Length(raw.content.value) > MaxContentLength)
      && forall i, j :: 0 <= i < j < |errs| ==> errs[i].field != errs[j].field
  {
    if raw.recipientId.Some? && raw.recipientId.value != "" {
      assert Utf16Length(raw.recipientId.value) >= 1;
    }
  }

  /** The length bounds are inclusive: for text in the Basic Multilingual
      Plane 10 and 500 characters pass, 9 and 501 do not. */
  lemma ContentBoundaries(content: string)
    requires forall i :: 0 <= i < |content| ==> content[i] as int <= 0xFFFF
    ensures (|content| == 10 || |content| == 500) ==> ContentErrors(Some(content)) == []
    ensures |content| == 9 ==> ContentErrors(Some(content)) == [FieldError(ContentField, ContentTooShort)]
    ensures |content| == 501 ==> ContentErrors(Some(content)) == [FieldError(ContentField, ContentTooLong)]
  {
    Utf16LengthBmp(content);
  }

  /** `users.find(u => u.id.toString() === recipientId)`. */
  function FindRecipient(users: seq<User>, recipientId: string): (r: Option<User>)
    ensures r.Some? ==> r.value in users && IntToDecimal(r.value.id) == recipientId
    ensures r.None? ==> forall u :: u in users ==> IntToDecimal(u.id) != recipientId
    ensures r.Some? ==> exists i :: (0 <= i < |users| && users[i] == r.value
      && forall j :: 0 <= j < i ==> IntToDecimal(users[j].id) != recipientId)
  {
    if users == [] then None
    else if IntToDecimal(users[0].id) == recipientId then
      assert users[0] == users[0];
      Some(users[0])
    else
      var r := FindRecipient(users[1..], recipientId);
      if r.Some? then
        ghost var i :| 0 <= i < |users[1..]| && users[1..][i] == r.value
          && forall j :: 0 <= j < i ==> IntToDecimal(users[1..][j].id) != recipientId;
        assert users[i + 1] == r.value;
        assert forall j :: 0 <= j < i + 1 ==> IntToDecimal(users[j].id) != recipientId by {
          forall j | 0 <= j < i + 1 ensures IntToDecimal(users[j].id) != recipientId {
            if j > 0 { assert users[j] == users[1..][j - 1]; }
          }
        }
        r
      else r
  }

  /** Asking for the decimal form of an id finds the first user with that
      id; a string that is not such a form, like `"01"`, finds nobody. */
  lemma FindRecipientById(users: seq<User>, id: int, recipientId: string)
    ensures FindRecipient(users, IntToDecimal(id)).Some? ==> FindRecipient(users, IntToDecimal(id)).value.id == id
    ensures (exists u :: u in users && u.id == id) ==> FindRecipient(users, IntToDecimal(id)).Some?
    ensures |recipientId| > 1 && recipientId[0] == '0' ==> FindRecipient(users, recipientId).None?
  {
    if FindRecipient(users, IntToDecimal(id)).Some? {
      DecimalInjective(FindRecipient(users, IntToDecimal(id)).value.id, id);
    }
    if |recipientId| > 1 && recipientId[0] == '0' {
      forall u | u in users
        ensures IntToDecimal(u.id) != recipientId
      {
        if u.id >= 0 {
          assert IntToDecimal(u.id) == NatToDecimal(u.id);
        }
      }
    }
  }

  /** The success message; a recipient that was not found prints as
      `undefined`. */
  function SuccessMessage(recipient: Option<User>, c: Category): string {
    (if recipient.Some? then recipient.value.name else "undefined")
      + "さんに「" + CategoryLabel(c) + "」フィードバックを送信しました！"
  }

  class SendFeedbackPage {
    var users: seq<User>
    var isSubmitting: bool
    var successMessage: Option<string>
    var error: Option<string>
    var form: RawForm

    constructor (users: seq<User>)
      ensures this.users == users && !isSubmitting && successMessage == None && error == None && form == EmptyForm
    {
      this.users := users;
      isSubmitting := false;
      successMessage := None;
      error := None;
      form := EmptyForm;
    }

    /** `onSubmit(data)`, called with values the schema accepted: the flag
        is raised and lowered again, the messages are cleared, the success
        message names the recipient and the form is reset. The mock send
        cannot fail on validated data, so the error branch is not reached. */
    method OnSubmit(data: FeedbackForm) returns (submittingWrites: seq<bool>)
      modifies this
      ensures submittingWrites == [true, false] && !isSubmitting
      ensures error == None
      ensures successMessage == Some(SuccessMessage(FindRecipient(users, data.recipientId), data.category))
      ensures form == EmptyForm && users == old(users)
    {
      isSubmitting := true;
      submittingWrites := [true];
      error := None;
      successMessage := None;
      var recipient := FindRecipient(users, data.recipientId);
      successMessage := Some(SuccessMessage(recipient, data.category));
      form := EmptyForm;
      isSubmitting := false;
      submittingWrites := submittingWrites + [false];
    }
  }
}
