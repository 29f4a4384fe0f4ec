/** The quick-feedback modal (src/components/FeedbackModal.tsx): its form
    fields, the reset when it closes, the required-field check and the
    submit sequence. `alert`, the delay and the console output are left
    out; what the handler triggers is returned as a list of events. */
module FeedbackModal {
  import opened Wrappers
  import opened Text
  import opened Categories

  const RequiredAlert: string := "必須項目を入力してください"
  const SentAlert: string := "フィードバックを送信しました！"

  /** What `handleSubmit` does that the caller can observe, in order. */
  datatype ModalEvent = Alert(message: string) | SetSubmitting(on: bool) | OnSuccess | OnClose

  /** `!selectedCategory || !selectedRecipient || !content.trim()`. */
  predicate MissingRequired(category: Option<Category>, recipient: string, content: string) {
    category.None? || recipient == "" || Trim(content) == ""
  }

  /** The `disabled` condition of the send button. */
  predicate SubmitDisabled(isSubmitting: bool, category: Option<Category>, recipient: string, content: string) {
    isSubmitting || MissingRequired(category, recipient, content)
  }

  /** The button is disabled exactly while submitting or while a category
      or recipient is missing or the message is blank; there is no upper
      limit on the message, so a message of any length with a visible
      first character can be sent. */
  lemma SubmitDisabledExact(isSubmitting: bool, category: Option<Category>, recipient: string, content: string)
    ensures SubmitDisabled(isSubmitting, category, recipient, content) <==>
      isSubmitting || category.None? || recipient == "" || AllWhitespace(content)
    ensures !isSubmitting && category.Some? && recipient != "" && content != [] && !IsJsWhitespace(content[0]) ==>
      !SubmitDisabled(isSubmitting, category, recipient, content)
  {
    TrimEmptyIff(content);
  }

  const CounterSuffix: string := " / 500"

  /** The counter under the message, `{content.length} / 500`. */
  function CounterLabel(content: string): string {
    IntToDecimal(Utf16Length(content)) + CounterSuffix
  }

  /** The counter shows the message's length in UTF-16 units, which can be
      read back from it, against the nominal 500; it is shown whatever the
      length, even past 500, since nothing enforces that limit. */
  lemma CounterLabelCarriesLength(content: string)
    ensures var shown := CounterLabel(content);
      && |shown| > |CounterSuffix|
      && shown[|shown| - |CounterSuffix|..] == CounterSuffix
      && ParseDecimal(shown[..|shown| - |CounterSuffix|]) == Some(Utf16Length(content))
  {
    var shown := CounterLabel(content);
    assert shown[..|shown| - |CounterSuffix|] == IntToDecimal(Utf16Length(content));
    DecimalRoundTrip(Utf16Length(content));
  }

  class ModalState {
    var selectedCategory: Option<Category>
    var selectedRecipient: string
    var content: string
    var isAnonymous: bool
    var isSubmitting: bool

    constructor ()
      ensures selectedCategory == None && selectedRecipient == "" && content == "" && !isAnonymous && !isSubmitting
    {
      selectedCategory := None;
      selectedRecipient := "";
      content := "";
      isAnonymous := false;
      isSubmitting := false;
    }

    /** The effect on `[isOpen]`: closing clears the form; opening keeps it. */
    method ResetEffect(isOpen: bool)
      modifies this
      ensures !isOpen ==> selectedCategory == None && selectedRecipient == "" && content == "" && !isAnonymous
      ensures isOpen ==>
        && selectedCategory == old(selectedCategory) && selectedRecipient == old(selectedRecipient)
        && content == old(content) && isAnonymous == old(isAnonymous)
      ensures isSubmitting == old(isSubmitting)
    {
      if !isOpen {
        selectedCategory := None;
        selectedRecipient := "";
        content := "";
        isAnonymous := false;
      }
    }

    /** `handleSubmit`: with a required field missing, only the alert;
        otherwise the flag goes up and down, the success alert is shown, the
        optional `onSuccess` runs, and `onClose` runs last. The handler does
        not itself look at `isSubmitting`. */
    method HandleSubmit(hasOnSuccess: bool) returns (events: seq<ModalEvent>)
      modifies this
      ensures MissingRequired(old(selectedCategory), old(selectedRecipient), old(content)) ==>
        events == [Alert(RequiredAlert)] && isSubmitting == old(isSubmitting)
      ensures !MissingRequired(old(selectedCategory), old(selectedRecipient), old(content)) ==>
        && events == (if hasOnSuccess then [SetSubmitting(true), SetSubmitting(false), Alert(SentAlert), OnSuccess, OnClose]
                      else [SetSubmitting(true), SetSubmitting(false), Alert(SentAlert), OnClose])
        && !isSubmitting
      ensures selectedCategory == old(selectedCategory) && selectedRecipient == old(selectedRecipient)
      ensures content == old(content) && isAnonymous == old(isAnonymous)
    {
      if selectedCategory.None? || selectedRecipient == "" || Trim(content) == "" {
        events := [Alert(RequiredAlert)];
        return;
      }
      isSubmitting := true;
      isSubmitting := false;
      if hasOnSuccess {
        events := [SetSubmitting(true), SetSubmitting(false), Alert(SentAlert), OnSuccess, OnClose];
      } else {
        events := [SetSubmitting(true), SetSubmitting(false), Alert(SentAlert), OnClose];
      }
    }
  }

  /** Submitting a complete form and then closing the modal leaves it
      empty and not submitting, with `onSuccess` reported before `onClose`. */
  method SubmitThenClose(m: ModalState) returns (events: seq<ModalEvent>)
    requires !MissingRequired(m.selectedCategory, m.selectedRecipient, m.content)
    modifies m
    ensures |events| == 5 && events[3] == OnSuccess && events[4] == OnClose
    ensures m.selectedCategory == None && m.selectedRecipient == "" && m.content == "" && !m.isAnonymous && !m.isSubmitting
  {
    events := m.HandleSubmit(true);
    m.ResetEffect(false);
  }
}
