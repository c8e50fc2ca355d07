/** The input form's own state (text, selected model, web-search flag) and
    its submit gate, which turns a submission into at most one `sendMessage`
    request. */
module PromptForm {
  import opened ChatTypes

  /** An entry of the model selector. */
  datatype ModelOption = ModelOption(name: string, value: string)

  const Models: seq<ModelOption> := [
    ModelOption("GPT 5 Nano", "openai/gpt-5-nano"),
    ModelOption("Mistral Nemo", "mistral/mistral-nemo"),
    ModelOption("Deepseek R1", "deepseek/deepseek-r1")
  ]

  /** The text sent when a submission has attachments but no text. */
  const AttachmentsPlaceholder: string := "Sent with attachments"

  /** An attached file as the prompt input reports it. */
  datatype FileAttachment = FileAttachment(mediaType: string, filename: Option<string>, url: string)

  /** What the prompt input hands to the submit handler; either field may be
      absent. */
  datatype PromptInputMessage = PromptInputMessage(text: Option<string>, files: Option<seq<FileAttachment>>)

  datatype OutgoingMessage = OutgoingMessage(text: string, files: Option<seq<FileAttachment>>)

  /** The request metadata sent along with the message. */
  datatype RequestBody = RequestBody(model: string, webSearch: bool)

  /** One `sendMessage(message, { body })` call. */
  datatype SendRequest = SendRequest(message: OutgoingMessage, body: RequestBody)

  /** `Boolean(message.text)`: present and non-empty. */
  predicate HasText(m: PromptInputMessage)
  {
    m.text.Some? && m.text.value != ""
  }

  /** `Boolean(message.files?.length)`: present with at least one file. */
  predicate HasAttachments(m: PromptInputMessage)
  {
    m.files.Some? && |m.files.value| > 0
  }

  /** The request a submission produces under the given selection, or `None`
      when it is rejected. */
  function SubmitRequest(m: PromptInputMessage, model: string, webSearch: bool): (r: Option<SendRequest>)
    ensures r.None? <==> !HasText(m) && !HasAttachments(m)
    ensures r.Some? ==> r.value.message.text != ""
    ensures r.Some? && HasText(m) ==> r.value.message.text == m.text.value
    ensures r.Some? && !HasText(m) ==> HasAttachments(m) && r.value.message.text == AttachmentsPlaceholder
    ensures r.Some? ==> r.value.message.files == m.files
    ensures r.Some? ==> r.value.body.model == model && r.value.body.webSearch == webSearch
  {
    if !(HasText(m) || HasAttachments(m)) then None
    else
      var text := if HasText(m) then m.text.value else AttachmentsPlaceholder;
      Some(SendRequest(OutgoingMessage(text, m.files), RequestBody(model, webSearch)))
  }

  /** Empty text and no attachments: nothing is sent. */
  lemma EmptySubmissionIsRejected(model: string, webSearch: bool)
    ensures SubmitRequest(PromptInputMessage(Some(""), Some([])), model, webSearch) == None
    ensures SubmitRequest(PromptInputMessage(None, None), model, webSearch) == None
  {
  }

  /** Empty text with one attachment: exactly one request, with the
      placeholder text and that attachment. */
  lemma AttachmentOnlySubmission(f: FileAttachment, model: string, webSearch: bool)
    ensures SubmitRequest(PromptInputMessage(Some(""), Some([f])), model, webSearch)
         == Some(SendRequest(OutgoingMessage(AttachmentsPlaceholder, Some([f])), RequestBody(model, webSearch)))
  {
  }

  /** The component's local form state. */
  class Form {
    var input: string
    var model: string
    var webSearch: bool

    /** Empty input, the first listed model, web search off. */
    constructor ()
      ensures input == "" && model == "openai/gpt-5-nano" && !webSearch
      ensures model == Models[0].value
    {
      input := "";
      model := Models[0].value;
      webSearch := false;
    }

    /** The textarea's change handler. */
    method SetInput(value: string)
      modifies this
      ensures input == value
      ensures model == old(model) && webSearch == old(webSearch)
    {
      input := value;
    }

    /** The Search button. */
    method ToggleWebSearch()
      modifies this
      ensures webSearch == !old(webSearch)
      ensures input == old(input) && model == old(model)
    {
      webSearch := !webSearch;
    }

    /** The model selector's change handler; it takes the value as given. */
    method SelectModel(value: string)
      modifies this
      ensures model == value
      ensures input == old(input) && webSearch == old(webSearch)
    {
      model := value;
    }

    /** The submit handler: a rejected submission changes nothing; otherwise
        the returned request is the one `sendMessage` receives and the input
        is cleared. */
    method HandleSubmit(message: PromptInputMessage) returns (sent: Option<SendRequest>)
      modifies this
      ensures sent == SubmitRequest(message, old(model), old(webSearch))
      ensures input == if sent.Some? then "" else old(input)
      ensures model == old(model) && webSearch == old(webSearch)
    {
      var hasText := HasText(message);
      var hasAttachments := HasAttachments(message);
      if !(hasText || hasAttachments) {
        return None;
      }
      var text := if hasText then message.text.value else AttachmentsPlaceholder;
      sent := Some(SendRequest(OutgoingMessage(text, message.files), RequestBody(model, webSearch)));
      input := "";
    }
  }
}
