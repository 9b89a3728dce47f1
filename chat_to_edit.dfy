/** The "Edit with Chat" panel under a generated image
    (src/components/ChatToEdit.tsx). Sending a message posts it, with the
    canvas image and the earlier messages, to the chat-edit endpoint; a
    returned image only appears as a proposal in an assistant message, and
    the canvas changes only when the user presses that message's "Add to
    Canvas" button (two-step commit).

    The async handler is split at its `await`: `BeginSend` is what runs
    before the request leaves, `FinishSend` what runs when it settles. */
module ChatToEditPanel {
  import opened Wrappers
  import opened JsString
  import opened Types

  /** The JSON body posted to the chat-edit endpoint. */
  datatype EditRequest = EditRequest(message: string, currentImageUrl: string, conversationHistory: seq<ChatMessage>)

  /** How the request settled: `fetch` threw, the status was not OK, or the
      parsed reply with its `success`, `response` and `newImageUrl`. */
  datatype SendOutcome =
    | Threw
    | NotOk
    | Replied(success: bool, response: string, newImageUrl: Option<string>)

  const UpdatedImageText := "Here's your updated image:"
  const ErrorText := "Sorry, I encountered an error processing your request. Please try again."

  /** The one message appended when a request settles. */
  function ReplyMessage(outcome: SendOutcome): (m: ChatMessage)
    ensures m.role == Assistant
    ensures m.hasAddToCanvas <==> outcome.Replied? && outcome.success
                                  && outcome.newImageUrl.Some? && outcome.newImageUrl.value != ""
    ensures m.hasAddToCanvas ==> m.imageUrl == outcome.newImageUrl && m.content == UpdatedImageText
    ensures m.imageUrl.Some? ==> m.hasAddToCanvas
    ensures outcome.Replied? && outcome.success && !m.hasAddToCanvas ==> m.content == outcome.response && m.imageUrl.None?
    ensures !(outcome.Replied? && outcome.success) ==> m == ChatMessage(ErrorText, Assistant, None, false)
  {
    if outcome.Replied? && outcome.success then
      var hasImage := outcome.newImageUrl.Some? && outcome.newImageUrl.value != "";
      ChatMessage(if hasImage then UpdatedImageText else outcome.response,
                  Assistant,
                  if hasImage then outcome.newImageUrl else None,
                  hasImage)
    else
      ChatMessage(ErrorText, Assistant, None, false)
  }

  /** User and assistant messages alternate, starting with the user. */
  predicate Alternates(messages: seq<ChatMessage>)
  {
    forall i :: 0 <= i < |messages| ==> messages[i].role == (if i % 2 == 0 then User else Assistant)
  }

  /** The history and the loading reports of a panel: messages alternate,
      user messages are never blank, an "Add to Canvas" message carries an
      image, and one report per message, `true` for each user message. */
  ghost predicate Consistent(messages: seq<ChatMessage>, loadingReports: seq<bool>)
  {
    && Alternates(messages)
    && (forall i :: 0 <= i < |messages| && messages[i].role == User ==> !IsBlank(messages[i].content))
    && (forall i :: 0 <= i < |messages| && messages[i].hasAddToCanvas ==> messages[i].imageUrl.Some?)
    && |loadingReports| == |messages|
    && (forall i :: 0 <= i < |loadingReports| ==> loadingReports[i] == (i % 2 == 0))
  }

  /** Appending the message whose turn it is, with its report, keeps the
      history consistent. */
  lemma ConsistentAppend(messages: seq<ChatMessage>, loadingReports: seq<bool>, m: ChatMessage)
    requires Consistent(messages, loadingReports)
    requires m.role == (if |messages| % 2 == 0 then User else Assistant)
    requires m.role == User ==> !IsBlank(m.content)
    requires m.hasAddToCanvas ==> m.imageUrl.Some?
    ensures Consistent(messages + [m], loadingReports + [|messages| % 2 == 0])
  {
    var ms, rs := messages + [m], loadingReports + [|messages| % 2 == 0];
    assert forall i :: 0 <= i < |messages| ==> ms[i] == messages[i];
    assert forall i :: 0 <= i < |loadingReports| ==> rs[i] == loadingReports[i];
    assert ms[|messages|] == m;
  }

  class ChatToEdit {
    var messages: seq<ChatMessage>
    var inputValue: string
    var isProcessing: bool
    /** The `currentImageUrl` prop: the canvas image this panel edits. */
    var currentImageUrl: string
    /** The values passed to `onLoadingChange`, oldest first. */
    var loadingReports: seq<bool>

    /** Each accepted send appends a user message and reports `true`; its
        settling appends one assistant message and reports `false`. So a
        request is in flight exactly when the message count is odd. The
        input is disabled, hence empty, while one is. */
    ghost predicate Valid()
      reads this
    {
      && (isProcessing <==> |messages| % 2 == 1)
      && (isProcessing ==> inputValue == "")
      && Consistent(messages, loadingReports)
    }

    constructor(currentImageUrl: string)
      ensures Valid()
      ensures messages == [] && inputValue == "" && !isProcessing && loadingReports == []
      ensures this.currentImageUrl == currentImageUrl
    {
      messages := [];
      inputValue := "";
      isProcessing := false;
      this.currentImageUrl := currentImageUrl;
      loadingReports := [];
    }

    /** Typing into the input, which is disabled while a request is in
        flight. */
    method SetInput(value: string)
      requires Valid()
      modifies this
      ensures Valid()
      ensures inputValue == if old(isProcessing) then old(inputValue) else value
      ensures messages == old(messages) && isProcessing == old(isProcessing)
      ensures currentImageUrl == old(currentImageUrl) && loadingReports == old(loadingReports)
    {
      if !isProcessing {
        inputValue := value;
      }
    }

    /** The part of `handleSendMessage` before the `await`. A blank input or
        a request in flight makes it a no-op; otherwise it returns the body
        it posts, built from the input and the messages as they were before
        the new user message. */
    method BeginSend() returns (request: Option<EditRequest>)
      requires Valid()
      modifies this
      ensures Valid()
      ensures request.Some? <==> !IsBlank(old(inputValue)) && !old(isProcessing)
      ensures request.None? ==> unchanged(this)
      ensures request.Some? ==>
                && request.value == EditRequest(old(inputValue), old(currentImageUrl), old(messages))
                && messages == old(messages) + [ChatMessage(old(inputValue), User, None, false)]
                && inputValue == "" && isProcessing
                && loadingReports == old(loadingReports) + [true]
      ensures currentImageUrl == old(currentImageUrl)
    {
      if Trim(inputValue) == "" || isProcessing {
        return None;
      }
      var userMessage := ChatMessage(inputValue, User, None, false);
      ConsistentAppend(messages, loadingReports, userMessage);
      request := Some(EditRequest(inputValue, currentImageUrl, messages));
      messages := messages + [userMessage];
      inputValue := "";
      isProcessing := true;
      loadingReports := loadingReports + [true];
    }

    /** The part after the `await`: exactly one assistant message, then the
        `finally` block. The canvas image is never touched. */
    method FinishSend(outcome: SendOutcome)
      requires Valid() && isProcessing
      modifies this
      ensures Valid()
      ensures messages == old(messages) + [ReplyMessage(outcome)]
      ensures !isProcessing && inputValue == ""
      ensures loadingReports == old(loadingReports) + [false]
      ensures currentImageUrl == old(currentImageUrl)
    {
      var reply := ReplyMessage(outcome);
      ConsistentAppend(messages, loadingReports, reply);
      messages := messages + [reply];
      if outcome.Replied? && outcome.success {
        inputValue := "";
      }
      isProcessing := false;
      loadingReports := loadingReports + [false];
    }

    /** The "Add to Canvas" button of message `i`, shown only on messages
        with a proposed image: the proposal becomes the canvas image. */
    method AddToCanvas(i: nat)
      requires Valid() && i < |messages| && messages[i].hasAddToCanvas
      modifies this
      ensures Valid()
      ensures messages == old(messages) && inputValue == old(inputValue)
      ensures currentImageUrl == old(messages[i].imageUrl.value)
      ensures isProcessing == old(isProcessing) && loadingReports == old(loadingReports)
    {
      currentImageUrl := messages[i].imageUrl.value;
    }
  }

  /** Two edits in a row, neither committed: both requests carry the
      original canvas image, the second also the first exchange. */
  method TwoUncommittedEdits(canvas: string, first: string, second: string, outcome: SendOutcome)
    returns (r1: Option<EditRequest>, r2: Option<EditRequest>)
    requires !IsBlank(first) && !IsBlank(second)
    ensures r1 == Some(EditRequest(first, canvas, []))
    ensures r2.Some? && r2.value.currentImageUrl == canvas
    ensures r2.value.conversationHistory == [ChatMessage(first, User, None, false), ReplyMessage(outcome)]
  {
    var panel := new ChatToEdit(canvas);
    panel.SetInput(first);
    r1 := panel.BeginSend();
    panel.FinishSend(outcome);
    panel.SetInput(second);
    r2 := panel.BeginSend();
  }
}
