/** The stand-alone editing page (src/app/chat/page.tsx). It loads an edit
    session saved by the main page, keeps a current image and a chat, and
    replaces the current image as soon as a reply brings a new one
    (auto-commit). Reset goes back to the session's original image.

    As in the panel, the async send is split at its `await` into
    `BeginSend` and `FinishSend`. */
module ChatPageSession {
  import opened Wrappers
  import opened JsString
  import opened Types
  import ChatEditRoute
  import ChatToEditPanel

  /** The saved session; only `generatedImage` is read. */
  datatype SessionData = SessionData(generatedImage: string)

  /** What `localStorage.getItem('euphoria_edit_session')` held: nothing
      (or the empty string), text that is not JSON, or a session. */
  datatype StoredSession = NothingStored | Unparsable | Stored(session: SessionData)

  /** How a request settled: `fetch` or `response.json()` threw, or the
      parsed body. The status code is not looked at. */
  datatype ChatReply = RequestFailed | Body(success: bool, response: string, newImageUrl: Option<string>)

  const WelcomeText := "Hi! I can help you edit your generated image. What changes would you like to make?"
  const ResetText := "Image reset to original. What would you like to edit?"
  const ErrorText := "Sorry, I encountered an error processing your request. Please try again."

  function AssistantMessage(content: string): ChatMessage
  {
    ChatMessage(content, Assistant, None, false)
  }

  /** The history sent with a request: role and content of each message. */
  function History(messages: seq<ChatMessage>): (h: seq<ChatEditRoute.HistoryEntry>)
    ensures |h| == |messages|
    ensures forall i :: 0 <= i < |h| ==>
              h[i].role == RoleName(messages[i].role) && h[i].content == messages[i].content
  {
    seq(|messages|, i requires 0 <= i < |messages| =>
      ChatEditRoute.HistoryEntry(RoleName(messages[i].role), messages[i].content))
  }

  /** Whether a reply carries an image that replaces the current one. */
  predicate BringsImage(reply: ChatReply)
  {
    reply.Body? && reply.success && reply.newImageUrl.Some? && reply.newImageUrl.value != ""
  }

  /** The one message appended when a request settles. */
  function ReplyMessage(reply: ChatReply): (m: ChatMessage)
    ensures m.role == Assistant && !m.hasAddToCanvas
    ensures reply.Body? && reply.success ==> m.content == reply.response && m.imageUrl == reply.newImageUrl
    ensures !(reply.Body? && reply.success) ==> m == AssistantMessage(ErrorText)
  {
    if reply.Body? && reply.success then ChatMessage(reply.response, Assistant, reply.newImageUrl, false)
    else AssistantMessage(ErrorText)
  }

  class ChatPage {
    var sessionData: Option<SessionData>
    var currentImage: string
    var messages: seq<ChatMessage>
    var inputMessage: string
    var isLoading: bool

    /** Without a session there is no image, no chat and no request. */
    ghost predicate Valid()
      reads this
    {
      sessionData.None? ==> currentImage == "" && messages == [] && !isLoading
    }

    /** Mounting the page: the load effect runs once. */
    constructor(stored: StoredSession)
      ensures Valid()
      ensures stored.Stored? ==> sessionData == Some(stored.session) && currentImage == stored.session.generatedImage
                                 && messages == [AssistantMessage(WelcomeText)]
      ensures !stored.Stored? ==> sessionData.None? && currentImage == "" && messages == []
      ensures inputMessage == "" && !isLoading
    {
      sessionData := None;
      currentImage := "";
      messages := [];
      inputMessage := "";
      isLoading := false;
      if stored.Stored? {
        sessionData := Some(stored.session);
        currentImage := stored.session.generatedImage;
        messages := [AssistantMessage(WelcomeText)];
      }
    }

    /** Typing into the input, which is disabled while a request is in
        flight. */
    method SetInput(value: string)
      requires Valid()
      modifies this
      ensures Valid()
      ensures inputMessage == if old(isLoading) then old(inputMessage) else value
      ensures sessionData == old(sessionData) && currentImage == old(currentImage)
      ensures messages == old(messages) && isLoading == old(isLoading)
    {
      if !isLoading {
        inputMessage := value;
      }
    }

    /** The part of `handleSendMessage` before the `await`: a no-op on a
        blank input, without a current image, or with a request in flight;
        otherwise returns the body it posts. */
    method BeginSend() returns (request: Option<ChatEditRoute.ChatEditBody>)
      requires Valid()
      modifies this
      ensures Valid()
      ensures request.Some? <==> !IsBlank(old(inputMessage)) && old(currentImage) != "" && !old(isLoading)
      ensures request.None? ==> unchanged(this)
      ensures request.Some? ==>
                && request.value == ChatEditRoute.ChatEditBody(Some(old(inputMessage)), Some(old(currentImage)),
                                                               Some(History(old(messages))))
                && messages == old(messages) + [ChatMessage(old(inputMessage), User, None, false)]
                && inputMessage == "" && isLoading
      ensures sessionData == old(sessionData) && currentImage == old(currentImage)
    {
      if Trim(inputMessage) == "" || currentImage == "" || isLoading {
        return None;
      }
      var userMessage := ChatMessage(inputMessage, User, None, false);
      request := Some(ChatEditRoute.ChatEditBody(Some(inputMessage), Some(currentImage), Some(History(messages))));
      messages := messages + [userMessage];
      inputMessage := "";
      isLoading := true;
    }

    /** The part after the `await`: one assistant message, the current
        image replaced when the reply brings one, then the `finally`. */
    method FinishSend(reply: ChatReply)
      requires Valid() && isLoading
      modifies this
      ensures Valid()
      ensures messages == old(messages) + [ReplyMessage(reply)]
      ensures currentImage == if BringsImage(reply) then reply.newImageUrl.value else old(currentImage)
      ensures !isLoading
      ensures sessionData == old(sessionData) && inputMessage == old(inputMessage)
    {
      messages := messages + [ReplyMessage(reply)];
      if BringsImage(reply) {
        currentImage := reply.newImageUrl.value;
      }
      isLoading := false;
    }

    /** `handleReset`: back to the session's image with a single message;
        a request in flight is left to settle. */
    method Reset()
      requires Valid()
      modifies this
      ensures Valid()
      ensures old(sessionData).None? ==> unchanged(this)
      ensures old(sessionData).Some? ==>
                currentImage == old(sessionData).value.generatedImage && messages == [AssistantMessage(ResetText)]
      ensures sessionData == old(sessionData) && isLoading == old(isLoading) && inputMessage == old(inputMessage)
    {
      if sessionData.Some? {
        currentImage := sessionData.value.generatedImage;
        messages := [AssistantMessage(ResetText)];
      }
    }
  }

  /** Every body the page posts gets past the endpoint's field check: the
      message is non-empty and there is an image URL. */
  lemma RequestsHaveRequiredFields(message: string, image: string, messages: seq<ChatMessage>,
                                   model: seq<ContentPart> -> ModelCall)
    requires !IsBlank(message) && image != ""
    ensures ChatEditRoute.Respond(Success(ChatEditRoute.ChatEditBody(Some(message), Some(image), Some(History(messages)))),
                                  model)
            != ChatEditRoute.BadRequest(ChatEditRoute.MissingFieldsError)
  {
    assert message != "";
    var body := ChatEditRoute.ChatEditBody(Some(message), Some(image), Some(History(messages)));
    assert ChatEditRoute.MissingFieldsError != ChatEditRoute.InvalidImageData by {
      assert ChatEditRoute.MissingFieldsError[0] != ChatEditRoute.InvalidImageData[0];
    }
  }

  /** The same reply with a new image: the page shows it at once, the panel
      only proposes it and keeps its canvas until "Add to Canvas". */
  method AutoCommitVersusTwoStep(session: SessionData, message: string, url: string)
    returns (pageImage: string, panelImage: string, proposal: Option<string>)
    requires session.generatedImage != "" && !IsBlank(message) && url != ""
    ensures pageImage == url
    ensures panelImage == session.generatedImage
    ensures proposal == Some(url)
  {
    var page := new ChatPage(Stored(session));
    page.SetInput(message);
    var _ := page.BeginSend();
    page.FinishSend(Body(true, "", Some(url)));
    pageImage := page.currentImage;

    var panel := new ChatToEditPanel.ChatToEdit(session.generatedImage);
    panel.SetInput(message);
    var _ := panel.BeginSend();
    panel.FinishSend(ChatToEditPanel.Replied(true, "", Some(url)));
    panelImage := panel.currentImageUrl;
    proposal := panel.messages[|panel.messages| - 1].imageUrl;
  }
}
