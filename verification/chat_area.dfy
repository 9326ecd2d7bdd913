/** The chat area: the draft in the input box, when a send fires and what it hands to
    the page, and which controls, placeholder and indicators are shown. The component
    is a function of its inputs: the messages, the language, whether the bot is
    loading, and whether the input is disabled. */
module ChatArea {
  import opened ChatTypes
  import opened JsText

  /** The draft after a user action, and the text handed to the page when a send fires. */
  datatype SendOutcome = SendOutcome(draft: string, sent: Option<string>)

  /** The send action: a draft that is not all whitespace, while the input is enabled, is
      handed over trimmed and the box is emptied; otherwise nothing happens. */
  function HandleSend(draft: string, inputDisabled: bool): (r: SendOutcome)
    ensures r.sent.Some? <==> !inputDisabled && !AllWhitespace(draft)
    ensures r.sent.Some? ==> r.sent.value == Trim(draft) && r.draft == []
    ensures r.sent.Some? ==> r.sent.value != [] && Trim(r.sent.value) == r.sent.value
    ensures r.sent.None? ==> r.draft == draft
  {
    TrimEmptyIff(draft);
    TrimIdempotent(draft);
    if Trim(draft) != "" && !inputDisabled then SendOutcome("", Some(Trim(draft)))
    else SendOutcome(draft, None)
  }

  /** A key press in the input box: Enter without Shift, while the input is enabled,
      performs the send action; any other key, Shift+Enter, or a disabled input leaves
      the draft to the box. */
  function HandleKeyPress(key: string, shiftKey: bool, draft: string, inputDisabled: bool): (r: SendOutcome)
    ensures r.sent.Some? <==> key == "Enter" && !shiftKey && !inputDisabled && !AllWhitespace(draft)
    ensures r.sent.Some? ==> r == HandleSend(draft, inputDisabled)
    ensures r.sent.None? ==> r.draft == draft
  {
    if key == "Enter" && !shiftKey && !inputDisabled then HandleSend(draft, inputDisabled)
    else SendOutcome(draft, None)
  }

  /** The draft once the disabled flag has changed: disabling the input empties it. */
  function DraftAfterDisabledChange(draft: string, inputDisabled: bool): (r: string)
    ensures inputDisabled ==> r == [] && HandleSend(r, false).sent.None?
    ensures !inputDisabled ==> r == draft
  {
    if inputDisabled then "" else draft
  }

  function Placeholder(inputDisabled: bool, language: Language): string {
    if inputDisabled then "Viewing historical chat..."
    else match language
         case En => "Type your message..."
         case Fr => "Écrivez votre message..."
  }

  function SendLabel(language: Language): string {
    if language == En then "Send" else "Envoyer"
  }

  /** What the message list shows when it has no messages. */
  datatype EmptyNotice = NoNotice | HistoricalNotice | StartPrompt

  /** Everything the chat area derives from its inputs. */
  datatype View = View(
    placeholder: string,
    sendLabel: string,
    fieldDisabled: bool,
    buttonDisabled: bool,
    typingIndicator: bool,
    connectingIndicator: bool,
    notice: EmptyNotice)

  function Render(messages: seq<Message>, language: Language, isLoading: bool, inputDisabled: bool, draft: string)
    : (v: View)
  {
    View(
      Placeholder(inputDisabled, language),
      SendLabel(language),
      inputDisabled || isLoading,
      inputDisabled || isLoading || Trim(draft) == "",
      isLoading && |messages| > 0 && messages[|messages| - 1].sender == User,
      isLoading && |messages| == 0,
      if |messages| == 0 then (if inputDisabled && !isLoading then HistoricalNotice else StartPrompt)
      else NoNotice)
  }

  /** The send button is enabled exactly when clicking it would fire a send and the bot
      is not loading; the input field is disabled exactly when either flag is set. */
  lemma ButtonEnabledIffSendFires(messages: seq<Message>, language: Language, isLoading: bool, inputDisabled: bool, draft: string)
    ensures var v := Render(messages, language, isLoading, inputDisabled, draft);
            && (!v.buttonDisabled <==> HandleSend(draft, inputDisabled).sent.Some? && !isLoading)
            && (v.fieldDisabled <==> inputDisabled || isLoading)
            && (!v.buttonDisabled ==> !v.fieldDisabled)
  {
    TrimEmptyIff(draft);
  }

  /** The placeholder says the chat is historical exactly when the input is disabled, and
      otherwise is the prompt in the selected language; the button label follows the
      language too. */
  lemma PlaceholderAndLabels(messages: seq<Message>, language: Language, isLoading: bool, inputDisabled: bool, draft: string)
    ensures var v := Render(messages, language, isLoading, inputDisabled, draft);
            && (inputDisabled ==> v.placeholder == "Viewing historical chat...")
            && (!inputDisabled && language == En ==> v.placeholder == "Type your message...")
            && (!inputDisabled && language == Fr ==> v.placeholder == "Écrivez votre message...")
            && (v.placeholder == "Viewing historical chat..." <==> inputDisabled)
            && (v.sendLabel == "Send" <==> language == En)
  {
  }

  /** "Bot is typing..." shows only while loading after a user message, "Connecting to
      chat..." only while loading with no messages; never both, and neither when not
      loading. The historical notice shows exactly when there are no messages, the
      input is disabled and nothing is loading; otherwise an empty list shows the start
      prompt. */
  lemma Indicators(messages: seq<Message>, language: Language, isLoading: bool, inputDisabled: bool, draft: string)
    ensures var v := Render(messages, language, isLoading, inputDisabled, draft);
            && (v.typingIndicator <==> isLoading && |messages| > 0 && messages[|messages| - 1].sender == User)
            && (v.connectingIndicator <==> isLoading && |messages| == 0)
            && !(v.typingIndicator && v.connectingIndicator)
            && (v.notice == HistoricalNotice <==> |messages| == 0 && inputDisabled && !isLoading)
            && (v.notice == StartPrompt <==> |messages| == 0 && !(inputDisabled && !isLoading))
            && (v.connectingIndicator ==> v.notice == StartPrompt)
            && (v.notice == HistoricalNotice ==> v.fieldDisabled && !v.typingIndicator && !v.connectingIndicator)
  {
  }
}
