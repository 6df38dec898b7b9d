/**
 * The chat panel (`ChatSidebarComponent`): an append-only transcript, an input
 * buffer and a typing flag. Sending a message is one awaited chat call, so it is
 * modelled as a pair of steps, `BeginSend` up to the call and `CompleteSend` when
 * the reply (or the rejection) arrives, and as `SendMessage`, the two in sequence.
 */
module Chat {
  import opened Wrappers
  import opened Text
  import AI

  datatype Role = User | Model

  datatype ChatMessage = ChatMessage(role: Role, text: string)

  /** The model-role text recorded when the chat call fails. */
  const FallbackReply: string := "Sorry, I encountered an error. Please try again."

  /** A text the panel sends: non-empty, and with no whitespace left at either end. */
  predicate IsSendable(text: string) {
    text != [] && !IsWhitespace(text[0]) && !IsWhitespace(text[|text| - 1])
  }

  /** Being sendable is being a non-empty string that trimming leaves unchanged. */
  lemma SendableIsTrimmed(text: string)
    ensures IsSendable(text) <==> text != [] && Trim(text) == text
  {}

  /**
   * The gate at the start of `sendMessage`: the input is accepted exactly when it is
   * not blank and no reply is awaited, and what is sent is the trimmed input.
   */
  function AcceptedText(input: string, isTyping: bool): (r: Option<string>)
    ensures r.Some? <==> !isTyping && !IsBlank(input)
    ensures r.Some? ==> IsSendable(r.value)
    ensures r.Some? ==> r.value == Trim(input)
  {
    var text := Trim(input);
    if text == [] || isTyping then None else Some(text)
  }

  /** The model-role message recorded for the outcome of a chat call. */
  function ReplyMessage(reply: Outcome<string>): ChatMessage {
    match reply
    case Success(text) => ChatMessage(Model, text)
    case Failure => ChatMessage(Model, FallbackReply)
  }

  /** A settled transcript: a sequence of exchanges, each a sendable user message and then a model message. */
  predicate Exchanges(ms: seq<ChatMessage>)
    decreases |ms|
  {
    ms == [] ||
    (|ms| >= 2 && ms[0].role == User && IsSendable(ms[0].text) && ms[1].role == Model && Exchanges(ms[2..]))
  }

  /** The same shape stated by position: even length, users at even indices, models at odd ones. */
  predicate Alternates(ms: seq<ChatMessage>) {
    |ms| % 2 == 0 &&
    forall i :: 0 <= i < |ms| ==> (ms[i].role == User <==> i % 2 == 0) && (i % 2 == 0 ==> IsSendable(ms[i].text))
  }

  lemma {:induction false} ExchangesIffAlternates(ms: seq<ChatMessage>)
    ensures Exchanges(ms) <==> Alternates(ms)
    decreases |ms|
  {
    if |ms| >= 2 {
      var rest := ms[2..];
      ExchangesIffAlternates(rest);
      assert forall i :: 0 <= i < |rest| ==> rest[i] == ms[i + 2];
      if Alternates(ms) {
        assert Alternates(rest) by {
          forall i | 0 <= i < |rest|
            ensures (rest[i].role == User <==> i % 2 == 0) && (i % 2 == 0 ==> IsSendable(rest[i].text))
          {
            assert rest[i] == ms[i + 2];
          }
        }
      }
      if ms[0].role == User && IsSendable(ms[0].text) && ms[1].role == Model && Alternates(rest) {
        forall i | 2 <= i < |ms|
          ensures (ms[i].role == User <==> i % 2 == 0) && (i % 2 == 0 ==> IsSendable(ms[i].text))
        {
          assert ms[i] == rest[i - 2];
        }
      }
    } else if |ms| == 1 {
      assert !Alternates(ms);
    }
  }

  /** Appending one exchange to a settled transcript leaves it settled. */
  lemma {:induction false} ExchangesAppend(ms: seq<ChatMessage>, user: ChatMessage, reply: ChatMessage)
    requires Exchanges(ms)
    requires user.role == User && IsSendable(user.text) && reply.role == Model
    ensures Exchanges(ms + [user, reply])
    decreases |ms|
  {
    if ms != [] {
      ExchangesAppend(ms[2..], user, reply);
      assert (ms + [user, reply])[2..] == ms[2..] + [user, reply];
    }
  }

  /** The texts the user sent, in order, read off a settled transcript. */
  function SentTexts(ms: seq<ChatMessage>): (texts: seq<string>)
    requires Exchanges(ms)
    ensures |texts| * 2 == |ms|
    ensures forall i :: 0 <= i < |texts| ==> texts[i] == ms[2 * i].text
    decreases |ms|
  {
    if ms == [] then [] else [ms[0].text] + SentTexts(ms[2..])
  }

  /** Each completed send adds exactly its own text to the sent texts. */
  lemma {:induction false} SentTextsAppend(ms: seq<ChatMessage>, user: ChatMessage, reply: ChatMessage)
    requires Exchanges(ms)
    requires user.role == User && IsSendable(user.text) && reply.role == Model
    ensures Exchanges(ms + [user, reply])
    ensures SentTexts(ms + [user, reply]) == SentTexts(ms) + [user.text]
    decreases |ms|
  {
    ExchangesAppend(ms, user, reply);
    if ms != [] {
      SentTextsAppend(ms[2..], user, reply);
      assert (ms + [user, reply])[2..] == ms[2..] + [user, reply];
    }
  }

  class ChatSidebar {
    /** The injected client whose chat session the panel uses. */
    const ai: AI.AIService
    var messages: seq<ChatMessage>
    var userInput: string
    var isTyping: bool

    /**
     * The transcript is settled while no reply is awaited; while one is, it is a
     * settled transcript followed by the one user message awaiting its reply.
     */
    ghost predicate Valid()
      reads this
    {
      if isTyping then
        |messages| > 0 &&
        messages[|messages| - 1].role == User && IsSendable(messages[|messages| - 1].text) &&
        Exchanges(messages[..|messages| - 1])
      else
        Exchanges(messages)
    }

    constructor (ai: AI.AIService)
      ensures Valid()
      ensures this.ai == ai && messages == [] && userInput == "" && !isTyping
    {
      this.ai := ai;
      messages := [];
      userInput := "";
      isTyping := false;
    }

    /** The input field's two-way binding. */
    method SetUserInput(text: string)
      requires Valid()
      modifies this`userInput
      ensures Valid() && userInput == text
    {
      userInput := text;
    }

    /**
     * `sendMessage` up to the awaited chat call. A blank input or an awaited reply
     * makes it do nothing. Otherwise the trimmed input is appended as a user message,
     * the input is cleared, the panel starts typing, and the trimmed text is sent in
     * the service's chat session, which is created first if it does not exist yet
     * (`handle` is the identity the SDK would give it).
     */
    method BeginSend(handle: nat) returns (request: Option<AI.ChatRequest>)
      requires Valid()
      modifies this`messages, this`userInput, this`isTyping, ai
      ensures Valid()
      ensures request.Some? <==> AcceptedText(old(userInput), old(isTyping)).Some?
      ensures request.None? ==>
        messages == old(messages) && userInput == old(userInput) &&
        isTyping == old(isTyping) && ai.chatInstance == old(ai.chatInstance)
      ensures request.Some? ==>
        var text := Trim(old(userInput));
        && messages == old(messages) + [ChatMessage(User, text)]
        && userInput == "" && isTyping
        && ai.chatInstance == Some(request.value.session)
        && request.value.message == text
        && (old(ai.chatInstance).Some? ==> ai.chatInstance == old(ai.chatInstance))
        && (old(ai.chatInstance).None? ==> ai.chatInstance == Some(AI.NewChatSession(handle)))
    {
      var text := Trim(userInput);
      if text == [] || isTyping {
        return None;
      }
      messages := messages + [ChatMessage(User, text)];
      userInput := "";
      isTyping := true;
      assert messages[..|messages| - 1] == old(messages);
      var chat := ai.GetChat(handle);
      request := Some(AI.ChatRequest(chat, text));
    }

    /**
     * The rest of `sendMessage`, once the awaited chat call settles: the reply text,
     * or the fixed fallback when the call failed, is appended as a model message, and
     * the panel stops typing on both paths.
     */
    method CompleteSend(reply: Outcome<string>)
      requires Valid() && isTyping
      modifies this`messages, this`isTyping
      ensures Valid() && !isTyping
      ensures messages == old(messages) + [ReplyMessage(reply)]
    {
      var settled := messages[..|messages| - 1];
      var user := messages[|messages| - 1];
      ExchangesAppend(settled, user, ReplyMessage(reply));
      assert messages == settled + [user];
      messages := messages + [ReplyMessage(reply)];
      assert messages == settled + [user, ReplyMessage(reply)];
      isTyping := false;
    }

    /**
     * `sendMessage` as a whole, with `reply` the outcome of the chat call. An accepted
     * send appends exactly one exchange, the trimmed input and then the reply or the
     * fallback, and leaves the panel not typing; a rejected one changes nothing.
     */
    method SendMessage(handle: nat, reply: Outcome<string>) returns (request: Option<AI.ChatRequest>)
      requires Valid()
      modifies this`messages, this`userInput, this`isTyping, ai
      ensures Valid()
      ensures request.Some? <==> AcceptedText(old(userInput), old(isTyping)).Some?
      ensures request.None? ==>
        messages == old(messages) && userInput == old(userInput) &&
        isTyping == old(isTyping) && ai.chatInstance == old(ai.chatInstance)
      ensures request.Some? ==>
        var text := Trim(old(userInput));
        && messages == old(messages) + [ChatMessage(User, text), ReplyMessage(reply)]
        && |messages| == |old(messages)| + 2 && messages[..|old(messages)|] == old(messages)
        && userInput == "" && !isTyping
        && request.value.message == text
        && ai.chatInstance == Some(request.value.session)
        && (old(ai.chatInstance).Some? ==> ai.chatInstance == old(ai.chatInstance))
        && (old(ai.chatInstance).None? ==> ai.chatInstance == Some(AI.NewChatSession(handle)))
        && SentTexts(messages) == SentTexts(old(messages)) + [text]
    {
      request := BeginSend(handle);
      if request.Some? {
        CompleteSend(reply);
        SentTextsAppend(old(messages), ChatMessage(User, Trim(old(userInput))), ReplyMessage(reply));
      }
    }
  }

  /**
   * A fresh panel that sends one already trimmed question records exactly that
   * question and the reply (or the fallback), on a newly created session.
   */
  method FirstExchange(question: string, reply: Outcome<string>) returns (panel: ChatSidebar)
    requires IsSendable(question)
    ensures panel.messages == [ChatMessage(User, question), ReplyMessage(reply)]
    ensures !panel.isTyping && panel.userInput == ""
    ensures panel.ai.chatInstance == Some(AI.NewChatSession(0))
  {
    var service := new AI.AIService();
    panel := new ChatSidebar(service);
    panel.SetUserInput(question);
    SendableIsTrimmed(question);
    var request := panel.SendMessage(0, reply);
  }
}
