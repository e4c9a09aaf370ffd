/**
 * The 24/7 legal chat: a message history that only grows, a draft field, a typing
 * indicator, and a bot reply chosen by keyword priority two seconds after each send.
 */
module ChatLegal {
  import opened Text
  import opened Findings

  datatype Sender = User | Bot

  /** A chat message; its `Date.now()` id and its timestamp are not modelled. */
  datatype Message = Message(content: string, sender: Sender)

  function SenderOf(m: Message): Sender {
    m.sender
  }

  const Greeting: string :=
    "¡Hola! Soy tu asistente legal de UMBRA. Estoy disponible 24/7 para ayudarte con consultas legales, análisis de contratos, interpretación de leyes y mucho más. ¿En qué puedo asistirte hoy?"

  /** Which canned reply the bot gives. */
  datatype Topic = Contractual | Labour | Criminal | Civil | General

  const ContractWords: seq<string> := ["contrato", "contractual"]
  const LabourWords: seq<string> := ["laboral", "trabajo", "empleado"]
  const CriminalWords: seq<string> := ["penal", "delito", "criminal"]
  const CivilWords: seq<string> := ["civil", "daños", "responsabilidad"]

  /**
   * The keyword tests of the reply generator, first match wins: contract words beat
   * labour words, labour beats criminal, criminal beats civil, and nothing matched
   * gives the general reply. The draft is lower-cased before any test.
   */
  function ReplyTopic(userInput: string): (t: Topic)
    ensures var input := ToLower(userInput);
      && (t == Contractual <==> MentionsAny(input, ContractWords))
      && (t == Labour <==> !MentionsAny(input, ContractWords) && MentionsAny(input, LabourWords))
      && (t == Criminal <==>
            !MentionsAny(input, ContractWords) && !MentionsAny(input, LabourWords)
            && MentionsAny(input, CriminalWords))
      && (t == Civil <==>
            !MentionsAny(input, ContractWords) && !MentionsAny(input, LabourWords)
            && !MentionsAny(input, CriminalWords) && MentionsAny(input, CivilWords))
  {
    var input := ToLower(userInput);
    if MentionsAny(input, ContractWords) then Contractual
    else if MentionsAny(input, LabourWords) then Labour
    else if MentionsAny(input, CriminalWords) then Criminal
    else if MentionsAny(input, CivilWords) then Civil
    else General
  }

  /** The first line of each canned reply; the bullet lists after it are not modelled. */
  const ContractReply: string := "Entiendo que necesitas ayuda con temas contractuales. Puedo asistirte con:"
  const LabourReply: string := "Te puedo ayudar con derecho laboral. Mis especialidades incluyen:"
  const CriminalReply: string := "En materia penal puedo orientarte sobre:"
  const CivilReply: string := "En derecho civil puedo asistirte con:"
  const GeneralReply: string :=
    "Gracias por tu consulta. Como asistente legal especializado, puedo ayudarte con una amplia gama de temas legales incluyendo:"

  function ReplyText(t: Topic): string {
    match t
    case Contractual => ContractReply
    case Labour => LabourReply
    case Criminal => CriminalReply
    case Civil => CivilReply
    case General => GeneralReply
  }

  /**
   * `generateBotResponse(userInput)`: the contract reply exactly when the lower-cased
   * draft mentions a contract word, the general reply exactly when it mentions none.
   */
  function GenerateBotResponse(userInput: string): (r: string)
    ensures var input := ToLower(userInput);
      && (r == ContractReply <==> MentionsAny(input, ContractWords))
      && (r == GeneralReply <==>
            !MentionsAny(input, ContractWords) && !MentionsAny(input, LabourWords)
            && !MentionsAny(input, CriminalWords) && !MentionsAny(input, CivilWords))
  {
    ReplyText(ReplyTopic(userInput))
  }

  /** The reply ignores letter case: an upper-cased draft gets the same reply. */
  lemma ReplyIgnoresCase(userInput: string)
    ensures GenerateBotResponse(ToUpper(userInput)) == GenerateBotResponse(userInput)
  {
    LowerOfUpper(userInput);
  }

  /** Lower-casing the draft beforehand changes nothing. */
  lemma ReplyOfLowered(userInput: string)
    ensures GenerateBotResponse(ToLower(userInput)) == GenerateBotResponse(userInput)
  {
    LowerIdempotent(userInput);
  }

  /** The number of messages of one sender in a history. */
  function Count(messages: seq<Message>, s: Sender): nat {
    |Select(messages, SenderOf, s)|
  }

  lemma CountAppendOne(messages: seq<Message>, m: Message, s: Sender)
    ensures Count(messages + [m], s) == Count(messages, s) + (if m.sender == s then 1 else 0)
  {
    SelectAppend(messages, [m], SenderOf, s);
    assert Select([m], SenderOf, s) == (if m.sender == s then [m] else []) + Select([], SenderOf, s);
  }

  class Chat {
    var messages: seq<Message>
    var inputMessage: string
    var isTyping: bool
    /**
     * The drafts captured by reply timers that have not fired yet, oldest first. Every
     * timer waits the same two seconds, so they fire in this order.
     */
    var pendingReplies: seq<string>

    /**
     * The greeting stays first, every user message is answered by one bot message or
     * still has its reply timer outstanding, and the typing indicator is shown only
     * while a reply timer is outstanding.
     */
    ghost predicate Valid()
      reads this
    {
      && |messages| >= 1
      && messages[0] == Message(Greeting, Bot)
      && Count(messages, User) + 1 == Count(messages, Bot) + |pendingReplies|
      && (isTyping ==> pendingReplies != [])
    }

    constructor ()
      ensures Valid()
      ensures messages == [Message(Greeting, Bot)] && inputMessage == [] && !isTyping && pendingReplies == []
    {
      messages := [Message(Greeting, Bot)];
      inputMessage := [];
      isTyping := false;
      pendingReplies := [];
      new;
      CountAppendOne([], Message(Greeting, Bot), User);
      CountAppendOne([], Message(Greeting, Bot), Bot);
      assert [] + [Message(Greeting, Bot)] == messages;
    }

    /** The input's `onChange`. */
    method SetInputMessage(value: string)
      requires Valid()
      modifies this`inputMessage
      ensures Valid() && inputMessage == value
    {
      inputMessage := value;
    }

    /** The send button is enabled only for a non-blank draft while the bot is not typing. */
    predicate SendButtonEnabled()
      reads this
    {
      !IsBlank(inputMessage) && !isTyping
    }

    /**
     * `handleSendMessage`: a blank draft changes nothing; otherwise the draft, untrimmed,
     * is appended as a user message, the field is cleared, the typing indicator is set,
     * and a reply timer is started that remembers the draft as it was at this moment.
     */
    method HandleSendMessage()
      requires Valid()
      modifies this
      ensures Valid()
      ensures IsBlank(old(inputMessage)) ==>
        messages == old(messages) && inputMessage == old(inputMessage)
        && isTyping == old(isTyping) && pendingReplies == old(pendingReplies)
      ensures !IsBlank(old(inputMessage)) ==>
        messages == old(messages) + [Message(old(inputMessage), User)] && inputMessage == []
        && isTyping && pendingReplies == old(pendingReplies) + [old(inputMessage)]
    {
      if IsBlank(inputMessage) {
        return;
      }
      CountAppendOne(messages, Message(inputMessage, User), User);
      CountAppendOne(messages, Message(inputMessage, User), Bot);
      pendingReplies := pendingReplies + [inputMessage];
      messages := messages + [Message(inputMessage, User)];
      inputMessage := [];
      isTyping := true;
    }

    /** A click on the send button, which does nothing while the button is disabled. */
    method ClickSend()
      requires Valid()
      modifies this
      ensures Valid()
      ensures !old(SendButtonEnabled()) ==>
        messages == old(messages) && inputMessage == old(inputMessage)
        && isTyping == old(isTyping) && pendingReplies == old(pendingReplies)
      ensures old(SendButtonEnabled()) ==>
        messages == old(messages) + [Message(old(inputMessage), User)] && inputMessage == []
        && isTyping && pendingReplies == old(pendingReplies) + [old(inputMessage)]
    {
      if SendButtonEnabled() {
        HandleSendMessage();
      }
    }

    /**
     * A key press in the input: Enter sends without looking at the typing indicator, so
     * a second message can go out while the first reply is still pending.
     */
    method PressKey(key: string)
      requires Valid()
      modifies this
      ensures Valid()
      ensures key == "Enter" && !IsBlank(old(inputMessage)) ==>
        messages == old(messages) + [Message(old(inputMessage), User)] && inputMessage == []
        && isTyping && pendingReplies == old(pendingReplies) + [old(inputMessage)]
      ensures key != "Enter" || IsBlank(old(inputMessage)) ==>
        messages == old(messages) && inputMessage == old(inputMessage)
        && isTyping == old(isTyping) && pendingReplies == old(pendingReplies)
    {
      if key == "Enter" {
        HandleSendMessage();
      }
    }

    /**
     * The oldest reply timer fires: one bot message answering the draft captured at its
     * send is appended, and the typing indicator is cleared even if other replies are
     * still pending.
     */
    method ReplyTimerFires()
      requires Valid() && pendingReplies != []
      modifies this
      ensures Valid()
      ensures messages == old(messages) + [Message(GenerateBotResponse(old(pendingReplies[0])), Bot)]
      ensures pendingReplies == old(pendingReplies[1..]) && !isTyping && inputMessage == old(inputMessage)
    {
      var reply := Message(GenerateBotResponse(pendingReplies[0]), Bot);
      CountAppendOne(messages, reply, User);
      CountAppendOne(messages, reply, Bot);
      messages := messages + [reply];
      pendingReplies := pendingReplies[1..];
      isTyping := false;
    }
  }

  /** An upper-case "CONTRATO" draft gets the contract reply. */
  lemma UpperCaseContractDraft()
    ensures ReplyTopic("CONTRATO") == Contractual
  {
    var lowered := ToLower("CONTRATO");
    assert lowered == "contrato";
    assert OccursAt(lowered, ContractWords[0], 0);
  }

  /** Sending a draft and letting its timer fire leaves three messages and no typing indicator. */
  method Conversation(draft: string) returns (chat: Chat)
    requires !IsBlank(draft)
    ensures chat.Valid()
    ensures chat.messages == [Message(Greeting, Bot), Message(draft, User), Message(GenerateBotResponse(draft), Bot)]
    ensures !chat.isTyping && chat.inputMessage == [] && chat.pendingReplies == []
  {
    chat := new Chat();
    chat.SetInputMessage(draft);
    chat.ClickSend();
    chat.ReplyTimerFires();
  }
}
