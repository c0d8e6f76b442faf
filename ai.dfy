/** The AI gateway of the Envo userbot (bot/ai.py): the module-level table of
    chat sessions keyed by chat id, the two guards checked before the backend
    is called, the lazy creation of a session seeded with the persona pair,
    and the forget operation. The backend itself is opaque: what it answers
    is a parameter of the call. */
module Ai {

  type ChatId = int

  datatype Option<T> = None | Some(value: T)

  /** Who spoke a turn of a dialogue. */
  datatype Role = User | Model

  /** One role-tagged entry of the history handed to the backend. */
  datatype Turn = Turn(role: Role, parts: seq<string>)

  /** What the backend's send-message call (and reading `.text` off its
      answer) produces: a reply text, or an exception of any kind. */
  datatype Backend = Replied(text: string) | Failed

  /** What `get_ai_response` does for its caller: return a string, or let an
      exception escape. */
  datatype Answer = Returned(text: string) | Raised

  const EnvoPersona: string :=
    "You are Envo, a brilliant AI partner. Your user is your 'partner'. "
    + "Your core process is to internally critique your own answers to provide the most refined, final response. "
    + "Only output this final, polished answer."

  const ReadyReply: string := "Understood, partner. I'm ready."

  const MaxPromptLength: nat := 4096

  const NotConfiguredError: string := "Error: The AI model is not configured."

  const LengthErrorPrefix: string := "Error: Prompt exceeds the maximum length of "

  const LengthErrorSuffix: string := " characters."

  // ---------------------------------------------------------------------
  // Decimal rendering of the limit inside the length error
  // ---------------------------------------------------------------------

  predicate IsDigit(c: char) { '0' <= c <= '9' }

  predicate AllDigits(s: string) { forall i :: 0 <= i < |s| ==> IsDigit(s[i]) }

  function DigitChar(d: nat): (c: char)
    requires d < 10
    ensures IsDigit(c) && c as int - '0' as int == d
  {
    ('0' as int + d) as char
  }

  /** The decimal text Python's string formatting gives a non-negative int:
      no leading zeros, "0" for zero. */
  function NatToDecimal(n: nat): (s: string)
    ensures 1 <= |s| && AllDigits(s)
    ensures |s| > 1 ==> s[0] != '0'
  {
    if n < 10 then [DigitChar(n)] else NatToDecimal(n / 10) + [DigitChar(n % 10)]
  }

  /** The number a string of decimal digits denotes: the inverse of NatToDecimal. */
  function DecimalValue(s: string): nat
    requires AllDigits(s)
  {
    if s == [] then 0
    else DecimalValue(s[..|s| - 1]) * 10 + (s[|s| - 1] as int - '0' as int)
  }

  lemma {:induction false} DecimalRoundTrip(n: nat)
    ensures DecimalValue(NatToDecimal(n)) == n
  {
    var s := NatToDecimal(n);
    if n >= 10 {
      DecimalRoundTrip(n / 10);
      assert s[..|s| - 1] == NatToDecimal(n / 10);
    }
  }

  /** The limit renders as "4096". */
  lemma LimitRendersAs4096()
    ensures NatToDecimal(MaxPromptLength) == "4096"
  {
  }

  /** The length error: the limit formatted into its message, so the text
      names 4096. */
  function LengthError(): (e: string)
    ensures e == "Error: Prompt exceeds the maximum length of 4096 characters."
  {
    LimitRendersAs4096();
    LengthErrorPrefix + NatToDecimal(MaxPromptLength) + LengthErrorSuffix
  }

  // ---------------------------------------------------------------------
  // Guards and the answer of one call
  // ---------------------------------------------------------------------

  /** The seed history of every new session: the persona as a user turn,
      then the model's acknowledgement. */
  function PersonaHistory(): (h: seq<Turn>)
    ensures |h| == 2
    ensures forall i :: 0 <= i < |h| ==> h[i].role == if i % 2 == 0 then User else Model
    ensures h[0].parts == [EnvoPersona] && h[1].parts == [ReadyReply]
  {
    [Turn(User, [EnvoPersona]), Turn(Model, [ReadyReply])]
  }

  predicate PassesGuards(configured: bool, prompt: string)
  {
    configured && |prompt| <= MaxPromptLength
  }

  /** The error string returned before any backend call, if one is. The
      configuration guard is checked first, so an unconfigured model reports
      that error whatever the prompt's length. */
  function GuardError(configured: bool, prompt: string): (e: Option<string>)
    ensures e.None? <==> PassesGuards(configured, prompt)
    ensures !configured ==> e == Some(NotConfiguredError)
    ensures configured && |prompt| > MaxPromptLength ==> e == Some(LengthError())
  {
    if !configured then Some(NotConfiguredError)
    else if |prompt| > MaxPromptLength then Some(LengthError())
    else None
  }

  /** The answer of `get_ai_response`: a guard's error string, the backend's
      text, or the backend's exception passed on unchanged. */
  function Reply(configured: bool, prompt: string, backend: Backend): (a: Answer)
    ensures a.Raised? <==> PassesGuards(configured, prompt) && backend.Failed?
    ensures !PassesGuards(configured, prompt) ==> a == Returned(GuardError(configured, prompt).value)
    ensures PassesGuards(configured, prompt) && backend.Replied? ==> a == Returned(backend.text)
  {
    match GuardError(configured, prompt)
    case Some(error) => Returned(error)
    case None => if backend.Replied? then Returned(backend.text) else Raised
  }

  lemma LimitIsInclusive(prompt: string)
    ensures |prompt| == MaxPromptLength ==> GuardError(true, prompt) == None
    ensures |prompt| == MaxPromptLength + 1 ==> GuardError(true, prompt) == Some(LengthError())
  {
  }

  // ---------------------------------------------------------------------
  // The session table
  // ---------------------------------------------------------------------

  /** A chat session of the backend library. Only the history it was started
      with is modelled; what the library appends to it afterwards is not. */
  class ChatSession {
    const initialHistory: seq<Turn>

    constructor Start(history: seq<Turn>)
      ensures initialHistory == history
    {
      initialHistory := history;
    }
  }

  /** The table after `del` of `chatId` when present. */
  function Forgotten(table: map<ChatId, ChatSession>, chatId: ChatId): (r: map<ChatId, ChatSession>)
    ensures r.Keys == table.Keys - {chatId}
    ensures forall k :: k in r ==> r[k] == table[k]
    ensures chatId !in table ==> r == table
  {
    table - {chatId}
  }

  /** The table after "create if absent, then look up": `started` is stored
      only when `chatId` has no session yet. */
  function WithSession(table: map<ChatId, ChatSession>, chatId: ChatId, started: ChatSession): (r: map<ChatId, ChatSession>)
    ensures r.Keys == table.Keys + {chatId}
    ensures r[chatId] == if chatId in table then table[chatId] else started
    ensures forall k :: k in table ==> r[k] == table[k]
    ensures |r| <= |table| + 1
  {
    if chatId in table then table else table[chatId := started]
  }

  /** Forgetting a chat and then asking again installs the new session,
      whatever the chat had before; the other chats keep theirs. */
  lemma AskAfterForgetStartsOver(table: map<ChatId, ChatSession>, chatId: ChatId, started: ChatSession)
    ensures WithSession(Forgotten(table, chatId), chatId, started) == table[chatId := started]
  {
  }

  /** Once a call for `chatId` has passed the guards, later calls for the
      same chat leave the table as it is: the session is reused, never
      replaced. */
  lemma LaterAskReusesSession(configured: bool, first: string, second: string, chatId: ChatId,
                              t0: map<ChatId, ChatSession>, t1: map<ChatId, ChatSession>, t2: map<ChatId, ChatSession>)
    requires PassesGuards(configured, first)
    requires SessionStep(configured, first, chatId, t0, t1)
    requires SessionStep(configured, second, chatId, t1, t2)
    ensures chatId in t1 && t2 == t1
  {
  }

  /** How one call of `get_ai_response` changes the table: not at all when a
      guard fails; otherwise `chatId` ends up with a session, the session it
      already had is kept, a new one starts from the persona pair, and no
      other chat's entry changes. */
  ghost predicate SessionStep(configured: bool, prompt: string, chatId: ChatId,
                              before: map<ChatId, ChatSession>, after: map<ChatId, ChatSession>)
    ensures SessionStep(configured, prompt, chatId, before, after)
            ==> before.Keys <= after.Keys <= before.Keys + {chatId}
    ensures SessionStep(configured, prompt, chatId, before, after)
            ==> forall k :: k in before ==> after[k] == before[k]
    ensures SessionStep(configured, prompt, chatId, before, after) && PassesGuards(configured, prompt)
            ==> chatId in after
  {
    if !PassesGuards(configured, prompt) then after == before
    else
      && chatId in after
      && after == WithSession(before, chatId, after[chatId])
      && (chatId !in before ==> after[chatId].initialHistory == PersonaHistory())
  }

  /** The module's global state: whether the model was configured at import
      time, and the conversation table. `sent` logs every send-message call
      made to the backend, with the session it went to and the prompt. */
  class AiModule {
    const configured: bool
    var conversationHistory: map<ChatId, ChatSession>
    ghost var sent: seq<(ChatSession, string)>

    /** Import of the module: the model is configured only when the API key
        is set and not empty and configuring the backend raised nothing. */
    constructor (apiKey: Option<string>, backendSetupSucceeds: bool)
      ensures configured <==> apiKey.Some? && apiKey.value != "" && backendSetupSucceeds
      ensures conversationHistory == map[] && sent == []
    {
      configured := apiKey.Some? && apiKey.value != "" && backendSetupSucceeds;
      conversationHistory := map[];
      sent := [];
    }

    method ForgetChatHistory(chatId: ChatId)
      modifies this
      ensures conversationHistory == Forgotten(old(conversationHistory), chatId)
      ensures sent == old(sent)
    {
      if chatId in conversationHistory {
        conversationHistory := conversationHistory - {chatId};
      }
    }

    /** `backend` is what the session's send-message call produces. */
    method GetAiResponse(chatId: ChatId, prompt: string, backend: Backend) returns (answer: Answer)
      modifies this
      ensures answer == Reply(configured, prompt, backend)
      ensures SessionStep(configured, prompt, chatId, old(conversationHistory), conversationHistory)
      ensures PassesGuards(configured, prompt) && chatId !in old(conversationHistory)
              ==> fresh(conversationHistory[chatId])
      ensures sent == if PassesGuards(configured, prompt)
                      then old(sent) + [(conversationHistory[chatId], prompt)]
                      else old(sent)
    {
      if !configured {
        return Returned(NotConfiguredError);
      }
      if |prompt| > MaxPromptLength {
        return Returned(LengthError());
      }
      if chatId !in conversationHistory {
        var session := new ChatSession.Start(PersonaHistory());
        conversationHistory := conversationHistory[chatId := session];
      }
      var chatSession := conversationHistory[chatId];
      sent := sent + [(chatSession, prompt)];
      match backend
      case Replied(text) => answer := Returned(text);
      case Failed => answer := Raised;
    }
  }
}
