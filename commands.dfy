/** The two self-command handlers of the Envo userbot (plugins/commands.py):
    `.ask <question>` and `.forget`. A handler's visible effect is the list
    of edits it makes to the command message; the model starts from the
    command already split into tokens by the messaging library, with the
    command word as token 0. */
module Commands {

  import opened Ai

  const UsageText: string := "`Usage: .ask <your question>`"

  const ThinkingText: string := "`Envo is thinking...`"

  const ApologyText: string := "`Sorry, an error occurred with Envo.`"

  const ForgetConfirmation: string := "`My memory of this conversation has been cleared.`"

  // ---------------------------------------------------------------------
  // Joining the argument tokens into the prompt
  // ---------------------------------------------------------------------

  /** The summed length of the tokens. */
  function TotalLength(tokens: seq<string>): nat
  {
    if tokens == [] then 0 else |tokens[0]| + TotalLength(tokens[1..])
  }

  /** `" ".join(tokens)`: the tokens in order, one space between neighbours,
      so the text is as long as the tokens plus the separating spaces. */
  function Join(tokens: seq<string>): (text: string)
    ensures tokens == [] ==> text == ""
    ensures tokens != [] ==> |text| == TotalLength(tokens) + |tokens| - 1
    ensures tokens != [] ==> text[..|tokens[0]|] == tokens[0]
  {
    if |tokens| == 0 then ""
    else if |tokens| == 1 then tokens[0]
    else tokens[0] + " " + Join(tokens[1..])
  }

  /** `text.split(" ")`: the pieces between single spaces, empty ones kept. */
  function Split(text: string): (pieces: seq<string>)
    ensures |pieces| >= 1
  {
    if text == [] then [""]
    else
      var rest := Split(text[1..]);
      if text[0] == ' ' then [""] + rest else [[text[0]] + rest[0]] + rest[1..]
  }

  predicate SpaceFree(token: string) { ' ' !in token }

  lemma {:induction false} SplitSpaceFree(token: string)
    requires SpaceFree(token)
    ensures Split(token) == [token]
  {
    if token != [] {
      SplitSpaceFree(token[1..]);
      assert [token[0]] + token[1..] == token;
    }
  }

  lemma {:induction false} SplitAfterToken(token: string, rest: string)
    requires SpaceFree(token)
    ensures Split(token + " " + rest) == [token] + Split(rest)
  {
    var text := token + " " + rest;
    if token == [] {
      assert text[1..] == rest;
    } else {
      assert text[1..] == token[1..] + " " + rest;
      SplitAfterToken(token[1..], rest);
      assert [token[0]] + token[1..] == token;
    }
  }

  /** Splitting the joined text at its spaces gives back the tokens, when no
      token holds a space itself. */
  lemma {:induction false} SplitJoin(tokens: seq<string>)
    requires |tokens| >= 1
    requires forall i :: 0 <= i < |tokens| ==> SpaceFree(tokens[i])
    ensures Split(Join(tokens)) == tokens
  {
    if |tokens| == 1 {
      SplitSpaceFree(tokens[0]);
    } else {
      SplitJoin(tokens[1..]);
      SplitAfterToken(tokens[0], Join(tokens[1..]));
      assert [tokens[0]] + tokens[1..] == tokens;
    }
  }

  // ---------------------------------------------------------------------
  // The `.ask` command
  // ---------------------------------------------------------------------

  datatype AskCommand = Usage | Ask(prompt: string)

  /** The usage check and prompt assembly of the `.ask` handler: fewer than
      two tokens is a usage error, otherwise the prompt joins every token
      after the command word. */
  function ParseAsk(command: seq<string>): (c: AskCommand)
    ensures c.Usage? <==> |command| < 2
    ensures c.Ask? ==> c.prompt == Join(command[1..])
  {
    if |command| < 2 then Usage else Ask(Join(command[1..]))
  }

  /** The prompt carries exactly the argument tokens, in order, and not the
      command word: splitting it at its spaces gives back `command[1..]`
      when no argument token holds a space itself. */
  lemma PromptIsArguments(command: seq<string>)
    requires |command| >= 2
    requires forall i :: 1 <= i < |command| ==> SpaceFree(command[i])
    ensures Split(ParseAsk(command).prompt) == command[1..]
  {
    var arguments := command[1..];
    assert forall i :: 0 <= i < |arguments| ==> arguments[i] == command[i + 1];
    SplitJoin(arguments);
  }

  /** The edits the `.ask` handler makes to its message: the usage line
      alone, or "thinking" followed by exactly one more edit, the answer when
      `get_ai_response` returned one and the platform took the edit, the
      apology otherwise. */
  function AskEdits(configured: bool, command: seq<string>, backend: Backend, replyAccepted: bool): (edits: seq<string>)
    ensures |command| < 2 ==> edits == [UsageText]
    ensures |command| >= 2 ==> |edits| == 2 && edits[0] == ThinkingText
    ensures |command| >= 2 && Reply(configured, Join(command[1..]), backend).Raised? ==> edits[1] == ApologyText
    ensures |command| >= 2 && !replyAccepted ==> edits[1] == ApologyText
    ensures |command| >= 2 && replyAccepted && PassesGuards(configured, Join(command[1..])) && backend.Replied?
            ==> edits[1] == backend.text
  {
    match ParseAsk(command)
    case Usage => [UsageText]
    case Ask(prompt) =>
      var answer := Reply(configured, prompt, backend);
      [ThinkingText, if answer.Returned? && replyAccepted then answer.text else ApologyText]
  }

  /** An unconfigured model and a long prompt never reach the backend, so the
      second edit is then the guard's error string, whatever the backend
      would have done. */
  lemma GuardedAskShowsError(configured: bool, command: seq<string>, backend: Backend, replyAccepted: bool)
    requires |command| >= 2 && replyAccepted
    requires !PassesGuards(configured, Join(command[1..]))
    ensures AskEdits(configured, command, backend, replyAccepted)
            == [ThinkingText, GuardError(configured, Join(command[1..])).value]
  {
  }

  // ---------------------------------------------------------------------
  // Handlers
  // ---------------------------------------------------------------------

  /** The incoming command message: the chat it was sent in, its tokens, and
      the edits made to it so far. */
  class Message {
    const chatId: ChatId
    const command: seq<string>
    var edits: seq<string>

    constructor (chatId: ChatId, command: seq<string>)
      ensures this.chatId == chatId && this.command == command && edits == []
    {
      this.chatId := chatId;
      this.command := command;
      edits := [];
    }

    method EditText(text: string)
      modifies this
      ensures edits == old(edits) + [text]
    {
      edits := edits + [text];
    }
  }

  /** The `.ask` handler. `backend` is what the backend answers and
      `replyAccepted` whether the platform accepts the edit carrying the
      answer; a refusal raises inside the handler's `try`, like a backend
      failure. */
  method AskAiHandler(ai: AiModule, message: Message, backend: Backend, replyAccepted: bool)
    modifies ai, message
    ensures message.edits == old(message.edits) + AskEdits(ai.configured, message.command, backend, replyAccepted)
    ensures |message.command| < 2 ==> ai.conversationHistory == old(ai.conversationHistory)
    ensures |message.command| >= 2 ==>
              SessionStep(ai.configured, ParseAsk(message.command).prompt, message.chatId,
                          old(ai.conversationHistory), ai.conversationHistory)
    ensures |message.command| >= 2 && PassesGuards(ai.configured, ParseAsk(message.command).prompt)
            && message.chatId !in old(ai.conversationHistory)
            ==> fresh(ai.conversationHistory[message.chatId])
    ensures ai.sent == if |message.command| >= 2 && PassesGuards(ai.configured, ParseAsk(message.command).prompt)
                       then old(ai.sent) + [(ai.conversationHistory[message.chatId], ParseAsk(message.command).prompt)]
                       else old(ai.sent)
  {
    if |message.command| < 2 {
      message.EditText(UsageText);
      return;
    }
    var prompt := Join(message.command[1..]);
    message.EditText(ThinkingText);
    var answer := ai.GetAiResponse(message.chatId, prompt, backend);
    if answer.Returned? && replyAccepted {
      message.EditText(answer.text);
    } else {
      message.EditText(ApologyText);
    }
  }

  /** The `.forget` handler: the chat's session is dropped, if there is one,
      and the same confirmation is shown either way. */
  method ForgetAiHandler(ai: AiModule, message: Message)
    modifies ai, message
    ensures ai.conversationHistory == Forgotten(old(ai.conversationHistory), message.chatId)
    ensures message.chatId !in ai.conversationHistory
    ensures message.edits == old(message.edits) + [ForgetConfirmation]
    ensures ai.sent == old(ai.sent)
  {
    ai.ForgetChatHistory(message.chatId);
    message.EditText(ForgetConfirmation);
  }
}
