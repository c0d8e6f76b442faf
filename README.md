# Envo userbot: conversation store and command handlers

A Dafny model of the AI side of the Envo Telegram userbot. The bot relays prompts to a
Gemini chat backend and keeps one chat session per Telegram chat.

- `ai.dfy`, module `Ai`, models `bot/ai.py`. The module's globals become the class
  `AiModule`. Its `configured` flag stands for `ai_model` being set at import. Its field
  `conversationHistory` is a `map` from chat id to `ChatSession` and stands for the dict
  `conversation_history`. `ForgetChatHistory` deletes a chat's entry if present.
  `GetAiResponse` checks two guards in order. The first is "model not configured". The
  second is the prompt-length limit of 4096 characters, inclusive. After the guards it
  creates a session for an unseen chat, seeded with the persona pair. It then reuses the
  chat's session and returns what the backend answers.
- `commands.dfy`, module `Commands`, models `plugins/commands.py`. `ParseAsk` is the usage
  check plus the `" ".join` of the argument tokens. `AskEdits` gives the edits the `.ask`
  handler makes to its message. `AskAiHandler` and `ForgetAiHandler` are the two handlers.
  They act on an `AiModule` and on a `Message` whose `edits` field records every
  `edit_text` call.

Opaque collaborators become parameters:

- `backend: Backend` is what `send_message_async(prompt).text` produces: a reply text, or
  an exception (`Failed`).
- `replyAccepted: bool` says whether Telegram accepts the edit that carries the reply. That
  edit sits inside the handler's `try`, so a refusal also ends in the apology.
- The constructor of `AiModule` takes the API key (`None` when the variable is unset) and
  whether `genai.configure` / `GenerativeModel` completed.

A session is a class, so "reused, not replaced" is stated as reference equality in the
map. A new session is `fresh`, and its `initialHistory` is exactly the two persona turns.

A ghost log `sent` on `AiModule` records every send-message call: the session it went to
and the prompt. A call is logged exactly when both guards pass, and it goes to the chat's
own session.

## Notes on the source

- `forget_chat_history` returns nothing. It does not report whether a session existed.
- `get_ai_response` does not catch backend errors. They escape as `Raised`, and the `.ask`
  handler turns them into the apology.
- The persona pair is a `user` turn followed by a `model` turn. There is no system turn.
- The code never appends turns itself. Appending happens inside the backend library.

## Model

| member | source | states |
|---|---|---|
| `Ai.GuardError` | bot/ai.py:37-41 | There is no guard error iff the model is configured and the prompt has at most 4096 characters. An unconfigured model yields the configuration error whatever the prompt, so that guard comes first. A configured model with a longer prompt yields the length error. |
| `Ai.LimitIsInclusive` | bot/ai.py:40-41 | A configured call with a prompt of exactly 4096 characters passes. One with 4097 characters gets the length error. |
| `Ai.NatToDecimal` | bot/ai.py:41 | Formatting the limit into the message gives a non-empty string of decimal digits with no leading zero. |
| `Ai.DecimalRoundTrip` | bot/ai.py:41 | Reading the formatted digits back gives the original number. |
| `Ai.LimitRendersAs4096` | bot/ai.py:15 | The limit, formatted as Python formats an int, is the text "4096". |
| `Ai.LengthError` | bot/ai.py:41 | The length error reads "Error: Prompt exceeds the maximum length of 4096 characters." and so names the limit. |
| `Ai.PersonaHistory` | bot/ai.py:44-47 | The seed history has exactly two turns with alternating roles, user first. The user turn holds the Envo persona and the model turn holds "Understood, partner. I'm ready.". |
| `Ai.SessionStep` | bot/ai.py:37-49 | One call's effect on the table. No key is lost and at most the chat's own key is added. Every existing entry keeps its session. When both guards pass, the chat has a session afterwards. |
| `Ai.Reply` | bot/ai.py:35-51 | The call raises iff both guards pass and the backend fails. If a guard fails, the guard's error string is returned and the backend's outcome is irrelevant. Otherwise the backend's text is returned. |
| `Ai.Forgotten` | bot/ai.py:29-33 | Afterwards the chat id is absent and every other key keeps its session. An absent chat id leaves the table unchanged. |
| `Ai.WithSession` | bot/ai.py:43-49 | The chat id ends up present and the key set grows by at most that key. An existing session is kept. A new one is stored only when the key was absent. Every other entry is unchanged. |
| `Ai.AskAfterForgetStartsOver` | bot/ai.py:29-49 | Forgetting a chat and then asking again installs the newly started session, whatever the chat held before. The other chats keep theirs. |
| `Ai.LaterAskReusesSession` | bot/ai.py:43-49 | After one call for a chat passes the guards, a later call for the same chat leaves the table identical. The session is reused. |
| `Ai.ChatSession.Start` | bot/ai.py:44-47 | A started session records the history it was started with. |
| `Ai.AiModule.constructor` | bot/ai.py:18-27 | The model is configured iff the API key is set and non-empty and backend setup raised nothing. The table and the send log start empty. |
| `Ai.AiModule.ForgetChatHistory` | bot/ai.py:29-33 | The new table is the old one without the chat id, with nothing else changed. No backend call is made. |
| `Ai.AiModule.GetAiResponse` | bot/ai.py:35-51 | The answer is `Reply` of the inputs. If a guard fails the table and the send log are unchanged. Otherwise the table moves as `WithSession` says. A chat seen for the first time gets a fresh session seeded with the user persona turn, then the model turn "Understood, partner. I'm ready.". Exactly one send is logged, to the chat's own session, with the prompt. |
| `Commands.Join` | plugins/commands.py:15 | Joining no tokens gives the empty text. Otherwise the text starts with the first token and is as long as all tokens plus one space between each pair of neighbours. |
| `Commands.SplitJoin` | plugins/commands.py:15 | Joining tokens with single spaces and splitting at spaces gives back the tokens, when no token holds a space. |
| `Commands.ParseAsk` | plugins/commands.py:12-15 | A command is a usage error iff it has fewer than two tokens. Otherwise the prompt is the join of the tokens after the command word. |
| `Commands.PromptIsArguments` | plugins/commands.py:15 | The prompt carries exactly the argument tokens, in order, without the command word. |
| `Commands.AskEdits` | plugins/commands.py:12-23 | With fewer than two tokens the only edit is the usage text. Otherwise there are exactly two edits and the first is "Envo is thinking...". The second is the apology when the call raised or the reply edit was refused. It is the backend's text when the guards passed, the backend replied and the edit was accepted. |
| `Commands.GuardedAskShowsError` | plugins/commands.py:16-20 | When a guard fails, the second edit is the guard's error string, whatever the backend would have done. |
| `Commands.Message.EditText` | plugins/commands.py:16-23 | Each edit is appended to the message's edits, after the earlier ones. |
| `Commands.AskAiHandler` | plugins/commands.py:10-23 | The message's edits grow by exactly `AskEdits`. A usage error leaves the table and the send log untouched. Otherwise the table moves as one `get_ai_response` call for the message's own chat id. A first-time chat gets a fresh session, distinct from every other chat's. The send log grows by one send to that chat's session exactly when the guards pass. No exception leaves the handler. |
| `Commands.ForgetAiHandler` | plugins/commands.py:26-29 | The chat's entry is removed and every other entry is kept. No backend call is made. The single confirmation edit is made whether or not a session existed. |

## Left out

- `bot/client.py` is not part of this model. It covers the background event loop, the
  shutdown event handed over with `call_soon_threadsafe`, and the connection flag. That is
  concurrency and library lifecycle.
- `app.py` is not part of this model. It covers the Flask health route (200/503 over the
  library's connection flag) and the thread start-up.
- `bot/config.py` is not part of this model. It reads environment variables and calls
  `sys.exit`.
- `AiModule.configured` comes from an environment variable and from backend setup calls
  that can raise. Both are parameters of the constructor. Logging is omitted.
- What the backend library appends to a session's history after `send_message_async` is
  not modelled. A session records only the history it was started with.
- The reply text is an arbitrary string, and any exception from the backend call or from
  reading `.text` is the single outcome `Failed`.
- Splitting the message into tokens, the "." prefix and the `filters.me` filter are done by
  the messaging library. The model starts from the token sequence.
- The edits with fixed texts (usage, thinking, apology, confirmation) are assumed accepted
  by Telegram. A refusal there would raise out of the handler, and that is not modelled.
- `disable_web_page_preview`, Markdown rendering of the backticked texts, and async
  scheduling are omitted. `get_ai_response` has no `await` between the presence check and
  the insertion, so running it as one atomic step matches the cooperative scheduler.
- Python's `len` on a `str` counts code points. A Dafny `string` is a sequence of Unicode
  scalar values, so `|prompt|` is the same count.
- Persisted history, the webhook variant, eviction and multimodal input do not appear in
  these files and are not modelled.
