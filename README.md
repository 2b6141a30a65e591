# Sentiment chatbot session — a Dafny model

The chatbot pairs a hosted chat service with a local sentiment classifier.
A `ChatManager` keeps an append-only transcript of User and Bot entries and
a one-way "conversation active" flag. Each user line is classified, stored,
and answered: an exit command (`bye`, `exit`, `quit`, `end`, any letter
case) ends the conversation with a fixed farewell. Any other line goes to
the chat service as a sentiment-augmented prompt. If the service fails, the
reply is a fixed apology. At the end, a report gives the overall sentiment
of the user's statements by a threshold rule on their mean, plus a narrative
the summary service writes.

The project has four modules:

- `Text` (`text.dfy`): Python's `str.isspace`, `str.strip` and `str.lower`
  (ASCII letters), as the chatbot uses them; `str.join` (`JoinWith`),
  `str.split("\n")` (`SplitLines`, with `NewlineIndex` for the first line
  break) and substring search, `part in whole` (`OccursAt`, `Contains`).
- `Sentiment` (`sentiment_analyzer.dfy`): the label lookup after the
  network (first-maximum argmax over the three class probabilities, compound
  score = positive − negative) and `aggregate_sentiment` over `real`. The
  labels the program passes around as strings are the datatypes `Label`
  (Negative, Neutral, Positive) and `Overall` (a label, or "Neutral (No user
  input)"), whose `Name()` is the program's exact spelling.
- `Chat` (`chat_manager.dfy`): the transcript entries, the exit rule, the
  prompt, the reply fallback, score extraction, the report's structure, and
  the `ChatManager` class whose methods update `history`,
  `conversationActive` and `chatLog` in place.
- `Console` (`main_loop.dfy`): the `run_chatbot` loop, over a sequence of
  input lines, driving a `ChatManager`. `Run` is its specification: the
  session after a sequence of lines, defined one line at a time.

The external collaborators are parameters:

- the sentiment network is `SentimentModel = string -> Probabilities`;
- the stateful chat service is `ChatService = (seq<string>, string) -> Reply`.
  It gets the messages sent before (its conversation context) and the new
  message. `Reply` is `Answer(text)` or `Failure(detail)`, so every answer and
  every failure is covered;
- the summary service is `Summarizer = string -> Reply`, applied to the
  formatted transcript;
- the `:.3f` score rendering is `ScoreFormat = real -> string`.

The manager records every message it sends to the chat service in
`chatLog`. "The chat service is not called" is stated as "`chatLog` is
unchanged".

Two consequences of the console loop's code are worth stating:

- `get_bot_response` receives the line as read, unstripped (main.py:54, 60);
  the strip at main.py:50 only decides whether the line is skipped. So
  `" bye "` is stored, classified and sent to the chat service, and it does
  not end the session (`Console.PaddedByeDoesNotEndTheSession`).
- An exception from the classifier reaches the generic handler that leaves
  the loop (main.py:68-70); see "Left out".

## Model

| member | source | states |
|---|---|---|
| `Chat.ChatManager.constructor` | chat_manager.py:25-28 | a new session has an empty transcript, is active, and has sent nothing to the chat service |
| `Chat.ChatManager.GetBotResponse` | chat_manager.py:44-71 | on an exit command: clears the flag, returns the farewell, chat service not contacted; otherwise: flag unchanged, exactly one prompt `Sentiment detected: {label}. User message: {input}` sent, reply is the stripped answer or the apology; the transcript is never modified |
| `Chat.ExitCommandIsCaseInsensitiveMatch` | chat_manager.py:49-52 | the exit rule holds exactly when the whole unstripped input spells one of bye/exit/quit/end with any letters capitalised |
| `Chat.ExitCommandExamples` | chat_manager.py:49-52 | "bye", "BYE", "Exit", "quit" are exit commands; " bye ", "goodbye" and "" are not |
| `Chat.PromptInjective` | chat_manager.py:58 | for classifier labels, distinct (label, input) pairs give distinct prompts, so both can be read back from the prompt |
| `Chat.PromptLabelRecovered` | chat_manager.py:58 | the label can be read back from fixed positions of the prompt |
| `Chat.ReplyText` | chat_manager.py:60-71 | a failed chat call yields the fixed apology; a successful one, the stripped answer; no failure escapes |
| `Chat.ChatManager.ProcessUserMessage` | chat_manager.py:73-87 | appends exactly one User entry holding the message and the classifier's compound score and label; earlier entries, the flag and the chat log are unchanged |
| `Chat.ChatManager.AddBotMessage` | chat_manager.py:92-101 | appends exactly one Bot entry with score 0.0 and label Neutral; earlier entries, the flag and the chat log are unchanged |
| `Chat.ChatManager.GetUserCompoundScores` | chat_manager.py:105-107 | the loop yields exactly the specification's user-score list |
| `Chat.UserScoresAppend` | chat_manager.py:105-107 | score extraction distributes over concatenation of transcripts, so scores come out in transcript order |
| `Chat.UserScoresFromUserEntries` | chat_manager.py:105-107 | every extracted score is the score of some User entry |
| `Chat.UserEntryScoreExtracted` | chat_manager.py:105-107 | the score of every User entry is extracted |
| `Chat.UserScoresCount` | chat_manager.py:105-107 | there are exactly as many scores as User entries |
| `Chat.ExchangeKeepsWellFormed` | chat_manager.py:73-101 | adding a User entry and then a Bot entry keeps the transcript alternating, and keeps every Bot entry at 0.0/Neutral |
| `Chat.UserScoresOfAlternating` | chat_manager.py:105-107 | on an alternating transcript there are \|h\|/2 scores, the k-th being the score of the k-th user statement |
| `Chat.ChatManager.GenerateLlmSummary` | chat_manager.py:134-173 | the loop formats every entry in order (User lines annotated with label and score, Bot lines verbatim), joins them with line breaks (see Findings); the result is the stripped summary or the inline error text |
| `Chat.TranscriptOneLinePerEntry` | chat_manager.py:139-159 | entries whose formatted lines hold no line break reach the summary service one per line, in transcript order |
| `Chat.LlmSummaryOutcome` | chat_manager.py:161-173 | on an answer, the summary is exactly the part of it between its leading and its trailing whitespace (what precedes and follows is all whitespace, the summary neither starts nor ends with whitespace, and it is empty iff the answer is all whitespace); on a failure, the error text carries the failure's detail |
| `Chat.ChatManager.GenerateConversationReport` | chat_manager.py:109-133 | the report built block by block equals the report specification of the current transcript; no state is changed |
| `Chat.ReportTier1` | chat_manager.py:111-121 | the report's overall label is the aggregate of the user scores; the average line is present iff there is a user score, and holds their mean |
| `Chat.ReportTier23` | chat_manager.py:123-130 | the summary service's text appears iff the transcript is non-empty; the fixed "no history" text appears iff it is empty |
| `Chat.ReportDeterministicOutsideAnalysis` | chat_manager.py:109-133 | two reports of the same transcript agree everywhere except the model-written analysis |
| `Chat.EmptyConversationReport` | chat_manager.py:109-133 | an empty conversation reports "Neutral (No user input)", no average line and the "no history" text |
| `Sentiment.ArgMax` | sentiment_analyzer.py:50 | returns the index of the first largest probability |
| `Sentiment.AnalyzeStatement` | sentiment_analyzer.py:27-59 | the label is the class of largest probability, the first one on ties (Negative before Neutral before Positive), each case stated as an iff; the compound score is positive minus negative |
| `Sentiment.AggregateSentiment` | sentiment_analyzer.py:61-77 | "Neutral (No user input)" iff the list is empty; "Positive" iff mean ≥ 0.35, "Negative" iff mean ≤ −0.35, "Neutral" iff strictly between |
| `Sentiment.SumPermutation` | sentiment_analyzer.py:69 | the sum of the scores does not depend on their order |
| `Sentiment.AggregateDependsOnlyOnMean` | sentiment_analyzer.py:66-77 | non-empty lists with equal means get equal labels |
| `Sentiment.AggregateOrderIndependent` | sentiment_analyzer.py:66-77 | reordering the scores never changes the label |
| `Sentiment.AggregateMonotone` | sentiment_analyzer.py:69-77 | raising scores pointwise never moves the label towards Negative |
| `Sentiment.AggregateUnanimouslyPositive` | sentiment_analyzer.py:69-73 | if every score is at least 0.35 the label is "Positive" |
| `Sentiment.AggregateUnanimouslyNegative` | sentiment_analyzer.py:69-75 | if every score is at most −0.35 the label is "Negative" |
| `Sentiment.AggregateExamples` | sentiment_analyzer.py:66-77 | [0.4, 0.5, 0.3] is Positive, [−0.4, −0.3] (mean exactly −0.35) is Negative, [0.1, −0.1] is Neutral, [] is "Neutral (No user input)" |
| `Text.StripSpec` | main.py:50 | the stripped text is the input without its leading and trailing whitespace, starting and ending with a non-whitespace character; it is empty iff the input is all whitespace |
| `Text.SplitJoinedLines` | chat_manager.py:159 | joining lines that hold no line break with line breaks and splitting the result gives the lines back |
| `Text.NotBlank` | main.py:50-51 | a line holding any non-whitespace character is not skipped as blank |
| `Console.RunChatbot` | main.py:32-74 | the loop's final transcript and chat log are those of `Run` over the input lines, and the report is generated once, from that final transcript |
| `Console.RunIgnoresLinesAfterEnd` | main.py:46 | once the flag is cleared, further lines change nothing |
| `Console.RunSkipsBlankLine` | main.py:50-51 | a blank (whitespace-only) line anywhere adds no entry and leaves the flag alone |
| `Console.RunWellFormed` | main.py:54-61 | after any number of lines the transcript alternates User/Bot starting with User (even length), Bot entries carry 0.0/Neutral, and at most one chat message was sent per exchange |
| `Console.RunWithoutExitCommand` | main.py:46-61 | without an exit command the session stays active; the k-th User entry is the k-th non-blank line with its classification, the k-th prompt carries that entry's label and text, and the k-th Bot entry is the chat service's reply to it |
| `Console.ExitCommandIsNotBlank` | main.py:50-54 | an exit command is never skipped as blank |
| `Console.RunStopsAtExitCommand` | main.py:46-61 | the first exit command adds its User entry and the farewell Bot entry, sends nothing to the chat service and ends the session; later lines are never read |
| `Console.ByeEndsTheSession` | main.py:48-60 | input "bye", "hello" gives exactly one exchange ending in the farewell |
| `Console.NonBlankKeepsNonBlankLines` | main.py:50-51 | when no line is blank, every line is kept |
| `Console.TwoOrdinaryLines` | main.py:46-61 | two non-blank lines that are not exit commands give two exchanges, each line sent to the chat service in its prompt, and the session stays active |
| `Console.PaddedByeDoesNotEndTheSession` | main.py:48-60 | input " bye ", "hello" gives two exchanges, both lines sent to the chat service in their prompts, and the session stays active |

## Left out

- Gemini client setup and calls (chat_manager.py:34-42, 62, 163-170): network calls, represented by the `ChatService` and `Summarizer` oracles. The analyst instruction text that precedes the transcript in the summary request (chat_manager.py:151-160) belongs to the `Summarizer`. The report holds the summary's text, not its contents.
- The RoBERTa tokenizer, network and softmax (sentiment_analyzer.py:13-24, 31-48): a machine-learning library, represented by `SentimentModel`, which gives the three class probabilities. Truncation to 512 tokens is part of it.
- Floating point: scores, sums and means are exact `real`s. Python's float `sum`/`len` may round, so a mean that is exactly ±0.35 over the reals may land on either side of the threshold in the program. Rendering a score with `:.3f` is the `ScoreFormat` parameter.
- The report's text rendering: the banners, headings, rules and line breaks of generate_conversation_report are represented by the `ReportPart` blocks (`Banner`, `Tier1Heading`, …), not spelled out as characters.
- `Text.Lower`: it lower-cases ASCII letters only. This is exact for the exit rule. Besides its capitals, the only character that `str.lower()` maps to an ASCII letter is KELVIN SIGN (to `k`), and no exit command contains `k`. Other characters whose lowercase form is longer are kept as they are, and they cannot match an ASCII exit command in either form.
- The `GEMINI_API_KEY` check (chat_manager.py:31-32, main.py:14-17), the NLTK download in `setup()`, a failure of `ChatManager()` at start-up (main.py:35-39) and all console output: process configuration and I/O.
- The generic `except Exception: break` of the loop (main.py:68-70): the classifier and the manager's methods are total in the model, so the only exception left is end of input, which is modelled.
- app.py: HTTP routing, JSON and logging around the same `ChatManager` calls. Unlike the console loop, it strips the message and passes the stripped text to `process_user_message` and `get_bot_response` (app.py:47, 51, 56), so `" bye "` does end a web session; it rejects an empty stripped message, and it keeps answering after the conversation flag is cleared. The web session is not modelled; the model is the console session.

## Findings

| source | as written | input that shows it | evidently intended | confidence | as-written member | corrected member |
|---|---|---|---|---|---|---|
| chat_manager.py:159 | the transcript is joined with `'\\n'` inside an f-string replacement field: under Python 3.12 and later a backslash followed by `n`, not a line break (before 3.12 the line does not compile) | history [User "hi", Bot "hello"]: the summary service receives `User (…): hi\nBot: hello` as one line | one transcript entry per line, joined with a line break | not executed | `Chat.TranscriptAsWrittenIsOneLine`, `Chat.JoinAsWrittenExample` | `Chat.TranscriptOneLinePerEntry` |

The model sends the corrected transcript: `Chat.LlmSummary` and
`Chat.ChatManager.GenerateLlmSummary` join the entries with a line break.
