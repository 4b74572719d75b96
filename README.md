# Two console chatbots, modelled in Dafny

This project models the two command-line chatbots of the NexusInfo repository:

- `Project1-NexusInfo/simple_chatbot.py`, a small-talk bot (module `SimpleBot`, file `simple_chatbot.dfy`);
- `Project2-NexusInfo/admissionbot.py`, a college-admission assistant (module `AdmissionBot`, file `admission_bot.dfy`).

Both bots follow the same loop. A session greets the user, then runs a loop that reads one line per turn:

- A line whose lower-case form is `bye`, `exit` or `quit` prints the farewell. It saves the context, which is the `context.pkl` snapshot, and ends the session.
- The line `recall`, in any letter case, prints a summary of the context.
- Any other line goes to a trained classifier, and the predicted answer is printed. Some lines then start a follow-up dialogue, which stores the user's answers in the context. An exception in that part prints a fixed apology.

The bots differ in what happens inside that loop:

- Project1 asks for the user's name when a line mentions "your name" and stores it under the key `name`. Its summary renders each key by the key's last word. A key with no words makes the summary raise IndexError, and that ends the session.
- Project2 has no name capture. Its summary leaves out every key of fewer than two words and renders the others without their last character. Its recall never raises.

Module layout:

- `wrappers.dfy`: `Option`.
- `seqs.dfy`: a few sequence facts.
- `text.dfy`: the string operations the bots use, restricted to ASCII:
  - `str.lower()`;
  - `str.split()` with no argument;
  - the substring test `p in s` and `any(...)`;
  - `sep.join(...)`.
- `ordered_dict.dfy`: a Python `dict` from strings to strings. Keys keep insertion order. `d[k] = v` overwrites a present key in place and appends a new key at the end.
- `terminal.dfy`: the console, as a class.
  - `input(prompt)` writes the prompt and takes the next supplied line. When no line is left, it reports the missing line, standing for `EOFError`.
  - `print` writes a line.
  - Everything written is kept as a transcript.
- `chat_state.dfy`: what the two chat loops share. This is the classifier's type and the session state, which holds the context, the saved file, the unread input and the transcript.
- `follow_up.dfy`: the `ask_questions` loop that both bots share. Each fixed question is asked in turn, and its answer is stored under the question text. The loop is given as the function `Ask`, and properties are proved about it.
- `admission_bot.dfy` and `simple_chatbot.dfy`: each bot's part of the model:
  - its constants, and `recall_context` as a function;
  - one loop iteration as the function `Handle`, which `Turn` and `Run` build on;
  - the routing lemmas;
  - the bot as a class. The class has the source's `context` field and a field for the saved file. Its methods are `AskQuestions` (a loop), `HandleLine` and `Chat` (the `while True` loop). Each method is proved to end in the state, and with the result, that the functions above give.

The classifier is a field of function type `string -> Option<string>`, declared once in `ChatState`. `None` means the prediction raised.

## Model

| member | source | states |
|---|---|---|
| Text.Lower | Project2-NexusInfo/admissionbot.py:94 | Lower-casing keeps the length and maps each character through ASCII lower-casing |
| Text.LowerIdempotent | Project2-NexusInfo/admissionbot.py:94 | Lower-casing twice is lower-casing once, and the result has no upper-case letter |
| Text.WordPrefix | Project2-NexusInfo/admissionbot.py:80 | The first word is a whitespace-free prefix, followed by whitespace or the end |
| Text.Words | Project2-NexusInfo/admissionbot.py:80 | `split()` gives non-empty words that hold no whitespace |
| Text.WordsEmpty | Project2-NexusInfo/admissionbot.py:80 | A string splits into no words exactly when it is all whitespace |
| Text.WordPrefixOf | Project2-NexusInfo/admissionbot.py:80 | A word followed by whitespace or the end is the first word |
| Text.WordsLeadingSpace | Project2-NexusInfo/admissionbot.py:80 | Leading whitespace does not change the split |
| Text.WordsCons | Project2-NexusInfo/admissionbot.py:80 | A word, whitespace and more text split into that word and the split of the rest |
| Text.SeveralWords | Project2-NexusInfo/admissionbot.py:80 | A word, a space and text not starting with whitespace make more than one word |
| Text.WordsSnoc | Project1-NexusInfo/simple_chatbot.py:76 | Text, whitespace and a word split into the text's words followed by that word |
| Text.WordsSingle | Project1-NexusInfo/simple_chatbot.py:76 | A non-empty string without whitespace is one word |
| Text.Contains | Project2-NexusInfo/admissionbot.py:103 | `p in s` holds exactly when `p` occurs at some index of `s` |
| Text.ContainsWithin | Project2-NexusInfo/admissionbot.py:103 | What occurs in the middle of a string occurs in the whole |
| Text.ContainsSelf | Project2-NexusInfo/admissionbot.py:103 | A string contains itself |
| Text.ContainsAny | Project2-NexusInfo/admissionbot.py:103 | `any(k in s for k in ks)` holds exactly when some keyword occurs |
| Text.Join | Project2-NexusInfo/admissionbot.py:80 | `sep.join` of no parts is empty, and of one part is that part. Otherwise it starts with the first part and ends with the last |
| Text.JoinThree | Project2-NexusInfo/admissionbot.py:80 | Joining three parts puts the separator between each pair |
| Text.JoinContains | Project2-NexusInfo/admissionbot.py:80 | Every part occurs in the joined string |
| OrderedDict.Put | Project2-NexusInfo/admissionbot.py:73 | `d[k] = v` maps `k` to `v` and leaves other keys' values alone. It keeps the key order and appends a new key at the end |
| OrderedDict.PutSize | Project2-NexusInfo/admissionbot.py:73 | Assignment adds one entry exactly when the key is new |
| OrderedDict.Items | Project2-NexusInfo/admissionbot.py:80 | `items()` lists every key in insertion order with its value |
| Terminal.Console.constructor | Project2-NexusInfo/admissionbot.py:93 | The console starts with the supplied lines and nothing written |
| Terminal.Console.Input | Project2-NexusInfo/admissionbot.py:71 | `input` writes the prompt and takes the next line. With no line left it reports EOF and reads nothing |
| Terminal.Console.Print | Project2-NexusInfo/admissionbot.py:102 | `print` writes one line and reads nothing |
| FollowUp.Ask | Project2-NexusInfo/admissionbot.py:70-73 | The questionnaire completes exactly when there is an input line for every question. It consumes one line per answered question |
| FollowUp.AskStep | Project2-NexusInfo/admissionbot.py:70-73 | One iteration with a line available: prompt, store the answer, continue with the next question |
| FollowUp.AskStopped | Project2-NexusInfo/admissionbot.py:71 | With no line left, the question is prompted and the loop ends incomplete |
| FollowUp.AskPrompts | Project2-NexusInfo/admissionbot.py:71 | The prompts are the questions with a trailing space, in order, up to the one that hit EOF |
| FollowUp.AskKeepsOther | Project2-NexusInfo/admissionbot.py:73 | A key that is not an answered question keeps its value |
| FollowUp.AskStoresAnswer | Project2-NexusInfo/admissionbot.py:73 | The j-th answered question holds the j-th answer, overwriting an earlier value |
| FollowUp.AskValues | Project2-NexusInfo/admissionbot.py:70-73 | Every answered question holds its answer, and every other key keeps its value |
| FollowUp.AskAnswered | Project2-NexusInfo/admissionbot.py:62-75 | With enough input, the loop completes. It reads one line per question, prompts with each question in turn, stores each answer and leaves other keys alone |
| FollowUp.AskThree | Project2-NexusInfo/admissionbot.py:63-73 | Three questions with three lines are exactly three assignments, in order, with three prompts |
| FollowUp.AskKeepsOrder | Project2-NexusInfo/admissionbot.py:73 | The keys present before keep their places at the front |
| FollowUp.AskKeyPresent | Project2-NexusInfo/admissionbot.py:73 | A key is present afterwards exactly when it was present before or is an answered question |
| FollowUp.Fresh | Project2-NexusInfo/admissionbot.py:73 | The questions not among the given keys, in the order asked: exactly those questions that are not keys |
| FollowUp.FreshIgnores | Project2-NexusInfo/admissionbot.py:73 | A key that is not a question does not change which questions are new |
| FollowUp.FreshAll | Project2-NexusInfo/admissionbot.py:73 | When no question is a key, every question is new |
| FollowUp.AskAppends | Project2-NexusInfo/admissionbot.py:73 | The keys afterwards are the old keys, in place, followed by the answered questions that were not keys yet, in the order asked |
| FollowUp.AskFromEmpty | Project2-NexusInfo/admissionbot.py:70-73 | On an empty context, the items afterwards are exactly the questions with their answers, in order |
| AdmissionBot.DropLast | Project2-NexusInfo/admissionbot.py:80 | `key[:-1]` followed by the last character gives back the key |
| AdmissionBot.Mentions | Project2-NexusInfo/admissionbot.py:80 | The filtered comprehension yields at most one part per entry. `MentionsEvery` and `MentionsOnly` give both directions of the filter |
| AdmissionBot.MentionsOnly | Project2-NexusInfo/admissionbot.py:80 | Every mention comes from an entry whose key has more than one word |
| AdmissionBot.RecallContext | Project2-NexusInfo/admissionbot.py:78-83 | The "nothing to recall" text is returned exactly when the context is empty. Otherwise the summary starts with "I remember you mentioned that " and ends with "." |
| AdmissionBot.MentionsAppend | Project2-NexusInfo/admissionbot.py:80 | The summary's parts follow the entry order |
| AdmissionBot.MentionsEvery | Project2-NexusInfo/admissionbot.py:80 | Every entry whose key has more than one word is mentioned |
| AdmissionBot.MentionsNone | Project2-NexusInfo/admissionbot.py:80 | Nothing is mentioned exactly when no key has more than one word |
| AdmissionBot.RecallOnlySingleWords | Project2-NexusInfo/admissionbot.py:79-81 | A non-empty context whose keys all have at most one word recalls as "I remember you mentioned that ." |
| AdmissionBot.RecallMentions | Project2-NexusInfo/admissionbot.py:80-81 | A value under a key of several words appears in the summary as "key-without-last-character is value" |
| AdmissionBot.QuestionSummarised | Project2-NexusInfo/admissionbot.py:80 | A question of several words is summarised, and `[:-1]` drops its question mark |
| AdmissionBot.FollowUpQuestionsSummarised | Project2-NexusInfo/admissionbot.py:63-67 | All three follow-up questions are recalled, each without its question mark |
| AdmissionBot.FollowUpQuestionsDistinct | Project2-NexusInfo/admissionbot.py:63-67 | The three questions are different keys |
| AdmissionBot.RecallThree | Project2-NexusInfo/admissionbot.py:80-81 | Three summarised entries are recalled as their three mentions, joined by ", " |
| AdmissionBot.MentionsThree | Project2-NexusInfo/admissionbot.py:80 | Three summarised entries give their three mentions, in order |
| AdmissionBot.RecallAfterQuestionnaire | Project2-NexusInfo/admissionbot.py:62-81 | After the questionnaire on an empty context, recall prints exactly "I remember you mentioned that What is your name is N, What program are you interested in is P, When do you plan to apply is W." |
| AdmissionBot.Handle | Project2-NexusInfo/admissionbot.py:94-106 | A turn never puts input back. The session ends exactly when the lower-cased line is an exit word, and then the context is saved. Every other turn leaves the saved file alone |
| AdmissionBot.Turn | Project2-NexusInfo/admissionbot.py:92-106 | Each loop iteration consumes at least the line read at "> ". It ends the session exactly on an exit word |
| AdmissionBot.Run | Project2-NexusInfo/admissionbot.py:92-106 | The loop ends by an exit word, which saves the context, or when the input runs out at "> ", which saves nothing. It never crashes |
| AdmissionBot.ExitComesFirst | Project2-NexusInfo/admissionbot.py:94-96 | An exit word in any case does not depend on the classifier. It prints the farewell, saves the context and ends the session |
| AdmissionBot.ShoutedQuitExits | Project2-NexusInfo/admissionbot.py:94-96 | "QUIT" ends the session |
| AdmissionBot.RecallLeavesContext | Project2-NexusInfo/admissionbot.py:97-98 | "recall" in any case does not depend on the classifier. It prints the summary and leaves the context and the saved file unchanged |
| AdmissionBot.FailureApologises | Project2-NexusInfo/admissionbot.py:100-106 | A classifier failure prints "I'm sorry, I didn't understand that. Can you please rephrase?" and changes nothing else |
| AdmissionBot.PlainTurn | Project2-NexusInfo/admissionbot.py:100-104 | A line the classifier answers that names no topic prints the prompt and the answer only. The context, the saved file and the rest of the input are untouched, and the loop goes on |
| AdmissionBot.FollowUpOnlyOnTopic | Project2-NexusInfo/admissionbot.py:100-104 | The questionnaire reads input exactly when the classifier answered and the line contains a topic keyword. Otherwise the context is unchanged |
| AdmissionBot.TopicTurn | Project2-NexusInfo/admissionbot.py:100-106 | A topic line prints the answer, then runs the questionnaire. The apology follows when input ran out part-way |
| AdmissionBot.FollowUpStoresAnswers | Project2-NexusInfo/admissionbot.py:62-75 | With three more lines, the three questions hold the three answers |
| AdmissionBot.FollowUpKeepsOthers | Project2-NexusInfo/admissionbot.py:70-73 | Any other key keeps its value, and existing keys keep their places |
| AdmissionBot.FollowUpPrompts | Project2-NexusInfo/admissionbot.py:101-104 | That turn reads exactly three more lines and writes the prompt, the answer and the three questions. The thank-you text is not printed |
| AdmissionBot.TurnKeys | Project2-NexusInfo/admissionbot.py:92-106 | A turn keeps the existing keys in place and adds only follow-up questions |
| AdmissionBot.RunKeys | Project2-NexusInfo/admissionbot.py:92-106 | Over a whole session, existing keys keep their places and only follow-up questions are added |
| AdmissionBot.AdmissionChatbot.constructor | Project2-NexusInfo/admissionbot.py:36-41 | The context is the saved one, or empty when there is no saved file |
| AdmissionBot.AdmissionChatbot.SaveContext | Project2-NexusInfo/admissionbot.py:43-45 | The saved file becomes a snapshot of the context |
| AdmissionBot.AdmissionChatbot.Farewell | Project2-NexusInfo/admissionbot.py:50-52 | Saves the context and returns "Goodbye! If you have more questions, feel free to ask anytime." |
| AdmissionBot.AdmissionChatbot.RespondToQuestion | Project2-NexusInfo/admissionbot.py:54-60 | Returns the classifier's prediction for the raw line |
| AdmissionBot.AdmissionChatbot.AskQuestions | Project2-NexusInfo/admissionbot.py:62-75 | The loop leaves the context, the input and the transcript as `Ask` says. It returns the thank-you text when every question was answered |
| AdmissionBot.AdmissionChatbot.HandleLine | Project2-NexusInfo/admissionbot.py:94-106 | The loop body leaves the state that `Handle` gives and reports whether the session ended |
| AdmissionBot.AdmissionChatbot.Chat | Project2-NexusInfo/admissionbot.py:89-106 | Prints the greeting. The whole session then ends in the state and status that `Run` gives |
| SimpleBot.LastWord | Project1-NexusInfo/simple_chatbot.py:76 | `key.split()[-1]` fails (IndexError) exactly when the key is all whitespace. Otherwise it is a non-empty word |
| SimpleBot.LastWordAfterSpace | Project1-NexusInfo/simple_chatbot.py:76 | The last word of "text word" is that word |
| SimpleBot.Parts | Project1-NexusInfo/simple_chatbot.py:76 | The comprehension renders one part per entry, with no filtering |
| SimpleBot.PartsMeaning | Project1-NexusInfo/simple_chatbot.py:76 | The parts exist exactly when every key has a word. Part i is then "last word of key i is value i" |
| SimpleBot.RecallContext | Project1-NexusInfo/simple_chatbot.py:74-79 | An empty context gives "I don't have any prior context to recall.". A successful summary starts with "I remember you mentioned your favorite " and ends with "." |
| SimpleBot.RecallFails | Project1-NexusInfo/simple_chatbot.py:76 | Recall raises exactly when some key has no words |
| SimpleBot.RecallMentions | Project1-NexusInfo/simple_chatbot.py:76-77 | When recall succeeds, each value appears after its key's last word and " is " |
| SimpleBot.RecallName | Project1-NexusInfo/simple_chatbot.py:76-77 | A context holding only a name recalls as "I remember you mentioned your favorite name is N." |
| SimpleBot.RecallThree | Project1-NexusInfo/simple_chatbot.py:76-77 | Three entries are recalled as their three parts, joined by single spaces |
| SimpleBot.RecallAfterQuestionnaire | Project1-NexusInfo/simple_chatbot.py:59-77 | After the questionnaire on an empty context, recall prints exactly "I remember you mentioned your favorite color? is C hobby? is H food? is F." |
| SimpleBot.FollowUpLastWords | Project1-NexusInfo/simple_chatbot.py:60-64 | The questions' last words are "color?", "hobby?" and "food?" |
| SimpleBot.FollowUpQuestionsDistinct | Project1-NexusInfo/simple_chatbot.py:60-64 | The three questions are different keys |
| SimpleBot.FollowUps | Project1-NexusInfo/simple_chatbot.py:96-103 | The follow-up part never puts input back and never touches the saved file |
| SimpleBot.Handle | Project1-NexusInfo/simple_chatbot.py:89-105 | A turn never puts input back. It ends the session with the context saved exactly when the lower-cased line is an exit word. It crashes exactly when the line is "recall" and the summary raises. Every other outcome keeps looping and leaves the saved file alone |
| SimpleBot.Turn | Project1-NexusInfo/simple_chatbot.py:87-105 | Each loop iteration consumes at least the line read at "> ". It ends the session by exit exactly on an exit word, and never by running out of input |
| SimpleBot.Run | Project1-NexusInfo/simple_chatbot.py:87-105 | An exit word ends the loop and saves the context. A crash or running out of input saves nothing |
| SimpleBot.ExitComesFirst | Project1-NexusInfo/simple_chatbot.py:89-91 | An exit word in any case does not depend on the classifier. It prints "Goodbye! Have a great day!", saves the context and ends the session |
| SimpleBot.RecallLeavesContext | Project1-NexusInfo/simple_chatbot.py:92-93 | "recall" in any case does not depend on the classifier and leaves the context unchanged. It prints the summary, or ends the session when the summary raises |
| SimpleBot.FailureApologises | Project1-NexusInfo/simple_chatbot.py:95-105 | A classifier failure prints "I'm sorry, I didn't understand that. Can you please rephrase?" and changes nothing else |
| SimpleBot.PlainTurn | Project1-NexusInfo/simple_chatbot.py:95-103 | A line the classifier answers that asks neither for the name nor about a preference prints the prompt and the answer only. The context, the saved file and the rest of the input are untouched, and the loop goes on |
| SimpleBot.NameCaptured | Project1-NexusInfo/simple_chatbot.py:98-101 | A line with "your name" reads one more line and stores it under "name". Other keys keep their values, whatever else the line mentions, and "Nice to meet you, N!" is printed |
| SimpleBot.NameMissing | Project1-NexusInfo/simple_chatbot.py:98-105 | EOF at the name prompt prints the apology and leaves the context alone |
| SimpleBot.QuestionnaireOnlyWithoutName | Project1-NexusInfo/simple_chatbot.py:98-103 | A follow-up question's value changes only when the classifier answered, the line lacks "your name" and the line names a preference |
| SimpleBot.NameOnlyWhenAsked | Project1-NexusInfo/simple_chatbot.py:98-103 | The name changes only when the classifier answered and the line contains "your name" |
| SimpleBot.PreferenceTurn | Project1-NexusInfo/simple_chatbot.py:102-105 | A preference line prints the answer, then runs the questionnaire. The apology follows when input ran out part-way |
| SimpleBot.FollowUpStoresAnswers | Project1-NexusInfo/simple_chatbot.py:59-72 | With three more lines, the three questions hold the three answers |
| SimpleBot.FollowUpPrompts | Project1-NexusInfo/simple_chatbot.py:96-103 | That turn reads exactly three more lines and writes the prompt, the answer and the three questions. The thank-you text is not printed |
| SimpleBot.TurnKeys | Project1-NexusInfo/simple_chatbot.py:87-105 | A turn keeps the existing keys in place and adds only "name" and follow-up questions |
| SimpleBot.RunKeys | Project1-NexusInfo/simple_chatbot.py:87-105 | Over a whole session, existing keys keep their places and only "name" and follow-up questions are added |
| SimpleBot.SimpleMLChatbot.constructor | Project1-NexusInfo/simple_chatbot.py:33-38 | The context is the saved one, or empty when there is no saved file |
| SimpleBot.SimpleMLChatbot.SaveContext | Project1-NexusInfo/simple_chatbot.py:40-42 | The saved file becomes a snapshot of the context |
| SimpleBot.SimpleMLChatbot.Farewell | Project1-NexusInfo/simple_chatbot.py:47-49 | Saves the context and returns "Goodbye! Have a great day!" |
| SimpleBot.SimpleMLChatbot.RespondToQuestion | Project1-NexusInfo/simple_chatbot.py:51-57 | Returns the classifier's prediction for the raw line |
| SimpleBot.SimpleMLChatbot.AskQuestions | Project1-NexusInfo/simple_chatbot.py:59-72 | The loop leaves the context, the input and the transcript as `Ask` says. It returns "Thanks for sharing! I have noted your preferences." when every question was answered |
| SimpleBot.SimpleMLChatbot.FollowUp | Project1-NexusInfo/simple_chatbot.py:96-105 | The `try` block leaves the state that `FollowUps` gives |
| SimpleBot.SimpleMLChatbot.HandleLine | Project1-NexusInfo/simple_chatbot.py:89-105 | The loop body leaves the state that `Handle` gives and reports how the session ended, if it did |
| SimpleBot.SimpleMLChatbot.Chat | Project1-NexusInfo/simple_chatbot.py:84-105 | Prints "Hello! I'm your simple ML chatbot. How can I help you today?". The whole session then ends in the state and status that `Run` gives |

Helpers without a contract of their own are covered by the rows that use them:

- `AdmissionBot.Summarised`, `AdmissionBot.Mention` and `AdmissionBot.MentionsTopic`;
- `SimpleBot.MentionsName`, `SimpleBot.MentionsPreference` and `SimpleBot.NiceToMeet`;
- the text predicates `IsSpace`, `NoSpace`, `AllSpace`, `IsUpper`, `LowerChar` and `OccursAt`;
- `OrderedDict.Get`, `OrderedDict.Size`, `OrderedDict.Empty`, and the validity predicates `Distinct`, `Unique` and `Elements`;
- `FollowUp.Answered` and `FollowUp.After`;
- each class's `State` function, which packs the fields into a session value.

Some small lemmas only unfold a definition or split a proof, and have no row of their own:

- the lemmas in `seqs.dfy`;
- `FollowUp.AskCons`, `FollowUp.FreshPrefix` and `FollowUp.DistinctHead`;
- `Text.JoinSplit`;
- the dictionary lemmas behind `Put`: `ElementsIn`, `ElementsSnoc`, `UniqueDistinct`, `UniqueSnoc` and `Keys`.

## Left out

- The classifier: `CountVectorizer` and `MultinomialNB`, and their training data (simple_chatbot.py:13-31, admissionbot.py:13-34). It is floating-point statistics in a foreign library. It is a parameter of the model: an arbitrary function from the line to a response or a failure. Nothing is assumed about which responses it returns.
- `pickle` and the file `context.pkl`: the binary format, write errors, and load errors other than a missing file. The saved file is a field holding a snapshot of the context, or nothing. The constructor takes it as a parameter, with "no file" giving an empty context.
- The download in `nltk.download`, the `numpy` import and the `__main__` entry points: environment set-up.
- Real standard input and output. Input is a supplied sequence of lines, and output is a recorded transcript. Because the supply is finite, the model also says what the code does when it runs out:
  - at "> " the `EOFError` escapes and ends the program;
  - inside the `try` block it is caught and the apology is printed.
- Unicode `str.lower()` and `str.split()`. Only ASCII letters are lower-cased. Whitespace is the ASCII whitespace that `str.split()` recognises.
- `user_responses` in `ask_questions` is built and never read. The methods keep it as a local sequence, and no contract mentions it.
- A `KeyboardInterrupt` or another exception raised by `print` inside the bare `except:` of either bot is not modelled.
- The loop body of `chat` is a separate method, `HandleLine`. In Project1, its `try` block is a further method, `FollowUp`. Both are proved against the same functions as `chat`, so the split does not change what is modelled.
- Recall does not list every stored value:
  - Project2 drops entries whose key has fewer than two words (admissionbot.py:80). `RecallOnlySingleWords` proves that such a context recalls as an empty summary.
  - Project1 raises IndexError on a key with no words (simple_chatbot.py:76). This is outside the `try`, so the session ends (`RecallFails`, `RecallLeavesContext`).
