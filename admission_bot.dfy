/**
 * The admission chatbot (Project2-NexusInfo/admissionbot.py).
 *
 * A session greets, then reads one line per turn. A line whose lower-case form
 * is an exit word says goodbye, saves the context and ends the session; the
 * line "recall" (in any case) prints a summary of the context; any other line
 * goes to the classifier, whose answer is printed, and a line that mentions an
 * admission topic then runs the follow-up questionnaire, which stores three
 * answers in the context. A classifier failure, and an EOFError inside the
 * questionnaire, print a fixed apology instead.
 *
 * The classifier (a bag-of-words Naive Bayes model) is a parameter: a total
 * function from the raw input line to a response, or to `None` when it raises.
 */
module AdmissionBot {
  import opened Wrappers
  import opened Text
  import opened OrderedDict
  import opened Terminal
  import opened FollowUp
  import opened ChatState
  import opened Seqs

  const Greeting := "Hello! I'm your admission assistant chatbot. How can I help you with your college admission queries today?"
  const Goodbye := "Goodbye! If you have more questions, feel free to ask anytime."
  const Apology := "I'm sorry, I didn't understand that. Can you please rephrase?"
  const Thanks := "Thank you for the information! This will help me assist you better."
  const NothingToRecall := "I don't have any prior context to recall."
  const RecallLead := "I remember you mentioned that "
  const MainPrompt := "> "

  const ExitWords: seq<string> := ["bye", "exit", "quit"]
  const TopicKeywords: seq<string> := ["apply", "requirements", "procedures", "deadlines", "documents"]
  /** The three follow-up questions, each a stem and a question mark. A stem
      is written as its first word, a space and the rest, so that proofs can
      split it into words without evaluating the whole text. */
  const NameStem := "What" + " " + "is your name"
  const ProgramStem := "What" + " " + "program are you interested in"
  const WhenStem := "When" + " " + "do you plan to apply"
  const NameQuestion := NameStem + "?"
  const ProgramQuestion := ProgramStem + "?"
  const WhenQuestion := WhenStem + "?"
  const FollowUpQuestions: seq<string> := [NameQuestion, ProgramQuestion, WhenQuestion]

  // ---------------------------------------------------------------------
  // recall_context

  /** `key[:-1]`: the key without its last character. */
  function DropLast(s: string): (r: string)
    ensures s != [] ==> r + [s[|s| - 1]] == s
    ensures s == [] ==> r == []
  {
    if s == [] then [] else s[..|s| - 1]
  }

  /** An entry is summarised only when its key has more than one word. */
  predicate Summarised(e: (string, string)) {
    |Words(e.0)| > 1
  }

  /** How one summarised entry reads. */
  function Mention(e: (string, string)): string {
    DropLast(e.0) + " is " + e.1
  }

  /** The comprehension in `recall_context`: the summarised entries' mentions, in order. */
  function Mentions(es: seq<(string, string)>): (ms: seq<string>)
    ensures |ms| <= |es|
  {
    if es == [] then []
    else (if Summarised(es[0]) then [Mention(es[0])] else []) + Mentions(es[1..])
  }

  /** The summary printed for "recall". */
  function RecallContext(context: Dict): (r: string)
    ensures r == NothingToRecall <==> Size(context) == 0
    ensures Size(context) > 0 ==> |r| > |RecallLead| && r[..|RecallLead|] == RecallLead && r[|r| - 1] == '.'
  {
    if Size(context) > 0 then
      var r := RecallLead + Join(Mentions(Items(context)), ", ") + ".";
      assert r[..|RecallLead|] == RecallLead;
      assert r[2] != NothingToRecall[2];
      r
    else
      NothingToRecall
  }

  /** Mentions respect the order of the entries: they distribute over concatenation. */
  lemma {:induction false} MentionsAppend(a: seq<(string, string)>, b: seq<(string, string)>)
    ensures Mentions(a + b) == Mentions(a) + Mentions(b)
  {
    if a == [] {
      assert a + b == b;
    } else {
      TailOfAppend(a, b);
      MentionsAppend(a[1..], b);
      var head := if Summarised(a[0]) then [Mention(a[0])] else [];
      AppendAssoc(head, Mentions(a[1..]), Mentions(b));
    }
  }

  /** Every summarised entry is mentioned. */
  lemma {:induction false} MentionsEvery(es: seq<(string, string)>, i: int)
    requires 0 <= i < |es| && Summarised(es[i])
    ensures Mention(es[i]) in Mentions(es)
  {
    if i > 0 {
      assert es[i] == es[1..][i - 1];
      MentionsEvery(es[1..], i - 1);
    }
  }

  /** Only summarised entries are mentioned: every mention is that of an
      entry whose key has more than one word, so an entry with a single-word
      key is dropped even among entries that are kept. */
  lemma {:induction false} MentionsOnly(es: seq<(string, string)>, m: string)
    requires m in Mentions(es)
    ensures exists i :: 0 <= i < |es| && Summarised(es[i]) && m == Mention(es[i])
  {
    if Summarised(es[0]) && m == Mention(es[0]) {
      assert 0 < |es|;
    } else {
      MentionsOnly(es[1..], m);
      var i :| 0 <= i < |es[1..]| && Summarised(es[1..][i]) && m == Mention(es[1..][i]);
      assert es[i + 1] == es[1..][i];
    }
  }

  /** Nothing is mentioned exactly when no entry is summarised. */
  lemma {:induction false} MentionsNone(es: seq<(string, string)>)
    ensures (forall i :: 0 <= i < |es| ==> !Summarised(es[i])) <==> Mentions(es) == []
  {
    if es != [] {
      MentionsNone(es[1..]);
      assert forall i :: 1 <= i < |es| ==> es[i] == es[1..][i - 1];
    }
  }

  /** A non-empty context whose keys are all single words recalls nothing but the frame. */
  lemma RecallOnlySingleWords(context: Dict)
    requires Size(context) > 0
    requires forall k :: k in context.keys ==> |Words(k)| <= 1
    ensures RecallContext(context) == "I remember you mentioned that ."
  {
    var es := Items(context);
    assert forall i :: 0 <= i < |es| ==> es[i].0 in context.keys;
    MentionsNone(es);
  }

  /** A stored answer under a key of several words appears in the summary,
      after the key with its last character dropped. */
  lemma RecallMentions(context: Dict, k: string, v: string)
    requires Get(context, k) == Some(v)
    requires |Words(k)| > 1
    ensures Contains(RecallContext(context), DropLast(k) + " is " + v)
  {
    var es := Items(context);
    Keys(context);
    var i :| 0 <= i < |context.keys| && context.keys[i] == k;
    assert es[i] == (k, v);
    MentionsEvery(es, i);
    var ms := Mentions(es);
    var j :| 0 <= j < |ms| && ms[j] == Mention(es[i]);
    JoinContains(ms, ", ", j);
    ContainsWithin(RecallLead, Join(ms, ", "), ".", Mention(es[i]));
  }

  /** A question built from a first word, a space and a rest has more than one word. */
  lemma QuestionSummarised(first: string, rest: string)
    requires first != [] && NoSpace(first) && rest != [] && !IsSpace(rest[0])
    ensures |Words(first + " " + rest + "?")| > 1
    ensures DropLast(first + " " + rest + "?") == first + " " + rest
  {
    AppendAssoc(first + " ", rest, "?");
    SeveralWords(first, rest + "?");
  }

  /** Each follow-up question has more than one word, so its answer is
      recalled; with its question mark dropped it is its stem. */
  lemma FollowUpQuestionsSummarised()
    ensures |Words(NameQuestion)| > 1 && |Words(ProgramQuestion)| > 1 && |Words(WhenQuestion)| > 1
    ensures DropLast(NameQuestion) == NameStem
    ensures DropLast(ProgramQuestion) == ProgramStem
    ensures DropLast(WhenQuestion) == WhenStem
  {
    QuestionSummarised("What", "is your name");
    QuestionSummarised("What", "program are you interested in");
    QuestionSummarised("When", "do you plan to apply");
  }

  /** No follow-up question is asked twice. */
  lemma FollowUpQuestionsDistinct()
    ensures Distinct(FollowUpQuestions)
  {
    assert NameQuestion[2] == 'a' && NameQuestion[5] == 'i';
    assert ProgramQuestion[2] == 'a' && ProgramQuestion[5] == 'p';
    assert WhenQuestion[2] == 'e';
  }

  /** The summary of a context holding three entries with keys of several
      words: the three mentions, in order, separated by commas. */
  lemma RecallThree(context: Dict, e0: (string, string), e1: (string, string), e2: (string, string))
    requires Items(context) == [e0, e1, e2]
    requires Summarised(e0) && Summarised(e1) && Summarised(e2)
    ensures RecallContext(context) == RecallLead + (Mention(e0) + ", " + (Mention(e1) + ", " + Mention(e2))) + "."
  {
    MentionsThree(e0, e1, e2);
    JoinThree(Mention(e0), Mention(e1), Mention(e2), ", ");
  }

  /** Three entries with keys of several words give their three mentions. */
  lemma MentionsThree(e0: (string, string), e1: (string, string), e2: (string, string))
    requires Summarised(e0) && Summarised(e1) && Summarised(e2)
    ensures Mentions([e0, e1, e2]) == [Mention(e0), Mention(e1), Mention(e2)]
  {
    assert [e0, e1, e2] == [e0] + ([e1] + [e2]);
    MentionsAppend([e0], [e1] + [e2]);
    MentionsAppend([e1], [e2]);
  }

  /** The exact summary after the questionnaire was answered on an empty
      context: "I remember you mentioned that What is your name is <name>,
      What program are you interested in is <program>, When do you plan to
      apply is <when>." */
  lemma RecallAfterQuestionnaire(name: string, program: string, when: string, rest: seq<string>)
    ensures RecallContext(Ask(Empty, [name, program, when] + rest, FollowUpQuestions).context)
         == RecallLead + ((NameStem + " is " + name)
          + ", " + ((ProgramStem + " is " + program)
          + ", " + (WhenStem + " is " + when))) + "."
  {
    var pending := [name, program, when] + rest;
    var context := Ask(Empty, pending, FollowUpQuestions).context;
    FollowUpQuestionsDistinct();
    AskFromEmpty(pending, FollowUpQuestions);
    var es := Items(context);
    assert es == [(NameQuestion, name), (ProgramQuestion, program), (WhenQuestion, when)];
    FollowUpQuestionsSummarised();
    RecallThree(context, (NameQuestion, name), (ProgramQuestion, program), (WhenQuestion, when));
  }

  // ---------------------------------------------------------------------
  // The chat loop as a function of the session state

  /** Whether the lower-cased line asks about an admission topic. */
  predicate MentionsTopic(lower: string) {
    ContainsAny(lower, TopicKeywords)
  }

  /** The body of the `while True` loop once `input("> ")` returned `line`:
      the second component says how the session ended, or `None` to keep
      looping. */
  function Handle(classify: Classifier, s: Session, line: string): (r: (Session, Option<Status>))
    ensures |r.0.pending| <= |s.pending|
    ensures r.1 == None || r.1 == Some(Exited)
    ensures r.1 == Some(Exited) <==> Lower(line) in ExitWords
    ensures r.1 == Some(Exited) ==> r.0.stored == Some(r.0.context)
    ensures r.1 == None ==> r.0.stored == s.stored
  {
    var lower := Lower(line);
    if lower in ExitWords then
      (s.(stored := Some(s.context), transcript := s.transcript + [Line(Goodbye)]), Some(Exited))
    else if lower == "recall" then
      (s.(transcript := s.transcript + [Line(RecallContext(s.context))]), None)
    else
      match classify(line)
      case None => (s.(transcript := s.transcript + [Line(Apology)]), None)
      case Some(response) =>
        var s2 := s.(transcript := s.transcript + [Line(response)]);
        if !MentionsTopic(lower) then (s2, None)
        else
          var a := Ask(s2.context, s2.pending, FollowUpQuestions);
          var s3 := s2.(context := a.context, pending := a.pending, transcript := s2.transcript + a.out);
          (if a.complete then s3 else s3.(transcript := s3.transcript + [Line(Apology)]), None)
  }

  /** One pass of the `while True` loop: prompt, read the next line, handle it. */
  function Turn(classify: Classifier, s: Session): (r: (Session, Option<Status>))
    requires s.pending != []
    ensures |r.0.pending| < |s.pending|
    ensures r.1 == None || r.1 == Some(Exited)
    ensures r.1 == Some(Exited) <==> Lower(s.pending[0]) in ExitWords
  {
    Handle(classify, s.(pending := s.pending[1..], transcript := s.transcript + [Prompt(MainPrompt)]), s.pending[0])
  }

  /** The loop until an exit word, or until the input runs out at the main
      prompt (where the EOFError ends the program). */
  function Run(classify: Classifier, s: Session): (r: (Session, Status))
    ensures r.1 != Crashed
    ensures r.1 == Exited ==> r.0.stored == Some(r.0.context)
    ensures r.1 != Exited ==> r.0.stored == s.stored && r.0.pending == []
    decreases |s.pending|
  {
    if s.pending == [] then
      (s.(transcript := s.transcript + [Prompt(MainPrompt)]), InputExhausted)
    else
      var t := Turn(classify, s);
      if t.1.Some? then (t.0, t.1.value) else Run(classify, t.0)
  }

  // ---------------------------------------------------------------------
  // Routing

  /** An exit word, in any letter case, is handled before anything else: the
      classifier is not consulted, the context is saved and the session ends. */
  lemma ExitComesFirst(classify: Classifier, other: Classifier, s: Session)
    requires s.pending != [] && Lower(s.pending[0]) in ExitWords
    ensures Turn(classify, s) == Turn(other, s)
    ensures var r := Turn(classify, s);
      && r.1 == Some(Exited)
      && r.0.context == s.context && r.0.stored == Some(s.context)
      && r.0.pending == s.pending[1..]
      && r.0.transcript == s.transcript + [Prompt(MainPrompt), Line(Goodbye)]
    ensures Run(classify, s) == (Turn(classify, s).0, Exited)
  {
  }

  /** "QUIT" ends the session like "quit" does. */
  lemma ShoutedQuitExits(classify: Classifier, s: Session)
    requires s.pending != [] && s.pending[0] == "QUIT"
    ensures Turn(classify, s).1 == Some(Exited)
  {
    assert Lower("QUIT") == "quit";
  }

  /** "recall", in any letter case, prints the summary without consulting the
      classifier and leaves the context and the saved file alone. */
  lemma RecallLeavesContext(classify: Classifier, other: Classifier, s: Session)
    requires s.pending != [] && Lower(s.pending[0]) == "recall"
    ensures Turn(classify, s) == Turn(other, s)
    ensures var r := Turn(classify, s);
      && r.1 == None
      && r.0.context == s.context && r.0.stored == s.stored
      && r.0.pending == s.pending[1..]
      && r.0.transcript == s.transcript + [Prompt(MainPrompt), Line(RecallContext(s.context))]
  {
    assert "recall" !in ExitWords;
  }

  /** A classifier failure prints the apology and changes nothing else. */
  lemma FailureApologises(classify: Classifier, s: Session)
    requires s.pending != []
    requires Lower(s.pending[0]) !in ExitWords && Lower(s.pending[0]) != "recall"
    requires classify(s.pending[0]) == None
    ensures var r := Turn(classify, s);
      && r.1 == None
      && r.0.context == s.context && r.0.stored == s.stored
      && r.0.pending == s.pending[1..]
      && r.0.transcript == s.transcript + [Prompt(MainPrompt), Line(Apology)]
  {
  }

  /** An ordinary line, answered by the classifier and naming no admission topic, prints the classifier's answer and
      nothing else: the context, the saved file and the rest of the input are
      untouched and the loop goes on. */
  lemma PlainTurn(classify: Classifier, s: Session)
    requires s.pending != []
    requires Lower(s.pending[0]) !in ExitWords && Lower(s.pending[0]) != "recall"
    requires classify(s.pending[0]).Some? && !MentionsTopic(Lower(s.pending[0]))
    ensures var r := Turn(classify, s);
      && r.1 == None
      && r.0.context == s.context && r.0.stored == s.stored
      && r.0.pending == s.pending[1..]
      && r.0.transcript == s.transcript + [Prompt(MainPrompt), Line(classify(s.pending[0]).value)]
  {
  }

  /** The questionnaire runs, reading more input, exactly when the classifier
      answered and the line mentions an admission topic; otherwise the turn
      leaves the context alone. */
  lemma FollowUpOnlyOnTopic(classify: Classifier, s: Session)
    requires |s.pending| > 1
    requires Lower(s.pending[0]) !in ExitWords && Lower(s.pending[0]) != "recall"
    ensures var r := Turn(classify, s);
      && r.1 == None && r.0.stored == s.stored
      && (|r.0.pending| < |s.pending| - 1 <==> classify(s.pending[0]).Some? && MentionsTopic(Lower(s.pending[0])))
      && (!(classify(s.pending[0]).Some? && MentionsTopic(Lower(s.pending[0]))) ==>
            r.0.context == s.context && r.0.pending == s.pending[1..])
  {
  }

  /** A topic line the classifier answers: the answer is printed and the
      questionnaire runs on the rest of the input, followed by the apology when
      the input ran out part-way. */
  lemma TopicTurn(classify: Classifier, s: Session)
    requires s.pending != []
    requires Lower(s.pending[0]) !in ExitWords && Lower(s.pending[0]) != "recall"
    requires classify(s.pending[0]).Some? && MentionsTopic(Lower(s.pending[0]))
    ensures var a := Ask(s.context, s.pending[1..], FollowUpQuestions);
      var r := Turn(classify, s);
      && r.1 == None && r.0.stored == s.stored
      && r.0.context == a.context && r.0.pending == a.pending
      && var printed := s.transcript + [Prompt(MainPrompt)] + [Line(classify(s.pending[0]).value)] + a.out;
      && (a.complete ==> r.0.transcript == printed)
      && (!a.complete ==> r.0.transcript == printed + [Line(Apology)])
  {
  }

  /** A topic line with the classifier's answer and three more lines: the
      three answers go under the three questions. */
  lemma FollowUpStoresAnswers(classify: Classifier, s: Session)
    requires |s.pending| >= 4
    requires Lower(s.pending[0]) !in ExitWords && Lower(s.pending[0]) != "recall"
    requires classify(s.pending[0]).Some? && MentionsTopic(Lower(s.pending[0]))
    ensures var r := Turn(classify, s);
      forall j :: 0 <= j < 3 ==> Get(r.0.context, FollowUpQuestions[j]) == Some(s.pending[j + 1])
  {
    TopicTurn(classify, s);
    FollowUpQuestionsDistinct();
    AskValues(s.context, s.pending[1..], FollowUpQuestions);
  }

  /** The questionnaire leaves every key other than the three questions
      alone, and the keys already present keep their places. */
  lemma FollowUpKeepsOthers(classify: Classifier, s: Session, k: string)
    requires s.pending != []
    requires Lower(s.pending[0]) !in ExitWords && Lower(s.pending[0]) != "recall"
    requires k !in FollowUpQuestions
    ensures var r := Turn(classify, s);
      && Get(r.0.context, k) == Get(s.context, k)
      && s.context.keys <= r.0.context.keys
  {
    var rest := s.pending[1..];
    if classify(s.pending[0]).Some? && MentionsTopic(Lower(s.pending[0])) {
      TopicTurn(classify, s);
      AskKeepsOther(s.context, rest, FollowUpQuestions, k);
      AskKeepsOrder(s.context, rest, FollowUpQuestions);
    }
  }

  /** The same turn reads exactly the three answers and writes the prompt,
      the classifier's answer and the three questions; the thank-you string
      is not printed. */
  lemma FollowUpPrompts(classify: Classifier, s: Session)
    requires |s.pending| >= 4
    requires Lower(s.pending[0]) !in ExitWords && Lower(s.pending[0]) != "recall"
    requires classify(s.pending[0]).Some? && MentionsTopic(Lower(s.pending[0]))
    ensures var r := Turn(classify, s);
      && r.0.pending == s.pending[4..]
      && r.0.transcript == s.transcript
           + [Prompt(MainPrompt)] + [Line(classify(s.pending[0]).value)]
           + [Prompt(NameQuestion + " "), Prompt(ProgramQuestion + " "), Prompt(WhenQuestion + " ")]
  {
    TopicTurn(classify, s);
    AskThree(s.context, s.pending[1..], NameQuestion, ProgramQuestion, WhenQuestion);
    assert s.pending[1..][3..] == s.pending[4..];
  }

  // ---------------------------------------------------------------------
  // Whole sessions

  /** One turn keeps the keys present, in their places, and adds only
      follow-up questions. */
  lemma TurnKeys(classify: Classifier, s: Session, k: string)
    requires s.pending != []
    ensures var r := Turn(classify, s);
      && s.context.keys <= r.0.context.keys
      && (k in r.0.context.keys ==> k in s.context.keys || k in FollowUpQuestions)
  {
    var lower := Lower(s.pending[0]);
    var rest := s.pending[1..];
    if lower !in ExitWords && lower != "recall" && classify(s.pending[0]).Some? && MentionsTopic(lower) {
      TopicTurn(classify, s);
      AskKeepsOrder(s.context, rest, FollowUpQuestions);
      AskKeyPresent(s.context, rest, FollowUpQuestions, k);
      assert k in FollowUpQuestions[..Answered(FollowUpQuestions, rest)] ==> k in FollowUpQuestions;
    }
  }

  /** Over a whole session the keys present at the start keep their places,
      and the only keys added are the follow-up questions. */
  lemma {:induction false} RunKeys(classify: Classifier, s: Session, k: string)
    ensures var r := Run(classify, s);
      && s.context.keys <= r.0.context.keys
      && (k in r.0.context.keys ==> k in s.context.keys || k in FollowUpQuestions)
    decreases |s.pending|
  {
    if s.pending != [] {
      var t := Turn(classify, s);
      TurnKeys(classify, s, k);
      if t.1.None? {
        RunKeys(classify, t.0, k);
      }
    }
  }

  // ---------------------------------------------------------------------
  // The chatbot object

  class AdmissionChatbot {
    const classify: Classifier
    const console: Console
    /** `self.context`. */
    var context: Dict
    /** The contents of context.pkl; `None` when there is no such file. */
    var stored: Option<Dict>

    /** Loads the context saved by an earlier session, or starts empty when
        there is no saved file. */
    constructor (classify: Classifier, console: Console, stored: Option<Dict>)
      ensures this.classify == classify && this.console == console && this.stored == stored
      ensures context == if stored.Some? then stored.value else Empty
    {
      this.classify := classify;
      this.console := console;
      this.stored := stored;
      context := if stored.Some? then stored.value else Empty;
    }

    function State(): Session
      reads this, console
    {
      Session(context, stored, console.pending, console.transcript)
    }

    method SaveContext()
      modifies this
      ensures stored == Some(context) && context == old(context)
    {
      stored := Some(context);
    }

    method Farewell() returns (r: string)
      modifies this
      ensures stored == Some(context) && context == old(context)
      ensures r == Goodbye
    {
      SaveContext();
      r := Goodbye;
    }

    method RespondToQuestion(userInput: string) returns (r: Option<string>)
      ensures r == classify(userInput)
    {
      r := classify(userInput);
    }

    /** Asks the three follow-up questions and stores each answer under its
        question; `None` when `input` raises EOFError part-way. */
    method AskQuestions() returns (r: Option<string>)
      modifies this`context, console
      ensures var a := Ask(old(context), old(console.pending), FollowUpQuestions);
        && context == a.context && console.pending == a.pending
        && console.transcript == old(console.transcript) + a.out
        && r == (if a.complete then Some(Thanks) else None)
    {
      var questions := FollowUpQuestions;
      var userResponses: seq<string> := [];
      ghost var out: seq<Out> := [];
      for i := 0 to |questions|
        invariant console.transcript == old(console.transcript) + out
        invariant Ask(old(context), old(console.pending), questions)
               == After(out, Ask(context, console.pending, questions[i..]))
      {
        ghost var pending := console.pending;
        var response := console.Input(questions[i] + " ");
        AppendAssoc(old(console.transcript), out, [Prompt(questions[i] + " ")]);
        if response.None? {
          AskStopped(context, questions, i, out);
          return None;
        }
        AskStep(context, pending, questions, i, out);
        userResponses := userResponses + [response.value];
        context := Put(context, questions[i], response.value);
        out := out + [Prompt(questions[i] + " ")];
      }
      assert questions[|questions|..] == [];
      r := Some(Thanks);
    }

    /** The body of the loop in `chat` after `input("> ")` returned `userInput`;
        true when it was an exit word. */
    method HandleLine(userInput: string) returns (exited: bool)
      modifies this, console
      ensures (State(), if exited then Some(Exited) else None) == Handle(classify, old(State()), userInput)
    {
      var lower := Lower(userInput);
      if lower in ExitWords {
        var goodbye := Farewell();
        console.Print(goodbye);
        return true;
      } else if lower == "recall" {
        console.Print(RecallContext(context));
      } else {
        var response := RespondToQuestion(userInput);
        if response.None? {
          console.Print(Apology);
        } else {
          console.Print(response.value);
          if MentionsTopic(lower) {
            var thanks := AskQuestions();
            if thanks.None? {
              console.Print(Apology);
            }
          }
        }
      }
      exited := false;
    }

    /** The session: greet, then run turns until an exit word or the end of the input. */
    method Chat() returns (status: Status)
      modifies this, console
      ensures (State(), status)
           == Run(classify, Session(old(context), old(stored), old(console.pending), old(console.transcript) + [Line(Greeting)]))
    {
      console.Print(Greeting);
      ghost var start := State();
      while true
        invariant Run(classify, State()) == Run(classify, start)
        decreases |console.pending|
      {
        ghost var s := State();
        var userInput := console.Input(MainPrompt);
        if userInput.None? {
          return InputExhausted;
        }
        var exited := HandleLine(userInput.value);
        if exited {
          return Exited;
        }
        assert Turn(classify, s) == (State(), None);
      }
    }
  }
}
