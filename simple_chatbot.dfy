/**
 * The simple ML chatbot (Project1-NexusInfo/simple_chatbot.py).
 *
 * A session greets, then reads one line per turn. A line whose lower-case form
 * is an exit word says goodbye, saves the context and ends the session; the
 * line "recall" (in any case) prints a summary of the context, rendering every
 * entry by the last word of its key; any other line goes to the classifier,
 * whose answer is printed. A line that mentions "your name" then asks for the
 * user's name and stores it under "name"; otherwise a line that mentions a
 * favourite colour, a hobby or a favourite food runs the follow-up
 * questionnaire. Any exception inside that part (a classifier failure, an
 * EOFError from `input`) prints a fixed apology. The summary is built outside
 * that handler, so a key with no words, whose last word does not exist, ends
 * the session with the IndexError.
 *
 * The classifier (a bag-of-words Naive Bayes model) is a parameter: a total
 * function from the raw input line to a response, or to `None` when it raises.
 */
module SimpleBot {
  import opened Wrappers
  import opened Text
  import opened OrderedDict
  import opened Terminal
  import opened FollowUp
  import opened ChatState
  import opened Seqs

  const Greeting := "Hello! I'm your simple ML chatbot. How can I help you today?"
  const Goodbye := "Goodbye! Have a great day!"
  const Apology := "I'm sorry, I didn't understand that. Can you please rephrase?"
  const Thanks := "Thanks for sharing! I have noted your preferences."
  const NothingToRecall := "I don't have any prior context to recall."
  const RecallLead := "I remember you mentioned your favorite "
  const MainPrompt := "> "
  const NamePrompt := "Nice to meet you! What's your name? "
  const NameKey := "name"
  const NameCue := "your name"

  const ExitWords: seq<string> := ["bye", "exit", "quit"]
  const FollowUpKeywords: seq<string> := ["favorite color", "hobby", "favorite food"]
  /** The three follow-up questions. Each is written as the words before its
      last one, a space and its last word, so that proofs can find the last
      word without splitting the whole text. */
  const ColorWord := "color?"
  const HobbyWord := "hobby?"
  const FoodWord := "food?"
  const ColorQuestion := "What is your favorite" + " " + ColorWord
  const HobbyQuestion := "What is your" + " " + HobbyWord
  const FoodQuestion := "What is your favorite" + " " + FoodWord
  const FollowUpQuestions: seq<string> := [ColorQuestion, HobbyQuestion, FoodQuestion]

  /** The line printed once the name is read. */
  function NiceToMeet(name: string): string {
    "Nice to meet you, " + name + "!"
  }

  // ---------------------------------------------------------------------
  // recall_context

  /** `key.split()[-1]`; `None` stands for the IndexError raised by a key
      without words. */
  function LastWord(key: string): (r: Option<string>)
    ensures r.None? <==> AllSpace(key)
    ensures r.Some? ==> r.value != [] && NoSpace(r.value)
  {
    WordsEmpty(key);
    var ws := Words(key);
    if ws == [] then None else Some(ws[|ws| - 1])
  }

  /** The last word of text, a space and a word is that word. */
  lemma LastWordAfterSpace(a: string, w: string)
    requires w != [] && NoSpace(w)
    ensures LastWord(a + " " + w) == Some(w)
  {
    assert a + " " + w == a + [' '] + w;
    WordsSnoc(a, ' ', w);
  }

  /** The comprehension in `recall_context`: every entry as "<last word of
      its key> is <value>", in order; `None` when some key has no words. */
  function Parts(es: seq<(string, string)>): (r: Option<seq<string>>)
    ensures r.Some? ==> |r.value| == |es|
  {
    if es == [] then Some([])
    else
      match (LastWord(es[0].0), Parts(es[1..]))
      case (Some(w), Some(ps)) => Some([w + " is " + es[0].1] + ps)
      case _ => None
  }

  /** The parts exist exactly when every key has a word, and then each entry
      is rendered by the last word of its key and its value. */
  lemma {:induction false} PartsMeaning(es: seq<(string, string)>)
    ensures Parts(es).Some? <==> forall i :: 0 <= i < |es| ==> !AllSpace(es[i].0)
    ensures Parts(es).Some? ==> forall i :: 0 <= i < |es| ==>
      Parts(es).value[i] == LastWord(es[i].0).value + " is " + es[i].1
  {
    if es != [] {
      PartsMeaning(es[1..]);
      assert forall i :: 1 <= i < |es| ==> es[i] == es[1..][i - 1];
    }
  }

  /** The summary printed for "recall"; `None` for the IndexError. */
  function RecallContext(context: Dict): (r: Option<string>)
    ensures Size(context) == 0 ==> r == Some(NothingToRecall)
    ensures Size(context) > 0 && r.Some? ==>
      |r.value| > |RecallLead| && r.value[..|RecallLead|] == RecallLead && r.value[|r.value| - 1] == '.'
  {
    if Size(context) > 0 then
      match Parts(Items(context))
      case None => None
      case Some(ps) => Some(RecallLead + Join(ps, " ") + ".")
    else
      Some(NothingToRecall)
  }

  /** Recalling fails exactly when the context holds a key without words. */
  lemma RecallFails(context: Dict)
    ensures RecallContext(context).None? <==> exists k :: k in context.keys && AllSpace(k)
  {
    var es := Items(context);
    PartsMeaning(es);
    if exists k :: k in context.keys && AllSpace(k) {
      var k :| k in context.keys && AllSpace(k);
      var i :| 0 <= i < |context.keys| && context.keys[i] == k;
      assert es[i].0 == k;
    } else {
      assert forall i :: 0 <= i < |es| ==> es[i].0 in context.keys;
    }
  }

  /** When recalling succeeds, each stored value appears in the summary after
      the last word of its key and " is ". */
  lemma RecallMentions(context: Dict, k: string, v: string)
    requires Get(context, k) == Some(v)
    requires RecallContext(context).Some?
    ensures LastWord(k).Some?
    ensures Contains(RecallContext(context).value, LastWord(k).value + " is " + v)
  {
    var es := Items(context);
    Keys(context);
    var i :| 0 <= i < |context.keys| && context.keys[i] == k;
    assert es[i] == (k, v);
    PartsMeaning(es);
    var ps := Parts(es).value;
    JoinContains(ps, " ", i);
    ContainsWithin(RecallLead, Join(ps, " "), ".", ps[i]);
  }

  /** A context holding only a name recalls it as "your favorite name is …". */
  lemma RecallName(name: string)
    ensures RecallContext(Put(Empty, NameKey, name)) == Some(RecallLead + (NameKey + " is " + name) + ".")
  {
    var context := Put(Empty, NameKey, name);
    assert Items(context) == [(NameKey, name)];
    WordsSingle(NameKey);
    assert LastWord(NameKey) == Some(NameKey);
    assert [(NameKey, name)][1..] == [];
    assert Parts([(NameKey, name)]) == Some([NameKey + " is " + name] + []);
    assert [NameKey + " is " + name] + [] == [NameKey + " is " + name];
  }

  /** Joining three parts with spaces. */
  lemma RecallThree(context: Dict, e0: (string, string), e1: (string, string), e2: (string, string), w0: string, w1: string, w2: string)
    requires Items(context) == [e0, e1, e2]
    requires LastWord(e0.0) == Some(w0) && LastWord(e1.0) == Some(w1) && LastWord(e2.0) == Some(w2)
    ensures RecallContext(context)
         == Some(RecallLead + ((w0 + " is " + e0.1) + " " + ((w1 + " is " + e1.1) + " " + (w2 + " is " + e2.1))) + ".")
  {
    var es := [e0, e1, e2];
    var p0, p1, p2 := w0 + " is " + e0.1, w1 + " is " + e1.1, w2 + " is " + e2.1;
    assert es[1..] == [e1, e2] && [e1, e2][1..] == [e2] && [e2][1..] == [];
    assert Parts([e2]) == Some([p2] + []);
    assert [p2] + [] == [p2];
    assert Parts([e1, e2]) == Some([p1] + [p2]);
    assert Parts(es) == Some([p0] + ([p1] + [p2]));
    assert [p0] + ([p1] + [p2]) == [p0, p1, p2];
    JoinThree(w0 + " is " + e0.1, w1 + " is " + e1.1, w2 + " is " + e2.1, " ");
  }

  /** The exact summary after the questionnaire was answered on an empty
      context: "I remember you mentioned your favorite color? is <colour>
      hobby? is <hobby> food? is <food>." */
  lemma RecallAfterQuestionnaire(color: string, hobby: string, food: string, rest: seq<string>)
    ensures RecallContext(Ask(Empty, [color, hobby, food] + rest, FollowUpQuestions).context)
         == Some(RecallLead + ((ColorWord + " is " + color)
          + " " + ((HobbyWord + " is " + hobby)
          + " " + (FoodWord + " is " + food))) + ".")
  {
    var pending := [color, hobby, food] + rest;
    var context := Ask(Empty, pending, FollowUpQuestions).context;
    FollowUpQuestionsDistinct();
    AskFromEmpty(pending, FollowUpQuestions);
    assert Items(context) == [(ColorQuestion, color), (HobbyQuestion, hobby), (FoodQuestion, food)];
    FollowUpLastWords();
    RecallThree(context, (ColorQuestion, color), (HobbyQuestion, hobby), (FoodQuestion, food), ColorWord, HobbyWord, FoodWord);
  }

  /** The last word of each follow-up question. */
  lemma FollowUpLastWords()
    ensures LastWord(ColorQuestion) == Some(ColorWord)
    ensures LastWord(HobbyQuestion) == Some(HobbyWord)
    ensures LastWord(FoodQuestion) == Some(FoodWord)
  {
    LastWordAfterSpace("What is your favorite", ColorWord);
    LastWordAfterSpace("What is your", HobbyWord);
    LastWordAfterSpace("What is your favorite", FoodWord);
  }

  /** No follow-up question is asked twice. */
  lemma FollowUpQuestionsDistinct()
    ensures Distinct(FollowUpQuestions)
  {
    assert |ColorQuestion| == 28 && |HobbyQuestion| == 19 && |FoodQuestion| == 27;
  }

  // ---------------------------------------------------------------------
  // The chat loop as a function of the session state

  /** Whether the lower-cased line asks for the name. */
  predicate MentionsName(lower: string) {
    Contains(lower, NameCue)
  }

  /** Whether the lower-cased line mentions a preference the questionnaire asks about. */
  predicate MentionsPreference(lower: string) {
    ContainsAny(lower, FollowUpKeywords)
  }

  /** The `try` block after the classifier answered `response` to a line
      whose lower-case form is `lower`. */
  function FollowUps(s: Session, lower: string, response: string): (r: Session)
    ensures |r.pending| <= |s.pending| && r.stored == s.stored
  {
    var s2 := s.(transcript := s.transcript + [Line(response)]);
    if MentionsName(lower) then
      var s3 := s2.(transcript := s2.transcript + [Prompt(NamePrompt)]);
      if s3.pending == [] then s3.(transcript := s3.transcript + [Line(Apology)])
      else
        var name := s3.pending[0];
        s3.(context := Put(s3.context, NameKey, name), pending := s3.pending[1..],
            transcript := s3.transcript + [Line(NiceToMeet(name))])
    else if MentionsPreference(lower) then
      var a := Ask(s2.context, s2.pending, FollowUpQuestions);
      var s3 := s2.(context := a.context, pending := a.pending, transcript := s2.transcript + a.out);
      if a.complete then s3 else s3.(transcript := s3.transcript + [Line(Apology)])
    else
      s2
  }

  /** The body of the `while True` loop once `input("> ")` returned `line`:
      the second component says how the session ended, or `None` to keep
      looping. */
  function Handle(classify: Classifier, s: Session, line: string): (r: (Session, Option<Status>))
    ensures |r.0.pending| <= |s.pending|
    ensures r.1 != Some(InputExhausted)
    ensures r.1 == Some(Exited) <==> Lower(line) in ExitWords
    ensures r.1 == Some(Crashed) <==> Lower(line) !in ExitWords && Lower(line) == "recall" && RecallContext(s.context).None?
    ensures r.1 == Some(Exited) ==> r.0.stored == Some(r.0.context)
    ensures r.1 != Some(Exited) ==> r.0.stored == s.stored
  {
    var lower := Lower(line);
    if lower in ExitWords then
      (s.(stored := Some(s.context), transcript := s.transcript + [Line(Goodbye)]), Some(Exited))
    else if lower == "recall" then
      match RecallContext(s.context)
      case None => (s, Some(Crashed))
      case Some(summary) => (s.(transcript := s.transcript + [Line(summary)]), None)
    else
      match classify(line)
      case None => (s.(transcript := s.transcript + [Line(Apology)]), None)
      case Some(response) => (FollowUps(s, lower, response), None)
  }

  /** One pass of the `while True` loop: prompt, read the next line, handle it. */
  function Turn(classify: Classifier, s: Session): (r: (Session, Option<Status>))
    requires s.pending != []
    ensures |r.0.pending| < |s.pending|
    ensures r.1 != Some(InputExhausted)
    ensures r.1 == Some(Exited) <==> Lower(s.pending[0]) in ExitWords
  {
    Handle(classify, s.(pending := s.pending[1..], transcript := s.transcript + [Prompt(MainPrompt)]), s.pending[0])
  }

  /** The loop until an exit word, an escaped IndexError, or until the input
      runs out at the main prompt (where the EOFError ends the program). */
  function Run(classify: Classifier, s: Session): (r: (Session, Status))
    ensures r.1 == Exited ==> r.0.stored == Some(r.0.context)
    ensures r.1 != Exited ==> r.0.stored == s.stored
    ensures r.1 == InputExhausted ==> r.0.pending == []
    decreases |s.pending|
  {
    if s.pending == [] then
      (s.(transcript := s.transcript + [Prompt(MainPrompt)]), InputExhausted)
    else
      var t := Turn(classify, s);
      if t.1.Some? then (t.0, t.1.value) else Run(classify, t.0)
  }

  // ---------------------------------------------------------------------
  // Routing

  /** An exit word, in any letter case, is handled before anything else: the
      classifier is not consulted, the context is saved and the session ends. */
  lemma ExitComesFirst(classify: Classifier, other: Classifier, s: Session)
    requires s.pending != [] && Lower(s.pending[0]) in ExitWords
    ensures Turn(classify, s) == Turn(other, s)
    ensures var r := Turn(classify, s);
      && r.1 == Some(Exited)
      && r.0.context == s.context && r.0.stored == Some(s.context)
      && r.0.pending == s.pending[1..]
      && r.0.transcript == s.transcript + [Prompt(MainPrompt), Line(Goodbye)]
    ensures Run(classify, s) == (Turn(classify, s).0, Exited)
  {
  }

  /** "recall", in any letter case, prints the summary without consulting the
      classifier and leaves the context and the saved file alone; when the
      summary cannot be built the session ends without printing. */
  lemma RecallLeavesContext(classify: Classifier, other: Classifier, s: Session)
    requires s.pending != [] && Lower(s.pending[0]) == "recall"
    ensures Turn(classify, s) == Turn(other, s)
    ensures var r := Turn(classify, s);
      && r.0.context == s.context && r.0.stored == s.stored
      && r.0.pending == s.pending[1..]
      && match RecallContext(s.context)
         case Some(summary) =>
           r.1 == None && r.0.transcript == s.transcript + [Prompt(MainPrompt), Line(summary)]
         case None =>
           r.1 == Some(Crashed) && r.0.transcript == s.transcript + [Prompt(MainPrompt)]
  {
    assert "recall" !in ExitWords;
  }

  /** A classifier failure prints the apology and changes nothing else. */
  lemma FailureApologises(classify: Classifier, s: Session)
    requires s.pending != []
    requires Lower(s.pending[0]) !in ExitWords && Lower(s.pending[0]) != "recall"
    requires classify(s.pending[0]) == None
    ensures var r := Turn(classify, s);
      && r.1 == None
      && r.0.context == s.context && r.0.stored == s.stored
      && r.0.pending == s.pending[1..]
      && r.0.transcript == s.transcript + [Prompt(MainPrompt), Line(Apology)]
  {
  }

  /** An ordinary line, answered by the classifier and asking neither for
      the name nor about a preference, prints the classifier's answer and
      nothing else: the context, the saved file and the rest of the input are
      untouched and the loop goes on. */
  lemma PlainTurn(classify: Classifier, s: Session)
    requires s.pending != []
    requires Lower(s.pending[0]) !in ExitWords && Lower(s.pending[0]) != "recall"
    requires classify(s.pending[0]).Some? && !MentionsName(Lower(s.pending[0])) && !MentionsPreference(Lower(s.pending[0]))
    ensures var r := Turn(classify, s);
      && r.1 == None
      && r.0.context == s.context && r.0.stored == s.stored
      && r.0.pending == s.pending[1..]
      && r.0.transcript == s.transcript + [Prompt(MainPrompt), Line(classify(s.pending[0]).value)]
  {
  }

  /** A line that asks for the name, once the classifier answered, reads one
      more line and stores it under "name", whatever preference the line
      also mentions: every other key keeps its value. */
  lemma NameCaptured(classify: Classifier, s: Session, k: string)
    requires |s.pending| >= 2
    requires Lower(s.pending[0]) !in ExitWords && Lower(s.pending[0]) != "recall"
    requires classify(s.pending[0]).Some? && MentionsName(Lower(s.pending[0]))
    requires k != NameKey
    ensures var r := Turn(classify, s);
      && r.1 == None && r.0.stored == s.stored
      && Get(r.0.context, NameKey) == Some(s.pending[1])
      && Get(r.0.context, k) == Get(s.context, k)
      && r.0.pending == s.pending[2..]
      && r.0.transcript == s.transcript + [Prompt(MainPrompt), Line(classify(s.pending[0]).value),
                                           Prompt(NamePrompt), Line(NiceToMeet(s.pending[1]))]
  {
    assert s.pending[1..][1..] == s.pending[2..];
  }

  /** When the input runs out at the name prompt, the apology is printed and
      the context is left alone. */
  lemma NameMissing(classify: Classifier, s: Session)
    requires |s.pending| == 1
    requires Lower(s.pending[0]) !in ExitWords && Lower(s.pending[0]) != "recall"
    requires classify(s.pending[0]).Some? && MentionsName(Lower(s.pending[0]))
    ensures var r := Turn(classify, s);
      && r.1 == None && r.0.context == s.context && r.0.pending == []
      && r.0.transcript == s.transcript + [Prompt(MainPrompt), Line(classify(s.pending[0]).value),
                                           Prompt(NamePrompt), Line(Apology)]
  {
  }

  /** The follow-ups exclude each other, and the name takes precedence: a
      turn changes a follow-up question's answer only when the classifier
      answered, the line does not ask for the name and it mentions a
      preference. */
  lemma QuestionnaireOnlyWithoutName(classify: Classifier, s: Session, j: int)
    requires s.pending != []
    requires 0 <= j < |FollowUpQuestions|
    ensures var r := Turn(classify, s);
      var lower := Lower(s.pending[0]);
      Get(r.0.context, FollowUpQuestions[j]) != Get(s.context, FollowUpQuestions[j]) ==>
        classify(s.pending[0]).Some? && !MentionsName(lower) && MentionsPreference(lower)
  {
    assert |NameKey| == 4 && |ColorQuestion| == 28 && |HobbyQuestion| == 19 && |FoodQuestion| == 27;
  }

  /** A turn changes the name only when the classifier answered and the line
      asks for the name. */
  lemma NameOnlyWhenAsked(classify: Classifier, s: Session)
    requires s.pending != []
    ensures var r := Turn(classify, s);
      var lower := Lower(s.pending[0]);
      Get(r.0.context, NameKey) != Get(s.context, NameKey) ==>
        classify(s.pending[0]).Some? && MentionsName(lower)
  {
    var lower := Lower(s.pending[0]);
    var rest := s.pending[1..];
    if lower !in ExitWords && lower != "recall" && classify(s.pending[0]).Some?
       && !MentionsName(lower) && MentionsPreference(lower) {
      assert |NameKey| == 4 && |ColorQuestion| == 28 && |HobbyQuestion| == 19 && |FoodQuestion| == 27;
      AskKeepsOther(s.context, rest, FollowUpQuestions, NameKey);
    }
  }

  /** A preference line without the name cue, once the classifier answered:
      the answer is printed and the questionnaire runs on the rest of the
      input, followed by the apology when the input ran out part-way. */
  lemma PreferenceTurn(classify: Classifier, s: Session)
    requires s.pending != []
    requires Lower(s.pending[0]) !in ExitWords && Lower(s.pending[0]) != "recall"
    requires classify(s.pending[0]).Some?
    requires !MentionsName(Lower(s.pending[0])) && MentionsPreference(Lower(s.pending[0]))
    ensures var a := Ask(s.context, s.pending[1..], FollowUpQuestions);
      var r := Turn(classify, s);
      && r.1 == None && r.0.stored == s.stored
      && r.0.context == a.context && r.0.pending == a.pending
      && var printed := s.transcript + [Prompt(MainPrompt)] + [Line(classify(s.pending[0]).value)] + a.out;
      && (a.complete ==> r.0.transcript == printed)
      && (!a.complete ==> r.0.transcript == printed + [Line(Apology)])
  {
  }

  /** A preference line with three more lines: the three answers go under
      the three questions. */
  lemma FollowUpStoresAnswers(classify: Classifier, s: Session)
    requires |s.pending| >= 4
    requires Lower(s.pending[0]) !in ExitWords && Lower(s.pending[0]) != "recall"
    requires classify(s.pending[0]).Some?
    requires !MentionsName(Lower(s.pending[0])) && MentionsPreference(Lower(s.pending[0]))
    ensures var r := Turn(classify, s);
      forall j :: 0 <= j < 3 ==> Get(r.0.context, FollowUpQuestions[j]) == Some(s.pending[j + 1])
  {
    PreferenceTurn(classify, s);
    FollowUpQuestionsDistinct();
    AskValues(s.context, s.pending[1..], FollowUpQuestions);
  }

  /** The same turn reads exactly the three answers and writes the prompt,
      the classifier's answer and the three questions; the thank-you string
      is not printed. */
  lemma FollowUpPrompts(classify: Classifier, s: Session)
    requires |s.pending| >= 4
    requires Lower(s.pending[0]) !in ExitWords && Lower(s.pending[0]) != "recall"
    requires classify(s.pending[0]).Some?
    requires !MentionsName(Lower(s.pending[0])) && MentionsPreference(Lower(s.pending[0]))
    ensures var r := Turn(classify, s);
      && r.0.pending == s.pending[4..]
      && r.0.transcript == s.transcript
           + [Prompt(MainPrompt)] + [Line(classify(s.pending[0]).value)]
           + [Prompt(ColorQuestion + " "), Prompt(HobbyQuestion + " "), Prompt(FoodQuestion + " ")]
  {
    PreferenceTurn(classify, s);
    AskThree(s.context, s.pending[1..], ColorQuestion, HobbyQuestion, FoodQuestion);
    assert s.pending[1..][3..] == s.pending[4..];
  }

  // ---------------------------------------------------------------------
  // Whole sessions

  /** One turn keeps the keys present, in their places, and adds only
      "name" and the follow-up questions. */
  lemma TurnKeys(classify: Classifier, s: Session, k: string)
    requires s.pending != []
    ensures var r := Turn(classify, s);
      && s.context.keys <= r.0.context.keys
      && (k in r.0.context.keys ==> k in s.context.keys || k == NameKey || k in FollowUpQuestions)
  {
    var lower := Lower(s.pending[0]);
    var rest := s.pending[1..];
    if lower !in ExitWords && lower != "recall" && classify(s.pending[0]).Some?
       && !MentionsName(lower) && MentionsPreference(lower) {
      PreferenceTurn(classify, s);
      AskKeepsOrder(s.context, rest, FollowUpQuestions);
      AskKeyPresent(s.context, rest, FollowUpQuestions, k);
      assert k in FollowUpQuestions[..Answered(FollowUpQuestions, rest)] ==> k in FollowUpQuestions;
    }
  }

  /** Over a whole session the keys present at the start keep their places,
      and the only keys added are "name" and the follow-up questions. */
  lemma {:induction false} RunKeys(classify: Classifier, s: Session, k: string)
    ensures var r := Run(classify, s);
      && s.context.keys <= r.0.context.keys
      && (k in r.0.context.keys ==> k in s.context.keys || k == NameKey || k in FollowUpQuestions)
    decreases |s.pending|
  {
    if s.pending != [] {
      var t := Turn(classify, s);
      TurnKeys(classify, s, k);
      if t.1.None? {
        RunKeys(classify, t.0, k);
      }
    }
  }

  // ---------------------------------------------------------------------
  // The chatbot object

  class SimpleMLChatbot {
    const classify: Classifier
    const console: Console
    /** `self.context`. */
    var context: Dict
    /** The contents of context.pkl; `None` when there is no such file. */
    var stored: Option<Dict>

    /** Loads the context saved by an earlier session, or starts empty when
        there is no saved file. */
    constructor (classify: Classifier, console: Console, stored: Option<Dict>)
      ensures this.classify == classify && this.console == console && this.stored == stored
      ensures context == if stored.Some? then stored.value else Empty
    {
      this.classify := classify;
      this.console := console;
      this.stored := stored;
      context := if stored.Some? then stored.value else Empty;
    }

    function State(): Session
      reads this, console
    {
      Session(context, stored, console.pending, console.transcript)
    }

    method SaveContext()
      modifies this
      ensures stored == Some(context) && context == old(context)
    {
      stored := Some(context);
    }

    method Farewell() returns (r: string)
      modifies this
      ensures stored == Some(context) && context == old(context)
      ensures r == Goodbye
    {
      SaveContext();
      r := Goodbye;
    }

    method RespondToQuestion(userInput: string) returns (r: Option<string>)
      ensures r == classify(userInput)
    {
      r := classify(userInput);
    }

    /** Asks the three follow-up questions and stores each answer under its
        question; `None` when `input` raises EOFError part-way. */
    method AskQuestions() returns (r: Option<string>)
      modifies this`context, console
      ensures var a := Ask(old(context), old(console.pending), FollowUpQuestions);
        && context == a.context && console.pending == a.pending
        && console.transcript == old(console.transcript) + a.out
        && r == (if a.complete then Some(Thanks) else None)
    {
      var questions := FollowUpQuestions;
      var userResponses: seq<string> := [];
      ghost var out: seq<Out> := [];
      for i := 0 to |questions|
        invariant console.transcript == old(console.transcript) + out
        invariant Ask(old(context), old(console.pending), questions)
               == After(out, Ask(context, console.pending, questions[i..]))
      {
        ghost var pending := console.pending;
        var response := console.Input(questions[i] + " ");
        AppendAssoc(old(console.transcript), out, [Prompt(questions[i] + " ")]);
        if response.None? {
          AskStopped(context, questions, i, out);
          return None;
        }
        AskStep(context, pending, questions, i, out);
        userResponses := userResponses + [response.value];
        context := Put(context, questions[i], response.value);
        out := out + [Prompt(questions[i] + " ")];
      }
      assert questions[|questions|..] == [];
      r := Some(Thanks);
    }

    /** The `try` block once the classifier answered `response`. */
    method FollowUp(lower: string, response: string)
      modifies this`context, console
      ensures State() == FollowUps(old(State()), lower, response)
    {
      console.Print(response);
      if MentionsName(lower) {
        var name := console.Input(NamePrompt);
        if name.None? {
          console.Print(Apology);
        } else {
          context := Put(context, NameKey, name.value);
          console.Print(NiceToMeet(name.value));
        }
      } else if MentionsPreference(lower) {
        var thanks := AskQuestions();
        if thanks.None? {
          console.Print(Apology);
        }
      }
    }

    /** The body of the loop in `chat` after `input("> ")` returned
        `userInput`: how the session ended, or `None` to keep looping. */
    method HandleLine(userInput: string) returns (ended: Option<Status>)
      modifies this, console
      ensures (State(), ended) == Handle(classify, old(State()), userInput)
    {
      var lower := Lower(userInput);
      if lower in ExitWords {
        var goodbye := Farewell();
        console.Print(goodbye);
        return Some(Exited);
      } else if lower == "recall" {
        var summary := RecallContext(context);
        if summary.None? {
          return Some(Crashed);
        }
        console.Print(summary.value);
      } else {
        var response := RespondToQuestion(userInput);
        if response.None? {
          console.Print(Apology);
        } else {
          FollowUp(lower, response.value);
        }
      }
      ended := None;
    }

    /** The session: greet, then run turns until an exit word, an escaped
        exception or the end of the input. */
    method Chat() returns (status: Status)
      modifies this, console
      ensures (State(), status)
           == Run(classify, Session(old(context), old(stored), old(console.pending), old(console.transcript) + [Line(Greeting)]))
    {
      console.Print(Greeting);
      ghost var start := State();
      while true
        invariant Run(classify, State()) == Run(classify, start)
        decreases |console.pending|
      {
        ghost var s := State();
        var userInput := console.Input(MainPrompt);
        if userInput.None? {
          return InputExhausted;
        }
        var ended := HandleLine(userInput.value);
        if ended.Some? {
          return ended.value;
        }
        assert Turn(classify, s) == (State(), None);
      }
    }
  }
}
