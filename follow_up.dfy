/**
 * The follow-up questionnaire both chatbots run (`ask_questions`): for each
 * fixed question in turn, prompt with the question and a space, read an
 * answer, and store it in the context under the question text. An EOFError
 * from `input` ends the loop early; the answers stored before it stay.
 */
module FollowUp {
  import opened Wrappers
  import opened OrderedDict
  import opened Terminal
  import opened Seqs

  /** What one run of the questionnaire leaves behind: the new context, the
      unread input, the prompts written, and whether every question got an
      answer (false: `input` raised EOFError). */
  datatype Asked = Asked(context: Dict, pending: seq<string>, out: seq<Out>, complete: bool)

  /** How many questions get an answer. */
  function Answered(questions: seq<string>, pending: seq<string>): nat {
    if |questions| <= |pending| then |questions| else |pending|
  }

  /** The questionnaire loop, run on the given context and input. */
  function Ask(context: Dict, pending: seq<string>, questions: seq<string>): (a: Asked)
    ensures a.complete <==> |questions| <= |pending|
    ensures a.pending == pending[Answered(questions, pending)..]
    decreases questions
  {
    if questions == [] then Asked(context, pending, [], true)
    else if pending == [] then Asked(context, [], [Prompt(questions[0] + " ")], false)
    else
      var rest := Ask(Put(context, questions[0], pending[0]), pending[1..], questions[1..]);
      rest.(out := [Prompt(questions[0] + " ")] + rest.out)
  }

  /** The questionnaire's outcome when `out` was written before it started. */
  function After(out: seq<Out>, a: Asked): Asked {
    a.(out := out + a.out)
  }

  /** Asking question i with a line available, and then the questions after it. */
  lemma AskStep(context: Dict, pending: seq<string>, questions: seq<string>, i: int, out: seq<Out>)
    requires 0 <= i < |questions| && pending != []
    ensures After(out, Ask(context, pending, questions[i..]))
         == After(out + [Prompt(questions[i] + " ")], Ask(Put(context, questions[i], pending[0]), pending[1..], questions[i + 1..]))
  {
    DropOneMore(questions, i);
    var rest := Ask(Put(context, questions[i], pending[0]), pending[1..], questions[i + 1..]);
    AppendAssoc(out, [Prompt(questions[i] + " ")], rest.out);
  }

  /** Asking question i when no line is left. */
  lemma AskStopped(context: Dict, questions: seq<string>, i: int, out: seq<Out>)
    requires 0 <= i < |questions|
    ensures After(out, Ask(context, [], questions[i..]))
         == Asked(context, [], out + [Prompt(questions[i] + " ")], false)
  {
    DropOneMore(questions, i);
  }

  /** The prompts written: one per question asked, in order, up to and
      including the one whose `input` raised EOFError. */
  lemma {:induction false} AskPrompts(context: Dict, pending: seq<string>, questions: seq<string>)
    ensures var a := Ask(context, pending, questions);
      && |a.out| == (if a.complete then |questions| else |pending| + 1)
      && forall i :: 0 <= i < |a.out| ==> a.out[i] == Prompt(questions[i] + " ")
    decreases questions
  {
    if questions != [] && pending != [] {
      AskPrompts(Put(context, questions[0], pending[0]), pending[1..], questions[1..]);
    }
  }

  /** A key that is not among the answered questions keeps its value. */
  lemma {:induction false} AskKeepsOther(context: Dict, pending: seq<string>, questions: seq<string>, k: string)
    requires k !in questions[..Answered(questions, pending)]
    ensures Get(Ask(context, pending, questions).context, k) == Get(context, k)
    decreases questions
  {
    if questions != [] && pending != [] {
      var n := Answered(questions, pending);
      PrefixCons(questions, n);
      AskKeepsOther(Put(context, questions[0], pending[0]), pending[1..], questions[1..], k);
    }
  }

  /** The j-th question, when answered, ends up holding the j-th answer. */
  lemma {:induction false} AskStoresAnswer(context: Dict, pending: seq<string>, questions: seq<string>, j: int)
    requires Distinct(questions)
    requires 0 <= j < Answered(questions, pending)
    ensures Get(Ask(context, pending, questions).context, questions[j]) == Some(pending[j])
    decreases questions
  {
    var c1 := Put(context, questions[0], pending[0]);
    var n := Answered(questions, pending);
    DistinctHead(questions, n);
    if j == 0 {
      AskKeepsOther(c1, pending[1..], questions[1..], questions[0]);
    } else {
      AskStoresAnswer(c1, pending[1..], questions[1..], j - 1);
    }
  }

  /** Each answered question is stored with its own answer, overwriting an
      earlier value; every other key keeps its value. */
  lemma AskValues(context: Dict, pending: seq<string>, questions: seq<string>)
    requires Distinct(questions)
    ensures var a := Ask(context, pending, questions);
      var n := Answered(questions, pending);
      && (forall j :: 0 <= j < n ==> Get(a.context, questions[j]) == Some(pending[j]))
      && (forall k :: k !in questions[..n] ==> Get(a.context, k) == Get(context, k))
  {
    var n := Answered(questions, pending);
    forall j | 0 <= j < n
      ensures Get(Ask(context, pending, questions).context, questions[j]) == Some(pending[j])
    {
      AskStoresAnswer(context, pending, questions, j);
    }
    forall k | k !in questions[..n]
      ensures Get(Ask(context, pending, questions).context, k) == Get(context, k)
    {
      AskKeepsOther(context, pending, questions, k);
    }
  }

  /** With an answer for every question: the questionnaire completes, reads
      one line per question, prompts with each question in turn, stores each
      answer under its question and leaves every other key alone. */
  lemma AskAnswered(context: Dict, pending: seq<string>, questions: seq<string>)
    requires Distinct(questions) && |questions| <= |pending|
    ensures var a := Ask(context, pending, questions);
      && a.complete
      && a.pending == pending[|questions|..]
      && (forall j :: 0 <= j < |questions| ==> Get(a.context, questions[j]) == Some(pending[j]))
      && (forall k :: k !in questions ==> Get(a.context, k) == Get(context, k))
      && |a.out| == |questions|
      && (forall i :: 0 <= i < |questions| ==> a.out[i] == Prompt(questions[i] + " "))
  {
    AskValues(context, pending, questions);
    assert questions[..|questions|] == questions;
    AskPrompts(context, pending, questions);
  }

  /** Three questions with three lines available, spelled out. */
  lemma AskThree(context: Dict, pending: seq<string>, q0: string, q1: string, q2: string)
    requires |pending| >= 3
    ensures var a := Ask(context, pending, [q0, q1, q2]);
      && a.complete
      && a.context == Put(Put(Put(context, q0, pending[0]), q1, pending[1]), q2, pending[2])
      && a.pending == pending[3..]
      && a.out == [Prompt(q0 + " "), Prompt(q1 + " "), Prompt(q2 + " ")]
  {
    var p1, p2, p3 := pending[1..], pending[2..], pending[3..];
    assert [q0, q1, q2][1..] == [q1, q2] && [q1, q2][1..] == [q2] && [q2][1..] == [];
    assert p1[1..] == p2 && p2[1..] == p3;
    var c1 := Put(context, q0, pending[0]);
    var c2 := Put(c1, q1, p1[0]);
    var c3 := Put(c2, q2, p2[0]);
    AskCons(context, pending, [q0, q1, q2]);
    AskCons(c1, p1, [q1, q2]);
    AskCons(c2, p2, [q2]);
    assert Ask(c3, p3, []) == Asked(c3, p3, [], true);
  }

  /** One question answered: store the answer, then ask the rest. */
  lemma AskCons(context: Dict, pending: seq<string>, questions: seq<string>)
    requires questions != [] && pending != []
    ensures var rest := Ask(Put(context, questions[0], pending[0]), pending[1..], questions[1..]);
      Ask(context, pending, questions) == rest.(out := [Prompt(questions[0] + " ")] + rest.out)
  {
  }

  /** The keys present before keep their places at the front. */
  lemma {:induction false} AskKeepsOrder(context: Dict, pending: seq<string>, questions: seq<string>)
    ensures context.keys <= Ask(context, pending, questions).context.keys
    decreases questions
  {
    if questions != [] && pending != [] {
      AskKeepsOrder(Put(context, questions[0], pending[0]), pending[1..], questions[1..]);
    }
  }

  /** A key is present afterwards exactly when it was present before or is an
      answered question. */
  lemma {:induction false} AskKeyPresent(context: Dict, pending: seq<string>, questions: seq<string>, k: string)
    ensures k in Ask(context, pending, questions).context.keys
        <==> k in context.keys || k in questions[..Answered(questions, pending)]
    decreases questions
  {
    if questions != [] && pending != [] {
      var c1 := Put(context, questions[0], pending[0]);
      var n := Answered(questions, pending);
      PrefixCons(questions, n);
      assert k in c1.keys <==> k in context.keys || k == questions[0];
      AskKeyPresent(c1, pending[1..], questions[1..], k);
      assert Ask(context, pending, questions).context == Ask(c1, pending[1..], questions[1..]).context;
    }
  }

  /** The questions that are not among the keys, in the order asked. */
  function Fresh(questions: seq<string>, keys: seq<string>): (r: seq<string>)
    ensures forall q :: q in r <==> q in questions && q !in keys
  {
    if questions == [] then []
    else
      var r := (if questions[0] in keys then [] else [questions[0]]) + Fresh(questions[1..], keys);
      assert forall q :: q in questions <==> q == questions[0] || q in questions[1..];
      r
  }

  /** Adding a key that is not among the questions does not change which
      questions are fresh. */
  lemma {:induction false} FreshIgnores(questions: seq<string>, keys: seq<string>, k: string)
    requires k !in questions
    ensures Fresh(questions, keys + [k]) == Fresh(questions, keys)
  {
    if questions != [] {
      FreshIgnores(questions[1..], keys, k);
    }
  }

  /** Questions none of which is a key are all fresh. */
  lemma {:induction false} FreshAll(questions: seq<string>, keys: seq<string>)
    requires forall j :: 0 <= j < |questions| ==> questions[j] !in keys
    ensures Fresh(questions, keys) == questions
  {
    if questions != [] {
      FreshAll(questions[1..], keys);
    }
  }

  /** The fresh questions among the first n: the first question, when it is
      fresh, then the fresh ones among the next n - 1. */
  lemma FreshPrefix(questions: seq<string>, n: int, keys: seq<string>)
    requires 0 < n <= |questions|
    ensures Fresh(questions[..n], keys)
         == (if questions[0] in keys then [] else [questions[0]]) + Fresh(questions[1..][..n - 1], keys)
  {
    PrefixCons(questions, n);
    assert questions[..n][1..] == questions[1..][..n - 1];
  }

  /** A question asked once does not come back among the later ones. */
  lemma DistinctHead(questions: seq<string>, n: int)
    requires Distinct(questions) && 0 < n <= |questions|
    ensures questions[0] !in questions[1..][..n - 1]
    ensures Distinct(questions[1..])
  {
  }

  /** The answered questions that were not keys yet are appended after the
      existing keys, in the order asked; the others keep their places. */
  lemma {:induction false} AskAppends(context: Dict, pending: seq<string>, questions: seq<string>)
    requires Distinct(questions)
    ensures Ask(context, pending, questions).context.keys
         == context.keys + Fresh(questions[..Answered(questions, pending)], context.keys)
    decreases questions
  {
    if questions != [] && pending != [] {
      var q := questions[0];
      var c1 := Put(context, q, pending[0]);
      var n := Answered(questions, pending);
      var done := questions[1..][..n - 1];
      assert Ask(context, pending, questions).context == Ask(c1, pending[1..], questions[1..]).context;
      assert Answered(questions[1..], pending[1..]) == n - 1;
      DistinctHead(questions, n);
      AskAppends(c1, pending[1..], questions[1..]);
      assert Ask(context, pending, questions).context.keys == c1.keys + Fresh(done, c1.keys);
      FreshPrefix(questions, n, context.keys);
      if q in context.keys {
        assert c1.keys == context.keys;
        assert Fresh(questions[..n], context.keys) == Fresh(done, context.keys);
      } else {
        assert c1.keys == context.keys + [q];
        FreshIgnores(done, context.keys, q);
        assert Fresh(questions[..n], context.keys) == [q] + Fresh(done, context.keys);
        AppendAssoc(context.keys, [q], Fresh(done, context.keys));
      }
    }
  }

  /** Starting from an empty context with enough input, the context ends up
      holding exactly the questions, in order, each with its answer. */
  lemma AskFromEmpty(pending: seq<string>, questions: seq<string>)
    requires Distinct(questions) && |questions| <= |pending|
    ensures var a := Ask(Empty, pending, questions);
      && a.complete
      && |Items(a.context)| == |questions|
      && forall j :: 0 <= j < |questions| ==> Items(a.context)[j] == (questions[j], pending[j])
  {
    var a := Ask(Empty, pending, questions);
    AskAppends(Empty, pending, questions);
    assert questions[..|questions|] == questions;
    FreshAll(questions, []);
    AskValues(Empty, pending, questions);
    assert a.context.keys == questions;
  }
}
