/**
 * The console the chatbots talk through. `input(prompt)` writes the prompt and
 * takes the next supplied line; `print(s)` writes a line. What was written is
 * kept, in order, as a transcript. When no line is left, `input` raises
 * EOFError, which the model reports as a missing line.
 */
module Terminal {
  import opened Wrappers

  /** One write to standard output: a prompt from `input` or a line from `print`. */
  datatype Out = Prompt(text: string) | Line(text: string)

  /** How a chat session ended: through an exit word, because `input` found no
      line at the main prompt (EOFError outside any handler), or because an
      exception escaped the loop. */
  datatype Status = Exited | InputExhausted | Crashed

  class Console {
    /** Lines not yet read. */
    var pending: seq<string>
    /** Everything written so far. */
    var transcript: seq<Out>

    constructor (lines: seq<string>)
      ensures pending == lines && transcript == []
    {
      pending := lines;
      transcript := [];
    }

    /** `input(prompt)`; `None` stands for the EOFError raised when no line is left. */
    method Input(prompt: string) returns (line: Option<string>)
      modifies this
      ensures transcript == old(transcript) + [Prompt(prompt)]
      ensures old(pending) == [] ==> line == None && pending == []
      ensures old(pending) != [] ==> line == Some(old(pending)[0]) && pending == old(pending)[1..]
    {
      transcript := transcript + [Prompt(prompt)];
      if pending == [] {
        line := None;
      } else {
        line := Some(pending[0]);
        pending := pending[1..];
      }
    }

    /** `print(s)`. */
    method Print(s: string)
      modifies this
      ensures transcript == old(transcript) + [Line(s)]
      ensures pending == old(pending)
    {
      transcript := transcript + [Line(s)];
    }
  }
}
