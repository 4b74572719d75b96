/**
 * What both chatbots' loops work on: the classifier they consult and the
 * session state one turn reads and changes. Both bots keep the same fields
 * (`self.context`, the `context.pkl` file, standard input and output), so
 * they share these definitions.
 */
module ChatState {
  import opened Wrappers
  import opened OrderedDict
  import opened Terminal

  /** The fitted classifier: the predicted response for the raw input line,
      or `None` when the prediction raises. */
  type Classifier = string -> Option<string>

  /** Everything a turn reads or changes: the in-memory context, the saved
      context file (`None`: no file), the unread input and the output so far. */
  datatype Session = Session(context: Dict, stored: Option<Dict>, pending: seq<string>, transcript: seq<Out>)
}
