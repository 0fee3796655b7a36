/** The view of a stored Responses task: attached and current items together are its whole context. */
module StoredViews {
  import opened Results
  import opened TaskDb
  import ContextChain
  import opened RequestView
  import opened RequestSections

  /** Each item as the view's block converters show it. */
  function Shown(show: TaskDb.Item -> Entry, items: seq<TaskDb.Item>): (entries: seq<Entry>)
    ensures |entries| == |items|
  {
    if items == [] then [] else Shown(show, items[..|items| - 1]) + [show(items[|items| - 1])]
  }

  lemma {:induction false} ShownConcat(show: TaskDb.Item -> Entry, a: seq<TaskDb.Item>, b: seq<TaskDb.Item>)
    ensures Shown(show, a + b) == Shown(show, a) + Shown(show, b)
  {
    if b == [] {
      assert a + b == a && Shown(show, a) + [] == Shown(show, a);
    } else {
      ShownConcat(show, a, b[..|b| - 1]);
      assert (a + b)[..|a + b| - 1] == a + b[..|b| - 1];
    }
  }

  /**
   After any run, whatever the converters: the context stored for a task ends in its own input, and the
   view's attached items followed by its current ones show exactly that context.
   */
  lemma StoredContextIsShownWhole(e: Env, run: seq<Action>, id: nat, show: TaskDb.Item -> Entry, d: Digest,
                                  instructions: Option<Block>)
    requires ValidRun(run) && id in Run(e, EmptyDb, run).tasks
    ensures
      var row := Run(e, EmptyDb, run).tasks[id];
      var view := ResponsesView(d, Shown(show, row.context), Shown(show, row.input), instructions);
      Bodies(view.attached) + Bodies(view.current) == BodiesOf(Shown(show, row.context))
  {
    hide Run, Bodies, BodiesOf, ResponsesView, Shown, ContextChain.Conversation;
    ContextChain.StoredContextIsFlattenedHistory(e, run, id);
    var tasks := Run(e, EmptyDb, run).tasks;
    var row, before := tasks[id], ContextChain.Conversation(e, tasks, ContextChain.Ancestors(tasks, id));
    ShownConcat(show, before, row.input);
    var context, input := Shown(show, row.context), Shown(show, row.input);
    assert context[|context| - |input|..] == input;
    ResponsesContextIsPartitioned(d, context, input, instructions);
  }
}
