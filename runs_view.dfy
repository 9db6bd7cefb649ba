/**
 * The Runs page: the text streamed per run from `run_events` inserts, the
 * guard in front of starting a run, and the choice of the text shown as a
 * run's output.
 */
module RunsView {
  import opened Wrappers
  import Text
  import opened RunModel
  import RunWorkflow

  /** A `run_events` insert as the subscription delivers it; `content` is `data.content`, `None` when absent. */
  datatype RunEventRow = RunEventRow(eventType: string, runId: string, content: Option<string>)

  /** The streamed text by run id. */
  type Stream = map<string, string>

  /** `prev[id] || ""`: the text streamed so far for a run. */
  function Shown(stream: Stream, runId: string): string {
    if runId in stream then stream[runId] else ""
  }

  /**
   * The subscription handler: a `chunk` appends its content ("" when missing)
   * to its run's text and leaves every other run's text alone; any other
   * event type changes nothing.
   */
  function OnRunEvent(stream: Stream, ev: RunEventRow): (r: Stream)
    ensures ev.eventType != "chunk" ==> r == stream
    ensures ev.eventType == "chunk" ==>
      && ev.runId in r
      && Shown(r, ev.runId) == Shown(stream, ev.runId) + ev.content.GetOr("")
      && forall id :: id != ev.runId ==> (id in r <==> id in stream) && (id in r ==> r[id] == stream[id])
  {
    if ev.eventType == "chunk" then stream[ev.runId := Shown(stream, ev.runId) + ev.content.GetOr("")]
    else stream
  }

  /** The stream after the handler has seen `rows`, in arrival order. */
  function Replay(stream: Stream, rows: seq<RunEventRow>): (r: Stream)
    ensures forall id :: id in stream ==> id in r
  {
    if rows == [] then stream else OnRunEvent(Replay(stream, rows[..|rows| - 1]), rows[|rows| - 1])
  }

  /** The contents of the chunks of one run, in arrival order. */
  function ChunkText(rows: seq<RunEventRow>, runId: string): string {
    if rows == [] then ""
    else
      (if rows[0].eventType == "chunk" && rows[0].runId == runId then rows[0].content.GetOr("") else "")
      + ChunkText(rows[1..], runId)
  }

  lemma {:induction false} ChunkTextAppend(rows: seq<RunEventRow>, row: RunEventRow, runId: string)
    ensures ChunkText(rows + [row], runId) ==
      ChunkText(rows, runId) + (if row.eventType == "chunk" && row.runId == runId then row.content.GetOr("") else "")
  {
    if rows != [] {
      assert (rows + [row])[1..] == rows[1..] + [row];
      ChunkTextAppend(rows[1..], row, runId);
    }
  }

  /**
   * The text of a run is keyed by run id only: it is what it was plus the
   * contents of that run's chunks in arrival order, whichever agents sent them.
   */
  lemma {:induction false} ReplayIsChunkText(stream: Stream, rows: seq<RunEventRow>, runId: string)
    ensures Shown(Replay(stream, rows), runId) == Shown(stream, runId) + ChunkText(rows, runId)
  {
    if rows != [] {
      var p, last := rows[..|rows| - 1], rows[|rows| - 1];
      var before := Replay(stream, p);
      ReplayIsChunkText(stream, p, runId);
      ShownAfter(before, last, runId);
      ChunkTextAppend(p, last, runId);
      assert p + [last] == rows;
    }
  }

  /** One handler call adds to a run's text exactly the content of that run's chunk. */
  lemma ShownAfter(stream: Stream, ev: RunEventRow, runId: string)
    ensures Shown(OnRunEvent(stream, ev), runId) ==
      Shown(stream, runId) + (if ev.eventType == "chunk" && ev.runId == runId then ev.content.GetOr("") else "")
  {
  }

  /** The `run_events` rows a run's effects insert: each recorded event as a `chunk` of its run. */
  function RowsOf(effects: seq<Effect>): seq<RunEventRow> {
    if effects == [] then []
    else
      RowsOf(effects[..|effects| - 1])
      + (match effects[|effects| - 1]
         case EmitEvent(runId, e) => [RunEventRow("chunk", runId, Some(e.content))]
         case _ => [])
  }

  /** The contents of a list of events, joined without separators. */
  function Contents(events: seq<Event>): string {
    if events == [] then "" else Contents(events[..|events| - 1]) + events[|events| - 1].content
  }

  /**
   * The text streamed for a run is the join of its recorded events' contents;
   * unlike the concurrent and hierarchical outputs it carries no agent names.
   */
  lemma {:induction false} StreamOfRun(effects: seq<Effect>, runId: string)
    requires forall k :: 0 <= k < |effects| && effects[k].EmitEvent? ==> effects[k].runId == runId
    ensures Shown(Replay(map[], RowsOf(effects)), runId) == Contents(EventsOf(effects))
  {
    ReplayIsChunkText(map[], RowsOf(effects), runId);
    ChunkTextOfRun(effects, runId);
  }

  lemma {:induction false} ChunkTextOfRun(effects: seq<Effect>, runId: string)
    requires forall k :: 0 <= k < |effects| && effects[k].EmitEvent? ==> effects[k].runId == runId
    ensures ChunkText(RowsOf(effects), runId) == Contents(EventsOf(effects))
  {
    if effects != [] {
      var p, last := effects[..|effects| - 1], effects[|effects| - 1];
      ChunkTextOfRun(p, runId);
      match last
      case EmitEvent(_, e) =>
        var row := RunEventRow("chunk", runId, Some(e.content));
        ChunkTextAppend(RowsOf(p), row, runId);
        assert EventsOf(effects) == EventsOf(p) + [e];
        assert EventsOf(effects)[..|EventsOf(effects)| - 1] == EventsOf(p);
      case _ =>
        assert RowsOf(p) + [] == RowsOf(p);
        assert EventsOf(p) + [] == EventsOf(p);
    }
  }

  /**
   * `startRun`: nothing is sent without a selected workflow or when the input
   * is only whitespace; otherwise the body carries the trimmed input.
   */
  function StartRun(selectedWorkflow: string, input: string): (r: Option<RunWorkflow.RunFields>)
    ensures r.None? <==> selectedWorkflow == "" || Text.AllWhitespace(input)
    ensures r.Some? ==> r.value.workflowId == selectedWorkflow && r.value.input == Text.Trim(input)
  {
    Text.TrimEmptyIff(input);
    if selectedWorkflow == "" || Text.Trim(input) == "" then None
    else Some(RunWorkflow.RunFields(selectedWorkflow, Text.Trim(input)))
  }

  /**
   * With a workflow selected and some non-whitespace input, the page sends a
   * body; it passes the function's `workflow_id and input are required`
   * check, and trimming it again changes nothing.
   */
  lemma StartedRunIsValid(selectedWorkflow: string, input: string)
    requires selectedWorkflow != "" && !Text.AllWhitespace(input)
    ensures var r := StartRun(selectedWorkflow, input);
      r.Some? && r.value.workflowId != "" && r.value.input != "" && Text.Trim(r.value.input) == r.value.input
  {
    Text.TrimEmptyIff(input);
    Text.TrimIdempotent(input);
  }

  /**
   * The output panel of an expanded run: the stored output when it is not
   * empty, otherwise the streamed text; the panel is hidden when both are empty.
   */
  function DisplayedOutput(output: Option<string>, stream: Stream, runId: string): (r: Option<string>)
    ensures r.None? <==> output.GetOr("") == "" && Shown(stream, runId) == ""
    ensures r.Some? && output.GetOr("") != "" ==> r.value == output.value
    ensures r.Some? && output.GetOr("") == "" ==> r.value == Shown(stream, runId)
  {
    var shown := if output.GetOr("") != "" then output.GetOr("") else Shown(stream, runId);
    if shown == "" then None else Some(shown)
  }

  /**
   * While a run's stored output is empty, a page that has seen every event
   * insert of the run shows the join of the run's event contents, and hides
   * the panel exactly when that text is empty.
   */
  lemma {:induction false} PanelShowsStreamedRun(output: Option<string>, effects: seq<Effect>, runId: string)
    requires output.GetOr("") == ""
    requires forall k :: 0 <= k < |effects| && effects[k].EmitEvent? ==> effects[k].runId == runId
    ensures var r := DisplayedOutput(output, Replay(map[], RowsOf(effects)), runId);
      && (r.None? <==> Contents(EventsOf(effects)) == "")
      && (r.Some? ==> r.value == Contents(EventsOf(effects)))
  {
    StreamOfRun(effects, runId);
  }
}
