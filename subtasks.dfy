/**
 * How the hierarchical mode turns the director's reply into one task per
 * worker: the span matched by the regular expression /\[[\s\S]*\]/, parsed as
 * a JSON array of strings, with the original input as the fallback.
 */
module SubTasks {
  import opened Wrappers
  import Text
  import JsonStrings

  function FirstIndex(s: string, c: char): (r: Option<nat>)
    ensures r.Some? ==> r.value < |s| && s[r.value] == c && forall k :: 0 <= k < r.value ==> s[k] != c
    ensures r.None? ==> forall k :: 0 <= k < |s| ==> s[k] != c
  {
    if s == [] then None
    else if s[0] == c then Some(0)
    else match FirstIndex(s[1..], c)
      case None => None
      case Some(i) => Some(i + 1)
  }

  function LastIndex(s: string, c: char): (r: Option<nat>)
    ensures r.Some? ==> r.value < |s| && s[r.value] == c && forall k :: r.value < k < |s| ==> s[k] != c
    ensures r.None? ==> forall k :: 0 <= k < |s| ==> s[k] != c
  {
    if s == [] then None
    else if s[|s| - 1] == c then Some(|s| - 1)
    else LastIndex(s[..|s| - 1], c)
  }

  /** The pattern /\[[\s\S]*\]/ can match exactly the characters s[i..j+1]. */
  ghost predicate CanMatch(s: string, i: int, j: int) {
    0 <= i < j < |s| && s[i] == '[' && s[j] == ']'
  }

  /**
   * The match a JavaScript regular expression reports: the leftmost start at
   * which the pattern matches, and there the longest match, since `*` is greedy.
   */
  ghost predicate IsReportedMatch(s: string, i: int, j: int) {
    && CanMatch(s, i, j)
    && (forall i', j' :: CanMatch(s, i', j') ==> i <= i')
    && (forall j' :: CanMatch(s, i, j') ==> j' <= j)
  }

  /**
   * `directorResult.content.match(/\[[\s\S]*\]/)?.[0]`: from the first `[` to
   * the last `]`, present exactly when some `[` comes before some `]`.
   * Brackets are not balanced: two arrays in one reply give one span covering both.
   */
  function BracketSpan(s: string): (r: Option<string>)
    ensures r.None? <==> forall i, j :: !CanMatch(s, i, j)
    ensures r.Some? ==> exists i, j :: IsReportedMatch(s, i, j) && r.value == s[i..j + 1]
  {
    match (FirstIndex(s, '['), LastIndex(s, ']'))
    case (Some(i), Some(j)) =>
      if i < j then
        assert IsReportedMatch(s, i, j);
        Some(s[i..j + 1])
      else None
    case _ => None
  }

  /** The fixed text of the director's prompt before and after the worker count. */
  const PromptHead := "You are a director agent. Given the following task, break it down into "
  const PromptTail := " sub-tasks, one for each worker. Return ONLY a JSON array of strings, each being a sub-task.\n\nTask: "
  /** The message sent to the director in place of the user's input. */
  function DirectorPrompt(workerCount: nat, input: string): (p: string)
    ensures PromptHead <= p && |input| <= |p| && p[|p| - |input|..] == input
  {
    PromptHead + Text.NatToString(workerCount) + PromptTail + input
  }

  /**
   * The array `subTasks`: the parsed span; `[input]` when there is no span;
   * one copy of `input` per worker when the span does not parse.
   */
  function SubTaskList(directorText: string, input: string, workerCount: nat): (r: seq<string>)
    ensures forall k :: 0 <= k < |r| && r[k] != input ==>
      BracketSpan(directorText).Some? && JsonStrings.ParseStringArray(BracketSpan(directorText).value) == Some(r)
  {
    match BracketSpan(directorText)
    case None => [input]
    case Some(span) =>
      match JsonStrings.ParseStringArray(span)
      case Some(xs) => xs
      case None => seq(workerCount, _ => input)
  }

  /** `subTasks[idx] || input`: a missing or empty entry falls back to the input. */
  function TaskFor(subTasks: seq<string>, idx: nat, input: string): string {
    if idx < |subTasks| && subTasks[idx] != "" then subTasks[idx] else input
  }

  /** The sub-task of worker `idx` of `workerCount`, from the director's reply. */
  function WorkerTask(directorText: string, input: string, workerCount: nat, idx: nat): (t: string)
    ensures t == "" ==> input == ""
  {
    TaskFor(SubTaskList(directorText, input, workerCount), idx, input)
  }

  /**
   * Every worker's task is either the original input or the non-empty entry at
   * the worker's own position in the array the director wrote.
   */
  lemma WorkerTaskOrigin(directorText: string, input: string, workerCount: nat, idx: nat)
    ensures var t := WorkerTask(directorText, input, workerCount, idx);
      || t == input
      || (&& BracketSpan(directorText).Some?
          && var xs := JsonStrings.ParseStringArray(BracketSpan(directorText).value);
          && xs.Some? && idx < |xs.value| && xs.value[idx] == t && t != "")
  {
  }

  /** Without a span that parses, every worker is given the original input. */
  lemma FallbackToInput(directorText: string, input: string, workerCount: nat, idx: nat)
    requires BracketSpan(directorText).None? || JsonStrings.ParseStringArray(BracketSpan(directorText).value).None?
    ensures WorkerTask(directorText, input, workerCount, idx) == input
  {
  }

  /** A parsed array assigns its entries by position; missing and empty entries fall back to the input. */
  lemma ParsedTasksByPosition(directorText: string, input: string, workerCount: nat, idx: nat, xs: seq<string>)
    requires BracketSpan(directorText).Some?
    requires JsonStrings.ParseStringArray(BracketSpan(directorText).value) == Some(xs)
    ensures idx < |xs| && xs[idx] != "" ==> WorkerTask(directorText, input, workerCount, idx) == xs[idx]
    ensures idx >= |xs| || xs[idx] == "" ==> WorkerTask(directorText, input, workerCount, idx) == input
  {
  }

  /** Text without brackets followed by a bracketed text: the span is the bracketed text. */
  lemma SpanAfterPlainText(prefix: string, body: string)
    requires forall k :: 0 <= k < |prefix| ==> prefix[k] != '['
    requires |body| >= 2 && body[0] == '[' && body[|body| - 1] == ']'
    ensures BracketSpan(prefix + body) == Some(body)
  {
    var s := prefix + body;
    var i, j := |prefix|, |s| - 1;
    assert CanMatch(s, i, j);
    var r := BracketSpan(s).value;
    var i', j' :| IsReportedMatch(s, i', j') && r == s[i'..j' + 1];
    assert i' == i;
    assert j' == j;
    assert s[i..j + 1] == body;
  }

  lemma SkipWsAppend(a: string, b: string)
    requires JsonStrings.SkipWs(a) != []
    ensures JsonStrings.SkipWs(a + b) != []
  {
    if a != [] && JsonStrings.IsJsonWs(a[0]) {
      assert (a + b)[1..] == a[1..] + b;
      SkipWsAppend(a[1..], b);
    }
  }

  /**
   * A director that writes two arrays separated by text gets neither: the
   * greedy span covers both arrays and does not parse, so every worker is
   * given the original input.
   */
  lemma TwoArraysFallBack(prefix: string, xs: seq<string>, middle: string, ys: seq<string>,
                          input: string, workerCount: nat, idx: nat)
    requires forall k :: 0 <= k < |prefix| ==> prefix[k] != '['
    requires JsonStrings.SkipWs(middle) != []
    ensures WorkerTask(prefix + JsonStrings.RenderStringArray(xs) + middle + JsonStrings.RenderStringArray(ys),
                       input, workerCount, idx) == input
  {
    var first, second := JsonStrings.RenderStringArray(xs), JsonStrings.RenderStringArray(ys);
    var body := first + (middle + second);
    JsonStrings.RegroupTail(prefix, first, middle, second);
    JsonStrings.ArrayBrackets(xs);
    JsonStrings.ArrayBrackets(ys);
    assert body[0] == first[0];
    assert body[|body| - 1] == second[|second| - 1];
    SpanAfterPlainText(prefix, body);
    SkipWsAppend(middle, second);
    JsonStrings.TrailingTextRefused(xs, middle + second);
    FallbackToInput(prefix + body, input, workerCount, idx);
  }

  /** A reply without brackets: both workers are given the original input. */
  lemma NoArrayExample(input: string)
    ensures WorkerTask("no array here", input, 2, 0) == input
    ensures WorkerTask("no array here", input, 2, 1) == input
  {
    var s := "no array here";
    assert forall k :: 0 <= k < |s| ==> s[k] != '[';
    assert forall i, j :: !CanMatch(s, i, j);
    FallbackToInput(s, input, 2, 0);
    FallbackToInput(s, input, 2, 1);
  }

  lemma Task1Rendered()
    ensures JsonStrings.RenderString("task1") == "\"task1\""
  {
    JsonStrings.EscapeBodyPlain("task1");
  }

  lemma Task2Rendered()
    ensures JsonStrings.RenderElements(["task2"]) == "\"task2\""
  {
    JsonStrings.EscapeBodyPlain("task2");
  }

  /** The JSON text `["task1", "task2"]`, piece by piece. */
  const TwoTasksJson: string := "[" + "\"task1\"" + ", " + "\"task2\"" + "]"

  lemma TwoTasksRendered()
    ensures JsonStrings.RenderStringArray(["task1", "task2"]) == TwoTasksJson
  {
    Task1Rendered();
    Task2Rendered();
    assert ["task1", "task2"][1..] == ["task2"];
  }

  /** A reply with an array of two sub-tasks after some text: worker 0 gets the first, worker 1 the second. */
  lemma TwoTasksExample(input: string)
    ensures WorkerTask("Sub-tasks: " + TwoTasksJson, input, 2, 0) == "task1"
    ensures WorkerTask("Sub-tasks: " + TwoTasksJson, input, 2, 1) == "task2"
  {
    var xs := ["task1", "task2"];
    var prefix := "Sub-tasks: ";
    TwoTasksRendered();
    assert forall k :: 0 <= k < |prefix| ==> prefix[k] != '[';
    SpanAfterPlainText(prefix, TwoTasksJson);
    JsonStrings.ArrayRoundTrip(xs);
    ParsedTasksByPosition(prefix + TwoTasksJson, input, 2, 0, xs);
    ParsedTasksByPosition(prefix + TwoTasksJson, input, 2, 1, xs);
  }
}
