/**
 * The step list of the workflow editor. Each edit builds a new list: adding a
 * step appends the first agent at the next position, removing a step renumbers
 * the rest, and changing a step's agent replaces that step's `agent_id` only.
 * Together they keep the orders 0, 1, ..., n-1 that the run sorts on.
 */
module WorkflowEditor {
  import Steps
  import RunModel
  import RunWorkflow

  /** An entry of the editor's agent list: the agents the user may pick from. */
  datatype AgentRef = AgentRef(id: string, name: string)

  /** The agent ids of a step list, in list order. */
  function AgentIdsOf(s: seq<Steps.Step>): (ids: seq<string>)
    ensures |ids| == |s| && forall i :: 0 <= i < |s| ==> ids[i] == s[i].agentId
  {
    seq(|s|, i requires 0 <= i < |s| => s[i].agentId)
  }

  /** `addStep`: without agents nothing changes; otherwise the first agent is appended at position `|steps|`. */
  function AddStep(agents: seq<AgentRef>, steps: seq<Steps.Step>): (r: seq<Steps.Step>)
    ensures agents == [] ==> r == steps
    ensures agents != [] ==>
      |r| == |steps| + 1 && r[..|steps|] == steps && r[|steps|].agentId == agents[0].id && r[|steps|].order == |steps|
  {
    if agents == [] then steps else steps + [Steps.Step(agents[0].id, |steps|)]
  }

  /** `filter((_, i) => i !== idx)`: every step but the one at `idx`. */
  function Without(steps: seq<Steps.Step>, idx: int): seq<Steps.Step> {
    if steps == [] then []
    else
      var n := |steps| - 1;
      Without(steps[..n], idx) + (if n == idx then [] else [steps[n]])
  }

  /** Dropping position `idx` removes exactly that step when it exists and nothing otherwise. */
  lemma {:induction false} WithoutIsSplice(steps: seq<Steps.Step>, idx: int)
    ensures 0 <= idx < |steps| ==> Without(steps, idx) == steps[..idx] + steps[idx + 1..]
    ensures !(0 <= idx < |steps|) ==> Without(steps, idx) == steps
  {
    if steps != [] {
      var n := |steps| - 1;
      var p := steps[..n];
      assert Without(steps, idx) == Without(p, idx) + (if n == idx then [] else [steps[n]]);
      WithoutIsSplice(p, idx);
      if 0 <= idx < n {
        assert p[..idx] == steps[..idx];
        assert p[idx + 1..] + [steps[n]] == steps[idx + 1..];
        assert Without(steps, idx) == steps[..idx] + (p[idx + 1..] + [steps[n]]);
      } else if idx == n {
        assert steps[idx + 1..] == [];
        assert p == steps[..idx];
      } else {
        assert p + [steps[n]] == steps;
      }
    }
  }

  /** `map((s, i) => ({ ...s, order: i }))`: the same steps numbered by position. */
  function Renumber(s: seq<Steps.Step>): (r: seq<Steps.Step>)
    ensures |r| == |s| && Steps.DenseOrders(r) && AgentIdsOf(r) == AgentIdsOf(s)
  {
    seq(|s|, i requires 0 <= i < |s| => s[i].(order := i))
  }

  /** `removeStep(idx)`. */
  function RemoveStep(steps: seq<Steps.Step>, idx: int): (r: seq<Steps.Step>)
    ensures Steps.DenseOrders(r)
  {
    Renumber(Without(steps, idx))
  }

  /**
   * After a removal the orders are 0..n-1, whatever they were before; an index
   * in range removes that step and keeps the other agents in their order, any
   * other index keeps every step's agent.
   */
  lemma RemoveStepSpec(steps: seq<Steps.Step>, idx: int)
    ensures Steps.DenseOrders(RemoveStep(steps, idx))
    ensures 0 <= idx < |steps| ==>
      && |RemoveStep(steps, idx)| == |steps| - 1
      && AgentIdsOf(RemoveStep(steps, idx)) == AgentIdsOf(steps[..idx]) + AgentIdsOf(steps[idx + 1..])
    ensures !(0 <= idx < |steps|) ==> AgentIdsOf(RemoveStep(steps, idx)) == AgentIdsOf(steps)
  {
    WithoutIsSplice(steps, idx);
    if 0 <= idx < |steps| {
      var rest := steps[..idx] + steps[idx + 1..];
      assert AgentIdsOf(rest) == AgentIdsOf(steps[..idx]) + AgentIdsOf(steps[idx + 1..]);
    }
  }

  /**
   * The agent select of step `idx`: a copy of the list in which only step
   * `idx` changes, and only its agent; its order and every other step stay.
   */
  function ChangeAgent(steps: seq<Steps.Step>, idx: nat, agentId: string): (r: seq<Steps.Step>)
    requires idx < |steps|
    ensures |r| == |steps| && r[idx] == Steps.Step(agentId, steps[idx].order)
    ensures forall j :: 0 <= j < |steps| && j != idx ==> r[j] == steps[j]
  {
    steps[idx := steps[idx].(agentId := agentId)]
  }

  /** The save button is enabled only when not saving, with a name, and with at least one step. */
  function CanSave(saving: bool, name: string, steps: seq<Steps.Step>): (ok: bool)
    ensures ok <==> !saving && name != "" && |steps| > 0
  {
    !(saving || name == "" || |steps| == 0)
  }

  /**
   * The save guard against the run: a workflow the editor can save has a step,
   * so when its steps name stored agents the run finds one and does not stop
   * at "No agents found"; a step list the guard refuses for being empty would
   * always stop there.
   */
  lemma {:induction false} SaveGuardMatchesRun(saving: bool, name: string, stores: RunWorkflow.Stores, wf: RunModel.Workflow)
    requires forall k :: 0 <= k < |wf.steps| ==> exists a :: a in stores.agents && a.id == wf.steps[k].agentId
    ensures CanSave(saving, name, wf.steps) ==> RunWorkflow.RunAgents(stores, wf) != []
    ensures wf.steps == [] ==> !CanSave(saving, name, wf.steps) && RunWorkflow.RunAgents(stores, wf) == []
  {
    if wf.steps != [] {
      var first := wf.steps[0];
      assert exists a :: a in stores.agents && a.id == first.agentId;
      var a :| a in stores.agents && a.id == first.agentId;
      assert a.id in RunWorkflow.AgentIds(wf.steps);
      assert a in RunWorkflow.RunAgents(stores, wf);
    } else if RunWorkflow.RunAgents(stores, wf) != [] {
      RunWorkflow.AgentsNeedSteps(stores, wf);
    }
  }

  /** One edit of the step list. */
  datatype Edit = Add | Remove(removed: int) | Change(changed: nat, agentId: string)

  function Apply(agents: seq<AgentRef>, steps: seq<Steps.Step>, e: Edit): seq<Steps.Step> {
    match e
    case Add => AddStep(agents, steps)
    case Remove(idx) => RemoveStep(steps, idx)
    case Change(idx, id) => if idx < |steps| then ChangeAgent(steps, idx, id) else steps
  }

  /** The list after a series of edits, from the empty list of a new form. */
  function ApplyAll(agents: seq<AgentRef>, edits: seq<Edit>): seq<Steps.Step> {
    if edits == [] then [] else Apply(agents, ApplyAll(agents, edits[..|edits| - 1]), edits[|edits| - 1])
  }

  /** Every edit keeps the numbering dense. */
  lemma ApplyKeepsDense(agents: seq<AgentRef>, steps: seq<Steps.Step>, e: Edit)
    requires Steps.DenseOrders(steps)
    ensures Steps.DenseOrders(Apply(agents, steps, e))
  {
    match e
    case Add =>
    case Remove(idx) => RemoveStepSpec(steps, idx);
    case Change(idx, id) =>
  }

  /**
   * Whatever the user does in the editor, the saved steps are numbered
   * 0..n-1, so a sequential run takes them in the order the editor shows.
   */
  lemma {:induction false} EditorStepsRunInOrder(agents: seq<AgentRef>, edits: seq<Edit>)
    ensures Steps.DenseOrders(ApplyAll(agents, edits))
    ensures Steps.SortByOrder(ApplyAll(agents, edits)) == ApplyAll(agents, edits)
  {
    if edits != [] {
      EditorStepsRunInOrder(agents, edits[..|edits| - 1]);
      ApplyKeepsDense(agents, ApplyAll(agents, edits[..|edits| - 1]), edits[|edits| - 1]);
    }
    Steps.DenseIsSorted(ApplyAll(agents, edits));
  }
}
