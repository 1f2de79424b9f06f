/**
 * The platform that brings the four agents up and down: each agent is
 * created on its fixed port, started, and only then recorded; stopping visits
 * the recorded agents in the order they were recorded. A start or stop that
 * raises ends the whole operation; whether each one succeeds is a parameter.
 */
module Platform {
  import opened Wrappers
  import opened OrderedMap
  import Agents

  /** An agent as the platform creates it: id, host and port. */
  datatype AgentSpec = AgentSpec(agentId: string, host: string, port: int)

  /** The agents in start order: the ear before the eye, so it gets the microphone first. */
  const StartOrder: seq<AgentSpec> := [
    AgentSpec("brain", "localhost", 8010),
    AgentSpec("ear", "localhost", 8012),
    AgentSpec("eye", "localhost", 8011),
    AgentSpec("mouth", "localhost", 8013)
  ]

  function Ids(specs: seq<AgentSpec>): (r: seq<string>)
    ensures |r| == |specs| && forall i :: 0 <= i < |specs| ==> r[i] == specs[i].agentId
  {
    seq(|specs|, i requires 0 <= i < |specs| => specs[i].agentId)
  }

  /** How many of `ids`, from the front, succeed before the first failure. */
  function Leading(ids: seq<string>, ok: string -> bool): (n: nat)
    ensures n <= |ids|
  {
    if ids == [] || !ok(ids[0]) then 0 else 1 + Leading(ids[1..], ok)
  }

  /** The count of leading successes is the index of the first failure, or the length. */
  lemma {:induction false} LeadingIsFirstFailure(ids: seq<string>, ok: string -> bool, i: nat)
    requires i <= |ids|
    requires forall j :: 0 <= j < i ==> ok(ids[j])
    requires i == |ids| || !ok(ids[i])
    ensures Leading(ids, ok) == i
  {
    if i > 0 {
      LeadingIsFirstFailure(ids[1..], ok, i - 1);
    }
  }

  /** Within the leading run, the next one succeeds exactly when the run reaches past it. */
  lemma {:induction false} LeadingStep(ids: seq<string>, ok: string -> bool, i: nat)
    requires i < |ids| && i <= Leading(ids, ok)
    ensures ok(ids[i]) <==> i + 1 <= Leading(ids, ok)
  {
    if i > 0 {
      LeadingStep(ids[1..], ok, i - 1);
    }
  }

  /** Recording the agents one after another. */
  function Register(d: ODict<string, AgentSpec>, specs: seq<AgentSpec>): (r: ODict<string, AgentSpec>)
    requires d.Valid()
    ensures r.Valid()
  {
    if specs == [] then d
    else
      Register(d, specs[..|specs| - 1]).Put(specs[|specs| - 1].agentId, specs[|specs| - 1])
  }

  /** Recording one more agent puts it on top of the record so far. */
  lemma RegisterSnoc(d: ODict<string, AgentSpec>, specs: seq<AgentSpec>, spec: AgentSpec)
    requires d.Valid()
    ensures Register(d, specs + [spec]) == Register(d, specs).Put(spec.agentId, spec)
  {
    assert (specs + [spec])[..|specs|] == specs;
  }

  /** Each recorded agent sits under its own id, the last one recorded under an id winning. */
  lemma {:induction false} RegisterEntries(d: ODict<string, AgentSpec>, specs: seq<AgentSpec>, k: string)
    requires d.Valid()
    ensures k in Register(d, specs).entries <==> k in d.entries || k in Ids(specs)
    ensures k !in Ids(specs) && k in d.entries ==> Register(d, specs).entries[k] == d.entries[k]
    ensures forall i :: 0 <= i < |specs| && specs[i].agentId == k && k !in Ids(specs[i + 1..]) ==>
      Register(d, specs).entries[k] == specs[i]
    decreases |specs|
  {
    if specs != [] {
      var init := specs[..|specs| - 1];
      RegisterEntries(d, init, k);
      assert Ids(specs) == Ids(init) + [specs[|specs| - 1].agentId];
    }
    RegisterLastWins(d, specs, k);
  }

  /** The agent recorded last under an id is the one the record holds for it. */
  lemma {:induction false} RegisterLastWins(d: ODict<string, AgentSpec>, specs: seq<AgentSpec>, k: string)
    requires d.Valid()
    ensures forall i :: 0 <= i < |specs| && specs[i].agentId == k && k !in Ids(specs[i + 1..]) ==>
      k in Register(d, specs).entries && Register(d, specs).entries[k] == specs[i]
    decreases |specs|
  {
    if specs != [] {
      var init := specs[..|specs| - 1];
      RegisterLastWins(d, init, k);
      forall i | 0 <= i < |specs| - 1 && specs[i].agentId == k && k !in Ids(specs[i + 1..])
        ensures init[i].agentId == k && k !in Ids(init[i + 1..])
      {
        assert Ids(specs[i + 1..]) == Ids(init[i + 1..]) + [specs[|specs| - 1].agentId];
      }
    }
  }

  /** Recording agents with new, distinct ids appends their ids to the order. */
  lemma {:induction false} RegisterOrder(d: ODict<string, AgentSpec>, specs: seq<AgentSpec>)
    requires d.Valid()
    requires forall i, j :: 0 <= i < j < |specs| ==> specs[i].agentId != specs[j].agentId
    requires forall i :: 0 <= i < |specs| ==> specs[i].agentId !in d.entries
    ensures Register(d, specs).keys == d.keys + Ids(specs)
    decreases |specs|
  {
    if specs != [] {
      var init := specs[..|specs| - 1];
      var last := specs[|specs| - 1];
      assert specs == init + [last];
      RegisterOrder(d, init);
      RegisterEntries(d, init, last.agentId);
      assert last.agentId !in Ids(init) by {
        forall i | 0 <= i < |init|
          ensures Ids(init)[i] != last.agentId
        {
          assert Ids(init)[i] == specs[i].agentId;
        }
      }
      RegisterAppendsNew(d, init, last);
    }
  }

  /** An agent whose id is not yet recorded goes to the end of the order. */
  lemma RegisterAppendsNew(d: ODict<string, AgentSpec>, init: seq<AgentSpec>, last: AgentSpec)
    requires d.Valid()
    requires Register(d, init).keys == d.keys + Ids(init)
    requires last.agentId !in Register(d, init).entries
    ensures Register(d, init + [last]).keys == d.keys + Ids(init + [last])
  {
    RegisterSnoc(d, init, last);
    assert Ids(init + [last]) == Ids(init) + [last.agentId];
  }

  /** The fixed ports are the ones every agent dials to reach its peers. */
  lemma PortsAgreeWithDefaults()
    ensures forall i :: 0 <= i < |StartOrder| ==>
      Agents.DefaultAddress(StartOrder[i].agentId) == Some(Agents.Address(StartOrder[i].host, StartOrder[i].port))
  {
  }

  class AgentPlatform {
    /** The started agents by id, in the order they were recorded. */
    var agents: ODict<string, AgentSpec>

    constructor ()
      ensures agents == Empty()
    {
      agents := Empty();
    }

    /**
     * Starts brain, ear, eye and mouth in that order, recording each after
     * its start returns; the first start that raises ends the operation, and
     * that agent and the later ones are not recorded.
     */
    method Start(startOk: string -> bool) returns (failed: Option<string>)
      requires agents.Valid()
      modifies this`agents
      ensures var k := Leading(Ids(StartOrder), startOk);
        && agents == Register(old(agents), StartOrder[..k])
        && (k < |StartOrder| ==> failed == Some(StartOrder[k].agentId))
        && (k == |StartOrder| ==> failed.None?)
    {
      failed := StartEach(StartOrder, startOk);
    }

    /** Starts and records the given agents in order, up to the first whose start raises. */
    method StartEach(order: seq<AgentSpec>, startOk: string -> bool) returns (failed: Option<string>)
      requires agents.Valid()
      modifies this`agents
      ensures var k := Leading(Ids(order), startOk);
        && agents == Register(old(agents), order[..k])
        && (k < |order| ==> failed == Some(order[k].agentId))
        && (k == |order| ==> failed.None?)
    {
      ghost var ids := Ids(order);
      for i := 0 to |order|
        invariant agents.Valid()
        invariant agents == Register(old(agents), order[..i])
        invariant i <= Leading(ids, startOk)
      {
        var spec := order[i];
        assert ids[i] == spec.agentId;
        LeadingStep(ids, startOk, i);
        if !startOk(spec.agentId) {
          return Some(spec.agentId);
        }
        assert order[..i + 1] == order[..i] + [spec];
        RegisterSnoc(old(agents), order[..i], spec);
        agents := agents.Put(spec.agentId, spec);
      }
      assert order[..|order|] == order;
      return None;
    }

    /**
     * Stops the recorded agents in recording order; the first stop that
     * raises ends the operation. The record itself is left as it is.
     */
    method Stop(stopOk: string -> bool) returns (stopped: seq<string>, failed: Option<string>)
      ensures var m := Leading(agents.keys, stopOk);
        && stopped == agents.keys[..m]
        && (m < |agents.keys| ==> failed == Some(agents.keys[m]))
        && (m == |agents.keys| ==> failed.None?)
    {
      stopped := [];
      for i := 0 to |agents.keys|
        invariant stopped == agents.keys[..i]
        invariant forall j :: 0 <= j < i ==> stopOk(agents.keys[j])
      {
        var agentId := agents.keys[i];
        if !stopOk(agentId) {
          LeadingIsFirstFailure(agents.keys, stopOk, i);
          return stopped, Some(agentId);
        }
        stopped := stopped + [agentId];
      }
      LeadingIsFirstFailure(agents.keys, stopOk, |agents.keys|);
      return stopped, None;
    }
  }

  /** On a fresh platform, the agents that started are recorded in start order. */
  lemma FreshStartOrder(startOk: string -> bool)
    ensures var k := Leading(Ids(StartOrder), startOk);
      Register(Empty(), StartOrder[..k]).keys == Ids(StartOrder)[..k]
  {
    var k := Leading(Ids(StartOrder), startOk);
    assert Ids(StartOrder[..k]) == Ids(StartOrder)[..k];
    RegisterOrder(Empty(), StartOrder[..k]);
  }
}
