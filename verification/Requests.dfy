/** The two run endpoints of zomega/run_service.py: which calls become requests, and what each request
    carries of its call. */
module Requests {
  import opened Rows
  import opened Tables
  import opened Pricing
  import opened Admission

  /** What the skills of a workflow reserve together. */
  function Reserves(c: Catalog, workflow: seq<string>): int
    requires forall s :: s in workflow ==> s in c.skills
  {
    if |workflow| == 0 then 0
    else Reserves(c, workflow[..|workflow| - 1]) + c.skills[workflow[|workflow| - 1]].billing.reservation
  }

  predicate Known(c: Catalog, agent: string) {
    agent in c.agents && forall s :: s in c.agents[agent] ==> s in c.skills
  }

  /** r is the least of the workflow's reservations, the platform's cap and the caller's max_spend. */
  predicate LeastBudget(total: int, cap: int, maxSpend: Option<int>, r: int) {
    && r <= total && r <= cap && (maxSpend.Some? ==> r <= maxSpend.value)
    && (r == total || r == cap || maxSpend == Some(r))
  }

  lemma {:induction false} SumIsReserves(c: Catalog, workflow: seq<string>)
    requires forall s :: s in workflow ==> s in c.skills
    ensures Sum(workflow, (s: string) => if s in c.skills then SkillReservation(c.skills[s]) else 0)
         == Reserves(c, workflow)
    decreases |workflow|
  {
    if |workflow| > 0 {
      SumIsReserves(c, workflow[..|workflow| - 1]);
    }
  }

  /** create_agent_run: an unknown agent or skill is not found, a budget that is not positive is invalid, and
      any other call reaches admission with its tenant, agent, payload and key as they were given. */
  lemma AgentRequestDecides(c: Catalog, t: nat, agent: string, payload: string, maxSpend: Option<int>,
                            key: Option<string>)
    ensures var q := AgentRequest(c, t, agent, payload, maxSpend, key);
            if !Known(c, agent) then q == RolledBack(NotFound)
            else
              exists r :: LeastBudget(Reserves(c, c.agents[agent]), c.maxRunCredits, maxSpend, r)
                          && if r <= 0 then q == RolledBack(InvalidRequest)
                             else q == Committed(Request(t, Fingerprint(agent, None, payload, r), key))
  {
    if Known(c, agent) {
      var total := Reserves(c, c.agents[agent]);
      SumIsReserves(c, c.agents[agent]);
      var capped := if total <= c.maxRunCredits then total else c.maxRunCredits;
      var r := if maxSpend.Some? && maxSpend.value < capped then maxSpend.value else capped;
      assert LeastBudget(total, c.maxRunCredits, maxSpend, r);
    }
  }

  /** create_skill_run: an unknown or disabled skill is not found, one outside the plan is forbidden, and any
      other call reaches admission, for the skill's own agent and its whole reservation. */
  lemma SkillRequestDecides(c: Catalog, t: nat, plan: string, skill: string, payload: string, key: Option<string>)
    ensures var q := SkillRequest(c, t, plan, skill, payload, key);
            && (q.Committed? <==> skill in c.skills && c.skills[skill].enabled && plan in c.skills[skill].plans)
            && (q == RolledBack(Forbidden) <==>
                  skill in c.skills && c.skills[skill].enabled && plan !in c.skills[skill].plans)
            && (q.RolledBack? ==> q.error in {NotFound, Forbidden})
            && (q.Committed? ==>
                  && q.value.tenant == t && q.value.key == key
                  && q.value.fingerprint.agent == c.skills[skill].agent && q.value.fingerprint.skill == Some(skill)
                  && q.value.fingerprint.payload == payload
                  && q.value.fingerprint.reservation == c.skills[skill].billing.reservation)
  {
  }
}
