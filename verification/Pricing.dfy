/** Skill prices and the catalog (zomega/pricing.py, zomega/catalog.py). */
module Pricing {
  datatype Billing =
    | Fixed(basePrice: int, reservation: int)
    | Metered(basePrice: int, reservation: int, inputPer1000: int, outputPer1000: int)

  datatype Skill = Skill(agent: string, enabled: bool, plans: set<string>, billing: Billing)

  /** The YAML catalog, fixed while runs execute; `maxRunCredits` is zomega_max_run_credits. */
  datatype Catalog = Catalog(skills: map<string, Skill>, agents: map<string, seq<string>>, maxRunCredits: int)

  function SkillReservation(skill: Skill): int {
    skill.billing.reservation
  }

  /** Started thousands of tokens. */
  function Thousands(tokens: nat): nat {
    (tokens + 999) / 1000
  }

  function SkillCharge(skill: Skill, tokensIn: nat, tokensOut: nat): int {
    match skill.billing
    case Fixed(base, _) => base
    case Metered(base, _, perIn, perOut) =>
      base + Thousands(tokensIn) * perIn + Thousands(tokensOut) * perOut
  }

  predicate NonNegativePrices(skill: Skill) {
    && skill.billing.basePrice >= 0
    && (skill.billing.Metered? ==> skill.billing.inputPer1000 >= 0 && skill.billing.outputPer1000 >= 0)
  }

  predicate Distinct(s: seq<string>) {
    forall i, j :: 0 <= i < j < |s| ==> s[i] != s[j]
  }

  predicate ValidCatalog(c: Catalog) {
    && (forall s :: s in c.skills ==> NonNegativePrices(c.skills[s]) && SkillReservation(c.skills[s]) > 0)
    && (forall a :: a in c.agents ==> Distinct(c.agents[a]) && forall s :: s in c.agents[a] ==> s in c.skills)
  }

  /** A charge is never negative and never falls when more tokens are used. */
  lemma ChargeIsMonotone(skill: Skill, tokensIn: nat, tokensOut: nat, moreIn: nat, moreOut: nat)
    requires NonNegativePrices(skill) && tokensIn <= moreIn && tokensOut <= moreOut
    ensures 0 <= SkillCharge(skill, tokensIn, tokensOut) <= SkillCharge(skill, moreIn, moreOut)
  {
    if skill.billing.Metered? {
      MultiplyMonotone(Thousands(tokensIn), Thousands(moreIn), skill.billing.inputPer1000);
      MultiplyMonotone(Thousands(tokensOut), Thousands(moreOut), skill.billing.outputPer1000);
    }
  }

  /** What a metered charge grows by: the input price for each thousand of input tokens started, the output
      price for each thousand of output tokens, from the base price up and by nothing in between. */
  lemma ChargeIsMetered(skill: Skill, tokensIn: nat, tokensOut: nat, m: nat)
    requires skill.billing.Metered?
    ensures SkillCharge(skill, 0, 0) == skill.billing.basePrice
    ensures SkillCharge(skill, tokensIn + 1000, tokensOut) - SkillCharge(skill, tokensIn, tokensOut)
         == skill.billing.inputPer1000
    ensures SkillCharge(skill, tokensIn, tokensOut + 1000) - SkillCharge(skill, tokensIn, tokensOut)
         == skill.billing.outputPer1000
    ensures 1000 * m < tokensIn <= 1000 * (m + 1) ==>
              SkillCharge(skill, tokensIn, tokensOut) == SkillCharge(skill, 1000 * (m + 1), tokensOut)
    ensures 1000 * m < tokensOut <= 1000 * (m + 1) ==>
              SkillCharge(skill, tokensIn, tokensOut) == SkillCharge(skill, tokensIn, 1000 * (m + 1))
  {
    var perIn, perOut := skill.billing.inputPer1000, skill.billing.outputPer1000;
    assert Thousands(tokensIn + 1000) == Thousands(tokensIn) + 1;
    assert Thousands(tokensOut + 1000) == Thousands(tokensOut) + 1;
    assert (Thousands(tokensIn) + 1) * perIn == Thousands(tokensIn) * perIn + perIn;
    assert (Thousands(tokensOut) + 1) * perOut == Thousands(tokensOut) * perOut + perOut;
  }

  /** A fixed price does not look at the tokens. */
  lemma FixedChargeIsFixed(skill: Skill, tokensIn: nat, tokensOut: nat)
    requires skill.billing.Fixed?
    ensures SkillCharge(skill, tokensIn, tokensOut) == skill.billing.basePrice
  {
  }

  lemma MultiplyMonotone(a: nat, b: nat, price: int)
    requires a <= b && price >= 0
    ensures 0 <= a * price <= b * price
  {
    assert b * price - a * price == (b - a) * price;
  }
}
