/**
 * The driver: the artifact-type -> action message table, the budget
 * bookkeeping, and the round loop around the environment's step.
 */
module Company {
  import opened Common
  import opened Schema
  import opened Environments

  /** The run-time configuration the driver reads and writes (`CONFIG`). */
  class Config {
    var maxBudget: real
    var totalCost: real

    constructor (maxBudget: real, totalCost: real)
      ensures this.maxBudget == maxBudget && this.totalCost == totalCost
    {
      this.maxBudget := maxBudget;
      this.totalCost := totalCost;
    }
  }

  /** `NoMoneyException(total_cost, ...)`: the cost and the budget it exceeded. */
  datatype NoMoney = NoMoney(totalCost: real, maxBudget: real)

  /** The key a `type_action_map` lookup failed on. */
  datatype LookupError = KeyError(key: string)

  /** `_check_balance`: raises exactly when the total cost strictly exceeds the budget. */
  function CheckBalance(totalCost: real, maxBudget: real): (r: Outcome<NoMoney>)
    ensures r.Fail? <==> totalCost > maxBudget
    ensures r.Fail? ==> r.error == NoMoney(totalCost, maxBudget)
  {
    if totalCost > maxBudget then Fail(NoMoney(totalCost, maxBudget)) else Pass
  }

  /**
   * `_get_artifact_msg`: the message for an artifact of type key
   * `artifactType`, carrying the prompt when it is truthy and the
   * artifact's content otherwise.
   */
  function ArtifactMsg(artifactType: string, content: string, prompt: Option<string>): (r: Result<Message, LookupError>)
    ensures r.Ok? <==> artifactType in {"RAW", "PRD", "DESIGN"}
    ensures r.Err? ==> r.error == KeyError(artifactType)
    ensures r.Ok? ==> r.value.content == (if Truthy(prompt) then prompt.value else content)
    ensures artifactType == "RAW" ==> r.Ok? && r.value.causeBy == AddRequirement
    ensures artifactType == "PRD" ==> r.Ok? && r.value.causeBy == WritePrd
    ensures artifactType == "DESIGN" ==> r.Ok? && r.value.causeBy == WriteDesign
  {
    var typeActionMap := map["RAW" := AddRequirement, "PRD" := WritePrd, "DESIGN" := WriteDesign];
    var msgContent := if Truthy(prompt) then prompt.value else content;
    if artifactType in typeActionMap then Ok(Message(msgContent, typeActionMap[artifactType]))
    else Err(KeyError(artifactType))
  }

  /** The total cost after `k` environment steps, step `j` costing `cost(j)`. */
  function Spent(start: real, cost: nat -> real, k: nat): real
  {
    if k == 0 then start else Spent(start, cost, k - 1) + cost(k - 1)
  }

  /** How a run ends: after `steps` environment steps, normally or out of money. */
  datatype RunEnd = Finished(steps: nat) | Broke(steps: nat)

  /**
   * The round loop from a state in which `k` steps are done, the total
   * cost is `total` and `n` rounds remain: each round checks the balance,
   * then steps the environment.
   */
  function Rounds(n: int, total: real, budget: real, cost: nat -> real, k: nat): RunEnd
    decreases if n > 0 then n else 0
  {
    if n <= 0 then Finished(k)
    else if CheckBalance(total, budget).Fail? then Broke(k)
    else Rounds(n - 1, total + cost(k), budget, cost, k + 1)
  }

  /**
   * A run stops at the first round whose balance check sees a cost above
   * the budget, and otherwise performs exactly `n` steps (none when
   * `n <= 0`).
   */
  lemma {:induction false} RoundsCharacterised(n: int, start: real, budget: real, cost: nat -> real, k: nat)
    ensures Rounds(n, Spent(start, cost, k), budget, cost, k).Broke? <==>
              exists m :: k <= m < k + n && Spent(start, cost, m) > budget
    ensures Rounds(n, Spent(start, cost, k), budget, cost, k).Broke? ==>
              var m := Rounds(n, Spent(start, cost, k), budget, cost, k).steps;
              && k <= m < k + n && Spent(start, cost, m) > budget
              && forall j :: k <= j < m ==> Spent(start, cost, j) <= budget
    ensures Rounds(n, Spent(start, cost, k), budget, cost, k).Finished? ==>
              Rounds(n, Spent(start, cost, k), budget, cost, k).steps == k + (if n > 0 then n else 0)
    decreases if n > 0 then n else 0
  {
    if n > 0 && Spent(start, cost, k) <= budget {
      assert Spent(start, cost, k + 1) == Spent(start, cost, k) + cost(k);
      RoundsCharacterised(n - 1, start, budget, cost, k + 1);
      if Rounds(n, Spent(start, cost, k), budget, cost, k).Broke? {
        var m :| k + 1 <= m < k + 1 + (n - 1) && Spent(start, cost, m) > budget;
        assert k <= m < k + n;
      } else {
        forall m | k <= m < k + n
          ensures Spent(start, cost, m) <= budget
        {
          if m > k {
            assert k + 1 <= m < k + 1 + (n - 1);
          }
        }
      }
    } else if n > 0 {
      assert k <= k < k + n && Spent(start, cost, k) > budget;
    }
  }

  /** Equal cost and budget passes the balance check. */
  lemma ExactBudgetPasses(amount: real)
    ensures CheckBalance(amount, amount) == Pass
  {
  }

  class SoftwareCompany {
    var investment: real
    const config: Config
    const environment: Environment

    constructor (config: Config, environment: Environment)
      ensures this.config == config && this.environment == environment
      ensures investment == 10.0
    {
      this.config := config;
      this.environment := environment;
      investment := 10.0;
    }

    /** `hire`: adds the roles to the environment. */
    method Hire(roles: seq<Role>)
      requires environment.Valid()
      modifies environment
      ensures environment.Valid()
      ensures environment.roles == RegisterAll(old(environment.roles), roles)
      ensures environment.eventQueue == old(environment.eventQueue)
      ensures environment.history == old(environment.history)
      ensures environment.boundRoles == old(environment.boundRoles) + roles
      ensures environment.memory == old(environment.memory)
      ensures environment.taskQueue == old(environment.taskQueue)
    {
      environment.AddRoles(roles);
    }

    /** `invest`: the investment and the configured budget become `amount`. */
    method Invest(amount: real)
      modifies this, config
      ensures investment == amount && config.maxBudget == amount
      ensures config.totalCost == old(config.totalCost)
    {
      investment := amount;
      config.maxBudget := amount;
    }

    /**
     * `run`: `nRound` rounds, each checking the balance and then stepping
     * the environment; step `k` of the environment (its roles' work, not
     * part of this model) costs `cost(k)`. Returns the environment's
     * history, or the NoMoney exception of the first failed check.
     */
    method Run(nRound: int, cost: nat -> real) returns (r: Result<string, NoMoney>)
      modifies config
      ensures config.maxBudget == old(config.maxBudget)
      ensures var end := Rounds(nRound, old(config.totalCost), old(config.maxBudget), cost, 0);
        && config.totalCost == Spent(old(config.totalCost), cost, end.steps)
        && (end.Finished? ==> r == Ok(environment.history))
        && (end.Broke? ==> r == Err(NoMoney(config.totalCost, config.maxBudget)))
    {
      var n := nRound;
      var k := 0;
      while n > 0
        invariant config.maxBudget == old(config.maxBudget)
        invariant config.totalCost == Spent(old(config.totalCost), cost, k)
        invariant Rounds(n, config.totalCost, config.maxBudget, cost, k)
               == Rounds(nRound, old(config.totalCost), old(config.maxBudget), cost, 0)
        decreases n
      {
        n := n - 1;
        var balance := CheckBalance(config.totalCost, config.maxBudget);
        if balance.Fail? {
          return Err(balance.error);
        }
        config.totalCost := config.totalCost + cost(k);
        k := k + 1;
      }
      r := Ok(environment.history);
    }
  }
}
