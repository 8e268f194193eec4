/** Allowances (contracts/finite.py, contracts/infinite.py), the budget made of two of them
    (contracts/budget.py) and the spend counted beside it (contracts/spend.py). */
module Budgets {

  datatype Allowance = Finite(value: int) | Infinite {
    predicate Permits(cost: int) {
      Finite? ==> value >= cost
    }

    predicate Exhausted() {
      Finite? && value <= 0
    }

    function Minus(count: int): Allowance {
      if Finite? then Finite(value - count) else Infinite
    }
  }

  datatype Budget = Budget(turns: Allowance, toolCalls: Allowance) {
    predicate TurnsExhausted() {
      turns.Exhausted()
    }

    function SpendTurn(): Budget {
      Budget(turns.Minus(1), toolCalls)
    }

    function SpendToolCalls(count: int): Budget {
      Budget(turns, toolCalls.Minus(count))
    }
  }

  datatype Spend = Spend(turns: int, toolCalls: int)

  const NOTHING_SPENT := Spend(0, 0)

  /** What is left and what was spent add up, and a finite allowance is never overdrawn. */
  predicate Accounts(given: Allowance, left: Allowance, spent: int) {
    match given
    case Infinite => left == Infinite && spent >= 0
    case Finite(value) =>
      left.Finite? && left.value + spent == value && spent >= 0 && (left.value >= 0 || spent == 0)
  }

  predicate Balanced(given: Budget, left: Budget, spent: Spend) {
    Accounts(given.turns, left.turns, spent.turns) && Accounts(given.toolCalls, left.toolCalls, spent.toolCalls)
  }

  /** Spending what is permitted keeps the account, and permitting is exactly what keeps it. */
  lemma PermittedKeepsAccount(given: Allowance, left: Allowance, spent: int, cost: int)
    requires Accounts(given, left, spent) && cost > 0
    ensures left.Permits(cost) <==> Accounts(given, left.Minus(cost), spent + cost)
  {
  }
}
