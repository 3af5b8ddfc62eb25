/** Savings goals: the Goal record, its allocation history, the operations of
    GoalService and Goal that move money into and out of a goal, and the goal
    summary. Amounts are in cents; percentages and the suggested monthly
    contribution are reals. */
module Goals {
  import opened Common

  type AccountId = Id

  /** A row of goal_allocations: positive amounts are deposits, negative
      amounts withdrawals. */
  datatype Allocation = Allocation(account: Option<AccountId>, amount: int, notes: Option<string>, date: Date)
  {
    predicate IsDeposit() { amount > 0 }
    predicate IsWithdrawal() { amount < 0 }
  }

  /** No allocation is both a deposit and a withdrawal; a non-zero one is
      exactly one of them. */
  lemma DepositWithdrawalExclusive(a: Allocation)
    ensures !(a.IsDeposit() && a.IsWithdrawal())
    ensures a.amount != 0 <==> (a.IsDeposit() || a.IsWithdrawal())
  {
  }

  function SumAllocations(s: seq<Allocation>): int {
    if s == [] then 0 else SumAllocations(s[..|s| - 1]) + s[|s| - 1].amount
  }

  lemma SumAllocationsAppend(s: seq<Allocation>, a: Allocation)
    ensures SumAllocations(s + [a]) == SumAllocations(s) + a.amount
  {
    assert (s + [a])[..|s|] == s;
  }

  const DefaultIcon: string := "\U{1F3AF}"
  const DefaultColor: string := "bg-blue-500"
  const WithdrawalNote: string := "Withdrawal"

  /** The monthly contribution GoalService::create stores: the given one, or,
      when a deadline is set and none was given, what is still missing spread
      over the months left (at least one). */
  function MonthlyTargetAtCreation(target: int, current: int, deadline: Option<Date>,
                                   given: Option<real>, monthsToDeadline: int): (r: Option<real>)
    ensures given.Some? ==> r == given
    ensures deadline.None? ==> r == given
    ensures deadline.Some? && given.None? ==> r.Some?
  {
    if deadline.Some? && given.None? then
      Some((target - current) as real / Max(monthsToDeadline, 1) as real)
    else given
  }

  /** A derived monthly contribution is the plan that closes the gap: paying it
      every remaining month (at least one) takes the goal from its current
      amount exactly to its target. */
  lemma MonthlyPlanReachesTarget(target: int, current: int, deadline: Option<Date>, monthsToDeadline: int)
    requires deadline.Some?
    ensures var r := MonthlyTargetAtCreation(target, current, deadline, None, monthsToDeadline);
            r.Some? && current as real + r.value * Max(monthsToDeadline, 1) as real == target as real
  {
  }

  /** getProgressAttribute: the share of the target reached, in percent, capped
      at 100, and 0 for a zero target. */
  function Progress(current: int, target: int): real {
    if target == 0 then 0.0 else MinReal(current as real / target as real * 100.0, 100.0)
  }

  /** getRemainingAttribute: what is still missing, never negative. */
  function Remaining(current: int, target: int): int {
    Max(target - current, 0)
  }

  /** Progress stays within [0, 100] for a non-negative balance and a positive
      target, reaches 100 exactly when nothing remains, and the remaining
      amount closes the gap to the target. */
  lemma ProgressAndRemaining(current: int, target: int)
    requires target > 0
    ensures Progress(current, target) <= 100.0
    ensures current >= 0 ==> Progress(current, target) >= 0.0
    ensures Progress(current, target) == 100.0 <==> Remaining(current, target) == 0
    ensures Remaining(current, target) == 0 <==> current >= target
    ensures Remaining(current, target) >= 0 && current + Remaining(current, target) >= target
  {
    var q := current as real / target as real;
    if current < target {
      assert q * (target as real) == current as real;
      assert q < 1.0;
    } else {
      assert q * (target as real) == current as real;
      assert q >= 1.0;
    }
  }

  /** getDaysRemainingAttribute: no deadline means no count; otherwise the days
      until it, never negative. `daysUntil` is the signed day difference from
      the clock to the deadline. */
  function DaysRemaining(deadline: Option<Date>, daysUntil: int): (r: Option<int>)
    ensures r.Some? <==> deadline.Some?
    ensures r.Some? ==> r.value >= 0 && r.value >= daysUntil
    ensures r.Some? && daysUntil >= 0 ==> r.value == daysUntil
    ensures r.Some? && daysUntil <= 0 ==> r.value == 0
  {
    if deadline.None? then None else Some(Max(daysUntil, 0))
  }

  /** The fields GoalService::update may change; an absent field keeps its value. */
  datatype GoalPatch = GoalPatch(
    name: Option<string>,
    icon: Option<string>,
    color: Option<string>,
    targetAmount: Option<int>,
    deadline: Option<Date>,
    monthlyTarget: Option<real>,
    account: Option<AccountId>)

  class Goal {
    var name: string
    var icon: string
    var color: string
    var targetAmount: int
    var currentAmount: int
    var deadline: Option<Date>
    var monthlyTarget: Option<real>
    var account: Option<AccountId>
    var isCompleted: bool
    var allocations: seq<Allocation>
    /** The amount the goal was created with; it is not an allocation. */
    ghost var startAmount: int

    /** The saved amount is the starting amount plus every allocation, and the
        target is at least one cent. */
    ghost predicate Valid()
      reads this
    {
      currentAmount == startAmount + SumAllocations(allocations) && targetAmount >= 1
    }

    /** GoalService::create. `monthsToDeadline` is the month difference the
        clock gives between now and the deadline. */
    constructor (name: string, icon: Option<string>, color: Option<string>, targetAmount: int,
                 currentAmount: Option<int>, deadline: Option<Date>, monthlyTarget: Option<real>,
                 account: Option<AccountId>, monthsToDeadline: int)
      requires targetAmount >= 1
      requires currentAmount.Some? ==> currentAmount.value >= 0
      requires monthlyTarget.Some? ==> monthlyTarget.value >= 0.0
      ensures Valid() && this.currentAmount >= 0
      ensures !isCompleted && allocations == []
      ensures this.name == name && this.icon == icon.GetOr(DefaultIcon) && this.color == color.GetOr(DefaultColor)
      ensures this.targetAmount == targetAmount && this.currentAmount == currentAmount.GetOr(0)
      ensures this.deadline == deadline && this.account == account
      ensures this.monthlyTarget
           == MonthlyTargetAtCreation(targetAmount, currentAmount.GetOr(0), deadline, monthlyTarget, monthsToDeadline)
    {
      this.name := name;
      this.icon := icon.GetOr(DefaultIcon);
      this.color := color.GetOr(DefaultColor);
      this.targetAmount := targetAmount;
      this.currentAmount := currentAmount.GetOr(0);
      this.deadline := deadline;
      this.account := account;
      this.isCompleted := false;
      this.allocations := [];
      this.startAmount := currentAmount.GetOr(0);
      var stored := monthlyTarget;
      if deadline.Some? && stored.None? {
        stored := Some((targetAmount - currentAmount.GetOr(0)) as real / Max(monthsToDeadline, 1) as real);
      }
      this.monthlyTarget := stored;
    }

    /** GoalService::update: the saved amount, the completion flag and the
        history are never touched, and absent fields keep their values. */
    method Update(p: GoalPatch)
      requires Valid()
      requires p.targetAmount.Some? ==> p.targetAmount.value >= 1
      requires p.monthlyTarget.Some? ==> p.monthlyTarget.value >= 0.0
      modifies this`name, this`icon, this`color, this`targetAmount, this`deadline, this`monthlyTarget, this`account
      ensures Valid()
      ensures name == p.name.GetOr(old(name)) && icon == p.icon.GetOr(old(icon)) && color == p.color.GetOr(old(color))
      ensures targetAmount == p.targetAmount.GetOr(old(targetAmount))
      ensures deadline == (if p.deadline.Some? then p.deadline else old(deadline))
      ensures monthlyTarget == (if p.monthlyTarget.Some? then p.monthlyTarget else old(monthlyTarget))
      ensures account == (if p.account.Some? then p.account else old(account))
      ensures currentAmount == old(currentAmount) && isCompleted == old(isCompleted) && allocations == old(allocations)
    {
      name := p.name.GetOr(name);
      icon := p.icon.GetOr(icon);
      color := p.color.GetOr(color);
      targetAmount := p.targetAmount.GetOr(targetAmount);
      if p.deadline.Some? { deadline := p.deadline; }
      if p.monthlyTarget.Some? { monthlyTarget := p.monthlyTarget; }
      if p.account.Some? { account := p.account; }
    }

    /** Records one allocation of `amount` and moves the saved amount by it;
        reaching the target marks the goal completed, and falling below it
        marks it incomplete when `reopen` is set. */
    method Record(a: Allocation, reopen: bool)
      requires Valid()
      modifies this`currentAmount, this`isCompleted, this`allocations
      ensures Valid()
      ensures allocations == old(allocations) + [a]
      ensures currentAmount == old(currentAmount) + a.amount
      ensures !reopen ==> isCompleted == (old(isCompleted) || currentAmount >= targetAmount)
      ensures reopen ==> isCompleted == (old(isCompleted) && currentAmount >= targetAmount)
    {
      SumAllocationsAppend(allocations, a);
      allocations := allocations + [a];
      currentAmount := currentAmount + a.amount;
      if !reopen && currentAmount >= targetAmount {
        isCompleted := true;
      } else if reopen && currentAmount < targetAmount {
        isCompleted := false;
      }
    }

    /** GoalService::addFunds: one deposit of `amount`, drawn by default from
        the goal's own account and dated today unless a date is given. */
    method AddFunds(amount: int, from: Option<AccountId>, notes: Option<string>, date: Option<Date>, today: Date)
      returns (a: Allocation)
      requires Valid() && amount >= 1
      modifies this`currentAmount, this`isCompleted, this`allocations
      ensures Valid()
      ensures a == Allocation(if from.Some? then from else account, amount, notes, date.GetOr(today))
      ensures a.IsDeposit()
      ensures allocations == old(allocations) + [a]
      ensures currentAmount == old(currentAmount) + amount
      ensures old(currentAmount) >= 0 ==> currentAmount >= 0
      ensures isCompleted == (old(isCompleted) || currentAmount >= targetAmount)
    {
      a := Allocation(if from.Some? then from else account, amount, notes, date.GetOr(today));
      Record(a, false);
    }

    /** Goal::addFunds: the same deposit made from the model itself, with no
        notes by default and always dated today. */
    method AddFundsToday(amount: int, from: Option<AccountId>, notes: Option<string>, today: Date)
      returns (a: Allocation)
      requires Valid()
      modifies this`currentAmount, this`isCompleted, this`allocations
      ensures Valid()
      ensures a == Allocation(if from.Some? then from else account, amount, notes, today)
      ensures allocations == old(allocations) + [a]
      ensures currentAmount == old(currentAmount) + amount
      ensures isCompleted == (old(isCompleted) || currentAmount >= targetAmount)
    {
      a := Allocation(if from.Some? then from else account, amount, notes, today);
      Record(a, false);
    }

    /** GoalService::withdrawFunds: one withdrawal of `amount`, noted
        "Withdrawal" by default; falling below the target reopens the goal.
        The amount never exceeds what is saved, so the saved amount stays
        non-negative. */
    method WithdrawFunds(amount: int, from: Option<AccountId>, notes: Option<string>, date: Option<Date>, today: Date)
      returns (a: Allocation)
      requires Valid() && 1 <= amount <= currentAmount
      modifies this`currentAmount, this`isCompleted, this`allocations
      ensures Valid()
      ensures a == Allocation(if from.Some? then from else account, -amount,
                              Some(notes.GetOr(WithdrawalNote)), date.GetOr(today))
      ensures a.IsWithdrawal()
      ensures allocations == old(allocations) + [a]
      ensures currentAmount == old(currentAmount) - amount && currentAmount >= 0
      ensures isCompleted == (old(isCompleted) && currentAmount >= targetAmount)
    {
      a := Allocation(if from.Some? then from else account, -amount, Some(notes.GetOr(WithdrawalNote)), date.GetOr(today));
      Record(a, true);
    }

    /** The withdraw endpoint: a request for less than one cent or for more than
        is saved is refused before anything is written. */
    method RequestWithdrawal(amount: int, from: Option<AccountId>, notes: Option<string>, date: Option<Date>, today: Date)
      returns (r: Option<Allocation>)
      requires Valid()
      modifies this`currentAmount, this`isCompleted, this`allocations
      ensures Valid()
      ensures r.None? <==> !(1 <= amount <= old(currentAmount))
      ensures r.None? ==> currentAmount == old(currentAmount) && isCompleted == old(isCompleted)
                          && allocations == old(allocations)
      ensures r.Some? ==> allocations == old(allocations) + [r.value] && currentAmount == old(currentAmount) - amount
      ensures r.Some? ==> r.value == Allocation(if from.Some? then from else account, -amount,
                                                Some(notes.GetOr(WithdrawalNote)), date.GetOr(today))
                          && currentAmount >= 0 && isCompleted == (old(isCompleted) && currentAmount >= targetAmount)
    {
      if 1 <= amount <= currentAmount {
        var a := WithdrawFunds(amount, from, notes, date, today);
        r := Some(a);
      } else {
        r := None;
      }
    }
  }

  /** Adding funds and then withdrawing the same amount restores the saved
      amount; the two new allocations cancel out. */
  method AddThenWithdraw(g: Goal, amount: int, today: Date)
    requires g.Valid() && g.currentAmount >= 0 && amount >= 1
    modifies g`currentAmount, g`isCompleted, g`allocations
    ensures g.Valid()
    ensures g.currentAmount == old(g.currentAmount)
    ensures |g.allocations| == |old(g.allocations)| + 2
    ensures g.allocations[|g.allocations| - 2].amount + g.allocations[|g.allocations| - 1].amount == 0
  {
    var d := g.AddFunds(amount, None, None, None, today);
    var w := g.WithdrawFunds(amount, None, None, None, today);
  }

  // ---------------------------------------------------------------------------
  // scopeActive, and getGoalsSummary over the goals it selects.

  /** scopeActive: the goals not yet completed, in order. */
  function ActiveGoals(gs: seq<Goal>): seq<Goal>
    reads gs
  {
    if gs == [] then []
    else ActiveGoals(gs[..|gs| - 1]) + (if gs[|gs| - 1].isCompleted then [] else [gs[|gs| - 1]])
  }

  /** The scope keeps exactly the goals that are not completed. */
  lemma {:induction false} ActiveGoalsSelects(gs: seq<Goal>)
    ensures forall g :: g in ActiveGoals(gs) <==> g in gs && !g.isCompleted
  {
    if gs != [] {
      var init, last := gs[..|gs| - 1], gs[|gs| - 1];
      assert gs == init + [last];
      ActiveGoalsSelects(init);
    }
  }

  /** Plain sums of the targets and of the saved amounts, with no filter. */
  function SumTargets(gs: seq<Goal>): int
    reads gs
  {
    if gs == [] then 0 else SumTargets(gs[..|gs| - 1]) + gs[|gs| - 1].targetAmount
  }

  function SumSaved(gs: seq<Goal>): int
    reads gs
  {
    if gs == [] then 0 else SumSaved(gs[..|gs| - 1]) + gs[|gs| - 1].currentAmount
  }

  /** The summary totals are the plain sums over the goals scopeActive selects:
      a completed goal contributes to neither. */
  lemma {:induction false} TotalsAreOverActiveGoals(gs: seq<Goal>)
    ensures TotalTarget(gs) == SumTargets(ActiveGoals(gs))
    ensures TotalSaved(gs) == SumSaved(ActiveGoals(gs))
  {
    if gs != [] {
      var init, last := gs[..|gs| - 1], gs[|gs| - 1];
      TotalsAreOverActiveGoals(init);
      var act := ActiveGoals(init);
      if !last.isCompleted {
        var r := act + [last];
        assert ActiveGoals(gs) == r;
        assert r[..|r| - 1] == act && r[|r| - 1] == last;
      } else {
        assert ActiveGoals(gs) == act;
      }
    }
  }

  function TotalTarget(gs: seq<Goal>): int
    reads gs
  {
    if gs == [] then 0
    else TotalTarget(gs[..|gs| - 1]) + (if gs[|gs| - 1].isCompleted then 0 else gs[|gs| - 1].targetAmount)
  }

  function TotalSaved(gs: seq<Goal>): int
    reads gs
  {
    if gs == [] then 0
    else TotalSaved(gs[..|gs| - 1]) + (if gs[|gs| - 1].isCompleted then 0 else gs[|gs| - 1].currentAmount)
  }

  /** overall_progress: saved over target in percent, not capped, and 0 when
      there is no target. */
  function OverallProgress(gs: seq<Goal>): real
    reads gs
  {
    var target := TotalTarget(gs);
    if target > 0 then TotalSaved(gs) as real / target as real * 100.0 else 0.0
  }

  /** Every open goal still short of its target keeps the overall progress at
      or below 100; completed goals never count. */
  lemma {:induction false} OverallProgressBounded(gs: seq<Goal>)
    requires forall i :: 0 <= i < |gs| ==> (gs[i].isCompleted || gs[i].currentAmount <= gs[i].targetAmount)
    ensures TotalSaved(gs) <= TotalTarget(gs)
    ensures OverallProgress(gs) <= 100.0
  {
    if gs != [] {
      OverallProgressBounded(gs[..|gs| - 1]);
    }
    var s, t := TotalSaved(gs), TotalTarget(gs);
    if t > 0 {
      RatioAtMostOne(s as real, t as real);
    }
  }

  lemma RatioAtMostOne(s: real, t: real)
    requires 0.0 < t && s <= t
    ensures s / t <= 1.0
  {
    var q := s / t;
    assert q * t == s;
    assert (1.0 - q) * t == t - s;
  }

  /** A goal of 1000.00 with a deadline six months out gets a suggested
      monthly contribution of 1000.00 / 6; depositing 1000.00 completes it and
      withdrawing 0.01 reopens it at 999.99. */
  method CompleteThenReopenExample(today: Date) returns (monthly: Option<real>, completedAfterDeposit: bool,
                                                          saved: int, completedAfterWithdrawal: bool)
    ensures monthly == Some(100000.0 / 6.0)
    ensures completedAfterDeposit
    ensures saved == 99999 && !completedAfterWithdrawal
  {
    var g := new Goal("Laptop", None, None, 100000, Some(0), Some(Date(2026, 4, 1)), None, None, 6);
    monthly := g.monthlyTarget;
    var d := g.AddFunds(100000, None, None, None, today);
    completedAfterDeposit := g.isCompleted;
    var w := g.WithdrawFunds(1, None, None, None, today);
    saved, completedAfterWithdrawal := g.currentAmount, g.isCompleted;
  }
}
