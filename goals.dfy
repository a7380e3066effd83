/** The savings goals page: the goal list kept in `localStorage` under `"goals"`, saving a
    new or edited goal, deleting one, depositing money with the "goal reached" notice, and
    the per-goal and overall progress bars. */
module Goals {
  import opened Seqs
  import opened Ledger
  import opened Store
  import opened Forms

  /** `INITIAL_GOALS`. */
  const InitialGoals := [
    Goal(1, "goal_vacation", 5000.0, 1500.0, "blue"),
    Goal(2, "goal_laptop", 15000.0, 8000.0, "purple")
  ]

  /** What the page starts with: the stored list, or the initial goals when nothing is
      stored or the stored text does not parse. `None` is a stored value of another shape,
      on which the page cannot render. */
  function LoadGoals(entries: map<string, Stored>): (r: Option<seq<Goal>>)
    ensures Blank(entries, "goals") ==> r == Some(InitialGoals)
    ensures "goals" in entries && entries["goals"].GoalList? ==> r == Some(entries["goals"].goals)
    ensures "goals" in entries && entries["goals"] == Unparseable ==> r == Some(InitialGoals)
    ensures r.None? <==> !Blank(entries, "goals") && !entries["goals"].GoalList? && entries["goals"] != Unparseable
  {
    if Blank(entries, "goals") then Some(InitialGoals)
    else match entries["goals"]
      case GoalList(gs) => Some(gs)
      case Unparseable => Some(InitialGoals)
      case _ => None
  }

  /** `goalForm`. */
  datatype GoalForm = GoalForm(name: string, target: NumField, color: string)

  /** `handleSaveGoal` on the list: nothing without a name or a truthy target; an edit
      (`editing` holds the edited goal's id) overwrites name, target and colour of the goals
      with that id; otherwise a new goal with nothing saved is appended. */
  function SavedGoals(goals: seq<Goal>, form: GoalForm, editing: Option<int>, freshId: int): seq<Goal>
  {
    if form.name == "" || !Truthy(form.target) then goals
    else match editing
      case Some(id) =>
        Replace((g: Goal) => g.id == id,
                (g: Goal) => g.(name := form.name, target := Parsed(form.target), color := form.color), goals)
      case None => goals + [Goal(freshId, form.name, Parsed(form.target), 0.0, form.color)]
  }

  /** `totalSaved`. */
  function TotalSaved(goals: seq<Goal>): real
  {
    if |goals| == 0 then 0.0 else goals[0].current + TotalSaved(goals[1..])
  }

  /** `totalTarget`. */
  function TotalTarget(goals: seq<Goal>): real
  {
    if |goals| == 0 then 0.0 else goals[0].target + TotalTarget(goals[1..])
  }

  lemma {:induction false} TotalsAppendOne(goals: seq<Goal>, g: Goal)
    ensures TotalSaved(goals + [g]) == TotalSaved(goals) + g.current
    ensures TotalTarget(goals + [g]) == TotalTarget(goals) + g.target
  {
    if |goals| > 0 {
      assert (goals + [g])[1..] == goals[1..] + [g];
      TotalsAppendOne(goals[1..], g);
    }
  }

  /** Saving without a name or a truthy target changes nothing. Adding appends exactly one
      goal, with the fresh id and nothing saved, so the saved total stays and the target
      total grows by the new target. Editing keeps the length, every id and every saved
      amount, and changes only the goals with the edited id. */
  lemma SaveGoalEffect(goals: seq<Goal>, form: GoalForm, editing: Option<int>, freshId: int)
    ensures form.name == "" || !Truthy(form.target) ==> SavedGoals(goals, form, editing, freshId) == goals
    ensures form.name != "" && Truthy(form.target) && editing.None? ==>
      SavedGoals(goals, form, editing, freshId) == goals + [Goal(freshId, form.name, Parsed(form.target), 0.0, form.color)]
      && TotalSaved(SavedGoals(goals, form, editing, freshId)) == TotalSaved(goals)
      && TotalTarget(SavedGoals(goals, form, editing, freshId)) == TotalTarget(goals) + Parsed(form.target)
    ensures editing.Some? ==>
      var r := SavedGoals(goals, form, editing, freshId);
      && |r| == |goals|
      && TotalSaved(r) == TotalSaved(goals)
      && forall i :: 0 <= i < |goals| ==>
           r[i].id == goals[i].id && r[i].current == goals[i].current
           && (goals[i].id != editing.value ==> r[i] == goals[i])
           && (goals[i].id == editing.value && form.name != "" && Truthy(form.target) ==>
                 r[i] == Goal(goals[i].id, form.name, Parsed(form.target), goals[i].current, form.color))
  {
    if form.name != "" && Truthy(form.target) {
      match editing
      case None =>
        TotalsAppendOne(goals, Goal(freshId, form.name, Parsed(form.target), 0.0, form.color));
      case Some(id) =>
        var r := SavedGoals(goals, form, editing, freshId);
        SameSavedAmounts(goals, r);
    }
  }

  /** Lists whose goals have the same saved amounts position by position save the same total. */
  lemma {:induction false} SameSavedAmounts(a: seq<Goal>, b: seq<Goal>)
    requires |a| == |b| && forall i :: 0 <= i < |a| ==> a[i].current == b[i].current
    ensures TotalSaved(a) == TotalSaved(b)
  {
    if |a| > 0 {
      SameSavedAmounts(a[1..], b[1..]);
    }
  }

  /** `goals.filter(g => g.id !== id)`. */
  function WithoutGoal(goals: seq<Goal>, id: int): seq<Goal>
  {
    Filter((g: Goal) => g.id != id, goals)
  }

  /** Deleting keeps exactly the goals with another id, in order. */
  lemma WithoutGoalKeepsOthers(goals: seq<Goal>, id: int)
    ensures forall g :: g in WithoutGoal(goals, id) <==> g in goals && g.id != id
    ensures IsSubsequence(WithoutGoal(goals, id), goals)
  {
    var p := (g: Goal) => g.id != id;
    FilterMembers(p, goals);
    FilterSubsequence(p, goals);
    forall g | g in goals && g.id != id ensures g in WithoutGoal(goals, id) {
      var i :| 0 <= i < |goals| && goals[i] == g;
    }
  }

  /** `handleAddMoney` on the list: nothing without an amount or an active goal
      (`activeGoalId` is falsy when `null` or `0`); otherwise
      the amount is added to what the goals with the active id have saved. */
  function Deposited(goals: seq<Goal>, active: Option<int>, amount: Option<real>): seq<Goal>
  {
    if amount.None? || !TruthyId(active) then goals
    else Replace((g: Goal) => g.id == active.value, (g: Goal) => g.(current := g.current + amount.value), goals)
  }

  /** The notice for one goal: the deposit takes it from below its target to at least it. */
  predicate Crosses(g: Goal, amount: real)
  {
    g.current + amount >= g.target && g.current < g.target
  }

  /** The alert fires when a goal with the active id crosses its target. */
  predicate ReachedNotice(goals: seq<Goal>, active: Option<int>, amount: Option<real>)
  {
    amount.Some? && TruthyId(active)
    && exists i :: 0 <= i < |goals| && goals[i].id == active.value && Crosses(goals[i], amount.value)
  }

  /** The number of goals with the id. */
  function CountId(goals: seq<Goal>, id: int): nat
  {
    Count((g: Goal) => g.id == id, goals)
  }

  lemma {:induction false} DepositTotal(goals: seq<Goal>, id: int, amount: real)
    ensures TotalSaved(Replace((g: Goal) => g.id == id, (g: Goal) => g.(current := g.current + amount), goals))
            == TotalSaved(goals) + amount * CountId(goals, id) as real
    ensures TotalTarget(Replace((g: Goal) => g.id == id, (g: Goal) => g.(current := g.current + amount), goals))
            == TotalTarget(goals)
  {
    if |goals| > 0 {
      DepositTotal(goals[1..], id, amount);
    }
  }

  /** A deposit changes only the goals with the active id, each by the amount, and nothing
      else: the saved total grows by the amount once per such goal (once, with distinct
      ids), and the target total stays. */
  lemma DepositEffect(goals: seq<Goal>, active: Option<int>, amount: Option<real>)
    ensures amount.None? || !TruthyId(active) ==> Deposited(goals, active, amount) == goals
    ensures |Deposited(goals, active, amount)| == |goals|
    ensures forall i :: 0 <= i < |goals| ==>
      Deposited(goals, active, amount)[i] ==
        if amount.Some? && TruthyId(active) && goals[i].id == active.value
        then goals[i].(current := goals[i].current + amount.value) else goals[i]
    ensures amount.Some? && TruthyId(active) ==>
      TotalSaved(Deposited(goals, active, amount)) == TotalSaved(goals) + amount.value * CountId(goals, active.value) as real
    ensures TotalTarget(Deposited(goals, active, amount)) == TotalTarget(goals)
  {
    if amount.Some? && TruthyId(active) {
      DepositTotal(goals, active.value, amount.value);
    }
  }

  /** A number as JavaScript computes it, where dividing by zero gives an infinity or NaN. */
  datatype JsNumber = Finite(value: real) | PosInf | NegInf | NaN

  /** `Math.min((current / target) * 100, 100)`. */
  function GoalPercentage(current: real, target: real): (p: JsNumber)
    ensures p.Finite? ==> p.value <= 100.0
    ensures target > 0.0 && current >= 0.0 ==> p.Finite? && p.value >= 0.0
    ensures target > 0.0 && current < target ==> p == Finite(current / target * 100.0)
  {
    if target != 0.0 then
      var share := current / target * 100.0;
      ShareNonNegative(current, target);
      ShareAtLeastOne(current, target);
      Finite(if share < 100.0 then share else 100.0)
    else if current > 0.0 then Finite(100.0)
    else if current < 0.0 then NegInf
    else NaN
  }

  lemma ShareNonNegative(current: real, target: real)
    ensures target > 0.0 && current >= 0.0 ==> current / target * 100.0 >= 0.0
  {
    if target > 0.0 && current >= 0.0 {
      ShareOfLimit(current, target);
    }
  }

  /** `percentage >= 100`, which is false for NaN. */
  predicate Complete(p: JsNumber)
  {
    (p.Finite? && p.value >= 100.0) || p.PosInf?
  }

  /** The share of a non-zero target compared with 1. */
  lemma ShareAtLeastOne(current: real, target: real)
    requires target != 0.0
    ensures current / target * 100.0 >= 100.0 <==> if target > 0.0 then current >= target else current <= target
  {
    if target > 0.0 {
      ShareOfLimit(current, target);
    } else {
      assert current / target == (-current) / (-target);
      ShareOfLimit(-current, -target);
    }
  }

  /** The deposit button is disabled exactly when the goal is complete: the saved amount
      reaches a positive target; with a zero target, anything saved at all. */
  lemma DisabledIffReached(current: real, target: real)
    ensures Complete(GoalPercentage(current, target)) <==>
      (target > 0.0 && current >= target) || (target < 0.0 && current <= target)
      || (target == 0.0 && current > 0.0)
  {
    if target != 0.0 {
      ShareAtLeastOne(current, target);
    }
  }

  /** The notice fires only on a deposit that takes an active goal of positive target from
      an enabled button to a disabled one. */
  lemma NoticeMeansNowComplete(g: Goal, amount: real)
    requires g.target > 0.0 && Crosses(g, amount)
    ensures !Complete(GoalPercentage(g.current, g.target))
    ensures Complete(GoalPercentage(g.current + amount, g.target))
  {
    DisabledIffReached(g.current, g.target);
    DisabledIffReached(g.current + amount, g.target);
  }

  /** The overall bar: the share of the target total saved, or 0 when that total is 0. */
  function OverallBar(goals: seq<Goal>): (r: real)
    ensures TotalTarget(goals) <= 0.0 ==> r == 0.0
    ensures TotalTarget(goals) > 0.0 ==> (r >= 100.0 <==> TotalSaved(goals) >= TotalTarget(goals))
    ensures TotalTarget(goals) > 0.0 ==> (r > 0.0 <==> TotalSaved(goals) > 0.0)
  {
    var target := TotalTarget(goals);
    if target > 0.0 then
      ShareAtLeastOne(TotalSaved(goals), target);
      ShareOfLimit(TotalSaved(goals), target);
      TotalSaved(goals) / target * 100.0
    else 0.0
  }

  /** The initial goals: 9500 saved of 20000, the vacation goal at 30 percent. */
  lemma InitialTotals()
    ensures TotalSaved(InitialGoals) == 9500.0 && TotalTarget(InitialGoals) == 20000.0
    ensures OverallBar(InitialGoals) == 47.5
    ensures GoalPercentage(1500.0, 5000.0) == Finite(30.0)
  {
    assert InitialGoals[1..][1..] == [];
  }

  /** The page's list and the storage it writes. */
  class GoalsPage {
    var goals: seq<Goal>
    const storage: Storage

    constructor (storage: Storage)
      requires LoadGoals(storage.entries).Some?
      ensures this.storage == storage && goals == LoadGoals(storage.entries).value
    {
      this.storage := storage;
      goals := LoadGoals(storage.entries).value;
    }

    /** `handleSaveGoal`: a save that goes through is written to storage. */
    method SaveGoal(form: GoalForm, editing: Option<int>, freshId: int)
      modifies this, storage
      ensures goals == SavedGoals(old(goals), form, editing, freshId)
      ensures form.name == "" || !Truthy(form.target) ==> storage.entries == old(storage.entries)
      ensures form.name != "" && Truthy(form.target) ==> storage.entries == old(storage.entries)["goals" := GoalList(goals)]
      ensures LoadGoals(old(storage.entries)) == Some(old(goals)) ==> LoadGoals(storage.entries) == Some(goals)
    {
      if form.name == "" || !Truthy(form.target) {
        return;
      }
      var updated := SavedGoals(goals, form, editing, freshId);
      goals := updated;
      storage.SetItem("goals", GoalList(updated));
    }

    /** `handleDeleteGoal` (after the confirmation). */
    method DeleteGoal(id: int)
      modifies this, storage
      ensures goals == WithoutGoal(old(goals), id)
      ensures storage.entries == old(storage.entries)["goals" := GoalList(goals)]
      ensures LoadGoals(storage.entries) == Some(goals)
    {
      var updated := WithoutGoal(goals, id);
      goals := updated;
      storage.SetItem("goals", GoalList(updated));
    }

    /** `handleAddMoney`: the deposit is written to storage; `notice` is the alert. */
    method AddMoney(active: Option<int>, amount: Option<real>) returns (notice: bool)
      modifies this, storage
      ensures goals == Deposited(old(goals), active, amount)
      ensures notice == ReachedNotice(old(goals), active, amount)
      ensures amount.None? || !TruthyId(active) ==> storage.entries == old(storage.entries)
      ensures amount.Some? && TruthyId(active) ==> storage.entries == old(storage.entries)["goals" := GoalList(goals)]
    {
      notice := false;
      if amount.None? || !TruthyId(active) {
        return;
      }
      notice := ReachedNotice(goals, active, amount);
      var updated := Deposited(goals, active, amount);
      goals := updated;
      storage.SetItem("goals", GoalList(updated));
    }
  }
}
