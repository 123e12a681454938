/** The personalization widgets: savings goals and spending alerts kept in
    a store, the spending figures derived from the transactions, and the
    settings dialog that creates goals and alerts. */
module Personalization {

  import opened Text
  import opened Transactions

  // ------------------------------------------------------------ data model

  datatype SavingsGoal = SavingsGoal(id: string, name: string, targetAmount: int, currentAmount: int)

  datatype SpendingAlert = SpendingAlert(id: string, category: string, limitAmount: int, enabled: bool)

  /** The value of an `<input type="number">`: empty, or a number. */
  datatype NumberInput = Blank | Num(value: int)

  /** `Number(text)` of a number input (`Number("")` is 0). */
  function NumberValue(n: NumberInput): int
  {
    if n.Blank? then 0 else n.value
  }

  datatype GoalDraft = GoalDraft(name: string, target: NumberInput, current: NumberInput)

  datatype AlertDraft = AlertDraft(category: string, limit: NumberInput)

  datatype DialogStep = SelectStep | GoalStep | AlertStep

  const EmptyGoalDraft := GoalDraft("", Blank, Blank)
  const EmptyAlertDraft := AlertDraft("", Blank)

  const DefaultCategories: seq<string> := [
    "Salário", "Assinaturas", "Cartão de Crédito", "Comida", "Mercado",
    "Financiamento", "Internet", "Casa", "Pensão", "Reserva",
    "Investimentos", "Entretenimento", "Educação", "Transferência", "Depósito"
  ]

  // ------------------------------------------------------- category spending

  function Abs(x: int): nat
  {
    if x < 0 then -x else x
  }

  predicate SpentIn(t: Transaction, category: string)
  {
    t.kind == Despesa && t.category == category
  }

  /** `calculateCategorySpending(category)`: the sum of `|value|` over the
      despesa records of that category. */
  function CategorySpending(transactions: seq<Transaction>, category: string): (spent: int)
    ensures spent >= 0
    ensures forall i :: 0 <= i < |transactions| && SpentIn(transactions[i], category) ==>
      Abs(transactions[i].value) <= spent
  {
    if transactions == [] then 0
    else
      var t := transactions[|transactions| - 1];
      CategorySpending(transactions[..|transactions| - 1], category) + (if SpentIn(t, category) then Abs(t.value) else 0)
  }

  /** Spending adds up over concatenated transaction lists. */
  lemma {:induction false} CategorySpendingAppend(xs: seq<Transaction>, ys: seq<Transaction>, category: string)
    ensures CategorySpending(xs + ys, category) == CategorySpending(xs, category) + CategorySpending(ys, category)
    decreases |ys|
  {
    if ys == [] {
      assert xs + ys == xs;
    } else {
      assert (xs + ys)[..|xs + ys| - 1] == xs + ys[..|ys| - 1];
      CategorySpendingAppend(xs, ys[..|ys| - 1], category);
    }
  }

  /** Records that are not despesa of the category change nothing. */
  lemma {:induction false} CategorySpendingIgnores(transactions: seq<Transaction>, category: string)
    requires forall i :: 0 <= i < |transactions| ==> !SpentIn(transactions[i], category)
    ensures CategorySpending(transactions, category) == 0
  {
    if transactions != [] {
      CategorySpendingIgnores(transactions[..|transactions| - 1], category);
    }
  }

  // ------------------------------------------------------------ percentages

  /** The JavaScript number `Math.min((part / whole) * 100, 100)` for
      integer amounts: a finite value, or the `NaN` and `-Infinity` that a
      zero `whole` yields (`+Infinity` is capped to 100). */
  datatype Percentage = Finite(value: real) | NotANumber | MinusInfinity

  function ClampedPercent(part: int, whole: int): (p: Percentage)
    ensures p.Finite? ==> p.value <= 100.0
    ensures p.Finite? <==> whole != 0 || part > 0
    ensures whole > 0 ==> (p == Finite(100.0) <==> part >= whole)
    ensures whole > 0 && part < whole ==> p == Finite((part as real / whole as real) * 100.0)
    ensures whole > 0 && part >= 0 ==> p.value >= 0.0
    ensures whole == 0 ==> p == if part > 0 then Finite(100.0) else if part == 0 then NotANumber else MinusInfinity
  {
    if whole == 0 then
      (if part > 0 then Finite(100.0) else if part == 0 then NotANumber else MinusInfinity)
    else
      var ratio := (part as real / whole as real) * 100.0;
      assert whole > 0 ==> (ratio >= 100.0 <==> part >= whole) by {
        if whole > 0 {
          assert ratio == (part as real) * 100.0 / (whole as real);
        }
      }
      Finite(if ratio < 100.0 then ratio else 100.0)
  }

  /** The `progress` bar value of a goal. */
  function GoalProgress(goal: SavingsGoal): (p: Percentage)
    ensures p.Finite? ==> p.value <= 100.0
    ensures goal.targetAmount > 0 ==> (p == Finite(100.0) <==> goal.currentAmount >= goal.targetAmount)
  {
    ClampedPercent(goal.currentAmount, goal.targetAmount)
  }

  /** What the alerts card shows for one alert. */
  datatype AlertView = AlertView(alert: SpendingAlert, spent: int, percentage: Percentage, isOverLimit: bool)

  function EvaluateAlert(alert: SpendingAlert, transactions: seq<Transaction>): (v: AlertView)
    ensures v.alert == alert && v.spent == CategorySpending(transactions, alert.category)
    ensures v.isOverLimit <==> v.spent > alert.limitAmount
    ensures v.percentage.Finite? ==> v.percentage.value <= 100.0
    ensures alert.limitAmount > 0 ==> (v.isOverLimit ==> v.percentage == Finite(100.0))
    ensures alert.limitAmount > 0 ==> v.percentage.Finite? && v.percentage.value >= 0.0
  {
    var spent := CategorySpending(transactions, alert.category);
    AlertView(alert, spent, ClampedPercent(spent, alert.limitAmount), spent > alert.limitAmount)
  }

  /** `spendingAlerts.filter(a => a.enabled)`. */
  function EnabledAlerts(alerts: seq<SpendingAlert>): (r: seq<SpendingAlert>)
    ensures forall a :: a in r <==> a in alerts && a.enabled
    ensures IsSubsequence(r, alerts)
    ensures forall a :: multiset(r)[a] == if a.enabled then multiset(alerts)[a] else 0
  {
    if alerts == [] then []
    else
      var rest := EnabledAlerts(alerts[1..]);
      assert alerts == [alerts[0]] + alerts[1..];
      if alerts[0].enabled then
        assert ([alerts[0]] + rest)[1..] == rest;
        [alerts[0]] + rest
      else rest
  }

  /** The alerts card: one view per enabled alert, in list order. */
  function AlertViews(alerts: seq<SpendingAlert>, transactions: seq<Transaction>): (views: seq<AlertView>)
    ensures |views| == |EnabledAlerts(alerts)|
    ensures forall i :: 0 <= i < |views| ==> views[i].alert.enabled && views[i].alert in alerts
    ensures forall a :: a in alerts && a.enabled ==> exists i :: 0 <= i < |views| && views[i].alert == a
    ensures forall i :: 0 <= i < |views| ==> views[i] == EvaluateAlert(EnabledAlerts(alerts)[i], transactions)
  {
    var enabled := EnabledAlerts(alerts);
    var views := seq(|enabled|, i requires 0 <= i < |enabled| => EvaluateAlert(enabled[i], transactions));
    assert forall a :: a in alerts && a.enabled ==> exists i :: 0 <= i < |views| && views[i].alert == a by {
      forall a | a in alerts && a.enabled
        ensures exists i :: 0 <= i < |views| && views[i].alert == a
      {
        var i :| 0 <= i < |enabled| && enabled[i] == a;
        assert views[i].alert == a;
      }
    }
    views
  }

  // --------------------------------------------------------- alert updates

  /** No two alerts share a category. */
  predicate OneAlertPerCategory(alerts: seq<SpendingAlert>)
  {
    forall i, j :: 0 <= i < j < |alerts| ==> alerts[i].category != alerts[j].category
  }

  /** `alerts.find(a => a.category === category)`. */
  function AlertFor(alerts: seq<SpendingAlert>, category: string): (r: Option<SpendingAlert>)
    ensures r.None? <==> forall i :: 0 <= i < |alerts| ==> alerts[i].category != category
    ensures r.Some? ==>
      exists i :: (0 <= i < |alerts| && alerts[i] == r.value && r.value.category == category
        && forall j :: 0 <= j < i ==> alerts[j].category != category)
  {
    if alerts == [] then None
    else if alerts[0].category == category then
      assert alerts[0] == alerts[0];
      Some(alerts[0])
    else
      var r := AlertFor(alerts[1..], category);
      if r.Some? then
        var i :| 0 <= i < |alerts[1..]| && alerts[1..][i] == r.value && r.value.category == category
          && forall j :: 0 <= j < i ==> alerts[1..][j].category != category;
        assert alerts[i + 1] == r.value;
        r
      else r
  }

  /** The `prev.map(...)` of the update branch: every alert of the category
      takes the new limit and is enabled again. */
  function SetLimit(alerts: seq<SpendingAlert>, category: string, limit: int): (r: seq<SpendingAlert>)
    ensures |r| == |alerts|
    ensures forall i :: 0 <= i < |r| && alerts[i].category == category ==>
      r[i] == alerts[i].(limitAmount := limit, enabled := true)
    ensures forall i :: 0 <= i < |r| && alerts[i].category != category ==> r[i] == alerts[i]
  {
    if alerts == [] then []
    else
      var a := alerts[0];
      [if a.category == category then a.(limitAmount := limit, enabled := true) else a]
        + SetLimit(alerts[1..], category, limit)
  }

  /** The updater `handleAddAlert` passes to `setSpendingAlerts`: update the
      alert of the category if there is one, otherwise append a new enabled
      alert. */
  function UpsertAlert(alerts: seq<SpendingAlert>, category: string, limit: int, freshId: string): (r: seq<SpendingAlert>)
    ensures AlertFor(alerts, category).Some? ==>
      |r| == |alerts|
      && (forall i :: 0 <= i < |r| ==> r[i].id == alerts[i].id && r[i].category == alerts[i].category)
      && (forall i :: 0 <= i < |r| && alerts[i].category != category ==> r[i] == alerts[i])
      && (forall i :: 0 <= i < |r| && alerts[i].category == category ==> r[i].limitAmount == limit && r[i].enabled)
    ensures AlertFor(alerts, category).None? ==> r == alerts + [SpendingAlert(freshId, category, limit, true)]
    ensures OneAlertPerCategory(alerts) ==> OneAlertPerCategory(r)
    ensures UniqueAlertIds(alerts) && (forall a :: a in alerts ==> a.id != freshId) ==> UniqueAlertIds(r)
  {
    match AlertFor(alerts, category)
    case Some(_) => SetLimit(alerts, category, limit)
    case None => alerts + [SpendingAlert(freshId, category, limit, true)]
  }

  /** After an upsert the category's alert carries the new limit and is
      enabled; it keeps its id when it existed and gets the fresh id
      otherwise. Other categories find what they found before. */
  lemma UpsertThenFind(alerts: seq<SpendingAlert>, category: string, limit: int, freshId: string, other: string)
    requires other != category
    ensures AlertFor(UpsertAlert(alerts, category, limit, freshId), category)
      == Some(match AlertFor(alerts, category)
              case Some(a) => a.(limitAmount := limit, enabled := true)
              case None => SpendingAlert(freshId, category, limit, true))
    ensures AlertFor(UpsertAlert(alerts, category, limit, freshId), other) == AlertFor(alerts, other)
  {
    var r := UpsertAlert(alerts, category, limit, freshId);
    FindAfterUpsert(alerts, category, limit, freshId);
    FindOtherAfterUpsert(alerts, category, limit, freshId, other);
  }

  lemma {:induction false} FindAfterUpsert(alerts: seq<SpendingAlert>, category: string, limit: int, freshId: string)
    ensures AlertFor(UpsertAlert(alerts, category, limit, freshId), category)
      == Some(match AlertFor(alerts, category)
              case Some(a) => a.(limitAmount := limit, enabled := true)
              case None => SpendingAlert(freshId, category, limit, true))
  {
    if AlertFor(alerts, category).Some? {
      FindAfterSetLimit(alerts, category, limit);
    } else {
      FindInAppended(alerts, SpendingAlert(freshId, category, limit, true));
    }
  }

  lemma {:induction false} FindAfterSetLimit(alerts: seq<SpendingAlert>, category: string, limit: int)
    requires AlertFor(alerts, category).Some?
    ensures AlertFor(SetLimit(alerts, category, limit), category)
      == Some(AlertFor(alerts, category).value.(limitAmount := limit, enabled := true))
  {
    if alerts[0].category != category {
      FindAfterSetLimit(alerts[1..], category, limit);
      assert SetLimit(alerts, category, limit)[1..] == SetLimit(alerts[1..], category, limit);
    }
  }

  lemma {:induction false} FindInAppended(alerts: seq<SpendingAlert>, a: SpendingAlert)
    requires AlertFor(alerts, a.category).None?
    ensures AlertFor(alerts + [a], a.category) == Some(a)
  {
    if alerts != [] {
      assert (alerts + [a])[1..] == alerts[1..] + [a];
      FindInAppended(alerts[1..], a);
    }
  }

  lemma {:induction false} FindOtherAfterUpsert(alerts: seq<SpendingAlert>, category: string, limit: int, freshId: string, other: string)
    requires other != category
    ensures AlertFor(UpsertAlert(alerts, category, limit, freshId), other) == AlertFor(alerts, other)
  {
    if AlertFor(alerts, category).Some? {
      FindOtherAfterSetLimit(alerts, category, limit, other);
    } else {
      FindOtherInAppended(alerts, SpendingAlert(freshId, category, limit, true), other);
    }
  }

  lemma {:induction false} FindOtherAfterSetLimit(alerts: seq<SpendingAlert>, category: string, limit: int, other: string)
    requires other != category
    ensures AlertFor(SetLimit(alerts, category, limit), other) == AlertFor(alerts, other)
  {
    if alerts != [] && alerts[0].category != other {
      FindOtherAfterSetLimit(alerts[1..], category, limit, other);
      assert SetLimit(alerts, category, limit)[1..] == SetLimit(alerts[1..], category, limit);
    }
  }

  lemma {:induction false} FindOtherInAppended(alerts: seq<SpendingAlert>, a: SpendingAlert, other: string)
    requires other != a.category
    ensures AlertFor(alerts + [a], other) == AlertFor(alerts, other)
  {
    if alerts == [] {
      assert ([] + [a])[1..] == [];
    } else if alerts[0].category != other {
      assert (alerts + [a])[1..] == alerts[1..] + [a];
      FindOtherInAppended(alerts[1..], a, other);
    }
  }

  /** Setting a limit twice keeps only the second limit. */
  lemma UpsertTwice(alerts: seq<SpendingAlert>, category: string, l1: int, l2: int, id1: string, id2: string)
    ensures UpsertAlert(UpsertAlert(alerts, category, l1, id1), category, l2, id2) == UpsertAlert(alerts, category, l2, id1)
  {
    var once := UpsertAlert(alerts, category, l1, id1);
    FindAfterUpsert(alerts, category, l1, id1);
    if AlertFor(alerts, category).Some? {
      SetLimitTwice(alerts, category, l1, l2);
    } else {
      SetLimitOfNew(alerts, category, l1, l2, id1);
    }
  }

  lemma SetLimitTwice(alerts: seq<SpendingAlert>, category: string, l1: int, l2: int)
    ensures SetLimit(SetLimit(alerts, category, l1), category, l2) == SetLimit(alerts, category, l2)
  {
    var twice, direct := SetLimit(SetLimit(alerts, category, l1), category, l2), SetLimit(alerts, category, l2);
    forall i | 0 <= i < |alerts|
      ensures twice[i] == direct[i]
    {
    }
  }

  lemma SetLimitOfNew(alerts: seq<SpendingAlert>, category: string, l1: int, l2: int, id: string)
    requires AlertFor(alerts, category).None?
    ensures SetLimit(alerts + [SpendingAlert(id, category, l1, true)], category, l2)
      == alerts + [SpendingAlert(id, category, l2, true)]
  {
    var r := SetLimit(alerts + [SpendingAlert(id, category, l1, true)], category, l2);
    var e := alerts + [SpendingAlert(id, category, l2, true)];
    forall i | 0 <= i < |e|
      ensures r[i] == e[i]
    {
      if i < |alerts| {
        assert (alerts + [SpendingAlert(id, category, l1, true)])[i] == alerts[i];
      }
    }
  }

  /** The updater of `toggleAlert(id, checked)`: every alert with that id
      gets `enabled` set to `checked`. */
  function SetEnabled(alerts: seq<SpendingAlert>, id: string, checked: bool): (r: seq<SpendingAlert>)
    ensures |r| == |alerts|
    ensures forall i :: 0 <= i < |r| ==> r[i].(enabled := alerts[i].enabled) == alerts[i]
    ensures forall i :: 0 <= i < |r| && alerts[i].id == id ==> r[i].enabled == checked
    ensures forall i :: 0 <= i < |r| && alerts[i].id != id ==> r[i] == alerts[i]
    ensures OneAlertPerCategory(alerts) ==> OneAlertPerCategory(r)
  {
    if alerts == [] then []
    else
      var a := alerts[0];
      [if a.id == id then a.(enabled := checked) else a] + SetEnabled(alerts[1..], id, checked)
  }

  /** Toggling back restores the list when the alerts of that id all had the
      same setting before. */
  lemma ToggleBack(alerts: seq<SpendingAlert>, id: string, checked: bool)
    requires forall i :: 0 <= i < |alerts| && alerts[i].id == id ==> alerts[i].enabled == checked
    ensures SetEnabled(SetEnabled(alerts, id, !checked), id, checked) == alerts
  {
    var r := SetEnabled(SetEnabled(alerts, id, !checked), id, checked);
    forall i | 0 <= i < |alerts|
      ensures r[i] == alerts[i]
    {
    }
  }

  // -------------------------------------------------------------- categories

  predicate StrictlySorted(s: seq<string>)
  {
    forall i, j :: 0 <= i < j < |s| ==> Less(s[i], s[j])
  }

  /** Adds `x` to a sorted, duplicate-free list. */
  function InsertSorted(x: string, s: seq<string>): (r: seq<string>)
    requires StrictlySorted(s)
    ensures StrictlySorted(r)
    ensures forall y :: y in r <==> y == x || y in s
  {
    if s == [] then [x]
    else if x == s[0] then s
    else if Less(x, s[0]) then
      assert StrictlySorted([x] + s) by {
        forall i, j | 0 <= i < j < |s| + 1
          ensures Less(([x] + s)[i], ([x] + s)[j])
        {
          if i == 0 && j > 1 {
            LessTransitive(x, s[0], s[j - 1]);
          }
        }
      }
      [x] + s
    else
      var rest := InsertSorted(x, s[1..]);
      LessTotal(x, s[0]);
      assert StrictlySorted([s[0]] + rest) by {
        forall i, j | 0 <= i < j < |rest| + 1
          ensures Less(([s[0]] + rest)[i], ([s[0]] + rest)[j])
        {
          if i == 0 {
            assert rest[j - 1] in rest;
          }
        }
      }
      [s[0]] + rest
  }

  /** Inserts every element of `xs`, in order, into `acc`. */
  function InsertAll(xs: seq<string>, acc: seq<string>): (r: seq<string>)
    requires StrictlySorted(acc)
    ensures StrictlySorted(r)
    ensures forall y :: y in r <==> y in xs || y in acc
  {
    if xs == [] then acc else InsertAll(xs[1..], InsertSorted(xs[0], acc))
  }

  function CategoriesOf(transactions: seq<Transaction>): (cs: seq<string>)
    ensures |cs| == |transactions|
    ensures forall i :: 0 <= i < |cs| ==> cs[i] == transactions[i].category
  {
    seq(|transactions|, i requires 0 <= i < |transactions| => transactions[i].category)
  }

  /** The `categories` memo: the default categories and the transaction
      categories, each once, in ascending code-unit order. */
  function Categories(transactions: seq<Transaction>): (r: seq<string>)
    ensures StrictlySorted(r)
    ensures forall c :: c in r <==> c in DefaultCategories || exists i :: 0 <= i < |transactions| && transactions[i].category == c
  {
    var r := InsertAll(DefaultCategories + CategoriesOf(transactions), []);
    assert forall c :: c in CategoriesOf(transactions) <==> exists i :: 0 <= i < |transactions| && transactions[i].category == c by {
      var cs := CategoriesOf(transactions);
      forall c | c in cs
        ensures exists i :: 0 <= i < |transactions| && transactions[i].category == c
      {
        var i :| 0 <= i < |cs| && cs[i] == c;
        assert transactions[i].category == c;
      }
      forall c | exists i :: 0 <= i < |transactions| && transactions[i].category == c
        ensures c in cs
      {
        var i :| 0 <= i < |transactions| && transactions[i].category == c;
        assert cs[i] == c;
      }
    }
    r
  }

  /** A sorted, duplicate-free list is determined by its elements: the
      `categories` list is the one list with the promised properties. */
  lemma {:induction false} SortedUnique(a: seq<string>, b: seq<string>)
    requires StrictlySorted(a) && StrictlySorted(b)
    requires forall y :: y in a <==> y in b
    ensures a == b
    decreases |a|
  {
    if a != [] {
      assert a[0] in a;
    }
    if b != [] {
      assert b[0] in b;
    }
    if a != [] && b != [] {
      var i :| 0 <= i < |a| && a[i] == b[0];
      var j :| 0 <= j < |b| && b[j] == a[0];
      LessAntisymmetric(a[0], b[0]);
      forall y
        ensures y in a[1..] <==> y in b[1..]
      {
        if y in a[1..] {
          var k :| 1 <= k < |a| && a[k] == y;
          LessIrreflexive(a[0]);
          assert y in a && y in b;
          var m :| 0 <= m < |b| && b[m] == y;
          assert m != 0;
          assert b[1..][m - 1] == y;
        }
        if y in b[1..] {
          var k :| 1 <= k < |b| && b[k] == y;
          LessIrreflexive(b[0]);
          assert y in b && y in a;
          var m :| 0 <= m < |a| && a[m] == y;
          assert m != 0;
          assert a[1..][m - 1] == y;
        }
      }
      SortedUnique(a[1..], b[1..]);
      assert a == [a[0]] + a[1..] && b == [b[0]] + b[1..];
    }
  }

  lemma LessAntisymmetric(x: string, y: string)
    requires Less(x, y) || x == y
    requires Less(y, x) || x == y
    ensures x == y
  {
    if x != y {
      LessAsymmetric(x, y);
    }
  }

  // -------------------------------------------------------------- the widget

  predicate UniqueGoalIds(goals: seq<SavingsGoal>)
  {
    forall i, j :: 0 <= i < j < |goals| ==> goals[i].id != goals[j].id
  }

  predicate UniqueAlertIds(alerts: seq<SpendingAlert>)
  {
    forall i, j :: 0 <= i < j < |alerts| ==> alerts[i].id != alerts[j].id
  }

  /** The state of one mounted `PersonalizationWidgets`. The ghost fields
      are the lists last written to the store. */
  class Widgets {
    const transactions: seq<Transaction>
    var savingsGoals: seq<SavingsGoal>
    var spendingAlerts: seq<SpendingAlert>
    var isSettingsOpen: bool
    var dialogStep: DialogStep
    var newGoal: GoalDraft
    var newAlert: AlertDraft
    ghost var savedGoals: seq<SavingsGoal>
    ghost var savedAlerts: seq<SpendingAlert>

    /** The lists shown are the lists stored, and a closed dialog is back
        at its first step with empty drafts. */
    ghost predicate Valid()
      reads this
    {
      savedGoals == savingsGoals && savedAlerts == spendingAlerts
      && (!isSettingsOpen ==> dialogStep == SelectStep && newGoal == EmptyGoalDraft && newAlert == EmptyAlertDraft)
    }

    /** Mounting: the lists come from the store (the load effect). */
    constructor (transactions: seq<Transaction>, storedGoals: seq<SavingsGoal>, storedAlerts: seq<SpendingAlert>)
      ensures Valid()
      ensures this.transactions == transactions
      ensures savingsGoals == storedGoals && spendingAlerts == storedAlerts
      ensures !isSettingsOpen && dialogStep == SelectStep
    {
      this.transactions := transactions;
      savingsGoals := storedGoals;
      spendingAlerts := storedAlerts;
      savedGoals := storedGoals;
      savedAlerts := storedAlerts;
      isSettingsOpen := false;
      dialogStep := SelectStep;
      newGoal := EmptyGoalDraft;
      newAlert := EmptyAlertDraft;
    }

    /** The "Personalizar Widgets" card opens the dialog. */
    method OpenSettings()
      requires Valid()
      modifies this
      ensures Valid() && isSettingsOpen
      ensures savingsGoals == old(savingsGoals) && spendingAlerts == old(spendingAlerts)
      ensures dialogStep == old(dialogStep) && newGoal == old(newGoal) && newAlert == old(newAlert)
    {
      isSettingsOpen := true;
    }

    /** Closing the dialog ("Cancelar", or dismissing it) and the reset
        effect that follows: back to the first step, both drafts cleared. */
    method CloseSettings()
      requires Valid()
      modifies this
      ensures Valid() && !isSettingsOpen
      ensures dialogStep == SelectStep && newGoal == EmptyGoalDraft && newAlert == EmptyAlertDraft
      ensures savingsGoals == old(savingsGoals) && spendingAlerts == old(spendingAlerts)
    {
      isSettingsOpen := false;
      dialogStep := SelectStep;
      newGoal := EmptyGoalDraft;
      newAlert := EmptyAlertDraft;
    }

    /** "Meta de Economia" on the first step. */
    method ChooseGoal()
      requires Valid() && isSettingsOpen && dialogStep == SelectStep
      modifies this
      ensures Valid() && isSettingsOpen && dialogStep == GoalStep
      ensures savingsGoals == old(savingsGoals) && spendingAlerts == old(spendingAlerts)
      ensures newGoal == old(newGoal) && newAlert == old(newAlert)
    {
      dialogStep := GoalStep;
    }

    /** "Alerta de Gastos" on the first step. */
    method ChooseAlert()
      requires Valid() && isSettingsOpen && dialogStep == SelectStep
      modifies this
      ensures Valid() && isSettingsOpen && dialogStep == AlertStep
      ensures savingsGoals == old(savingsGoals) && spendingAlerts == old(spendingAlerts)
      ensures newGoal == old(newGoal) && newAlert == old(newAlert)
    {
      dialogStep := AlertStep;
    }

    /** "Voltar": back to the first step; the drafts are kept. */
    method Back()
      requires Valid() && isSettingsOpen && dialogStep != SelectStep
      modifies this
      ensures Valid() && isSettingsOpen && dialogStep == SelectStep
      ensures savingsGoals == old(savingsGoals) && spendingAlerts == old(spendingAlerts)
      ensures newGoal == old(newGoal) && newAlert == old(newAlert)
    {
      dialogStep := SelectStep;
    }

    /** Typing into the goal form. */
    method EditGoal(draft: GoalDraft)
      requires Valid() && isSettingsOpen && dialogStep == GoalStep
      modifies this
      ensures Valid() && isSettingsOpen && dialogStep == GoalStep && newGoal == draft
      ensures savingsGoals == old(savingsGoals) && spendingAlerts == old(spendingAlerts) && newAlert == old(newAlert)
    {
      newGoal := draft;
    }

    /** Choosing a category or typing a limit in the alert form. */
    method EditAlert(draft: AlertDraft)
      requires Valid() && isSettingsOpen && dialogStep == AlertStep
      modifies this
      ensures Valid() && isSettingsOpen && dialogStep == AlertStep && newAlert == draft
      ensures savingsGoals == old(savingsGoals) && spendingAlerts == old(spendingAlerts) && newGoal == old(newGoal)
    {
      newAlert := draft;
    }

    /** `handleAddGoal`: with a name and a target, append the goal, store
        the list and close the dialog; otherwise do nothing. */
    method HandleAddGoal(freshId: string)
      requires Valid()
      modifies this
      ensures Valid()
      ensures old(newGoal.name) == "" || old(newGoal.target).Blank? ==>
        savingsGoals == old(savingsGoals) && isSettingsOpen == old(isSettingsOpen)
        && dialogStep == old(dialogStep) && newGoal == old(newGoal) && newAlert == old(newAlert)
      ensures old(newGoal.name) != "" && old(newGoal.target).Num? ==>
        savingsGoals == old(savingsGoals) + [SavingsGoal(freshId, old(newGoal.name), old(newGoal.target.value), NumberValue(old(newGoal.current)))]
        && !isSettingsOpen
      ensures spendingAlerts == old(spendingAlerts)
      ensures UniqueGoalIds(old(savingsGoals)) && (forall g :: g in old(savingsGoals) ==> g.id != freshId) ==> UniqueGoalIds(savingsGoals)
    {
      if newGoal.name == "" || newGoal.target.Blank? {
        return;
      }
      var goal := SavingsGoal(freshId, newGoal.name, newGoal.target.value, NumberValue(newGoal.current));
      savingsGoals := savingsGoals + [goal];
      savedGoals := savingsGoals;
      CloseSettings();
    }

    /** `handleAddAlert`: with a category and a limit, upsert the alert of
        that category, store the list and close the dialog; otherwise do
        nothing. */
    method HandleAddAlert(freshId: string)
      requires Valid()
      modifies this
      ensures Valid()
      ensures old(newAlert.category) == "" || old(newAlert.limit).Blank? ==>
        spendingAlerts == old(spendingAlerts) && isSettingsOpen == old(isSettingsOpen)
        && dialogStep == old(dialogStep) && newGoal == old(newGoal) && newAlert == old(newAlert)
      ensures old(newAlert.category) != "" && old(newAlert.limit).Num? ==>
        spendingAlerts == UpsertAlert(old(spendingAlerts), old(newAlert.category), old(newAlert.limit.value), freshId)
        && !isSettingsOpen
      ensures savingsGoals == old(savingsGoals)
      ensures OneAlertPerCategory(old(spendingAlerts)) ==> OneAlertPerCategory(spendingAlerts)
      ensures UniqueAlertIds(old(spendingAlerts)) && (forall a :: a in old(spendingAlerts) ==> a.id != freshId) ==>
        UniqueAlertIds(spendingAlerts)
    {
      if newAlert.category == "" || newAlert.limit.Blank? {
        return;
      }
      spendingAlerts := UpsertAlert(spendingAlerts, newAlert.category, newAlert.limit.value, freshId);
      savedAlerts := spendingAlerts;
      CloseSettings();
    }

    /** `toggleAlert(id, checked)`: set `enabled` on the alerts with that id
        and store the list. */
    method ToggleAlert(id: string, checked: bool)
      requires Valid()
      modifies this
      ensures Valid()
      ensures spendingAlerts == SetEnabled(old(spendingAlerts), id, checked)
      ensures savingsGoals == old(savingsGoals) && isSettingsOpen == old(isSettingsOpen)
      ensures dialogStep == old(dialogStep) && newGoal == old(newGoal) && newAlert == old(newAlert)
    {
      spendingAlerts := SetEnabled(spendingAlerts, id, checked);
      savedAlerts := spendingAlerts;
    }
  }
}
