/** The food log page: today's entries and their calories, the entry form,
    meal-type quick-add, Cancel, and submit. */
module FoodLog {
  import opened Wrappers
  import opened Types
  import opened Dates
  import opened Daily
  import opened AppContext

  /** The entry form's fields. */
  datatype FoodForm = FoodForm(name: string, calories: int, mealType: string)

  /** The form's initial value; Cancel resets the form to the same value. */
  const BlankFoodForm := FoodForm("", 0, "")

  function FoodCreatedAt(f: FoodEntry): Option<string> {
    f.createdAt
  }

  function Calories(f: FoodEntry): int {
    f.calories
  }

  /** `loadEntries`: the entries of the collection created on `today`, in order. */
  function TodayEntries(logs: seq<FoodEntry>, today: string): (r: seq<FoodEntry>)
    ensures forall i :: 0 <= i < |r| ==> r[i] in logs && CreatedOn(r[i].createdAt, today)
    ensures forall i :: 0 <= i < |logs| && CreatedOn(logs[i].createdAt, today) ==> logs[i] in r
  {
    TodayOnly(logs, FoodCreatedAt, today)
  }

  /** `totalCalories`: the sum of the calories of the listed entries. */
  function TotalCalories(entries: seq<FoodEntry>): int {
    SumOf(entries, Calories)
  }

  /** The calorie total is additive over concatenation and 0 for no entries. */
  lemma TotalCaloriesAppend(xs: seq<FoodEntry>, ys: seq<FoodEntry>)
    ensures TotalCalories(xs + ys) == TotalCalories(xs) + TotalCalories(ys)
    ensures TotalCalories([]) == 0
  {
    SumOfAppend(xs, ys, Calories);
  }

  /** Appending an entry to the collection adds its calories to today's total
      exactly when it was created today. */
  lemma AppendAddsTodaysCalories(logs: seq<FoodEntry>, e: FoodEntry, today: string)
    ensures TotalCalories(TodayEntries(logs + [e], today))
         == TotalCalories(TodayEntries(logs, today)) + (if CreatedOn(e.createdAt, today) then e.calories else 0)
  {
    TodayTotalAfterAppend(logs, e, FoodCreatedAt, Calories, today);
  }

  /** The page's state. `ctx` is the shared container holding `allFoodLogs`. */
  class FoodLogPage {
    const ctx: AppState
    var entries: seq<FoodEntry>
    var showForm: bool
    var form: FoodForm

    /** The listed entries are today's entries of the current collection. */
    ghost predicate Synced(today: string)
      reads this, ctx
    {
      entries == TodayEntries(ctx.allFoodLogs, today)
    }

    /** The page once mounted: the blank form, hidden, and the mount effect's list. */
    constructor (ctx: AppState, today: string)
      ensures this.ctx == ctx && !showForm && form == BlankFoodForm
      ensures Synced(today)
    {
      this.ctx := ctx;
      entries := TodayEntries(ctx.allFoodLogs, today);
      showForm := false;
      form := BlankFoodForm;
    }

    /** The effect that reruns `loadEntries` whenever `allFoodLogs` changes. */
    method LoadEntries(today: string)
      modifies this`entries
      ensures Synced(today)
    {
      entries := TodayEntries(ctx.allFoodLogs, today);
    }

    /** `handleSubmit` as written, completed with the reply of
        `foodLogs.create`. There is no validation: the form is always sent.
        On a resolved call the collection is replaced by a copy of itself
        (the created record is dropped), so the list effect reruns on the
        same contents; the form stays filled in and shown. */
    method HandleSubmit(created: Reply<FoodEntry>, today: string) returns (sent: FoodForm)
      modifies this`entries, ctx`allFoodLogs
      ensures sent == old(form)
      ensures ctx.allFoodLogs == old(ctx.allFoodLogs)
      ensures created.Resolved? ==> Synced(today)
      ensures created.Rejected? ==> entries == old(entries)
      ensures form == old(form) && showForm == old(showForm)
    {
      sent := form;
      if created.Resolved? {
        ctx.allFoodLogs := ctx.allFoodLogs[..];
        LoadEntries(today);
      }
    }

    /** `handleSubmit` as evidently intended: the created record is appended,
        the way the activity page does it. */
    method HandleSubmitAppending(created: Reply<FoodEntry>, today: string) returns (sent: FoodForm)
      modifies this`entries, ctx`allFoodLogs
      ensures sent == old(form)
      ensures ctx.allFoodLogs == old(ctx.allFoodLogs) + (if created.Resolved? then [created.data] else [])
      ensures created.Resolved? ==> Synced(today)
      ensures created.Rejected? ==> entries == old(entries)
      ensures form == old(form) && showForm == old(showForm)
    {
      sent := form;
      if created.Resolved? {
        ctx.allFoodLogs := ctx.allFoodLogs + [created.data];
        LoadEntries(today);
      }
    }

    /** `handleQuickAdd`: only the meal type changes, and the form is shown. */
    method HandleQuickAdd(mealType: string)
      modifies this`form, this`showForm
      ensures form == old(form).(mealType := mealType) && showForm
      ensures form.name == old(form).name && form.calories == old(form).calories
    {
      form := form.(mealType := mealType);
      showForm := true;
    }

    /** The Cancel button: hide the form and reset it to its initial value. */
    method Cancel()
      modifies this`form, this`showForm
      ensures !showForm && form == BlankFoodForm
    {
      showForm := false;
      form := BlankFoodForm;
    }
  }

  /** Against the submit as written, a 300 kcal breakfast created today
      does not change today's total. */
  method OatmealAsWritten(today: string) returns (before: int, after: int)
    requires 'T' !in today
    ensures after == before
  {
    var nav := new Navigator();
    var ctx := new AppState(Some("jwt"), nav);
    var page := new FoodLogPage(ctx, today);
    page.form := FoodForm("Oatmeal", 300, "Breakfast");
    before := TotalCalories(page.entries);
    var oatmeal := FoodEntry("1", "Oatmeal", 300, "Breakfast", Some(DateTime(today, "08:00:00.000Z")));
    var _ := page.HandleSubmit(Resolved(oatmeal), today);
    after := TotalCalories(page.entries);
  }

  /** Against the corrected submit, a 300 kcal breakfast created today
      raises today's total by 300. */
  method OatmealAppending(today: string) returns (before: int, after: int)
    requires 'T' !in today
    ensures after == before + 300
  {
    var nav := new Navigator();
    var ctx := new AppState(Some("jwt"), nav);
    var page := new FoodLogPage(ctx, today);
    page.form := FoodForm("Oatmeal", 300, "Breakfast");
    before := TotalCalories(page.entries);
    var oatmeal := FoodEntry("1", "Oatmeal", 300, "Breakfast", Some(DateTime(today, "08:00:00.000Z")));
    var logs := ctx.allFoodLogs;
    var _ := page.HandleSubmitAppending(Resolved(oatmeal), today);
    DatePartOfDateTime(today, "08:00:00.000Z");
    AppendAddsTodaysCalories(logs, oatmeal, today);
    after := TotalCalories(page.entries);
  }
}
