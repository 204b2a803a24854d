/** The activity log page: today's activities and their minutes, the entry
    form with its validation, quick-add presets and the duration-driven
    calorie estimate. */
module ActivityLog {
  import opened Wrappers
  import opened Types
  import opened Dates
  import opened Daily
  import opened AppContext

  /** A quick-add preset: an activity name and the calories it burns per minute. */
  datatype QuickActivity = QuickActivity(name: string, rate: int)

  /** The entry form's fields. */
  datatype ActivityForm = ActivityForm(name: string, duration: int, calories: int)

  /** The form's initial value, and what a successful submit resets it to. */
  const BlankForm := ActivityForm("", 0, 0)

  /** The duration, in minutes, a quick-add fills in. */
  const QuickAddMinutes := 30

  const FillAllFields := "Please fill in all fields"

  function ActivityCreatedAt(a: ActivityEntry): Option<string> {
    a.createdAt
  }

  function Duration(a: ActivityEntry): int {
    a.duration
  }

  /** `loadActivities`: the entries of the collection created on `today`, in order. */
  function TodayActivities(logs: seq<ActivityEntry>, today: string): (r: seq<ActivityEntry>)
    ensures forall i :: 0 <= i < |r| ==> r[i] in logs && CreatedOn(r[i].createdAt, today)
    ensures forall i :: 0 <= i < |logs| && CreatedOn(logs[i].createdAt, today) ==> logs[i] in r
  {
    TodayOnly(logs, ActivityCreatedAt, today)
  }

  /** `totalMinutes`: the sum of the durations of the listed activities. */
  function TotalMinutes(activities: seq<ActivityEntry>): int {
    SumOf(activities, Duration)
  }

  /** The minutes total is additive over concatenation and 0 for no activities. */
  lemma TotalMinutesAppend(xs: seq<ActivityEntry>, ys: seq<ActivityEntry>)
    ensures TotalMinutes(xs + ys) == TotalMinutes(xs) + TotalMinutes(ys)
    ensures TotalMinutes([]) == 0
  {
    SumOfAppend(xs, ys, Duration);
  }

  /** Appending an activity to the collection adds its duration to today's
      total exactly when it was created today. */
  lemma SubmitAddsTodaysMinutes(logs: seq<ActivityEntry>, e: ActivityEntry, today: string)
    ensures TotalMinutes(TodayActivities(logs + [e], today))
         == TotalMinutes(TodayActivities(logs, today)) + (if CreatedOn(e.createdAt, today) then e.duration else 0)
  {
    TodayTotalAfterAppend(logs, e, ActivityCreatedAt, Duration, today);
  }

  /** Position `i` holds the first preset named `name`. */
  predicate FirstNamed(quick: seq<QuickActivity>, i: int, name: string) {
    0 <= i < |quick| && quick[i].name == name
    && forall j :: 0 <= j < i ==> quick[j].name != name
  }

  /** `quickActivities.find(a => a.name === name)`. */
  function FindQuick(quick: seq<QuickActivity>, name: string): (r: Option<QuickActivity>)
    ensures r.None? <==> forall j :: 0 <= j < |quick| ==> quick[j].name != name
    ensures forall i :: FirstNamed(quick, i, name) ==> r == Some(quick[i])
  {
    if quick == [] then None
    else if quick[0].name == name then Some(quick[0])
    else
      var r := FindQuick(quick[1..], name);
      assert forall i :: FirstNamed(quick, i, name) ==> i > 0 && FirstNamed(quick[1..], i - 1, name);
      r
  }

  /** Whether submit refuses the form: `!name || !duration || !calories`. */
  predicate MissingField(form: ActivityForm) {
    form.name == "" || form.duration == 0 || form.calories == 0
  }

  /** The form `handleQuickAdd` fills in for a preset. */
  function QuickAddForm(q: QuickActivity): (f: ActivityForm)
    ensures f.name == q.name && f.duration == QuickAddMinutes
    ensures f.calories == f.duration * q.rate
  {
    ActivityForm(q.name, QuickAddMinutes, QuickAddMinutes * q.rate)
  }

  /** `handleDurationChange(d)`: the duration becomes `d` and the name stays;
      the calories become `d` times the rate of the first preset with the
      form's name, and stay as they were when no preset has that name. */
  function DurationChanged(quick: seq<QuickActivity>, form: ActivityForm, d: int): (r: ActivityForm)
    ensures r.name == form.name && r.duration == d
    ensures (forall j :: 0 <= j < |quick| ==> quick[j].name != form.name) ==> r.calories == form.calories
    ensures forall i :: FirstNamed(quick, i, form.name) ==> r.calories == d * quick[i].rate
  {
    var calories := match FindQuick(quick, form.name)
      case Some(q) => d * q.rate
      case None => form.calories;
    form.(duration := d, calories := calories)
  }

  /** After a quick-add of the first preset with its name, every later
      duration change keeps calories at duration times that preset's rate. */
  lemma QuickAddThenDurationChange(quick: seq<QuickActivity>, i: int, d: int)
    requires 0 <= i < |quick| && FirstNamed(quick, i, quick[i].name)
    ensures DurationChanged(quick, QuickAddForm(quick[i]), d) == ActivityForm(quick[i].name, d, d * quick[i].rate)
    ensures DurationChanged(quick, QuickAddForm(quick[i]), QuickAddMinutes) == QuickAddForm(quick[i])
  {
  }

  /** The page's state. `ctx` is the shared container whose
      `allActivityLogs` the page appends to. */
  class ActivityLogPage {
    const ctx: AppState
    const quickActivities: seq<QuickActivity>
    var activities: seq<ActivityEntry>
    var showForm: bool
    var form: ActivityForm
    var error: string

    /** The listed activities are today's activities of the current collection. */
    ghost predicate Synced(today: string)
      reads this, ctx
    {
      activities == TodayActivities(ctx.allActivityLogs, today)
    }

    /** The page once mounted: the blank form, hidden, no error, and the
        mount effect's list. */
    constructor (ctx: AppState, quick: seq<QuickActivity>, today: string)
      ensures this.ctx == ctx && quickActivities == quick
      ensures !showForm && form == BlankForm && error == ""
      ensures Synced(today)
    {
      this.ctx := ctx;
      quickActivities := quick;
      activities := TodayActivities(ctx.allActivityLogs, today);
      showForm := false;
      form := BlankForm;
      error := "";
    }

    /** The effect that reruns `loadActivities` whenever `allActivityLogs` changes. */
    method LoadActivities(today: string)
      modifies this`activities
      ensures Synced(today)
    {
      activities := TodayActivities(ctx.allActivityLogs, today);
    }

    /** `handleSubmit`, completed with the reply of `activityLogs.create`.
        Returns the form sent to the gateway, or None when validation stopped
        the submit before any call. A valid submit whose call resolves appends
        the created record, resets and hides the form, and the list effect
        reruns; a rejected call propagates after the error was cleared. */
    method HandleSubmit(created: Reply<ActivityEntry>, today: string) returns (sent: Option<ActivityForm>)
      modifies this`error, this`form, this`showForm, this`activities, ctx`allActivityLogs
      ensures sent == if MissingField(old(form)) then None else Some(old(form))
      ensures MissingField(old(form)) ==> error == FillAllFields
      ensures !MissingField(old(form)) ==> error == ""
      ensures if sent.Some? && created.Resolved? then
          ctx.allActivityLogs == old(ctx.allActivityLogs) + [created.data]
          && form == BlankForm && !showForm && Synced(today)
        else
          ctx.allActivityLogs == old(ctx.allActivityLogs)
          && form == old(form) && showForm == old(showForm) && activities == old(activities)
    {
      error := "";
      if MissingField(form) {
        error := FillAllFields;
        return None;
      }
      sent := Some(form);
      if created.Resolved? {
        ctx.allActivityLogs := ctx.allActivityLogs + [created.data];
        form := BlankForm;
        showForm := false;
        LoadActivities(today);
      }
    }

    /** `handleQuickAdd`: fill the form from a preset and show it. */
    method HandleQuickAdd(q: QuickActivity)
      modifies this`form, this`showForm
      ensures form == QuickAddForm(q) && showForm
    {
      form := QuickAddForm(q);
      showForm := true;
    }

    /** `handleDurationChange`. */
    method HandleDurationChange(d: int)
      modifies this`form
      ensures form == DurationChanged(quickActivities, old(form), d)
    {
      var preset := FindQuick(quickActivities, form.name);
      var calories := form.calories;
      if preset.Some? {
        calories := d * preset.value.rate;
      }
      form := form.(duration := d, calories := calories);
    }

    /** The Cancel button only hides the form; its fields are kept. */
    method Cancel()
      modifies this`showForm
      ensures !showForm
    {
      showForm := false;
    }
  }
}
