/** The session store (app.py:9-21) and the form handlers that change it:
    the thought-record form (app.py:59-79), the activity form and the
    activity checklist (app.py:134-157) and the safety-plan form
    (app.py:165-171). The store is created empty and only ever grows:
    nothing is removed, and an activity once done stays done. */
module Store {
  import opened Records
  import opened Text

  /** `after` is what `before` may become: same activity and creation
      time, and an entry that is done is never touched again. */
  predicate Kept(before: ActivityEntry, after: ActivityEntry) {
    after.activity == before.activity
    && after.timestamp == before.timestamp
    && (before.done ==> after == before)
  }

  class SessionStore {
    var thoughtRecords: seq<ThoughtRecord>
    var activities: seq<ActivityEntry>
    var safetyPlan: SafetyPlan

    /** An activity carries a completion time exactly when it is done. */
    ghost predicate Valid()
      reads this
    {
      forall i :: 0 <= i < |activities| ==>
        (activities[i].done <==> activities[i].completedTime.Some?)
    }

    /** Between two states of the store: thought records are only appended
        to, activities are neither removed nor reordered, and every activity
        keeps its text, its creation time and, once set, its done flag. */
    twostate predicate OnlyGrows()
      reads this
    {
      && old(thoughtRecords) <= thoughtRecords
      && |old(activities)| <= |activities|
      && forall i :: 0 <= i < |old(activities)| ==> Kept(old(activities)[i], activities[i])
    }

    /** The first load of the page (app.py:10-15). */
    constructor ()
      ensures Valid()
      ensures thoughtRecords == [] && activities == [] && safetyPlan == EmptySafetyPlan
    {
      thoughtRecords := [];
      activities := [];
      safetyPlan := EmptySafetyPlan;
    }

    /** `add_thought_record` (app.py:17-18). */
    method AddThoughtRecord(rec: ThoughtRecord)
      requires Valid()
      modifies this
      ensures Valid() && OnlyGrows()
      ensures thoughtRecords == old(thoughtRecords) + [rec]
      ensures activities == old(activities) && safetyPlan == old(safetyPlan)
    {
      thoughtRecords := thoughtRecords + [rec];
    }

    /** The thought-record form's submit branch (app.py:68-79). The slider
        of app.py:63 only yields values from 0 to 100, which the caller
        passes as `intensity`; `now` is the `utcnow()` of app.py:77. */
    method SubmitThoughtForm(submitted: bool, situation: string, thought: string,
                             emotion: Emotion, intensity: int, evidenceFor: string,
                             evidenceAgainst: string, balanced: string, now: string)
      requires Valid()
      requires 0 <= intensity <= 100
      modifies this
      ensures Valid() && OnlyGrows()
      ensures submitted ==>
        |thoughtRecords| == |old(thoughtRecords)| + 1
        && thoughtRecords[..|old(thoughtRecords)|] == old(thoughtRecords)
        && var rec := thoughtRecords[|thoughtRecords| - 1];
           rec == ThoughtRecord(situation, thought, emotion, intensity,
                                evidenceFor, evidenceAgainst, balanced, now)
           && IntensityInRange(rec)
      ensures !submitted ==> thoughtRecords == old(thoughtRecords)
      ensures activities == old(activities) && safetyPlan == old(safetyPlan)
    {
      if submitted {
        var rec := ThoughtRecord(situation, thought, emotion, intensity,
                                 evidenceFor, evidenceAgainst, balanced, now);
        AddThoughtRecord(rec);
      }
    }

    /** `add_activity` (app.py:20-21): wraps `act` as given in a new entry
        that is not done; `now` is the `utcnow()` of app.py:21. */
    method AddActivity(act: PlannedActivity, now: string)
      requires Valid()
      modifies this
      ensures Valid() && OnlyGrows()
      ensures activities == old(activities) + [ActivityEntry(act, false, now, None)]
      ensures thoughtRecords == old(thoughtRecords) && safetyPlan == old(safetyPlan)
    {
      activities := activities + [ActivityEntry(act, false, now, None)];
    }

    /** The activity form's guard (app.py:138-139): an entry is added only
        when the form was submitted and the text is not blank once
        stripped, and it holds the stripped text. `formTime` and
        `storeTime` are the two `utcnow()` calls of app.py:139 and app.py:21. */
    method SubmitActivityForm(submitted: bool, text: string, importance: Importance,
                              formTime: string, storeTime: string) returns (added: bool)
      requires Valid()
      modifies this
      ensures Valid() && OnlyGrows()
      ensures added <==> submitted && exists i :: 0 <= i < |text| && !IsSpace(text[i])
      ensures added ==>
        activities == old(activities)
          + [ActivityEntry(PlannedActivity(Strip(text), importance, false, formTime),
                           false, storeTime, None)]
        && Strip(text) != []
        && ShownImportance(activities[|activities| - 1]) == Text(ImportanceLabel(importance))
      ensures !added ==> activities == old(activities)
      ensures thoughtRecords == old(thoughtRecords) && safetyPlan == old(safetyPlan)
    {
      var stripped := Strip(text);
      added := submitted && stripped != [];
      if added {
        AddActivity(PlannedActivity(stripped, importance, false, formTime), storeTime);
      }
    }

    /** The "Mark done" button of row `i` (app.py:151-157): it is offered
        only while the entry is not done, and pressing it sets the outer
        done flag and the completion time. Pressing on a done row changes
        nothing. */
    method MarkDone(i: nat, now: string)
      requires Valid() && i < |activities|
      modifies this
      ensures Valid() && OnlyGrows()
      ensures |activities| == |old(activities)|
      ensures old(activities[i].done) ==> activities == old(activities)
      ensures !old(activities[i].done) ==>
        activities == old(activities)[i := old(activities[i]).(done := true, completedTime := Some(now))]
      ensures activities[i].done
      ensures thoughtRecords == old(thoughtRecords) && safetyPlan == old(safetyPlan)
    {
      if !activities[i].done {
        activities := activities[i := activities[i].(done := true, completedTime := Some(now))];
      }
    }

    /** The checkbox of row `i` (app.py:146-149): ticking it marks a
        not-yet-done entry done; unticking it never clears the flag. */
    method CheckboxChanged(i: nat, ticked: bool, now: string)
      requires Valid() && i < |activities|
      modifies this
      ensures Valid() && OnlyGrows()
      ensures ticked && !old(activities[i].done) ==>
        activities == old(activities)[i := old(activities[i]).(done := true, completedTime := Some(now))]
      ensures !(ticked && !old(activities[i].done)) ==> activities == old(activities)
      ensures thoughtRecords == old(thoughtRecords) && safetyPlan == old(safetyPlan)
    {
      if ticked && !activities[i].done {
        MarkDone(i, now);
      }
    }

    /** The safety-plan form (app.py:165-168): each text area writes its
        field of the plan; together they overwrite the plan whole. */
    method SaveSafetyPlan(warningSigns: string, coping: string, contacts: string)
      requires Valid()
      modifies this
      ensures Valid() && OnlyGrows()
      ensures safetyPlan == SafetyPlan(warningSigns, coping, contacts)
      ensures thoughtRecords == old(thoughtRecords) && activities == old(activities)
    {
      safetyPlan := safetyPlan.(warningSigns := warningSigns);
      safetyPlan := safetyPlan.(coping := coping);
      safetyPlan := safetyPlan.(contacts := contacts);
    }
  }

  /** A client of the store: a fresh session, two activities, the first one
      marked done twice; the second press changes nothing and the other
      entry is untouched. */
  method ActivityScenario(t0: string, t1: string, t2: string, t3: string)
  {
    var store := new SessionStore();
    var a := PlannedActivity("walk", Medium, false, t0);
    store.AddActivity(a, t0);
    var added := store.SubmitActivityForm(true, "  call a friend ", High, t1, t1);
    assert Strip("  call a friend ") != [] by { assert !IsSpace("  call a friend "[2]); }
    assert added;
    store.MarkDone(0, t2);
    var once := store.activities;
    store.MarkDone(0, t3);
    assert store.activities == once;
    assert store.activities[0].completedTime == Some(t2);
    assert !store.activities[1].done && store.activities[1].activity.importance == High;
  }
}
