/** The values the toolkit keeps in its session store (app.py:9-21, 69-78,
    139): thought records, activity entries and the safety plan. Timestamps
    are the ISO strings `datetime.utcnow().isoformat()` returns; the model
    treats them as opaque text. */
module Records {

  datatype Option<T> = None | Some(value: T)

  /** The choices of the "Primary emotion" select box (app.py:62). */
  datatype Emotion = Anxiety | Sadness | Anger | Guilt | Shame | Other

  /** The choices of the "Importance" select box (app.py:136). */
  datatype Importance = Low | Medium | High

  function ImportanceLabel(i: Importance): (r: string)
    ensures r == "Low" || r == "Medium" || r == "High"
  {
    match i
    case Low => "Low"
    case Medium => "Medium"
    case High => "High"
  }

  /** One CBT thought record, as the form builds it (app.py:69-78). */
  datatype ThoughtRecord = ThoughtRecord(
    situation: string,
    thought: string,
    emotion: Emotion,
    intensity: int,
    evidenceFor: string,
    evidenceAgainst: string,
    balanced: string,
    time: string)

  /** The slider of app.py:63 only yields whole numbers from 0 to 100. */
  predicate IntensityInRange(r: ThoughtRecord) {
    0 <= r.intensity <= 100
  }

  /** The dict the activity form builds and hands to `add_activity`
      (app.py:139). */
  datatype PlannedActivity = PlannedActivity(
    activity: string,
    importance: Importance,
    done: bool,
    time: string)

  /** The dict `add_activity` stores (app.py:21): it wraps its argument
      whole under "activity" and carries its own "done" flag and
      "timestamp"; "completed_time" is added once the entry is marked done
      (app.py:149, 156). Only the outer flag is ever read or written. */
  datatype ActivityEntry = ActivityEntry(
    activity: PlannedActivity,
    done: bool,
    timestamp: string,
    completedTime: Option<string>)

  /** The safety-plan dict (app.py:15). */
  datatype SafetyPlan = SafetyPlan(warningSigns: string, coping: string, contacts: string)

  const EmptySafetyPlan := SafetyPlan("", "", "")

  /** A value stored under a key of an activity entry's outer dict. */
  datatype Value = Text(text: string) | Flag(flag: bool) | Nested(planned: PlannedActivity)

  /** Python's `entry.get(key)` on the outer dict of app.py:21, with the
      "completed_time" key present only once it has been set. */
  function OuterGet(e: ActivityEntry, key: string): (v: Option<Value>)
    ensures v.Some? <==> key in {"activity", "done", "timestamp"}
                          || (key == "completed_time" && e.completedTime.Some?)
  {
    if key == "activity" then Some(Nested(e.activity))
    else if key == "done" then Some(Flag(e.done))
    else if key == "timestamp" then Some(Text(e.timestamp))
    else if key == "completed_time" && e.completedTime.Some? then Some(Text(e.completedTime.value))
    else None
  }

  /** The importance the activity list shows as written at app.py:150,
      `a.get('importance', '')` on the OUTER dict: that dict has no such key,
      so every entry shows the empty default, whatever was chosen. */
  function ShownImportanceAsWritten(e: ActivityEntry): (v: Value)
    ensures v == Text("")
  {
    match OuterGet(e, "importance")
    case Some(found) => found
    case None => Text("")
  }

  /** The importance the list evidently means to show: the one chosen in
      the form, which the nesting puts one level down. */
  function ShownImportance(e: ActivityEntry): (v: Value)
    ensures v.Text? && v.text != ""
    ensures v.text == "Low" || v.text == "Medium" || v.text == "High"
  {
    Text(ImportanceLabel(e.activity.importance))
  }
}
