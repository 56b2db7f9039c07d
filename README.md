# Mental Health Education Toolkit — a verified model of its session store and helpers

The toolkit is a single Streamlit page (`app.py`). Most of it is static
content. This project models the part that has behaviour:

- the **session store**: thought records (append-only), planned activities
  whose `done` flag only goes from false to true, and a three-field safety
  plan that is overwritten whole;
- the **form handlers** that change the store: the thought-record form, the
  activity form with its "blank after `strip()`" guard, the checklist's
  checkbox and "Mark done" button, and the safety-plan form;
- the **views and exports**: the five most recent thought records, newest
  first; the safety-plan text; the constant worksheet;
- the **quiz**: selections turned into option indices and scored against the
  answer key [1, 2, 1];
- the **timers**: the box-breathing display sequence and the two-minute
  grounding countdown with its `MM:SS` clock.

Modules, one per file: `Text` (Python's `str.strip()`, `str(n)` and the
`{n:02d}` format), `Records` (the stored values), `Store` (the class
`SessionStore` and its handlers), `Views`, `Quiz`, `Timers`.

The store keeps the source's nesting. The activity form passes a dict to
`add_activity` (app.py:139), and `add_activity` wraps it again (app.py:21).
So each stored `ActivityEntry` holds the form's `PlannedActivity` under
`activity`, and the entry has its own outer `done` flag. Only that outer
flag is ever read or written. The store's invariant `Valid()` says that an
entry has a completion time exactly when it is done. Every handler also
promises `OnlyGrows()`: nothing is removed or reordered, and an entry that is
done is never changed again.

Timestamps (`datetime.utcnow().isoformat()`) are string parameters. Each
`time.sleep(1)` of the timers adds one to a `slept` counter instead of waiting.

`MarkDone` requires a valid index, because the page only indexes rows it is
enumerating (app.py:144). The importance is stored one level down, inside the
nested dict (app.py:139, 21).

## Model

| member | source | states |
|---|---|---|
| Text.Strip | app.py:138-139 | `act.strip()`: the result is a slice of the input with only whitespace (Python's `isspace` set) cut from either end; it neither starts nor ends with whitespace; it is empty exactly when the input is all whitespace |
| Text.StripIdempotent | app.py:139 | the stored activity text is already stripped: stripping it again changes nothing |
| Text.Decimal | app.py:102 | `str(n)`: decimal digits only, one digit exactly below 10, no leading zero |
| Text.DecimalRoundTrip | app.py:126 | reading back the digits of `str(n)` gives `n` |
| Text.Pad2 | app.py:126 | `{n:02d}`: at least two digits, exactly two below 100, no leading zero beyond two digits, and it reads back as `n` |
| Records.ImportanceLabel | app.py:136 | the importance select box offers only "Low", "Medium" or "High" |
| Records.OuterGet | app.py:21 | the outer activity dict has exactly the keys activity, done, timestamp, plus completed_time once it is set |
| Records.ShownImportanceAsWritten | app.py:150 | `a.get('importance','')` on the outer dict always shows the empty default |
| Records.ShownImportance | app.py:150 | the importance the row evidently means to show: never empty, one of Low/Medium/High |
| Store.SessionStore.constructor | app.py:10-15 | a new session has no thought records, no activities and a plan of three empty fields |
| Store.SessionStore.AddThoughtRecord | app.py:17-18 | appends exactly one record at the end; earlier records, activities and the plan are unchanged |
| Store.SessionStore.SubmitThoughtForm | app.py:63-79 | on submit, appends one record built from the form's fields, with intensity within 0..100; earlier records kept in order; without submit nothing changes |
| Store.SessionStore.AddActivity | app.py:20-21 | appends one entry whose outer done is false, with no completion time, wrapping the argument as given; nothing else changes |
| Store.SessionStore.SubmitActivityForm | app.py:134-140 | adds an entry exactly when submitted and the text has a non-whitespace character; the entry holds the stripped text and the chosen importance; otherwise the store is unchanged |
| Store.SessionStore.MarkDone | app.py:151-157 | on a row not yet done, sets done and records the completion time; on a done row changes nothing (idempotent); other rows and the length are unchanged; done never returns to false |
| Store.SessionStore.CheckboxChanged | app.py:146-149 | ticking a row that is not done marks it done with the time; any other change of the box leaves the store unchanged, so unticking never clears done |
| Store.SessionStore.SaveSafetyPlan | app.py:165-168 | the plan becomes exactly the three submitted fields; records and activities are unchanged |
| Views.Reverse | app.py:84 | `reversed(s)`: same length, element k is element n-1-k of the input |
| Views.Recent | app.py:82-84 | the view holds min(5, n) records, and its k-th entry is the k-th newest record, so the newest comes first |
| Views.RecentAfterAdd | app.py:84 | after a record is added it heads the view, followed by the previous view cut to four |
| Views.SafetyText | app.py:23-26 | the text starts with "Safety Plan\n\n", then "Warning signs:\n" + warning signs, "Coping strategies:\n" + coping, "Contacts & supports:\n" + contacts at increasing fixed offsets, the first two sections each followed by the blank-line separator "\n\n", the last by a newline; its length is 73 plus the field lengths, so every template character is fixed |
| Views.SafetyTextFields | app.py:25 | each field of the plan reads back from a fixed slice of its text |
| Views.SafetyTextDeterminesPlan | app.py:25 | two plans with equal-length first two fields export the same text only if they are the same plan |
| Views.SafetyTextAmbiguous | app.py:25 | a field that contains the next heading makes two different plans export the same text |
| Views.Worksheet | app.py:223-230 | the worksheet is a constant: the title, a blank line, and the five prompts numbered 1) to 5), each followed by a blank line |
| Quiz.AnswerKey | app.py:180-196 | the answer key is [1, 2, 1], and each entry is a valid option index of its question |
| Quiz.IndexOf | app.py:202 | `options.index(choice)`: a position holding the choice, with no earlier one |
| Quiz.AnswersFor | app.py:198-202 | one index per question, and each names the option selected for that question |
| Quiz.CollectAnswers | app.py:199-202 | the loop builds exactly those indices |
| Quiz.Matches | app.py:204-206 | the count of matching positions is at most the number of answers |
| Quiz.ScoreQuiz | app.py:197-207 | the score is the number of positions where the answer equals the key, so 0 <= score <= 3 |
| Quiz.FullMarksIff | app.py:204-207 | full marks exactly when the answers equal the key |
| Quiz.NoMarksIff | app.py:204-207 | zero exactly when no answer equals the key |
| Quiz.SampleScores | app.py:180-206 | answers [1, 2, 1] score 3 and [0, 0, 0] score 0 |
| Quiz.RevealedAnswers | app.py:208-210 | the revealed correct options are one valid selection per question |
| Quiz.RevealedAnswersScoreFull | app.py:198-210 | selecting the revealed options scores full marks, since each question's options are distinct |
| Timers.CountPhase | app.py:103-105 | one phase shows the counts 4, 3, 2, 1 and sleeps four seconds |
| Timers.BoxBreathing | app.py:99-114 | the display sequence is four rounds of banner and inhale/hold/exhale counts, then the closing message; 48 seconds of sleep in all |
| Timers.PhaseCountsDown | app.py:103-113 | every phase counts exactly 4, 3, 2, 1 |
| Timers.ScriptLayout | app.py:101-113 | n rounds show 15n updates; round r starts at 15r with its banner, hold and exhale banners at 15r+5 and 15r+10, and count 4-j of phase k sits at 15r+5k+1+j |
| Timers.BreathingTicks | app.py:101-113 | n rounds show 12n count-down ticks, so the exercise shows 48 |
| Timers.MinSec | app.py:124-125 | `s // 60` and `s % 60`: seconds below 60, minutes*60 + seconds = s, and minutes at most 2 for s up to 120 |
| Timers.Clock | app.py:124-126 | the clock text is digits, a colon, then two digits; the part before the colon reads as `s // 60` and the part after as `s % 60`; 5 characters for s up to 120 |
| Timers.ClockRoundTrip | app.py:124-126 | the shown clock reads back as the seconds left |
| Timers.GroundingTimer | app.py:122-128 | visits 120, 119, ..., 0 (121 values, one apart, none skipped), shows the time left for each, then the closing message; sleeps 121 seconds |
| Timers.CountdownStep | app.py:123-126 | consecutive clock displays read exactly one second apart |

## Findings

| source | as written | input that shows it | evidently intended | confidence | as-written member | corrected member |
|---|---|---|---|---|---|---|
| app.py:150 | `a.get('importance','')` looks the importance up in the outer entry built by `add_activity`, which has no such key | any activity, e.g. "walk" added with importance High: its row shows "" | show the importance chosen in the form, stored one level down in the nested dict | high; not executed | Records.ShownImportanceAsWritten | Records.ShownImportance |

## Left out

- Streamlit rendering and widgets: `st.*` calls, expanders, columns, buttons, the sidebar radio and its section dispatch (app.py:32-42), `download_button`, `experimental_rerun` and the `RerunException` handler (app.py:115-116). These are framework behaviour.
- The per-rerun `session_state` lifecycle. The store is a plain object created empty, as at app.py:10-15.
- Real time: `time.sleep` is counted in `slept`, not waited for.
- `datetime.utcnow().isoformat()`: a library call. Timestamps are opaque string parameters.
- `.encode("utf-8")` of the two downloads (app.py:173, 231): a library call. Only the text is modelled.
- Static content and links (app.py:45-53, 213-220).
- Display text that only renders stored values. This covers the expander titles and "—" fallbacks of the recent-records list (app.py:85-90) and the activity row label (app.py:150). The label prints the nested dict rather than its text. Also left out are the quiz messages (app.py:207-210). `Timers.BreathText` and `Timers.RemainingText` give the timers' lines, but carry no contract.
- The enumeration loop of app.py:144 that visits every activity row on each rerun. Each row's checkbox and button are modelled one call at a time (`CheckboxChanged`, `MarkDone`).
- The checkbox that gates the grounding timer (app.py:120), and the radios' default selection. The quiz's selected options are parameters.
- The three identical inner loops of the breathing exercise are one method, `Timers.CountPhase`, called once per phase.
- The inner `done` and `time` of the nested activity dict: nothing reads or writes them after creation.
