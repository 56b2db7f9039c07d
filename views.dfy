/** Read-only views of the store and the two text exports: the "Recent
    thought records" list (app.py:82-84), the safety-plan text
    (`build_safety_text`, app.py:23-26) and the printable worksheet
    (app.py:223-230). */
module Views {
  import opened Records
  import opened Text

  function Min(a: int, b: int): int {
    if a <= b then a else b
  }

  /** Python's `reversed(s)`. */
  function Reverse<T>(s: seq<T>): (r: seq<T>)
    ensures |r| == |s|
    ensures forall k :: 0 <= k < |s| ==> r[k] == s[|s| - 1 - k]
  {
    if s == [] then [] else Reverse(s[1..]) + [s[0]]
  }

  /** `reversed(records[-5:])` (app.py:84): Python's `[-5:]` is the whole
      list when it has fewer than five entries. The view holds the last
      min(5, n) records, newest first. */
  function Recent<T>(records: seq<T>): (r: seq<T>)
    ensures |r| == Min(5, |records|)
    ensures forall k :: 0 <= k < |r| ==> r[k] == records[|records| - 1 - k]
  {
    Reverse(if |records| <= 5 then records else records[|records| - 5..])
  }

  /** After a record is added, it heads the view, and the view's other
      entries are the previous view cut to four. */
  lemma RecentAfterAdd<T>(records: seq<T>, x: T)
    ensures Recent(records + [x]) == [x] + Recent(records)[..Min(4, |records|)]
  {
  }

  /** `s[at..]` starts with `t`. */
  ghost predicate Occurs(t: string, s: string, at: int) {
    0 <= at && at + |t| <= |s| && s[at..at + |t|] == t
  }

  const SafetyTitle := "Safety Plan\n\n"
  const WarningHeading := "Warning signs:\n"
  const CopingHeading := "Coping strategies:\n"
  const ContactsHeading := "Contacts & supports:\n"

  /** `build_safety_text` (app.py:23-26): the title, then each field under
      its heading, the sections separated by a blank line, in the order
      warning signs, coping strategies, contacts, and a final newline. */
  function SafetyText(sp: SafetyPlan): (r: string)
    ensures |r| == 73 + |sp.warningSigns| + |sp.coping| + |sp.contacts|
    ensures r[..13] == SafetyTitle
    ensures Occurs(WarningHeading + sp.warningSigns, r, 13)
    ensures Occurs("\n\n", r, 28 + |sp.warningSigns|)
    ensures Occurs(CopingHeading + sp.coping, r, 30 + |sp.warningSigns|)
    ensures Occurs("\n\n", r, 49 + |sp.warningSigns| + |sp.coping|)
    ensures Occurs(ContactsHeading + sp.contacts, r, 51 + |sp.warningSigns| + |sp.coping|)
    ensures r[|r| - 1] == '\n'
  {
    var w := WarningHeading + sp.warningSigns;
    var c := CopingHeading + sp.coping;
    var k := ContactsHeading + sp.contacts;
    var r := SafetyTitle + w + "\n\n" + c + "\n\n" + k + "\n";
    SafetyTextLayout(w, c, k);
    r
  }

  lemma SafetyTextLayout(w: string, c: string, k: string)
    ensures var r := SafetyTitle + w + "\n\n" + c + "\n\n" + k + "\n";
      && r[..13] == SafetyTitle
      && Occurs(w, r, 13)
      && Occurs("\n\n", r, 13 + |w|)
      && Occurs(c, r, 15 + |w|)
      && Occurs("\n\n", r, 15 + |w| + |c|)
      && Occurs(k, r, 17 + |w| + |c|)
  {
  }

  /** Two plans whose first two fields have the same lengths export the
      same text only if they are the same plan. */
  lemma SafetyTextDeterminesPlan(p: SafetyPlan, q: SafetyPlan)
    requires |p.warningSigns| == |q.warningSigns| && |p.coping| == |q.coping|
    requires SafetyText(p) == SafetyText(q)
    ensures p == q
  {
    SafetyTextFields(p);
    SafetyTextFields(q);
  }

  /** Where each field of the plan can be read back from its text. */
  lemma SafetyTextFields(sp: SafetyPlan)
    ensures var t, w, c := SafetyText(sp), |sp.warningSigns|, |sp.coping|;
      && sp.warningSigns == t[28..28 + w]
      && sp.coping == t[49 + w..49 + w + c]
      && sp.contacts == t[72 + w + c..|t| - 1]
  {
    var t, w, c := SafetyText(sp), |sp.warningSigns|, |sp.coping|;
    assert t[13..28 + w][15..] == t[28..28 + w];
    assert t[30 + w..49 + w + c][19..] == t[49 + w..49 + w + c];
    assert t[51 + w + c..|t| - 1][21..] == t[72 + w + c..|t| - 1];
  }

  /** Without the lengths the text does not determine the plan: a field
      that itself contains the next heading makes two plans export alike. */
  lemma SafetyTextAmbiguous(x: string, y: string, z: string, k: string)
    ensures var p := SafetyPlan(x + "\n\n" + CopingHeading + y, z, k);
            var q := SafetyPlan(x, y + "\n\n" + CopingHeading + z, k);
            p != q && SafetyText(p) == SafetyText(q)
  {
    var p := SafetyPlan(x + "\n\n" + CopingHeading + y, z, k);
    var q := SafetyPlan(x, y + "\n\n" + CopingHeading + z, k);
    assert |p.warningSigns| > |q.warningSigns|;
    Regroup(SafetyTitle, WarningHeading, "\n\n", CopingHeading, ContactsHeading, "\n", x, y, z, k);
  }

  /** The regrouping behind `SafetyTextAmbiguous`, with the fixed parts of
      the template as parameters. */
  lemma Regroup(t: string, w: string, n: string, c: string, k: string, e: string,
                x: string, y: string, z: string, contacts: string)
    ensures t + (w + (x + n + c + y)) + n + (c + z) + n + (k + contacts) + e
         == t + (w + x) + n + (c + (y + n + c + z)) + n + (k + contacts) + e
  {
  }

  const WorksheetTitle := "Mental Health Toolkit Worksheet"
  const WorksheetPrompts := ["Today I noticed", "Thought I challenged",
                             "Activity I scheduled", "Coping strategies to try",
                             "Support contacts"]

  /** One numbered prompt of the worksheet: "n) prompt:" and a blank line. */
  function PromptLine(n: nat, prompt: string): string {
    Decimal(n) + ") " + prompt + ":\n\n"
  }

  /** The prompts in turn, numbered from `first`. */
  function NumberedPrompts(prompts: seq<string>, first: nat): string {
    if prompts == [] then ""
    else PromptLine(first, prompts[0]) + NumberedPrompts(prompts[1..], first + 1)
  }

  /** The printable worksheet (app.py:223-230): a constant, the title and
      the five numbered prompts 1) to 5), each followed by a blank line. */
  function Worksheet(): (r: string)
    ensures r == WorksheetTitle + "\n\n" + NumberedPrompts(WorksheetPrompts, 1)
  {
    var ps := WorksheetPrompts;
    assert NumberedPrompts(ps, 1) == PromptLine(1, ps[0]) + (PromptLine(2, ps[1])
      + (PromptLine(3, ps[2]) + (PromptLine(4, ps[3]) + (PromptLine(5, ps[4]) + "")))) by {
      assert ps[1..][1..][1..][1..][1..] == [];
    }
    WorksheetLine1(); WorksheetLine2(); WorksheetLine3(); WorksheetLine4(); WorksheetLine5();
    Reassociate("Mental Health Toolkit Worksheet\n\n",
                "1) Today I noticed:\n\n",
                "2) Thought I challenged:\n\n",
                "3) Activity I scheduled:\n\n",
                "4) Coping strategies to try:\n\n",
                "5) Support contacts:\n\n");
    "Mental Health Toolkit Worksheet\n\n"
      + "1) Today I noticed:\n\n"
      + "2) Thought I challenged:\n\n"
      + "3) Activity I scheduled:\n\n"
      + "4) Coping strategies to try:\n\n"
      + "5) Support contacts:\n\n"
  }

  lemma WorksheetLine1()
    ensures PromptLine(1, WorksheetPrompts[0]) == "1) Today I noticed:\n\n"
  {
  }

  lemma WorksheetLine2()
    ensures PromptLine(2, WorksheetPrompts[1]) == "2) Thought I challenged:\n\n"
  {
  }

  lemma WorksheetLine3()
    ensures PromptLine(3, WorksheetPrompts[2]) == "3) Activity I scheduled:\n\n"
  {
  }

  lemma WorksheetLine4()
    ensures PromptLine(4, WorksheetPrompts[3]) == "4) Coping strategies to try:\n\n"
  {
  }

  lemma WorksheetLine5()
    ensures PromptLine(5, WorksheetPrompts[4]) == "5) Support contacts:\n\n"
  {
  }

  lemma Reassociate(t: string, a: string, b: string, c: string, d: string, e: string)
    ensures t + a + b + c + d + e == t + (a + (b + (c + (d + (e + "")))))
  {
  }
}
