/** The two mindfulness timers (app.py:97-128): box breathing and the
    two-minute grounding countdown. Each `time.sleep(1)` is counted in
    `slept` instead of waited for; the model keeps only what is shown, in
    order. */
module Timers {
  import opened Text

  // ---------------------------------------------------------------------
  // Box breathing (app.py:97-116)

  const Rounds := 4

  datatype Phase = Inhale | Hold | Exhale

  /** One update of the breathing placeholder. */
  datatype Breath =
    | RoundBanner(round: nat)        // "Round r/4 — Inhale for 4s"
    | HoldBanner                     // "Hold for 4s"
    | ExhaleBanner                   // "Exhale for 4s"
    | Tick(phase: Phase, count: nat) // "⏱ Inhale: 3" and alike
    | Finished                       // "Done. Notice how your body feels."

  function PhaseName(p: Phase): string {
    match p
    case Inhale => "Inhale"
    case Hold => "Hold"
    case Exhale => "Exhale"
  }

  /** The markdown each update shows (app.py:102-114). */
  function BreathText(b: Breath): string {
    match b
    case RoundBanner(r) => "Round " + Decimal(r) + "/" + Decimal(Rounds) + " \U{2014} Inhale for 4s"
    case HoldBanner => "Hold for 4s"
    case ExhaleBanner => "Exhale for 4s"
    case Tick(p, n) => "\U{23f1} " + PhaseName(p) + ": " + Decimal(n)
    case Finished => "Done. Notice how your body feels."
  }

  /** The ticks of one phase shown so far when its counter is at `i`:
      4, 3, ..., i + 1 (`range(4, 0, -1)` has reached `i`). */
  function Counted(p: Phase, i: nat): seq<Breath>
    decreases 4 - i
  {
    if i >= 4 then [] else Counted(p, i + 1) + [Tick(p, i + 1)]
  }

  /** Round `r` (from 0): its banner and four ticks per phase. */
  function RoundScript(r: nat): seq<Breath> {
    [RoundBanner(r + 1)] + Counted(Inhale, 0)
      + [HoldBanner] + Counted(Hold, 0)
      + [ExhaleBanner] + Counted(Exhale, 0)
  }

  /** The first `n` rounds, one after another. */
  function Script(n: nat): seq<Breath> {
    if n == 0 then [] else Script(n - 1) + RoundScript(n - 1)
  }

  /** One phase of a round (app.py:103-105, 107-109, 111-113): the counter
      runs 4, 3, 2, 1 and each value is shown for a second. */
  method CountPhase(p: Phase) returns (ticks: seq<Breath>, slept: nat)
    ensures ticks == Counted(p, 0)
    ensures slept == 4
  {
    ticks, slept := [], 0;
    var i := 4;
    while i > 0
      invariant 0 <= i <= 4
      invariant ticks == Counted(p, i) && slept == 4 - i
    {
      ticks := ticks + [Tick(p, i)];
      slept := slept + 1;
      i := i - 1;
    }
  }

  /** The breathing loop (app.py:99-114): four rounds, each a banner and
      then the counts 4, 3, 2, 1 of inhale, hold and exhale, one second
      apiece, then the closing message. */
  method BoxBreathing() returns (shown: seq<Breath>, slept: nat)
    ensures shown == Script(Rounds) + [Finished]
    ensures slept == 12 * Rounds
  {
    shown, slept := [], 0;
    for r := 0 to Rounds
      invariant shown == Script(r) && slept == 12 * r
    {
      var inhale, t1 := CountPhase(Inhale);
      var hold, t2 := CountPhase(Hold);
      var exhale, t3 := CountPhase(Exhale);
      shown := shown + ([RoundBanner(r + 1)] + inhale + [HoldBanner] + hold + [ExhaleBanner] + exhale);
      slept := slept + t1 + t2 + t3;
    }
    shown := shown + [Finished];
  }

  /** Every phase counts down 4, 3, 2, 1. */
  lemma PhaseCountsDown(p: Phase)
    ensures Counted(p, 0) == [Tick(p, 4), Tick(p, 3), Tick(p, 2), Tick(p, 1)]
  {
  }

  /** Where each update of the breathing script sits: round `r` starts at
      15 * r with its banner, and its phase `k` (0 inhale, 1 hold, 2 exhale)
      shows count `4 - j` at 15 * r + 5 * k + 1 + j. */
  lemma {:induction false} ScriptLayout(n: nat, r: nat, k: nat, j: nat)
    requires r < n && k < 3 && j < 4
    ensures |Script(n)| == 15 * n
    ensures var phase := if k == 0 then Inhale else if k == 1 then Hold else Exhale;
            Script(n)[15 * r + 5 * k + 1 + j] == Tick(phase, 4 - j)
    ensures Script(n)[15 * r] == RoundBanner(r + 1)
    ensures Script(n)[15 * r + 5] == HoldBanner && Script(n)[15 * r + 10] == ExhaleBanner
  {
    PhaseCountsDown(Inhale);
    PhaseCountsDown(Hold);
    PhaseCountsDown(Exhale);
    if r < n - 1 {
      ScriptLayout(n - 1, r, k, j);
    } else {
      ScriptLength(n - 1);
    }
  }

  lemma {:induction false} ScriptLength(n: nat)
    ensures |Script(n)| == 15 * n
  {
    if n > 0 {
      ScriptLength(n - 1);
      PhaseCountsDown(Inhale);
      PhaseCountsDown(Hold);
      PhaseCountsDown(Exhale);
    }
  }

  /** How many count-down ticks (each one a second of sleep) `s` shows. */
  function TickCount(s: seq<Breath>): nat {
    if s == [] then 0 else TickCount(s[..|s| - 1]) + (if s[|s| - 1].Tick? then 1 else 0)
  }

  lemma {:induction false} TickCountAppend(a: seq<Breath>, b: seq<Breath>)
    ensures TickCount(a + b) == TickCount(a) + TickCount(b)
  {
    if b != [] {
      assert (a + b)[..|a + b| - 1] == a + b[..|b| - 1];
      TickCountAppend(a, b[..|b| - 1]);
    } else {
      assert a + b == a;
    }
  }

  lemma {:induction false} CountedTicks(p: Phase, i: nat)
    requires i <= 4
    ensures TickCount(Counted(p, i)) == 4 - i
    decreases 4 - i
  {
    if i < 4 {
      CountedTicks(p, i + 1);
      TickCountAppend(Counted(p, i + 1), [Tick(p, i + 1)]);
      assert TickCount([Tick(p, i + 1)]) == 1 by {
        assert [Tick(p, i + 1)][..0] == [];
      }
    }
  }

  lemma RoundTicks(r: nat)
    ensures TickCount(RoundScript(r)) == 12
  {
    var a, b, c := Counted(Inhale, 0), Counted(Hold, 0), Counted(Exhale, 0);
    CountedTicks(Inhale, 0);
    CountedTicks(Hold, 0);
    CountedTicks(Exhale, 0);
    assert TickCount([RoundBanner(r + 1)]) == 0 by { assert [RoundBanner(r + 1)][..0] == []; }
    assert TickCount([HoldBanner]) == 0 by { assert [HoldBanner][..0] == []; }
    assert TickCount([ExhaleBanner]) == 0 by { assert [ExhaleBanner][..0] == []; }
    TickCountAppend([RoundBanner(r + 1)], a);
    TickCountAppend([RoundBanner(r + 1)] + a, [HoldBanner]);
    TickCountAppend([RoundBanner(r + 1)] + a + [HoldBanner], b);
    TickCountAppend([RoundBanner(r + 1)] + a + [HoldBanner] + b, [ExhaleBanner]);
    TickCountAppend([RoundBanner(r + 1)] + a + [HoldBanner] + b + [ExhaleBanner], c);
  }

  /** The whole breathing exercise shows 48 ticks: four rounds of three
      phases of four seconds, as many as it sleeps. */
  lemma {:induction false} BreathingTicks(n: nat)
    ensures TickCount(Script(n)) == 12 * n
  {
    if n > 0 {
      BreathingTicks(n - 1);
      TickCountAppend(Script(n - 1), RoundScript(n - 1));
      RoundTicks(n - 1);
    }
  }

  // ---------------------------------------------------------------------
  // Grounding countdown (app.py:118-128)

  const GroundingSeconds := 120

  /** `divmod(s, 60)` for a time left of `s` seconds: whole minutes and the
      seconds under a minute. */
  function MinSec(s: nat): (ms: (nat, nat))
    ensures ms.1 < 60 && ms.0 * 60 + ms.1 == s
    ensures s <= GroundingSeconds ==> ms.0 <= 2
  {
    (s / 60, s % 60)
  }

  /** `f"{mins:02d}:{secs:02d}"` (app.py:126): the whole minutes left,
      a colon, then the seconds under a minute as two digits. */
  function Clock(s: nat): (t: string)
    ensures |t| >= 5 && t[|t| - 3] == ':'
    ensures AllDigits(t[..|t| - 3]) && AllDigits(t[|t| - 2..])
    ensures ParseDecimal(t[..|t| - 3]) == s / 60 && ParseDecimal(t[|t| - 2..]) == s % 60
    ensures s <= GroundingSeconds ==> |t| == 5
  {
    var (m, sec) := MinSec(s);
    var t := Pad2(m) + ":" + Pad2(sec);
    assert t[..|t| - 3] == Pad2(m) && t[|t| - 2..] == Pad2(sec);
    t
  }

  /** Reads "MM:SS" back as a number of seconds. */
  function ReadClock(t: string): int
    requires |t| >= 3 && AllDigits(t[..|t| - 3]) && AllDigits(t[|t| - 2..])
  {
    ParseDecimal(t[..|t| - 3]) * 60 + ParseDecimal(t[|t| - 2..])
  }

  /** The displayed clock always reads back as the seconds left. */
  lemma ClockRoundTrip(s: nat)
    ensures var t := Clock(s);
      |t| >= 3 && AllDigits(t[..|t| - 3]) && AllDigits(t[|t| - 2..]) && ReadClock(t) == s
  {
    var (m, sec) := MinSec(s);
    assert m * 60 + sec == s;
  }

  const RemainingPrefix := "Time remaining: "

  function RemainingText(s: nat): string {
    RemainingPrefix + Clock(s)
  }

  const GroundingDone := "Finished. Take a slow breath."

  /** The grounding loop (app.py:122-128): `range(120, -1, -1)` visits
      120, 119, ..., 0, showing the time left at each second, then the
      closing message. */
  method GroundingTimer() returns (seconds: seq<nat>, shown: seq<string>, slept: nat)
    ensures |seconds| == GroundingSeconds + 1
    ensures forall k :: 0 <= k < |seconds| ==> seconds[k] == GroundingSeconds - k
    ensures |shown| == |seconds| + 1
    ensures forall k :: 0 <= k < |seconds| ==> shown[k] == RemainingText(seconds[k])
    ensures shown[|seconds|] == GroundingDone
    ensures slept == |seconds|
  {
    seconds, shown, slept := [], [], 0;
    var s: int := GroundingSeconds;
    while s > -1
      invariant -1 <= s <= GroundingSeconds
      invariant |seconds| == GroundingSeconds - s && |shown| == |seconds|
      invariant forall k :: 0 <= k < |seconds| ==> seconds[k] == GroundingSeconds - k
      invariant forall k :: 0 <= k < |seconds| ==> shown[k] == RemainingText(seconds[k])
      invariant slept == |seconds|
    {
      seconds := seconds + [s];
      shown := shown + [RemainingText(s)];
      slept := slept + 1;
      s := s - 1;
    }
    shown := shown + [GroundingDone];
  }

  /** Consecutive displays of the countdown read one second apart: the time
      shown drops by exactly one per tick, none skipped. */
  lemma CountdownStep(s: nat)
    requires 0 < s <= GroundingSeconds
    ensures var now, next := Clock(s), Clock(s - 1);
      ReadClock(now) == ReadClock(next) + 1 && |now| == |next| == 5
  {
    ClockRoundTrip(s);
    ClockRoundTrip(s - 1);
  }
}
