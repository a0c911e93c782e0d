/**
 * The hour filter of `drawForecast`: today's hours are scanned in order, hours
 * that are not strictly after the current reading are dropped, and runs of one
 * condition code are thinned by the mutable record `lastHourWeather`
 * (`code`, `forLastXhours`), which starts at (0, 0).
 *
 * `Admit` is one call of the filter callback; `Run`, `Selected` and `Repeats`
 * fold it over a prefix of the hours, from the left, as the scan does.
 * `SelectHours` is the scan itself, with the record's two fields as variables.
 */
module ForecastSelector {
  import opened Weather

  /** The value of `lastHourWeather`. */
  datatype Tracker = Tracker(code: int, forLastXhours: nat)

  const Initial := Tracker(0, 0)

  /** What one call of the callback returns, and the record after it. */
  datatype Verdict = Verdict(keep: bool, next: Tracker)

  predicate IsFuture(h: Hour, lastUpdated: int) {
    h.timeEpoch > lastUpdated
  }

  /** A future hour whose code equals the tracked code. */
  predicate IsRepeat(t: Tracker, h: Hour, lastUpdated: int) {
    IsFuture(h, lastUpdated) && h.condition.code == t.code
  }

  /** One call of the filter callback on `h` with the record in state `t`. */
  function Admit(t: Tracker, h: Hour, lastUpdated: int): Verdict {
    if !IsFuture(h, lastUpdated) then Verdict(false, t)
    else if h.condition.code == t.code && t.forLastXhours < 2 then
      Verdict(false, t.(forLastXhours := t.forLastXhours + 1))
    else if h.condition.code == t.code then
      Verdict(true, Tracker(h.condition.code, 0))
    else
      Verdict(true, t.(code := h.condition.code))
  }

  /** The record after the callback has seen every hour of `hours`. */
  function Run(hours: seq<Hour>, lastUpdated: int): Tracker
    decreases |hours|
  {
    if hours == [] then Initial
    else Admit(Run(hours[..|hours| - 1], lastUpdated), hours[|hours| - 1], lastUpdated).next
  }

  /** The callback's answer for `hours[i]`. */
  predicate KeptAt(hours: seq<Hour>, lastUpdated: int, i: nat)
    requires i < |hours|
  {
    Admit(Run(hours[..i], lastUpdated), hours[i], lastUpdated).keep
  }

  /** Whether `hours[i]` is a repeat when the scan reaches it. */
  predicate RepeatAt(hours: seq<Hour>, lastUpdated: int, i: nat)
    requires i < |hours|
  {
    IsRepeat(Run(hours[..i], lastUpdated), hours[i], lastUpdated)
  }

  /** The result of `today.hour.filter(...)`. */
  function Selected(hours: seq<Hour>, lastUpdated: int): seq<Hour>
    decreases |hours|
  {
    if hours == [] then []
    else
      var i := |hours| - 1;
      Selected(hours[..i], lastUpdated) + (if KeptAt(hours, lastUpdated, i) then [hours[i]] else [])
  }

  /** How many repeats the scan of `hours` meets. */
  function Repeats(hours: seq<Hour>, lastUpdated: int): nat
    decreases |hours|
  {
    if hours == [] then 0
    else
      var i := |hours| - 1;
      Repeats(hours[..i], lastUpdated) + (if RepeatAt(hours, lastUpdated, i) then 1 else 0)
  }

  /** `a` is `b` with some elements removed, the rest in their order. */
  predicate IsSubsequence<T(==)>(a: seq<T>, b: seq<T>)
    decreases |b|
  {
    if a == [] then true
    else if b == [] then false
    else (a[|a| - 1] == b[|b| - 1] && IsSubsequence(a[..|a| - 1], b[..|b| - 1]))
         || IsSubsequence(a, b[..|b| - 1])
  }

  /** The filter as the source runs it: one pass, `code` and `forLastXhours` updated in place. */
  method SelectHours(hours: seq<Hour>, lastUpdated: int) returns (kept: seq<Hour>)
    ensures kept == Selected(hours, lastUpdated)
  {
    var code: int := 0;
    var forLastXhours: nat := 0;
    kept := [];
    for i := 0 to |hours|
      invariant kept == Selected(hours[..i], lastUpdated)
      invariant Tracker(code, forLastXhours) == Run(hours[..i], lastUpdated)
    {
      assert hours[..i + 1][..i] == hours[..i];
      var hour := hours[i];
      if hour.timeEpoch > lastUpdated {
        var keep := true;
        if hour.condition.code == code {
          if forLastXhours < 2 {
            forLastXhours := forLastXhours + 1;
            keep := false;
          } else {
            forLastXhours := 0;
          }
        }
        if keep {
          code := hour.condition.code;
          kept := kept + [hour];
        }
      }
    }
    assert hours[..|hours|] == hours;
  }

  lemma PrefixStep(hours: seq<Hour>, lastUpdated: int, i: nat)
    requires i < |hours|
    ensures Run(hours[..i + 1], lastUpdated) == Admit(Run(hours[..i], lastUpdated), hours[i], lastUpdated).next
    ensures Selected(hours[..i + 1], lastUpdated)
         == Selected(hours[..i], lastUpdated) + (if KeptAt(hours, lastUpdated, i) then [hours[i]] else [])
    ensures Repeats(hours[..i + 1], lastUpdated)
         == Repeats(hours[..i], lastUpdated) + (if RepeatAt(hours, lastUpdated, i) then 1 else 0)
  {
    assert hours[..i + 1][..i] == hours[..i];
  }

  /** Every kept hour is strictly after the current reading. */
  lemma {:induction false} SelectedAreFuture(hours: seq<Hour>, lastUpdated: int)
    ensures forall h | h in Selected(hours, lastUpdated) :: h.timeEpoch > lastUpdated
    decreases |hours|
  {
    if hours != [] {
      SelectedAreFuture(hours[..|hours| - 1], lastUpdated);
    }
  }

  /** The kept hours are the input with some hours removed: never reordered, never duplicated. */
  lemma {:induction false} SelectedIsSubsequence(hours: seq<Hour>, lastUpdated: int)
    ensures IsSubsequence(Selected(hours, lastUpdated), hours)
    decreases |hours|
  {
    if hours != [] {
      var i := |hours| - 1;
      var prev := Selected(hours[..i], lastUpdated);
      SelectedIsSubsequence(hours[..i], lastUpdated);
      if KeptAt(hours, lastUpdated, i) {
        var s := prev + [hours[i]];
        assert s[..|s| - 1] == prev;
      } else {
        assert Selected(hours, lastUpdated) == prev;
        SubsequenceOfLonger(prev, hours);
      }
    }
  }

  lemma SubsequenceOfLonger<T>(a: seq<T>, b: seq<T>)
    requires b != [] && IsSubsequence(a, b[..|b| - 1])
    ensures IsSubsequence(a, b)
  {
  }

  /** An hour at or before the current reading is dropped and leaves the record alone. */
  lemma PastHourIgnored(hours: seq<Hour>, lastUpdated: int, i: nat)
    requires i < |hours| && hours[i].timeEpoch <= lastUpdated
    ensures !KeptAt(hours, lastUpdated, i)
    ensures Run(hours[..i + 1], lastUpdated) == Run(hours[..i], lastUpdated)
  {
    PrefixStep(hours, lastUpdated, i);
  }

  /**
   * A future hour whose code differs from the tracked one is kept and becomes
   * the tracked code; the repeat counter is carried over, not reset.
   */
  lemma CodeChangeKept(hours: seq<Hour>, lastUpdated: int, i: nat)
    requires i < |hours| && hours[i].timeEpoch > lastUpdated
    requires hours[i].condition.code != Run(hours[..i], lastUpdated).code
    ensures KeptAt(hours, lastUpdated, i)
    ensures Run(hours[..i + 1], lastUpdated)
         == Tracker(hours[i].condition.code, Run(hours[..i], lastUpdated).forLastXhours)
  {
    PrefixStep(hours, lastUpdated, i);
  }

  /** The counter is the number of repeats met so far, modulo 3; so it stays in 0..2. */
  lemma {:induction false} CounterCountsRepeats(hours: seq<Hour>, lastUpdated: int)
    ensures Run(hours, lastUpdated).forLastXhours == Repeats(hours, lastUpdated) % 3
    ensures Run(hours, lastUpdated).forLastXhours <= 2
    decreases |hours|
  {
    if hours != [] {
      CounterCountsRepeats(hours[..|hours| - 1], lastUpdated);
    }
  }

  /** Counting repeats 1, 2, 3, ... over the whole scan, the k-th is kept exactly when k % 3 == 0. */
  lemma EveryThirdRepeatKept(hours: seq<Hour>, lastUpdated: int, i: nat)
    requires i < |hours| && RepeatAt(hours, lastUpdated, i)
    ensures Repeats(hours[..i + 1], lastUpdated) == Repeats(hours[..i], lastUpdated) + 1
    ensures KeptAt(hours, lastUpdated, i) <==> Repeats(hours[..i + 1], lastUpdated) % 3 == 0
  {
    PrefixStep(hours, lastUpdated, i);
    CounterCountsRepeats(hours[..i], lastUpdated);
  }

  /** While every hour seen is in the past, the record keeps its initial value. */
  lemma {:induction false} PastPrefixKeepsInitial(hours: seq<Hour>, lastUpdated: int)
    requires forall j | 0 <= j < |hours| :: hours[j].timeEpoch <= lastUpdated
    ensures Run(hours, lastUpdated) == Initial
    ensures Selected(hours, lastUpdated) == []
    decreases |hours|
  {
    if hours != [] {
      PastPrefixKeepsInitial(hours[..|hours| - 1], lastUpdated);
    }
  }

  /** The tracked code starts at 0, so a first future hour with code 0 is a repeat and is skipped. */
  lemma FirstFutureZeroIsRepeat(hours: seq<Hour>, lastUpdated: int, i: nat)
    requires i < |hours|
    requires forall j | 0 <= j < i :: hours[j].timeEpoch <= lastUpdated
    requires hours[i].timeEpoch > lastUpdated && hours[i].condition.code == 0
    ensures RepeatAt(hours, lastUpdated, i) && !KeptAt(hours, lastUpdated, i)
  {
    PastPrefixKeepsInitial(hours[..i], lastUpdated);
  }

  /**
   * Five future hours with one code: the first is a code change (the tracked
   * code is 0) and is kept; of the four repeats that follow only the third is.
   */
  lemma FiveEqualCodesExample()
    ensures var c := Condition("Sunny", "//x/64.png", 1000);
            var hours := [Hour(1, c), Hour(2, c), Hour(3, c), Hour(4, c), Hour(5, c)];
            Selected(hours, 0) == [hours[0], hours[3]]
  {
    var c := Condition("Sunny", "//x/64.png", 1000);
    var hours := [Hour(1, c), Hour(2, c), Hour(3, c), Hour(4, c), Hour(5, c)];
    assert hours[..0] == [];
    PrefixStep(hours, 0, 0);
    PrefixStep(hours, 0, 1);
    PrefixStep(hours, 0, 2);
    PrefixStep(hours, 0, 3);
    PrefixStep(hours, 0, 4);
    assert hours[..5] == hours;
  }
}
