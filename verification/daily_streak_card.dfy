/**
 * The daily streak card: a demo streak of 4 that is bumped to 5 (with a
 * points bonus and a short "+1" animation) two seconds after mounting, a
 * milestone badge, and a week row whose first `streak % 7` days are lit.
 */
module DailyStreakCard {
  import opened Wrappers
  import opened GamificationProvider
  import Js

  const Days: seq<string> := ["Mon", "Tue", "Wed", "Thu", "Fri", "Sat", "Sun"]

  const StreakBonusReason := "Daily login streak bonus"

  /** The "5 day milestone!" badge shows from a streak of 5 on. */
  predicate Milestone(streak: int) {
    streak >= 5
  }

  /** One day of the week row: lit when active, bold when it is today. */
  datatype Marker = Marker(day: string, active: bool, today: bool)

  function MarkerAt(streak: int, index: int): Marker
    requires 0 <= index < |Days|
  {
    Marker(Days[index], index < Js.JsRem(streak, 7), index == Js.JsRem(streak, 7) - 1)
  }

  /**
   * The week row: one marker per day in order; for a non-negative streak the
   * days before `streak % 7` are lit and today is the last lit one, while a
   * negative streak lights nothing and has no today.
   */
  function Markers(streak: int): (ms: seq<Marker>)
    ensures |ms| == |Days|
    ensures forall i :: 0 <= i < |Days| ==> ms[i] == MarkerAt(streak, i)
    ensures forall i :: 0 <= i < |Days| ==> ms[i].day == Days[i]
    ensures streak >= 0 ==> forall i :: 0 <= i < |Days| ==> (ms[i].active <==> i < streak % 7)
    ensures streak >= 0 ==> forall i :: 0 <= i < |Days| ==> (ms[i].today <==> i + 1 == streak % 7)
    ensures streak < 0 ==> forall i :: 0 <= i < |Days| ==> !ms[i].active && !ms[i].today
    ensures forall i :: 0 <= i < |Days| && ms[i].today ==> ms[i].active
  {
    seq(|Days|, i requires 0 <= i < |Days| => MarkerAt(streak, i))
  }

  /** The number of lit days in a row of markers: none exactly when no day is lit, all exactly when every day is. */
  function ActiveCount(ms: seq<Marker>): (n: nat)
    ensures n <= |ms|
    ensures n == 0 <==> forall i :: 0 <= i < |ms| ==> !ms[i].active
    ensures n == |ms| <==> forall i :: 0 <= i < |ms| ==> ms[i].active
    decreases |ms|
  {
    if ms == [] then 0 else ActiveCount(ms[..|ms| - 1]) + (if ms[|ms| - 1].active then 1 else 0)
  }

  /** The first `n` markers hold `min(n, streak % 7)` lit days. */
  lemma {:induction false} ActivePrefix(streak: int, n: int)
    requires streak >= 0 && 0 <= n <= |Days|
    ensures ActiveCount(Markers(streak)[..n]) == if n < streak % 7 then n else streak % 7
    decreases n
  {
    var ms := Markers(streak)[..n];
    if n > 0 {
      assert ms[..n - 1] == Markers(streak)[..n - 1];
      ActivePrefix(streak, n - 1);
    }
  }

  /** For a non-negative streak exactly `streak % 7` days are lit, and they are the first ones. */
  lemma ActiveDaysAreRemainder(streak: int)
    requires streak >= 0
    ensures ActiveCount(Markers(streak)) == streak % 7
    ensures forall i, j :: 0 <= i < j < |Days| && Markers(streak)[j].active ==> Markers(streak)[i].active
  {
    ActivePrefix(streak, |Days|);
    assert Markers(streak)[..|Days|] == Markers(streak);
  }

  /**
   * Today is the last lit day: there is one today marker, and it is lit,
   * unless the streak is a multiple of 7, when none is.
   */
  lemma TodayIsLastActive(streak: int)
    requires streak >= 0
    ensures streak % 7 == 0 ==> forall i :: 0 <= i < |Days| ==> !Markers(streak)[i].today && !Markers(streak)[i].active
    ensures streak % 7 != 0 ==> Markers(streak)[streak % 7 - 1].today && Markers(streak)[streak % 7 - 1].active
    ensures forall i :: 0 <= i < |Days| && Markers(streak)[i].today ==> i == streak % 7 - 1
  {
  }

  /** A negative streak lights no day, since JavaScript's remainder keeps the dividend's sign. */
  lemma NegativeStreakLightsNothing(streak: int)
    requires streak < 0
    ensures forall i :: 0 <= i < |Days| ==> !Markers(streak)[i].active
  {
  }

  /** The card's own state. */
  class Card {
    var streak: int
    var showAnimation: bool

    ghost predicate Inv()
      reads this
    {
      streak >= 4
    }

    constructor ()
      ensures streak == 4 && !showAnimation && Inv() && !Milestone(streak)
    {
      streak := 4;
      showAnimation := false;
    }

    /**
     * The two-second timer of the mount effect. Below 5 it sets the streak to
     * 5, starts the animation and awards the bonus; from 5 on it does nothing,
     * so however often the effect re-arms the timer the bonus is paid once.
     */
    method StreakTimerFires(g: Provider)
      requires Inv() && g.Inv()
      modifies this, g
      ensures Inv() && g.Inv()
      ensures streak >= 5 && Milestone(streak)
      ensures old(streak) < 5 ==> streak == 5 && showAnimation
                                  && g.Current() == AddPointsStep(old(g.Current()), 15, Some(StreakBonusReason))
      ensures old(streak) >= 5 ==> streak == old(streak) && showAnimation == old(showAnimation)
                                   && g.Current() == old(g.Current())
    {
      if streak < 5 {
        streak := 5;
        showAnimation := true;
        g.AddPoints(15, Some(StreakBonusReason));
      }
    }

    /** The three-second timer started with the bonus ends the animation. */
    method AnimationTimerFires()
      modifies this
      ensures !showAnimation && streak == old(streak)
    {
      showAnimation := false;
    }
  }

  /** Two timer firings from mount pay the bonus once: 15 points in total. */
  method BonusPaidOnce(c: Card, g: Provider)
    requires c.Inv() && g.Inv()
    modifies c, g
    ensures g.points == old(g.points) + (if old(c.streak) < 5 then 15 else 0)
  {
    c.StreakTimerFires(g);
    c.StreakTimerFires(g);
  }
}
