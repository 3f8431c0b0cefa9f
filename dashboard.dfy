/**
 * The "Free Readings Left" figure of `src/app/dashboard/page.tsx`, set beside the quota
 * the reading page enforces. The dashboard computes the figure from a hard-coded
 * allowance of one; `FreeReadingsLeft` is the figure computed from the profile's own
 * allowance, which agrees with `CanUseFreeReading`.
 */
module Dashboard {
  import opened Common
  import opened AuthContext
  import opened ReadingPage

  /** The figure as the dashboard writes it: None is the `∞` shown to premium users. */
  function DashboardFreeReadingsLeft(p: Option<UserProfile>): (left: Option<int>)
    ensures left.None? <==> IsPremium(p)
    ensures left.Some? ==> left.value >= 0
    ensures left.Some? ==> (left.value > 0 <==> ReadingsUsed(p) < 1)
  {
    if IsPremium(p) then None else Some(if 1 - ReadingsUsed(p) > 0 then 1 - ReadingsUsed(p) else 0)
  }

  /** The figure from the profile's allowance `maxFreeReadings`, as the reading page counts it. */
  function FreeReadingsLeft(p: Option<UserProfile>): (left: Option<int>)
    ensures left.None? <==> IsPremium(p)
    ensures left.Some? ==> left.value >= 0
    ensures left.Some? ==> (left.value > 0 <==> CanUseFreeReading(p))
  {
    if IsPremium(p) then None
    else Some(if MaxFreeReadings(p) - ReadingsUsed(p) > 0 then MaxFreeReadings(p) - ReadingsUsed(p) else 0)
  }

  /**
   * The two agree for every profile whose allowance is the sign-up value of one, which is
   * the only value the application writes.
   */
  lemma AgreeOnDefaultAllowance(p: Option<UserProfile>)
    requires MaxFreeReadings(p) == 1
    ensures DashboardFreeReadingsLeft(p) == FreeReadingsLeft(p)
  {
  }

  /**
   * A profile with an allowance of three and one reading used: the dashboard shows no
   * reading left while the reading page still grants one.
   */
  lemma DashboardUndercountsLargerAllowance()
    ensures var p := Some(UserProfile("u", None, None, false, "free", 1, 3, None, None, None, 0, None));
      && DashboardFreeReadingsLeft(p) == Some(0)
      && CanUseFreeReading(p)
      && FreeReadingsLeft(p) == Some(2)
  {
  }
}
