/**
 * The content gating of `src/components/PalmReading.tsx`: which tab is shown, whether it
 * is obscured behind the premium overlay, how the ten-star strength bar is filled and
 * which line sections appear. Everything here is a function of the component's props,
 * the signed-in profile and `activeTab`.
 */
module PalmReadingView {
  import opened Common
  import opened PalmAnalysis
  import opened AuthContext

  /** `shouldBlurContent`: `isPreview` (default false) and not a premium user. */
  function ShouldBlurContent(isPreview: Option<bool>, p: Option<UserProfile>): (blur: bool)
    ensures blur <==> isPreview == Some(true) && !IsPremium(p)
    ensures isPreview.None? ==> !blur
  {
    isPreview.GetOr(false) && !IsPremium(p)
  }

  datatype Tab = Overview | Lines | Mounts | Guidance | Spiritual

  /** The tab bar, in order, by id. */
  const TabIds: seq<string> := ["overview", "lines", "mounts", "guidance", "spiritual"]

  const InitialTab: string := "overview"

  function TabOfId(id: string): (t: Option<Tab>)
    ensures t.Some? <==> id in TabIds
    // each id names its own tab
    ensures id == "overview" ==> t == Some(Overview)
    ensures id == "lines" ==> t == Some(Lines)
    ensures id == "mounts" ==> t == Some(Mounts)
    ensures id == "guidance" ==> t == Some(Guidance)
    ensures id == "spiritual" ==> t == Some(Spiritual)
  {
    if id == "overview" then Some(Overview)
    else if id == "lines" then Some(Lines)
    else if id == "mounts" then Some(Mounts)
    else if id == "guidance" then Some(Guidance)
    else if id == "spiritual" then Some(Spiritual)
    else None
  }

  /** The panel under the tab bar: which tab's content, and whether it sits under the overlay. */
  datatype Panel = Panel(tab: Tab, obscured: bool)

  /** The content rendered for `activeTab`: only the lines and mounts panels are wrapped in the blur. */
  function ActivePanel(activeTab: string, blur: bool): (panel: Option<Panel>)
    ensures panel.Some? <==> activeTab in TabIds
    ensures panel.Some? ==> (panel.value.obscured <==> blur && (panel.value.tab == Lines || panel.value.tab == Mounts))
    ensures panel.Some? ==> TabOfId(activeTab) == Some(panel.value.tab)
  {
    match TabOfId(activeTab)
    case None => None
    case Some(t) => Some(Panel(t, if t == Lines || t == Mounts then blur else false))
  }

  /** With the default `isPreview`, no panel is ever obscured. */
  lemma NothingObscuredByDefault(activeTab: string, p: Option<UserProfile>)
    ensures var panel := ActivePanel(activeTab, ShouldBlurContent(None, p));
      panel.Some? ==> !panel.value.obscured
  {
  }

  /** The palm-lines and mounts panels are exactly the ones obscured when blurring. */
  lemma GatedTabsObscuredWhenBlurring(blur: bool)
    ensures ActivePanel("lines", blur) == Some(Panel(Lines, blur))
    ensures ActivePanel("mounts", blur) == Some(Panel(Mounts, blur))
  {
  }

  /** The overview, guidance and spiritual panels are never obscured. */
  lemma UngatedTabsNeverObscured(blur: bool)
    ensures ActivePanel("overview", blur) == Some(Panel(Overview, false))
    ensures ActivePanel("guidance", blur) == Some(Panel(Guidance, false))
    ensures ActivePanel("spiritual", blur) == Some(Panel(Spiritual, false))
  {
  }

  /** The ten stars of the strength bar: star `i` is filled iff `i < score`. */
  function StrengthStars(score: int): (stars: seq<bool>)
    ensures |stars| == 10
    ensures forall i :: 0 <= i < 10 ==> (stars[i] <==> i < score)
  {
    seq(10, i => i < score)
  }

  function CountFilled(stars: seq<bool>): nat {
    if |stars| == 0 then 0 else (if stars[0] then 1 else 0) + CountFilled(stars[1..])
  }

  function Clamp(x: int, lo: int, hi: int): int {
    if x < lo then lo else if x > hi then hi else x
  }

  /** A bar of `n` stars whose star `i` is filled iff `i < score` has `score` stars filled, clamped to 0..n. */
  lemma {:induction false} FilledPrefixCount(stars: seq<bool>, score: int)
    requires forall i :: 0 <= i < |stars| ==> (stars[i] <==> i < score)
    ensures CountFilled(stars) == Clamp(score, 0, |stars|)
    decreases |stars|
  {
    if |stars| > 0 {
      var last := |stars| - 1;
      var front := stars[..last];
      FilledPrefixCount(front, score);
      CountFilledSnoc(front, stars[last]);
      assert front + [stars[last]] == stars;
    }
  }

  lemma {:induction false} CountFilledSnoc(s: seq<bool>, b: bool)
    ensures CountFilled(s + [b]) == CountFilled(s) + (if b then 1 else 0)
    decreases |s|
  {
    if |s| > 0 {
      assert (s + [b])[1..] == s[1..] + [b];
      CountFilledSnoc(s[1..], b);
    }
  }

  /** The strength bar shows exactly `score` filled stars for every score in 1..10. */
  lemma FilledStarsShowScore(line: LineReading)
    requires ValidLine(line)
    ensures CountFilled(StrengthStars(line.score)) == line.score
  {
    FilledPrefixCount(StrengthStars(line.score), line.score);
  }

  /** The line sections of the lines panel, in order; the fate line only when present. */
  function LineSections(r: PalmReadingResult): (sections: seq<(string, LineReading)>)
    ensures |sections| == (if r.fateLine.Some? then 4 else 3)
    ensures sections[..3] == [("Life Line", r.lifeLine), ("Heart Line", r.heartLine), ("Head Line", r.headLine)]
    ensures r.fateLine.Some? ==> sections[3] == ("Fate Line", r.fateLine.value)
  {
    [("Life Line", r.lifeLine), ("Heart Line", r.heartLine), ("Head Line", r.headLine)]
    + (if r.fateLine.Some? then [("Fate Line", r.fateLine.value)] else [])
  }

  /** Every assembled reading shows all four line sections, the fate line included. */
  lemma AssembledReadingShowsFateLine(content: Option<string>, d: Draws, id: string, timestamp: int)
    requires DrawsInRange(d)
    requires AnalyzePalmImage(content, d, id, timestamp).Success?
    ensures |LineSections(AnalyzePalmImage(content, d, id, timestamp).value)| == 4
  {
  }

  /** The upgrade call-to-action at the bottom: shown iff the user is not premium. */
  function ShowUpgradeCallToAction(p: Option<UserProfile>): (show: bool)
    // shown whether or not the reading is a preview; a signed-out visitor sees it too
    ensures show <==> p.None? || !p.value.isPremium
  {
    !IsPremium(p)
  }

  /** The call-to-action shows on a preview exactly when the preview is obscured. */
  lemma CallToActionMatchesPreviewBlur(p: Option<UserProfile>)
    ensures ShowUpgradeCallToAction(p) <==> ShouldBlurContent(Some(true), p)
  {
  }
}
