/** The trust index badge (TrustIndexBadge): a three-level classification of
    a 0-100 trust score and the guard on its hover tooltip. Scores are
    modelled as integers. */
module TrustBadge {

  datatype TrustLevel = BuildingTrust | MediumTrust | HighTrust
  {
    /** The text the badge shows for the level. */
    function Label(): (text: string)
      ensures |text| > 6 && text[|text| - 6..] == " Trust"
    {
      match this
      case HighTrust => "High Trust"
      case MediumTrust => "Medium Trust"
      case BuildingTrust => "Building Trust"
    }

    function Rank(): int
    {
      match this
      case BuildingTrust => 0
      case MediumTrust => 1
      case HighTrust => 2
    }
  }

  /** `getTrustLevel`: the first threshold the score reaches, from the top. */
  function GetTrustLevel(score: int): (level: TrustLevel)
    ensures level == HighTrust <==> score >= 80
    ensures level == MediumTrust <==> 50 <= score < 80
    ensures level == BuildingTrust <==> score < 50
  {
    if score >= 80 then HighTrust
    else if score >= 50 then MediumTrust
    else BuildingTrust
  }

  /** A higher score never gets a lower level. */
  lemma TrustLevelMonotone(lower: int, higher: int)
    requires lower <= higher
    ensures GetTrustLevel(lower).Rank() <= GetTrustLevel(higher).Rank()
  {
  }

  /** The three labels are distinct, so the label names the level. */
  lemma LabelsAreDistinct(a: TrustLevel, b: TrustLevel)
    ensures a.Label() == b.Label() ==> a == b
  {
    if a != b {
      assert a.Label()[0] != b.Label()[0];
    }
  }

  /** The tooltip renders when the info icon is hovered (`showInfo`) and the
      badge was asked to offer it (`showTooltip`). */
  function TooltipVisible(showInfo: bool, showTooltip: bool): (visible: bool)
    ensures visible ==> showInfo && showTooltip
    ensures !showTooltip ==> !visible
  {
    showInfo && showTooltip
  }

  /** A hover event on the info icon: `onMouseEnter` / `onMouseLeave`. */
  datatype Hover = Enter | Leave

  /** `showInfo` after a sequence of hover events. The icon, and with it its
      handlers, is only rendered when `showTooltip` holds, so without it no
      event reaches the state. */
  function ShowInfoAfter(showInfo: bool, showTooltip: bool, events: seq<Hover>): (hovered: bool)
    ensures !showTooltip ==> hovered == showInfo
    ensures showTooltip && events != [] ==> (hovered <==> events[|events| - 1] == Enter)
    decreases |events|
  {
    if events == [] then showInfo
    else if !showTooltip then ShowInfoAfter(showInfo, showTooltip, events[1..])
    else ShowInfoAfter(events[0] == Enter, showTooltip, events[1..])
  }

  /** Whatever the hovering, a badge created with `showTooltip = false` never
      shows its tooltip; with it, the tooltip is up exactly when the last
      event was a mouse-enter. */
  lemma {:induction false} TooltipFollowsLastEvent(showInfo: bool, showTooltip: bool, events: seq<Hover>)
    ensures !showTooltip ==> !TooltipVisible(ShowInfoAfter(showInfo, showTooltip, events), showTooltip)
    ensures showTooltip && events != [] ==>
              (TooltipVisible(ShowInfoAfter(showInfo, showTooltip, events), showTooltip) <==> events[|events| - 1] == Enter)
    decreases |events|
  {
    if events != [] {
      TooltipFollowsLastEvent(if showTooltip then events[0] == Enter else showInfo, showTooltip, events[1..]);
    }
  }
}
