/** The user card: wisdom tier and percentile badges, and the follow button. */
module UserCard {
  import opened Common

  /** The score thresholds of the tiers, lowest first. */
  const WisdomThresholds: seq<real> := [200.0, 400.0, 600.0, 800.0]

  /** The tier labels, lowest tier first. */
  const WisdomLevels: seq<string> := ["High School", "College Junior", "College Senior+", "Master's Level", "PhD Level"]

  /** The percentile badge of each tier, lowest tier first. */
  const WisdomPercentiles: seq<string> := ["25th", "50th", "70th", "87th", "95th"]

  function WisdomLevel(score: real): (level: string)
    ensures level in WisdomLevels
  {
    if score >= 800.0 then "PhD Level"
    else if score >= 600.0 then "Master's Level"
    else if score >= 400.0 then "College Senior+"
    else if score >= 200.0 then "College Junior"
    else "High School"
  }

  function WisdomPercentile(score: real): (p: string)
    ensures p in WisdomPercentiles
  {
    if score >= 800.0 then "95th"
    else if score >= 600.0 then "87th"
    else if score >= 400.0 then "70th"
    else if score >= 200.0 then "50th"
    else "25th"
  }

  /** The tier of a score is the number of thresholds it reaches. */
  lemma WisdomTier(score: real)
    ensures WisdomLevel(score) == WisdomLevels[Reached(score, WisdomThresholds)]
    ensures WisdomPercentile(score) == WisdomPercentiles[Reached(score, WisdomThresholds)]
  {
    var ts := WisdomThresholds;
    assert ts[1..] == [400.0, 600.0, 800.0];
    assert ts[1..][1..] == [600.0, 800.0];
    assert ts[1..][1..][1..] == [800.0];
    assert ts[1..][1..][1..][1..] == [];
  }

  /** A higher score never gets a lower tier. */
  lemma WisdomMonotone(s1: real, s2: real)
    requires s1 <= s2
    ensures forall i, j ::
      (0 <= i < |WisdomLevels| && 0 <= j < |WisdomLevels|
       && WisdomLevel(s1) == WisdomLevels[i] && WisdomLevel(s2) == WisdomLevels[j]) ==> i <= j
  {
    WisdomTier(s1);
    WisdomTier(s2);
    ReachedMonotone(s1, s2, WisdomThresholds);
  }

  /** Level and percentile move in lockstep: each level comes with exactly one percentile. */
  lemma WisdomLockstep(score: real)
    ensures forall k :: 0 <= k < |WisdomLevels| ==>
      (WisdomLevel(score) == WisdomLevels[k] <==> WisdomPercentile(score) == WisdomPercentiles[k])
  {
    WisdomTier(score);
  }

  /** The score the card classifies: a missing score is shown as 0. */
  function ShownScore(wisdomScore: Option<real>): real {
    wisdomScore.GetOr(0.0)
  }

  /** A user without a score is shown at the bottom tier. */
  lemma MissingScoreIsBottomTier()
    ensures WisdomLevel(ShownScore(None)) == "High School"
    ensures WisdomPercentile(ShownScore(None)) == "25th"
  {
  }

  /** Which optional callback a click on the follow button invokes. */
  datatype FollowAction = CallOnFollow | CallOnUnfollow

  datatype FollowButton = FollowButton(onClick: FollowAction, caption: string, variant: string)

  /** The follow button, shown only when asked for; its label and click reflect `isFollowing`. */
  function FollowButtonFor(showFollowButton: bool, isFollowing: bool): (b: Option<FollowButton>)
    ensures b.Some? <==> showFollowButton
    ensures b.Some? ==> (b.value.onClick == CallOnUnfollow <==> isFollowing)
    ensures b.Some? ==> (b.value.caption == "Following" <==> isFollowing)
    ensures b.Some? ==> (b.value.caption == "Follow" <==> !isFollowing)
  {
    if !showFollowButton then None
    else if isFollowing then Some(FollowButton(CallOnUnfollow, "Following", "outline"))
    else Some(FollowButton(CallOnFollow, "Follow", "default"))
  }

  /** The caption names the current state and the click leaves it: "Following" unfollows. */
  lemma FollowLabelMatchesAction(showFollowButton: bool, isFollowing: bool)
    requires showFollowButton
    ensures var b := FollowButtonFor(showFollowButton, isFollowing).value;
      (b.caption == "Following" <==> b.onClick == CallOnUnfollow)
  {
  }
}
