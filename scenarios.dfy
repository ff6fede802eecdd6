/**
 * Concrete match situations worked through the model: each fixes the
 * numbers of the form and states the outcome the decision procedure gives.
 */
module Scenarios {
  import opened WinPredictor

  /** A mid-innings chase goes to the classifier with the expected features. */
  lemma MidInningsChase(bat: Team, bowl: Team, city: City)
    requires bat != bowl
    ensures Predict(MatchState(bat, bowl, city, 180, 50, 5.0, 2))
      == AskClassifier(Features(bat, bowl, city, 130, 90, 8, 180, 10.0, 26.0 / 3.0))
  {
  }

  /** Reaching the target exactly with wickets in hand is a batting win. */
  lemma TargetReachedExactly(bat: Team, bowl: Team, city: City)
    requires bat != bowl
    ensures Predict(MatchState(bat, bowl, city, 150, 150, 18.2, 3)) == Decided(BattingWins, TargetChased)
  {
  }

  /** Falling short after twenty overs is a bowling win. */
  lemma ShortAfterTwentyOvers(bat: Team, bowl: Team, city: City)
    requires bat != bowl
    ensures Predict(MatchState(bat, bowl, city, 160, 140, 20.0, 6)) == Decided(BowlingWins, OversExhausted)
  {
  }

  /** All out on the last ball with scores level: the all-out rule wins, a draw. */
  lemma AllOutLevelAtTwentyOvers(bat: Team, bowl: Team, city: City)
    requires bat != bowl
    ensures Predict(MatchState(bat, bowl, city, 160, 160, 20.0, 10)) == Decided(Draw, AllOutLevel)
  {
  }

  /** The same team on both sides is refused, even with zero overs. */
  lemma SameTeamBothSides(team: Team, city: City)
    ensures Predict(MatchState(team, team, city, 160, 0, 0.0, 0)) == Refused(SameTeams)
    ensures Predict(MatchState(team, team, city, 160, 100, 12.0, 4)) == Refused(SameTeams)
  {
  }

  /** Fourteen overs and three balls, typed as 14.3, counts 85 balls bowled, not 87. */
  lemma DecimalOversReading(bat: Team, bowl: Team, city: City)
    requires bat != bowl
    ensures BallsLeft(14.3) == 35
    ensures Predict(MatchState(bat, bowl, city, 180, 120, 14.3, 4)).AskClassifier?
    ensures Predict(MatchState(bat, bowl, city, 180, 120, 14.3, 4)).features.ballsLeft == 35
  {
  }
}
