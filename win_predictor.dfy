/**
 * The match-outcome decision procedure of the IPL win predictor.
 *
 * When the user asks for a prediction the form's inputs are first validated
 * (distinct teams, a non-zero number of overs), then nine features are derived
 * from the match state, and finally an ordered chain of terminal-state rules
 * either decides the match outright or hands the features to a trained
 * classifier.  The classifier itself is outside this model: reaching it is
 * represented by the outcome `AskClassifier(features)`.
 *
 * Overs are modelled as exact reals and the source's `int(overs * 6)` as
 * `(overs * 6.0).Floor` (the two agree because overs is never negative).
 */
module WinPredictor {

  /** A team identifier; only equality between teams matters. */
  type Team(==)

  /** A host city; it is passed through to the classifier untouched. */
  type City

  /** The match state the user enters on the form. */
  datatype MatchState = MatchState(
    battingTeam: Team,
    bowlingTeam: Team,
    city: City,
    target: int,
    score: int,
    overs: real,
    wickets: int)

  /** The ranges the number-input widgets enforce on their values. */
  predicate InputRanges(m: MatchState)
  {
    && m.target >= 1
    && m.score >= 0
    && 0.0 <= m.overs <= 20.0
    && 0 <= m.wickets <= 10
  }

  /** Why a prediction request is refused. */
  datatype ValidationError = SameTeams | ZeroOvers

  datatype Validation = Accepted | Rejected(error: ValidationError)

  /** The feature record handed to the classifier, one field per column. */
  datatype Features = Features(
    battingTeam: Team,
    bowlingTeam: Team,
    city: City,
    runsLeft: int,
    ballsLeft: int,
    remainingWickets: int,
    target: int,
    crr: real,
    rrr: real)

  /** Who a decided match goes to. */
  datatype MatchResult = Draw | BattingWins | BowlingWins

  /** Which rule of the outcome chain decided the match (one per message). */
  datatype Reason =
    | AllOutLevel          // all wickets lost, scores level
    | ChasedBeforeAllOut   // all wickets lost, score beyond the target
    | AllOut               // all wickets lost, target not reached
    | TargetChased         // score equals the target
    | ThrillingFinish      // no balls left, score beyond the target
    | LevelAtOverLimit     // no balls left, scores level
    | OversExhausted       // no balls left, target not reached

  /** What one press of the predict button produces. */
  datatype Outcome =
    | Refused(error: ValidationError)
    | Decided(result: MatchResult, reason: Reason)
    | AskClassifier(features: Features)

  // ---------------------------------------------------------------------------
  // Validation
  // ---------------------------------------------------------------------------

  /** Identical teams are refused first, then zero overs; nothing else is. */
  function Validate(m: MatchState): (r: Validation)
    ensures r == Rejected(SameTeams) <==> m.battingTeam == m.bowlingTeam
    ensures r == Rejected(ZeroOvers) <==> m.battingTeam != m.bowlingTeam && m.overs == 0.0
    ensures r == Accepted <==> m.battingTeam != m.bowlingTeam && m.overs != 0.0
  {
    if m.battingTeam == m.bowlingTeam then Rejected(SameTeams)
    else if m.overs == 0.0 then Rejected(ZeroOvers)
    else Accepted
  }

  // ---------------------------------------------------------------------------
  // Derived features
  // ---------------------------------------------------------------------------

  /** Runs still needed, clamped at zero once the target has been reached. */
  function RunsLeft(target: int, score: int): (r: int)
    ensures r >= 0
    ensures r == 0 <==> score >= target
    ensures score < target ==> score + r == target
  {
    if target - score > 0 then target - score else 0
  }

  /**
   * Balls still to be bowled out of 120.  The balls already bowled are the
   * whole number of sixths of an over contained in `overs`, which reads the
   * decimal value of `overs` literally.
   */
  function BallsLeft(overs: real): (r: int)
    requires 0.0 <= overs <= 20.0
    ensures 0 <= r <= 120
    ensures (120 - r) as real <= 6.0 * overs < (121 - r) as real
    ensures r == 0 <==> overs == 20.0
    ensures r == 120 <==> overs < 1.0 / 6.0
  {
    var bowled := (overs * 6.0).Floor;
    if 120 - bowled > 0 then 120 - bowled else 0
  }

  /** Wickets the batting side still has in hand. */
  function RemainingWickets(wickets: int): (r: int)
    requires 0 <= wickets <= 10
    ensures 0 <= r <= 10
    ensures wickets + r == 10
    ensures r == 0 <==> wickets == 10
  {
    10 - wickets
  }

  /** Runs per over so far, 0 when no overs have been bowled. */
  function CurrentRunRate(score: int, overs: real): (r: real)
    requires score >= 0 && overs >= 0.0
    ensures r >= 0.0
    ensures overs > 0.0 ==> r * overs == score as real
    ensures overs == 0.0 ==> r == 0.0
  {
    if overs > 0.0 then score as real / overs else 0.0
  }

  /** Runs per over needed over the remaining balls, 0 when none remain. */
  function RequiredRunRate(runsLeft: int, ballsLeft: int): (r: real)
    requires runsLeft >= 0 && ballsLeft >= 0
    ensures r >= 0.0
    ensures ballsLeft > 0 ==> r * ballsLeft as real == (6 * runsLeft) as real
    ensures r == 0.0 <==> runsLeft == 0 || ballsLeft == 0
  {
    if ballsLeft > 0 then (runsLeft * 6) as real / ballsLeft as real else 0.0
  }

  /**
   * The feature record of an accepted match state.  After validation the
   * overs are positive, so the zero guard of the current run rate never fires.
   */
  function Derive(m: MatchState): (f: Features)
    requires InputRanges(m) && Validate(m) == Accepted
    ensures f.battingTeam == m.battingTeam && f.bowlingTeam == m.bowlingTeam
    ensures f.city == m.city && f.target == m.target
    ensures f.runsLeft >= 0 && (f.runsLeft == 0 <==> m.score >= m.target)
    ensures m.score < m.target ==> m.score + f.runsLeft == m.target
    ensures 0 <= f.ballsLeft <= 120 && (f.ballsLeft == 0 <==> m.overs == 20.0)
    ensures (120 - f.ballsLeft) as real <= 6.0 * m.overs < (121 - f.ballsLeft) as real
    ensures 0 <= f.remainingWickets <= 10 && m.wickets + f.remainingWickets == 10
    ensures f.crr >= 0.0 && f.crr * m.overs == m.score as real
    ensures f.rrr >= 0.0
    ensures f.ballsLeft == 0 ==> f.rrr == 0.0
    ensures f.ballsLeft > 0 ==> f.rrr * f.ballsLeft as real == (6 * f.runsLeft) as real
  {
    var runsLeft := RunsLeft(m.target, m.score);
    var ballsLeft := BallsLeft(m.overs);
    Features(
      m.battingTeam, m.bowlingTeam, m.city,
      runsLeft, ballsLeft, RemainingWickets(m.wickets), m.target,
      CurrentRunRate(m.score, m.overs), RequiredRunRate(runsLeft, ballsLeft))
  }

  // ---------------------------------------------------------------------------
  // Outcome resolution
  // ---------------------------------------------------------------------------

  /**
   * The ordered terminal-state rules for an accepted match state: all wickets
   * lost first, then a level score, then no balls left; otherwise the
   * classifier is asked.
   */
  function Resolve(m: MatchState): (r: Outcome)
    requires InputRanges(m) && Validate(m) == Accepted
    ensures !r.Refused?
    ensures r.AskClassifier? <==>
      m.wickets < 10 && m.score != m.target && BallsLeft(m.overs) > 0
    ensures r.AskClassifier? ==> r.features == Derive(m)
    ensures r.Decided? && r.result == Draw <==> m.wickets == 10 && m.score == m.target
    ensures r.Decided? && r.result == BattingWins <==>
      || (m.wickets < 10 && m.score == m.target)
      || (m.score > m.target && (m.wickets == 10 || BallsLeft(m.overs) == 0))
    ensures r.Decided? && r.result == BowlingWins <==>
      m.score < m.target && (m.wickets == 10 || BallsLeft(m.overs) == 0)
    ensures r.Decided? && r.reason == AllOutLevel <==> m.wickets == 10 && m.score == m.target
    ensures r.Decided? && r.reason == ChasedBeforeAllOut <==> m.wickets == 10 && m.score > m.target
    ensures r.Decided? && r.reason == AllOut <==> m.wickets == 10 && m.score < m.target
    ensures r.Decided? && r.reason == TargetChased <==> m.wickets < 10 && m.score == m.target
    ensures r.Decided? && r.reason == ThrillingFinish <==>
      m.wickets < 10 && m.score > m.target && BallsLeft(m.overs) == 0
    ensures r.Decided? && r.reason == OversExhausted <==>
      m.wickets < 10 && m.score < m.target && BallsLeft(m.overs) == 0
    ensures r.Decided? ==> r.reason != LevelAtOverLimit
  {
    var f := Derive(m);
    if m.wickets == 10 then
      if m.score == m.target then Decided(Draw, AllOutLevel)
      else if m.score > m.target then Decided(BattingWins, ChasedBeforeAllOut)
      else Decided(BowlingWins, AllOut)
    else if m.score == m.target then Decided(BattingWins, TargetChased)
    else if f.ballsLeft == 0 then
      if m.score > m.target then Decided(BattingWins, ThrillingFinish)
      else if m.score == m.target then Decided(Draw, LevelAtOverLimit)
      else Decided(BowlingWins, OversExhausted)
    else AskClassifier(f)
  }

  /** One press of the predict button: validate, then resolve. */
  function Predict(m: MatchState): (r: Outcome)
    requires InputRanges(m)
    ensures m.battingTeam == m.bowlingTeam ==> r == Refused(SameTeams)
    ensures m.battingTeam != m.bowlingTeam && m.overs == 0.0 ==> r == Refused(ZeroOvers)
    ensures r.Refused? <==> m.battingTeam == m.bowlingTeam || m.overs == 0.0
    ensures r.AskClassifier? <==>
      && m.battingTeam != m.bowlingTeam
      && m.overs != 0.0
      && m.wickets < 10
      && m.score != m.target
      && BallsLeft(m.overs) > 0
    ensures Validate(m) == Accepted ==> r == Resolve(m)
  {
    match Validate(m)
    case Rejected(e) => Refused(e)
    case Accepted => Resolve(m)
  }

  // ---------------------------------------------------------------------------
  // Properties relating several calls
  // ---------------------------------------------------------------------------

  /** Bowling more overs never leaves more balls. */
  lemma BallsLeftAntitone(o1: real, o2: real)
    requires 0.0 <= o1 <= o2 <= 20.0
    ensures BallsLeft(o2) <= BallsLeft(o1)
  {
  }

  /**
   * Overs in the cricket notation `n.b` (n whole overs and b balls) are read
   * as the decimal n + b/10, so only 6b/10 of the b balls are counted as
   * bowled: whenever b > 0 the model leaves more balls than really remain.
   */
  lemma TenthsNotationUndercounts(n: int, b: int)
    requires 0 <= n <= 19 && 0 <= b <= 5
    ensures BallsLeft(n as real + b as real / 10.0) == 120 - 6 * n - (6 * b) / 10
    ensures b > 0 ==> BallsLeft(n as real + b as real / 10.0) > 120 - (6 * n + b)
  {
  }

  /** With all wickets lost the overs bowled play no part in the outcome. */
  lemma AllOutIgnoresOvers(m: MatchState, overs: real)
    requires InputRanges(m) && Validate(m) == Accepted
    requires m.wickets == 10 && 0.0 < overs <= 20.0
    ensures Resolve(m.(overs := overs)) == Resolve(m)
  {
  }

  /** With wickets in hand a level score is a batting win, whatever the overs. */
  lemma LevelScoreIgnoresOvers(m: MatchState, overs: real)
    requires InputRanges(m) && Validate(m) == Accepted
    requires m.wickets < 10 && m.score == m.target && 0.0 < overs <= 20.0
    ensures Resolve(m.(overs := overs)) == Resolve(m) == Decided(BattingWins, TargetChased)
  {
  }

  /**
   * A score beyond the target with wickets and balls in hand is not decided:
   * the classifier is asked, with no runs left and a required rate of 0.
   */
  lemma ClassifierPastTarget(m: MatchState)
    requires InputRanges(m) && Validate(m) == Accepted
    requires m.wickets < 10 && m.score > m.target && m.overs < 20.0
    ensures Resolve(m).AskClassifier?
    ensures Resolve(m).features.runsLeft == 0 && Resolve(m).features.rrr == 0.0
  {
  }

  /**
   * Every rule of the outcome chain except the level-at-the-over-limit draw
   * decides some valid match between two distinct teams.
   */
  lemma LiveRulesReachable(bat: Team, bowl: Team, city: City, reason: Reason)
    requires bat != bowl && reason != LevelAtOverLimit
    ensures exists m :: InputRanges(m) && Predict(m).Decided? && Predict(m).reason == reason
  {
    var m := match reason
      case AllOutLevel => MatchState(bat, bowl, city, 160, 160, 20.0, 10)
      case ChasedBeforeAllOut => MatchState(bat, bowl, city, 160, 161, 19.0, 10)
      case AllOut => MatchState(bat, bowl, city, 160, 120, 15.0, 10)
      case TargetChased => MatchState(bat, bowl, city, 150, 150, 18.2, 3)
      case ThrillingFinish => MatchState(bat, bowl, city, 160, 165, 20.0, 6)
      case OversExhausted => MatchState(bat, bowl, city, 160, 140, 20.0, 6);
    assert InputRanges(m) && Predict(m).Decided? && Predict(m).reason == reason;
  }

  /** The classifier is asked for some valid match between two distinct teams. */
  lemma ClassifierReachable(bat: Team, bowl: Team, city: City)
    requires bat != bowl
    ensures exists m :: InputRanges(m) && Predict(m).AskClassifier?
  {
    var m := MatchState(bat, bowl, city, 180, 50, 5.0, 2);
    assert InputRanges(m) && Predict(m).AskClassifier?;
  }
}
