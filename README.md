# IPL win predictor: the match-outcome decision procedure

The IPL win predictor is a single-page form. The user enters the state of a
Twenty20 chase: batting and bowling teams, host city, target, current score,
overs completed and wickets fallen. When the predict button is pressed, the
program does three things in order:

1. It validates the input. Identical teams are refused first, then zero overs.
2. It derives nine features: runs left, balls left, wickets in hand, current
   and required run rate, plus the teams, the city and the target.
3. It runs an ordered chain of terminal-state rules. These either decide the
   match (draw, batting win, bowling win) or hand the features to a trained
   classifier.

This project models those three steps as pure Dafny functions in module
`WinPredictor` (`win_predictor.dfy`):

- `Validate`
- `RunsLeft`, `BallsLeft`, `RemainingWickets`, `CurrentRunRate`,
  `RequiredRunRate`, and `Derive`, which assembles them
- `Resolve`
- `Predict`, their composition

Each function's contract is proved, and so are lemmas tying several calls
together. Module `Scenarios` (`scenarios.dfy`) works concrete match
situations through the model.

Modelling choices:

- Teams and cities are abstract types. Only team equality matters, and the
  city is passed through.
- The ranges the number-input widgets enforce are the precondition
  `InputRanges`: target at least 1, score at least 0, overs in [0, 20],
  wickets in [0, 10].
- Overs are exact reals. The source's `int(overs * 6)` becomes
  `(overs * 6.0).Floor`; truncation and floor agree because overs is never
  negative.
- The classifier call is the outcome `AskClassifier(features)`, which carries
  the feature record the classifier would receive.

Three behaviours of the code are worth spelling out:

- **Overs are read as a decimal.** In cricket notation, `n.b` overs means n
  whole overs and b balls, so `14.3` is 14 overs and 3 balls. The code instead
  multiplies the decimal value by 6 and truncates, so `14.3` counts 85 balls
  bowled, not 87. `TenthsNotationUndercounts` states this for every `n.b`, and
  `Scenarios.DecimalOversReading` shows the 14.3 case.
- **A chase past the target can still reach the classifier.** A score beyond
  the target with wickets and balls in hand is not decided by any rule, so the
  classifier is asked with no runs left and a required rate of 0.
  `ClassifierPastTarget` states this case.
- **The level-at-20-overs draw is dead.** The chain checks a level score
  before it checks for exhausted balls, so this draw can never be reached.
  `Resolve` keeps the branch and proves it never fires.

## Model

| member | source | states |
|---|---|---|
| WinPredictor.Validate | app.py:52-55 | teams equal ⇔ refused for identical teams, whatever the overs; distinct teams and zero overs ⇔ refused for zero overs; accepted exactly when teams differ and overs ≠ 0 |
| WinPredictor.RunsLeft | app.py:57 | never negative; 0 exactly when score ≥ target; otherwise score + runs left = target |
| WinPredictor.BallsLeft | app.py:58 | for overs in [0, 20]: in [0, 120]; 120 − balls left is the number of whole sixths of an over in `overs`; 0 exactly at 20 overs; 120 exactly below 1/6 over |
| WinPredictor.RemainingWickets | app.py:59 | in [0, 10]; wickets fallen + wickets in hand = 10; 0 exactly when all 10 have fallen |
| WinPredictor.CurrentRunRate | app.py:61 | never negative; for positive overs it is the rate whose product with the overs is the score; 0 for zero overs |
| WinPredictor.RequiredRunRate | app.py:62 | never negative; with balls left, rate × balls left = 6 × runs left; 0 exactly when no runs or no balls are left |
| WinPredictor.Derive | app.py:57-74 | for an accepted state the teams, city and target pass through; runs left is max(target − score, 0) (never negative, 0 exactly when score ≥ target, otherwise score + runs left = target); 120 − balls left is the number of whole sixths of an over in `overs`, in [0, 120] and 0 exactly at 20 overs; wickets fallen + wickets in hand = 10; crr × overs = score, so the zero guard of crr is dead; rrr is 0 without balls left and otherwise satisfies rrr × balls left = 6 × runs left |
| WinPredictor.Resolve | app.py:81-103 | never refuses; classifier asked ⇔ wickets < 10, score ≠ target and balls left > 0, and then with the derived features; draw ⇔ all out with scores level; batting win ⇔ level score with wickets in hand, or score beyond target when all out or out of balls; bowling win ⇔ score short of target when all out or out of balls; for each rule, that rule decides ⇔ its own condition holds and no earlier rule's does (all out level / past / short; level with wickets in hand; out of balls past / short); the level-at-over-limit draw never occurs |
| WinPredictor.Predict | app.py:52-103 | identical teams are refused whatever the overs; distinct teams with zero overs are refused for zero overs; refused ⇔ teams equal or zero overs; classifier asked ⇔ teams differ, overs ≠ 0, wickets < 10, score ≠ target and balls left > 0; an accepted state gets exactly the resolved outcome (result, deciding rule and features) |
| WinPredictor.BallsLeftAntitone | app.py:58 | more overs bowled never leaves more balls |
| WinPredictor.TenthsNotationUndercounts | app.py:58 | overs typed as n.b (b balls) leave 120 − 6n − ⌊6b/10⌋ balls, which is more than the 120 − (6n + b) really left whenever b > 0 |
| WinPredictor.AllOutIgnoresOvers | app.py:81-88 | with all 10 wickets lost, changing the overs (hence balls left) does not change the outcome |
| WinPredictor.LevelScoreIgnoresOvers | app.py:89-91 | with wickets in hand and score = target, the outcome is a batting win (target chased) for every overs value |
| WinPredictor.ClassifierPastTarget | app.py:89-103 | a score beyond the target with wickets in hand and under 20 overs goes to the classifier with 0 runs left and required rate 0 |
| WinPredictor.LiveRulesReachable | app.py:81-100 | every terminal rule except the level-at-over-limit draw decides some valid match between distinct teams |
| WinPredictor.ClassifierReachable | app.py:101-103 | the classifier branch is reached by some valid match between distinct teams |
| Scenarios.MidInningsChase | app.py:57-103 | target 180, score 50, 5.0 overs, 2 wickets: classifier asked with 130 runs left, 90 balls left, 8 wickets, crr 10, rrr 26/3 |
| Scenarios.TargetReachedExactly | app.py:89-91 | target 150, score 150, 18.2 overs, 3 wickets: batting win, target chased |
| Scenarios.ShortAfterTwentyOvers | app.py:92-100 | target 160, score 140, 20 overs, 6 wickets: bowling win, overs exhausted |
| Scenarios.AllOutLevelAtTwentyOvers | app.py:81-83 | target 160, score 160, 20 overs, 10 wickets: the all-out rule fires first and gives a draw |
| Scenarios.SameTeamBothSides | app.py:52-53 | one team on both sides is refused for identical teams, with zero overs or not |
| Scenarios.DecimalOversReading | app.py:58 | 14.3 overs leaves 35 balls (85 counted as bowled) and reaches the classifier with that feature |

## Left out

- Form widgets and display calls (title, select boxes, success/error/info
  messages, balloons, the feature table) are user-interface side effects. The
  model returns the outcome they would display.
- Loading the pickled pipeline and calling `predict_proba`. These are file
  I/O and a foreign trained model. Reaching the call is the outcome
  `AskClassifier(features)`; the returned probabilities, and any failure of
  that call, are not modelled.
- The pandas DataFrame is modelled as the plain record `Features`, with one
  field per column.
- Rounding the win and loss probabilities to percentages. This is display of
  classifier output.
- Binary floating point. `overs * 6`, `crr` and `rrr` use exact real
  arithmetic, so a float product that lands just below a whole number (and so
  truncates one ball lower) is not modelled.
- The literal team and city lists are static option data. Teams and cities
  are abstract types.
