# CalTrack decision logic in Dafny

This project models the two pieces of CalTrack's backend that make decisions:

- **The workout scoring function** (`scoreWorkout`). It turns a workout
  (`calories_burn`, `type`) and the user's state (`remainingCalories`,
  `weightDelta`) into a score. The score is `0.5 * calorie fit + 0.3 * goal match + 0.2 * intensity`.
  Module `WorkoutModel`, file `workout_model.dfy`. Pure functions over `real`,
  plus lemmas.
- **The bearer-token authentication gate** (`authMiddleware`). It reads the
  `authorization` header and does one of three things:
  - rejects a missing header, or one without the `"Bearer "` prefix, with
    401 `"Access denied. No token."`;
  - otherwise takes `header.split(" ")[1]` as the token and verifies it;
    on success it sets `req.user` and calls `next`;
  - on failure it answers 401 `"Invalid token"`.

  Module `AuthMiddleware`, file `auth_middleware.dfy`. The header parsing
  and the decision are pure functions (`HasBearerPrefix`, `Split`,
  `TokenOf`, `Decide`). The middleware itself is the method `Authenticate`
  over small `Request`, `Response` and `NextCallback` classes, proved
  against `Decide`.

`wrappers.dfy` holds the `Option` datatype.

Modelling choices:

- JavaScript numbers are mathematical reals.
- This revision of backend/src/ml/workoutModel.js does not guard the
  division at line 5. So `CalorieScore` and `ScoreWorkout` require
  `remainingCalories != 0`.
- The JWT library's `verify` is an oracle. It is passed in as a function
  `verify: (string, string) -> Option<Payload>`, where `None` stands for the
  exception it throws. The secret from `process.env.JWT_SECRET` is a
  `secret` parameter.
- "Verify is not called" on a rejected header is stated as: the decision is
  the same for every verifier (`RejectionIgnoresVerifier`).
- The prefix check is case-sensitive, as in the code. Section 2.1 of
  RFC 7235 makes the auth-scheme case-insensitive, but a lower-case
  `bearer` is rejected here (`SchemeIsCaseSensitive`).
- `split(" ")` is modelled character by character (`Split`). The model
  proves that `Join` undoes it and that its second field is the text between
  the first and second space (`FirstField`).

## Model

| member | source | states |
|---|---|---|
| `WorkoutModel.CalorieScore` | backend/src/ml/workoutModel.js:5 | for a nonzero budget the fit times the budget is the burn; it is non-negative when the budget is positive and the burn non-negative |
| `WorkoutModel.GoalScore` | backend/src/ml/workoutModel.js:8-10 | the goal score is 0 or 1, and it is 1 exactly when the user is above target and the workout is cardio, or below target and it is strength |
| `WorkoutModel.IntensityScore` | backend/src/ml/workoutModel.js:13 | the intensity is 1 or 0.5, and 1 exactly when the burn is strictly above 200 |
| `WorkoutModel.FixedPart` | backend/src/ml/workoutModel.js:18-19 | the goal and intensity part of the score is always one of 0.1, 0.2, 0.4 or 0.5 |
| `WorkoutModel.ScoreWorkout` | backend/src/ml/workoutModel.js:1-21 | the score minus that fixed part, times the budget, is half the burn; with a positive budget and non-negative burn the score is at least 0.1 |
| `WorkoutModel.GoalConditionsExclusive` | backend/src/ml/workoutModel.js:9-10 | the cardio and strength conditions never hold together, so the second assignment never overrides the first |
| `WorkoutModel.NoGoalAtTarget` | backend/src/ml/workoutModel.js:8-10 | with a weight delta of 0 the goal score is 0 for every type |
| `WorkoutModel.IntensityBoundary` | backend/src/ml/workoutModel.js:13 | a burn of exactly 200 gives intensity 0.5, because the comparison is strict |
| `WorkoutModel.ScoreIgnoresIdAndName` | backend/src/ml/workoutModel.js:1-21 | two workouts with the same burn and type get the same score, whatever their id and name |
| `WorkoutModel.GoalMatchBonus` | backend/src/ml/workoutModel.js:9-18 | a goal-matching workout scores exactly 0.3 more than a non-matching one with the same burn |
| `WorkoutModel.ScoreIncreasesWithBurn` | backend/src/ml/workoutModel.js:5-20 | with a positive budget, of two workouts of one type the one burning more scores strictly higher |
| `WorkoutModel.WorkedExample` | backend/src/ml/workoutModel.js:5-20 | with 500 kcal left and 5 kg over target, cardio burning 300 scores 0.8 and strength burning 100 scores 0.2 |
| `AuthMiddleware.Split` | backend/src/middleware/auth.js:11 | `split(" ")` returns at least one field and no field contains a space |
| `AuthMiddleware.JoinSplit` | backend/src/middleware/auth.js:11 | joining the fields of `split(" ")` with single spaces gives back the header |
| `AuthMiddleware.FirstField` | backend/src/middleware/auth.js:11 | the result is a space-free prefix of the input, followed by a space or by the end of the input |
| `AuthMiddleware.SplitFirstField` | backend/src/middleware/auth.js:11 | the first field of the split is the text before the first space, and the other fields are the split of what follows that space |
| `AuthMiddleware.BearerFirstField` | backend/src/middleware/auth.js:7-11 | a header that passed the prefix check has `Bearer` as its first field |
| `AuthMiddleware.TokenOf` | backend/src/middleware/auth.js:11 | `header.split(" ")[1]` always exists after the prefix check, and it is the space-free text between the first and second space |
| `AuthMiddleware.TokenExamples` | backend/src/middleware/auth.js:11 | `"Bearer abc"` gives `"abc"`, `"Bearer a b"` gives `"a"`, and `"Bearer "` gives the empty token |
| `AuthMiddleware.Decide` | backend/src/middleware/auth.js:4-19 | a missing or unprefixed header, and only such a header, is rejected with 401 and the no-token message; otherwise a verified token proceeds with its payload and a failed one is rejected with 401 and the invalid-token message |
| `AuthMiddleware.RejectionIgnoresVerifier` | backend/src/middleware/auth.js:7-9 | a missing or unprefixed header is rejected the same way whatever the verifier would say |
| `AuthMiddleware.RejectionsShareStatus` | backend/src/middleware/auth.js:8-18 | both rejections carry status 401 but different messages |
| `AuthMiddleware.SchemeIsCaseSensitive` | backend/src/middleware/auth.js:7-8 | a header starting with lower-case `bearer ` is treated as carrying no token |
| `AuthMiddleware.Response.Status` | backend/src/middleware/auth.js:8 | `res.status(code)` sets the status and leaves the body alone |
| `AuthMiddleware.Response.Json` | backend/src/middleware/auth.js:8 | `res.json({error})` writes the error body and keeps the status |
| `AuthMiddleware.NextCallback.Call` | backend/src/middleware/auth.js:16 | calling `next` records one more invocation, together with the `req.user` the next handler sees |
| `AuthMiddleware.Authenticate` | backend/src/middleware/auth.js:3-20 | exactly one of two things happens, as `Decide` says. Either the rejection's status and message are written, `req.user` is unchanged and `next` is not called. Or `req.user` is set to the payload, then `next` is called exactly once and sees that payload as `req.user`, and the response is untouched |

## Left out

- The internals of `jwt.verify`: signature checking, payload parsing and expiry. They belong to the `jsonwebtoken` library and a clock. The verifier is an uninterpreted function parameter.
- The `process.env.JWT_SECRET` lookup: the secret is a parameter.
- IEEE-754 behaviour of the score: rounding, and `Infinity`/`NaN` for a zero budget. Scores are reals, and a zero budget is excluded by precondition.
- JavaScript's loose typing: `type` is assumed to be a string and `calories_burn` a number. `!authHeader` is modelled as header absence; an empty header fails the prefix check anyway, with the same result.
- Express plumbing in `backend/src/server.js`: app setup, CORS, the JSON body parser and `listen`.
- The React UI in `frontend/src/App.jsx` and `frontend/src/Dashboard.jsx`: state hooks, `fetch` calls and charts.
- The recommendation ranker, the daily-summary aggregator and token issuance: their source files are not part of this model.
- A guarded calorie fit (`0` for a non-positive budget) is not modelled: backend/src/ml/workoutModel.js:5 divides without a guard.
- AuthMiddleware.Authenticate: assumes `next` does not throw. In backend/src/middleware/auth.js:13-19 the `try` also covers `req.user = decoded; next();`. So a synchronous throw from a later handler inside `next` would be caught there, and the gate would also answer 401 "Invalid token" after `next` ran. That would break the "exactly one of the two" outcome. The model treats `next` as returning normally.
