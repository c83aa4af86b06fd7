# focus-track-api core in Dafny

This project models the computational core of focus-track-api, a study-session
monitor. The service scores webcam frames for fatigue and distraction and keeps
daily summaries for each user. The model covers five pieces of it:

- **Attention scorer** (`attention_scorer.dfy`, module `AttentionScoring`):
  - the per-session state machine over real timestamps;
  - three run-lengths, one each for eye closure, gaze away and head pose, each measured from an anchor that moves whenever the condition is good;
  - inclusive time thresholds on those run-lengths;
  - a 60-second sliding window of frame and closed-eye timestamps, which gives the PERCLOS ratio;
  - two lifetime counters, which are never pruned.

  The four inner predicates of `eval_scores` become `IsEyeClosed` (`is_eye_closed`), `IsLookingAway` (`is_looking_away`), `IsPoseDistracted` (`is_pose_distracted`) and `IsPoseAttentive` (`is_pose_attentive`). The pose pair takes the three angles as present values, since `float()` has already rejected a missing one.

  The class `AttentionScorer` keeps the source's state fields; the nine thresholds and the 60-second window length, which the source stores on the instance, are module constants. It also has three ghost fields:
  - the time of the last evaluation;
  - the time of the last PERCLOS frame;
  - the unpruned frame log.

  The invariant ties the run-lengths to the anchors. It ties the histories to the log, pruned at the latest cutoff, and records that the log is in time order and ends no later than the latest frame.
- **Session metrics** (`session_metrics.dfy`, module `Metrics`):
  - an accumulator that appends one score triple per frame;
  - running maxima that start at 0;
  - a count of frames with distraction strictly above 60;
  - a pure summary of averages, the distraction rate in percent and the maxima.

  The invariant ties the maxima and the count to the lists.
- **Daily summaries** (`daily_summary.dfy`, module `DailySummaries`):
  - the loop that folds a day's study sessions into mean fatigue, mean distraction and the integer part of the focused milliseconds, counting only sessions with a positive effective duration;
  - the per-summary count of sessions ("breaks"), built with a dictionary;
  - get-or-create keyed by user and date.

  The query results are input sequences.
- **User router** (`users.dfy`, module `UsersRouter`): the module-level user list. Create, read, update and delete address users by 1-based position, with a bounds check before each change.
- **User settings** (`user_settings.dfy`, module `UserSettingsService`):
  - a map from user to settings;
  - create, which raises a conflict for a user that already has settings;
  - get, which raises not-found;
  - an update, which copies every field given a value and keeps every field given None.

`wrappers.dfy` holds `Option` and `Result` (module `Wrappers`) and the HTTP error record with its status codes (module `Http`).

Timestamps, scores and ratios are `real`. Each method is proved against a specification function of its inputs and old state. Lemmas then state what the source promises about those functions.

## Model

| member | source | states |
|---|---|---|
| AttentionScoring.RunStep | focus_track_api/services/attention_scorer.py:143-159 | While the condition holds, the anchor is kept and the run-length is the time since the anchor. Otherwise the anchor becomes `t_now` and the run-length is 0. The anchor never moves backward and the run-length is never negative. |
| AttentionScoring.PerclosRatio | focus_track_api/services/attention_scorer.py:211-216 | The closed count divided by the frame count, or 0 for an empty window. It is non-negative, and at most 1 when there are no more closed frames than frames. |
| AttentionScoring.RecentAppend | focus_track_api/services/attention_scorer.py:195-208 | Appending a timestamp and then filtering keeps exactly what filtering the old list keeps, plus the new timestamp if it is not older than the cutoff. |
| AttentionScoring.RecentAdded | focus_track_api/services/attention_scorer.py:198-208 | The same, for the closed-eye history, where the timestamp is appended only when the eyes are closed. |
| AttentionScoring.RecentPrefixBounds | focus_track_api/services/attention_scorer.py:202-208 | Every entry that survives the filter is at or after the cutoff. |
| AttentionScoring.RecentPrefixAtMost | focus_track_api/services/attention_scorer.py:202-208 | Every entry that survives the filter is at most any bound that all entries of the list respect. |
| AttentionScoring.RecentPrefixOrdered | focus_track_api/services/attention_scorer.py:202-208 | The filter keeps a list in time order, since it only drops entries. |
| AttentionScoring.RecentPrefixRecent | focus_track_api/services/attention_scorer.py:202-208 | Filtering with a cutoff and then filtering with a later one is the same as filtering once with the later one. This is why pruning the stored history again matches pruning the full log. |
| AttentionScoring.PruneStep | focus_track_api/services/attention_scorer.py:195-208 | If a history is the full log pruned at an earlier cutoff, then appending `t_now` and pruning at `t_now - 60` gives the full log with `t_now` appended, pruned at that cutoff. |
| AttentionScoring.ClosedWithinFrames | focus_track_api/services/attention_scorer.py:195-208 | Within any window there are no more closed-eye timestamps than frame timestamps. |
| AttentionScoring.ClosedPrefixAtMost | focus_track_api/services/attention_scorer.py:195-199 | The closed-eye timestamps are at most any bound that every frame time respects. |
| AttentionScoring.ClosedPrefixOrdered | focus_track_api/services/attention_scorer.py:195-199 | When the frames arrive in time order, so do the closed-eye timestamps. |
| AttentionScoring.LogAppend | focus_track_api/services/attention_scorer.py:195-199 | A new frame adds its time to the frame timestamps. It adds its time to the closed-eye timestamps exactly when the eyes are closed. |
| AttentionScoring.WindowStep | focus_track_api/services/attention_scorer.py:195-224 | One `get_PERCLOS` step with `t_now` no earlier than the last keeps the window invariant. The log stays in time order and ends at `t_now`. The histories stay the log's timestamps pruned at the new cutoff, and the counters stay the log's frame count and closed-frame count. |
| AttentionScoring.WindowFacts | focus_track_api/services/attention_scorer.py:202-224 | Under the window invariant, every history entry lies in the window `[t_now - 60, t_now]`, both histories are in non-decreasing time order, the closed history is no longer than the frame history, and `total_closed_frames <= total_frames`. |
| AttentionScoring.AttentionScorer.constructor | focus_track_api/services/attention_scorer.py:80-94 | The three anchors and `prev_time` are `t_now`. The run-lengths and counters are 0. Both histories are empty. |
| AttentionScoring.AttentionScorer.EvalScores | focus_track_api/services/attention_scorer.py:99-166 | Eyes are closed iff an EAR value is present and `<= 0.15`, and gaze is away iff present and `> 0.015`. Each of the two keeps its anchor and measures the run from it, or resets the anchor to now with run 0. Exactly one pose branch fires, because "distracted" is the negation of "attentive". Run-lengths stay `>= 0`. `asleep`, `looking_away` and `distracted` are `>=` 12, 6 and 12 s. |
| AttentionScoring.AttentionScorer.GetPerclos | focus_track_api/services/attention_scorer.py:168-226 | `frame_history` is the old history plus `t_now`, pruned to the last 60 s, and ends with `t_now`. The closed history gets `t_now` iff the eyes are closed, then is pruned. Every entry lies in `[t_now - 60, t_now]`, and both histories are in non-decreasing order. The score is closed/frames and lies in [0,1]. `tired` iff the score is `>= 0.2`. `total_frames` grows by 1 and `total_closed_frames` by 1 iff the eyes are closed, so it never exceeds `total_frames`. `fps` is unused. |
| Metrics.Append | focus_track_api/schemas/session_metrics.py:13-23 | Appending a value adds it to the sum. It folds it into the running maximum with `max`. It raises the count by one iff the value is strictly above the threshold. |
| Metrics.MaxPrefixIsMax | focus_track_api/schemas/session_metrics.py:10-19 | The running maximum started at 0 is `>= 0` and bounds every value passed. It is 0 or one of those values. |
| Metrics.RunningMaxIsMax | focus_track_api/schemas/session_metrics.py:10-19 | The same, for the whole list. |
| Metrics.CountAbovePrefixAtMost | focus_track_api/schemas/session_metrics.py:21-23 | No more values are counted as distracted than there are values. |
| Metrics.MeanBounds | focus_track_api/schemas/session_metrics.py:26-40 | The mean of values that all lie in [lo, hi] lies in [lo, hi]. |
| Metrics.MeanAtMostMax | focus_track_api/schemas/session_metrics.py:18-40 | Each average is at most the corresponding running maximum. |
| Metrics.Percentage | focus_track_api/schemas/session_metrics.py:41-45 | `part / whole * 100`, or 0 when `whole` is 0. It lies in [0, 100] when `part <= whole`. |
| Metrics.SessionMetrics.constructor | focus_track_api/schemas/session_metrics.py:2-11 | The lists are empty, the threshold is 60, and the counters and maxima are 0. |
| Metrics.SessionMetrics.Update | focus_track_api/schemas/session_metrics.py:13-23 | Appends exactly one value to each of the three lists, so every length is `frames_total`. The maxima remain the maximum of 0 and every value. `frames_distracted` grows iff `distraction > 60` and stays `<= frames_total`. |
| Metrics.SessionMetrics.Summary | focus_track_api/schemas/session_metrics.py:25-54 | Each average is the mean of its list, or 0 when the list is empty. Each average is at most its maximum. The rate is `frames_distracted/frames_total*100`, 0 with no frames, and lies in [0,100]. The maxima are the fields. No field changes. |
| DailySummaries.Trunc | focus_track_api/services/daily_summary.py:102 | Python's `int()` truncates toward zero. For a non-negative value the result is the whole part: `r <= x < r + 1`. |
| DailySummaries.Aggregated | focus_track_api/services/daily_summary.py:53-102 | The id, user and date never change. With no contributing session, the summary is returned as it was. |
| DailySummaries.ContributingAppend | focus_track_api/services/daily_summary.py:62-88 | Adding a session adds it to the contributing sessions exactly when it contributes. |
| DailySummaries.ContributingPrefixFacts | focus_track_api/services/daily_summary.py:68-80 | The contributing sessions all come from the input and all contribute, and there are no more of them than there are inputs. |
| DailySummaries.ContributingPrefixEmpty | focus_track_api/services/daily_summary.py:68-80 | No session contributes iff no input session has both times and a positive effective duration. This is proved in both directions. |
| DailySummaries.TotalsAppend | focus_track_api/services/daily_summary.py:81-88 | A contributing session adds its fatigue, its distraction and its effective milliseconds to the three totals. |
| DailySummaries.LoopStep | focus_track_api/services/daily_summary.py:62-88 | In one loop turn, a contributing session raises the count by one and adds to each total. Any other session leaves everything as it was. |
| DailySummaries.UpdateFromSessions | focus_track_api/services/daily_summary.py:53-102 | The loop result equals `Aggregated`. For the contributing sessions, the averages are the means of their fatigue and distraction, and the focused time is `int` of their summed effective duration times 1000. |
| DailySummaries.NoContributorUnchanged | focus_track_api/services/daily_summary.py:53-98 | With no sessions, or with no contributing session, the summary is unchanged. |
| DailySummaries.SomeContributorCounted | focus_track_api/services/daily_summary.py:80-102 | One contributing session anywhere in the input is enough for all three fields to be assigned. The averages become the means of the contributing sessions' fatigue and distraction, and the focused time becomes `int` of their summed effective milliseconds. |
| DailySummaries.NonContributorIgnored | focus_track_api/services/daily_summary.py:68-80 | A session that is still open, or has no positive effective time, changes nothing. |
| DailySummaries.AveragesWithin | focus_track_api/services/daily_summary.py:86-101 | If every contributing session's fatigue and distraction lie in [lo, hi], so do the daily averages. |
| DailySummaries.FocusedTimeIsWholeMillis | focus_track_api/services/daily_summary.py:81-102 | The focused time is non-negative and is the whole number of milliseconds of the total effective time. |
| DailySummaries.AttachBreaks | focus_track_api/services/daily_summary.py:155-162 | Each summary keeps its position and record. Its `breaks` is the number of sessions whose `daily_summary_id` is its id, read with `.get(id, 0)`. |
| DailySummaries.BreaksPrefixFacts | focus_track_api/services/daily_summary.py:156-162 | A prefix count is at most the prefix length. It is 0 iff no session in the prefix points at the summary. |
| DailySummaries.BreaksZeroIff | focus_track_api/services/daily_summary.py:156-162 | `breaks` is 0 iff no session points at the summary, and never exceeds the number of sessions. |
| DailySummaries.FindFrom | focus_track_api/services/daily_summary.py:13-21 | The query returns the first row with the user and date, or none when no row matches. |
| DailySummaries.GetOrCreated | focus_track_api/services/daily_summary.py:10-34 | Returns a summary for the requested user and date that is in the table. An existing match leaves the table as it was. Otherwise exactly one new summary is appended. |
| DailySummaries.GetOrCreatedWellKeyed | focus_track_api/services/daily_summary.py:13-34 | Sequential get-or-create calls, each with a fresh id, keep ids unique and keep (user, date) pairs unique. |
| DailySummaries.GetOrCreatedIdempotent | focus_track_api/services/daily_summary.py:23-24 | A second call for the same user and date returns the same summary and adds nothing. |
| DailySummaries.SummaryTable.GetOrCreate | focus_track_api/services/daily_summary.py:10-34 | The table and returned summary are those of `GetOrCreated`, and the table stays well keyed. |
| UsersRouter.RemoveAt | focus_track_api/routers/users.py:43 | `del database[k]`: the length shrinks by one, elements before `k` stay, and the later ones move down one place in order. |
| UsersRouter.UserDatabase.CreateUser | focus_track_api/routers/users.py:15-19 | Appends one record with `id = old length + 1` and returns it. |
| UsersRouter.UserDatabase.ReadUsers | focus_track_api/routers/users.py:22-23 | Returns the whole list as it is stored and changes nothing. |
| UsersRouter.UserDatabase.UpdateUser | focus_track_api/routers/users.py:26-34 | An id below 1 or above the length gives 404 "User not found" and leaves the list unchanged. Otherwise only index `user_id - 1` is replaced. |
| UsersRouter.UserDatabase.DeleteUser | focus_track_api/routers/users.py:37-44 | An out-of-range id gives 404 and leaves the list unchanged. Otherwise exactly index `user_id - 1` is removed and the message "User deleted" is returned. |
| UsersRouter.CreateKeepsPositional | focus_track_api/routers/users.py:16-17 | If every id equals its 1-based position, it still does after a create. |
| UsersRouter.UpdateKeepsPositional | focus_track_api/routers/users.py:32-33 | The same after an update. |
| UsersRouter.DeleteKeepsOrder | focus_track_api/routers/users.py:43 | Delete preserves the relative order of the remaining users. |
| UsersRouter.DeleteShiftsLaterIds | focus_track_api/routers/users.py:43 | Deleting any user but the last leaves a later user at a position that differs from its id. |
| UsersRouter.DeleteThenCreateDuplicatesId | focus_track_api/routers/users.py:16-43 | For a list whose ids are their positions, deleting any user but the last and then creating one gives the new user the id that the old last user still holds. For example, with users 1 and 2, deleting 1 and creating a user gives ids 2 and 2. |
| UserSettingsService.Merged | focus_track_api/services/user_settings.py:61-63 | Each field given a value takes it, each field given None keeps its old value, and the ids never change. |
| UserSettingsService.ApplyUpdate | focus_track_api/services/user_settings.py:61-63 | The loop over the items, writing each value that is not None, gives exactly `Merged`. |
| UserSettingsService.EmptyUpdateIsIdentity | focus_track_api/services/user_settings.py:61-63 | An update with every field None changes nothing. |
| UserSettingsService.MergeIdempotent | focus_track_api/services/user_settings.py:61-63 | Applying the same update twice equals applying it once. |
| UserSettingsService.MergeCompose | focus_track_api/services/user_settings.py:61-63 | Two updates in a row equal one update in which the later value of each field wins. |
| UserSettingsService.MergeKeepsRange | focus_track_api/schemas/user_settings.py:17-19 | Every threshold an update can write lies in (0, 100], so stored thresholds stay in range. |
| UserSettingsService.NewSettings | focus_track_api/services/user_settings.py:26 | A created record carries the request's user and thresholds, which are in range. |
| UserSettingsService.SettingsStore.CreateUserSettings | focus_track_api/services/user_settings.py:14-30 | For a user that already has settings, returns 409 "Settings already exist for this user" and stores nothing. Otherwise stores exactly one record under the user. |
| UserSettingsService.SettingsStore.GetUserSettings | focus_track_api/services/user_settings.py:33-44 | Returns the user's settings, or 404 "User settings not found" for an unknown user. |
| UserSettingsService.SettingsStore.UpdateUserSettings | focus_track_api/services/user_settings.py:47-67 | An unknown user gives 404 and nothing changes. Otherwise the stored record becomes `Merged(old, update)` and nothing else changes. |

## Left out

- Every file outside the five above, which is orchestration and I/O. That covers:
  - frame decoding and landmark extraction with OpenCV and MediaPipe;
  - the WebSocket loop and FPS timing;
  - image and Euler-angle helpers;
  - authentication, password hashing and tokens;
  - the thin CRUD services.
- The session lifecycle, the critical-event log, the session finalizer and the per-frame fatigue, distraction and attention formulas. `finalize_session` and `start_study_session` are imported from `focus_track_api/services/attention.py`, but that file is not part of this model and its shown part defines neither.
- Database commits, refreshes and rollbacks. Queries become input sequences, or the `rows` and `byUser` state. ORM record mutation is a returned updated value.
- Generated UUIDs and database ids: they are parameters (`freshId`), and get-or-create requires the id to be unused, as uuid4 makes it in practice.
- IEEE floating point: scores, ratios, timestamps and thresholds are exact reals. Python's `int()` is modelled explicitly as truncation.
- The time source: `t_now` is a parameter and must not decrease. Each of `EvalScores` and `GetPerclos` tracks its own last time, because the source keeps the two calls independent.
- The `verbose` flag is not modelled: it only switches on printing. The fields `eye_closure_counter` and `prev_time` are set in the constructor and never read or updated by the core, so the model only initialises them.
- AttentionScoring.AttentionScorer.EvalScores: the head angles are required reals. The source calls `float()` on each angle before scoring, so a missing angle raises and the `None` tests inside the pose predicates never apply. EAR and gaze stay optional.
- The constructor's docstring lists different default thresholds. The model follows the values the code assigns (`attention_scorer.py:66-77`).
- Field-name and schema inconsistencies:
  - `DailySummary` has a `date` column and no `created_at` (`models.py:50-62`). As written, the lookup at `services/daily_summary.py:16` and the sort at `:141` raise `AttributeError`, so get-or-create and the summaries-with-breaks query fail; the model gives the intended lookup on user and date, and keeps the input order;
  - the focused time is named both `focused_time` and `focused_time_minutes`, and holds milliseconds; it is one field here;
  - `StudySession` has no `total_paused_time` (`models.py:66-92`). As written, `services/daily_summary.py:74` raises `AttributeError` for every session with both a start and an end time; the model gives the intended aggregation, with the paused time as a session field;
  - the user router's request and stored schemas are simplified to the username, e-mail and password plus the id. As written, the construction `UserDB(**user.model_dump(), id=...)` at `routers/users.py:16` fails against `focus_track_api/schemas.py`. There `UserSchema` already has an `id` field (`schemas.py:9`), so `id` is passed twice, and `UserDB` also requires a field named `int` (`schemas.py:16`). The model gives create and update the evidently intended behaviour: the body plus the new id.
- The output order of summaries and sessions in `get_daily_and_session_data` comes from the query's sort. The model keeps the input order.
- UserSettingsService.SettingsStore.CreateUserSettings: the success branch is the evidently intended behaviour, not the code as written. `services/user_settings.py:26` builds `UserSettings(**data.model_dump())` and so passes `user_id` as a keyword. But `models.py:44` declares `user_id` with `init=False`, and the required `user` relationship (`models.py:45`) is not passed. As written, that call raises a `TypeError` and stores nothing. The model stores one record under the user, as the conflict check and the unique `user_id` column intend.
- Concurrency: every handler is one atomic call, and calls run one after another. In the source, `get_or_create_daily_summary` awaits between its lookup (`services/daily_summary.py:21`) and its commit (`:31`), and the daily summary table has no unique constraint on user and date. So two overlapping requests for the same user and day can both miss the lookup and insert two summaries, which the model's well-keyed invariant rules out. The same check-then-act gap exists in two other handlers:
  - `create_user_settings` (`services/user_settings.py:17-27`): there the unique `user_id` column turns the race into a commit error instead of a 409;
  - `create_user` (`routers/users.py:16-17`): its thread-pool handlers can read `len(database) + 1` twice before an append.
