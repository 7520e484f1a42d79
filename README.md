# Relationship strength, access gate and task states of a personal productivity app

This project models three pieces of logic from a personal productivity web application:

- **Relationship strength** (the "social" CRM module). Each contact has a check-in cadence in days. The app scores how fresh the relationship is from the cadence, the date of the last touchpoint and the number of recent touchpoints. The score comes with a label band, a due countdown and an overdue amount. The module also keeps each contact's cached "last contacted" date as a running maximum. It finds a contact by slug and picks the dashboard's active contact.
- **The access gate** (`SuperuserRequiredMiddleware`). Every request must come from an authenticated superuser. The exceptions are a fixed list of path prefixes and the exact login and logout URLs. Each request gets one of three outcomes: pass, redirect to login with `?next=<path>`, or "Superuser required." forbidden.
- **The task record**: its status, priority and energy choices, its field defaults, the `cancel` and `mark_done` transitions, and the derived predicates `is_active`, `is_overdue`, `is_subtask` and `is_routine_task`.

Dates are integer day numbers (`Common.Day`) and timestamps are integers (`Common.Instant`). "Today" and "now" are parameters. The router resolves the login and logout URLs, so they are parameters too.

Files:

- `common.dfy`: `Option` and the time axes.
- `strength.dfy`: module `Strength`, the scoring function.
- `contacts.dfy`: module `Contacts`. The `Contact` class, the per-contact aggregates, the slug search and the cache update.
- `access_gate.dfy`: module `AccessGate`.
- `tasks.dfy`: module `Tasks`.

Two details of the code:

- The effective cadence is `max(cadence or 30, 1)`. So a cadence of 0 (or none) becomes 30, not 1.
- The freshness penalty is `int((d / t) * 60)`. Python's `int` truncates toward zero, so the penalty is not a floor. The two differ only for future-dated touchpoints, where `d < 0`. The model writes this as `TruncDiv(60 * d, t)`.

## Model

| member | source | states |
|---|---|---|
| `Strength.TargetDays` | social/views.py:132 | The effective cadence is at least 1. No cadence, or a cadence of 0, gives 30. A positive cadence is kept. A negative one gives 1. |
| `Strength.LastDate` | social/views.py:133-137 | The date the score is measured from. It is the annotated latest touchpoint if present, else the cached last-contacted date if present, else exactly the aggregate over stored touchpoints. It is absent only when all three are absent. |
| `Strength.TruncDiv` | social/views.py:147 | Truncating division. For `n >= 0` the quotient `q` satisfies `q*d <= n < q*d + d`. For `n < 0` it satisfies `q*d - d < n <= q*d <= 0`. This is rounding toward zero, as `int()` does. |
| `Strength.ConsistencyBoost` | social/views.py:148 | The boost is between 0 and 10. Below five recent touchpoints it is exactly twice the count. From five on it is 10. |
| `Strength.Clamp` | social/views.py:150 | The result lies in [5, 100]. It equals the input inside that range and the nearer bound outside it. |
| `Strength.Score` | social/views.py:147-150 | With a last date, the score always lies in [5, 100]. |
| `Strength.BandOf` | social/views.py:151-158 | There are four disjoint bands covering all inputs. Strong iff `2d <= t`. Steady iff `t < 2d` and `d <= t`. Needs touch iff `t < d` and `2d <= 3t`. At risk iff `3t < 2d`. |
| `Strength.OverdueBy` | social/views.py:169 | It is present iff the due countdown is negative. It then holds the countdown's absolute value. |
| `Strength.ComputeStrength` | social/views.py:131-170 | With no last date: "Cold start", "danger", score 25, no days-since, due in the full cadence, no overdue amount. With a last date: days-since is today minus that date. The score is `Score` of days-since, the effective cadence and the recent count, so it lies in [5, 100]. The label and state are those of `BandOf` of days-since and the cadence. Due-in is cadence minus days-since. Overdue is present iff days-since exceeds the cadence, and then equals the excess. The record carries the chosen last date and the recent count, with a missing count read as 0. |
| `Strength.RecentCount` | social/views.py:148 | A missing recent count reads as 0. A present one is kept. |
| `Strength.FreshnessPenalty` | social/views.py:147 | The penalty is non-negative for a past last date and non-positive for a future one. Exactly one cadence costs exactly 60 points, exactly half a cadence exactly 30. |
| `Strength.PenaltyLandmarks` | social/views.py:147 | The truncated quotient for one full cadence is exactly 60, and for half a cadence exactly 30. |
| `Strength.Band.Label` | social/views.py:144-158 | The label is one of "Cold start", "Strong", "Steady", "Needs touch" and "At risk". It is "Cold start" exactly for the cold-start band. |
| `Strength.Band.State` | social/views.py:144-158 | The state is one of "success", "primary", "warning" and "danger". It is "danger" exactly for cold start and at risk. |
| `Strength.LabelIdentifiesBand` | social/views.py:144-158 | Distinct bands have distinct labels, so the label fixes the state shown with it. |
| `Strength.TruncDivMonotone` | social/views.py:147 | Truncating division is monotone in the numerator. |
| `Strength.ScoreMonotone` | social/views.py:147-150 | For fixed cadence and recent count, the score never increases as days-since grows. |
| `Strength.ScoreGrowsWithRecent` | social/views.py:148-150 | More recent touchpoints never lower the score. |
| `Strength.BandMonotone` | social/views.py:151-158 | The band only worsens (Strong, Steady, Needs touch, At risk) as days-since grows. |
| `Strength.ScoreWithinBand` | social/views.py:147-158 | Strong implies a score of at least 70, Steady at least 40 and Needs touch at least 10. At risk implies at most 20, whatever the recent count. |
| `Strength.FreshScoreIsFull` | social/views.py:147-150 | A last touchpoint today or in the future gives the maximum score, 100. |
| `Strength.StaleScoreIsFloor` | social/views.py:147-150 | Twice the cadence without contact gives the minimum score, 5, whatever the boost. |
| `Strength.BandBoundaries` | social/views.py:151-156 | Zero days and half the cadence are Strong, since the bounds are inclusive. The cadence itself is Steady. One day past the cadence is Needs touch for every cadence of at least 2. |
| `Strength.WorkedExample` | social/views.py:131-170 | Cadence 30, last touchpoint 45 days ago and one recent touchpoint give score 12, "Needs touch"/"warning", due in -15 and overdue by 15. |
| `Contacts.MaxDate` | social/views.py:108 | The latest touchpoint date is absent iff there are no touchpoints. Otherwise it is one of the dates and no date is later. |
| `Contacts.CountRecent` | social/views.py:105-112 | The recent count is at most the number of touchpoints. It equals that number iff every date is on or after today - 90, the boundary included. It is 0 iff none is. |
| `Contacts.CountRecentShrinks` | social/views.py:105-112 | For fixed touchpoints, a later "today" never raises the recent count. |
| `Contacts.CountRecentAppend` | social/views.py:105-112 | Adding one touchpoint raises the recent count by one exactly when its date is in the window. |
| `Contacts.AfterTouchpoint` | social/views.py:199-200 | The cached date after an update is the maximum of the old cached date (if any) and the touchpoint date. |
| `Contacts.AfterTouchpointIdempotent` | social/views.py:197-201 | Updating again with the same date changes nothing and writes nothing. |
| `Contacts.CacheTracksMax` | social/views.py:197-201 | If the cache held the latest of the stored dates, the update makes it the latest of those dates plus the new one. |
| `Contacts.Contact.WithDefaultCadence` | social/models.py:44 | A new contact created without a cadence gets the default of 30 days. It has no cached date, no touchpoints, no annotations and no strength, so the cache invariant holds. |
| `Contacts.Contact.constructor` | social/models.py:28-45 | A new contact has the given slug and cadence. It has no cached date, no touchpoints, no annotations and no strength, so the cache invariant holds. |
| `Contacts.Contact.UpdateLastContacted` | social/views.py:197-201 | The cached date becomes the running maximum. It changes exactly when it was empty or the touchpoint is strictly newer, and only then does the update time change. No other field is written. |
| `Contacts.Contact.RecordTouchpoint` | social/views.py:73-75 | The touchpoint is appended to the stored dates. The cached date becomes the running maximum, and the update time changes exactly when the cache is written. Storing a touchpoint and updating the cache keeps the invariant: the cached date is the latest stored touchpoint date. |
| `Contacts.Contact.StrengthOn` | social/views.py:131-170 | The strength of a row as it stands. It carries the row's recent count, with a missing count read as 0. It is measured from the annotated date, else the cached date, else the latest stored date. A row with no touchpoints, no annotation and no cached date is "Cold start" with score 25. A row with stored touchpoints has a last date and a score of at least 5. |
| `Contacts.Contact.AssignStrength` | social/views.py:106-118 | One row of the dashboard query. The row is annotated with its latest date and recent count, and its strength is assigned from them. |
| `Contacts.IndexOfSlug` | social/views.py:125-127 | The result is the index of the first contact with the slug, and no earlier contact has it. It is absent iff no contact has it. |
| `Contacts.Lookup` | social/views.py:122-128 | A found contact is in the list and carries the requested slug. Nothing is found iff the slug is missing or empty, or no contact has it. |
| `Contacts.FindContact` | social/views.py:122-128 | A missing or empty slug gives nothing. Otherwise the result is the first contact whose slug matches, or nothing if none does. |
| `Contacts.ActiveSlug` | social/views.py:30 | The route's slug is used unless it is missing or empty, else the query parameter. |
| `Contacts.ActiveContact` | social/views.py:30-31 | The active contact is the match for the chosen slug, else the first contact. It is present iff the list is non-empty. |
| `Contacts.ScoredStrength` | social/views.py:133-137 | Once a row is scored, its strength is `_compute_strength` of that row. It is measured from the latest stored touchpoint if there is one, else from the cached date, and carries the recent count. |
| `Contacts.FetchWithStrength` | social/views.py:103-119 | Every contact in the list ends up annotated and scored. Only the two annotations and the strength are written; no stored field (touchpoints, cached date, cadence, update time) changes. |
| `AccessGate.StartsWithAny` | core/middleware.py:22-29 | True iff the path starts with one of the prefixes. |
| `AccessGate.NewMiddleware` | core/middleware.py:13-17 | At start-up the login and logout URLs are exempt, and no other path is. |
| `AccessGate.LoginRedirect` | core/middleware.py:35 | The redirect location starts with the login URL, followed by `?next=` and the path verbatim. |
| `AccessGate.Call` | core/middleware.py:19-40 | A path under an open prefix or an exempt path passes. An authenticated superuser passes. A redirect happens only for an anonymous user, to `login?next=path`. A refusal happens only for an authenticated non-superuser, with the message "Superuser required.". |
| `AccessGate.DecisionTable` | core/middleware.py:19-40 | Every request gets exactly one outcome. Pass iff the path is exempt (by open prefix or exact match) or the user is an authenticated superuser. Redirect to `login?next=path` iff the path is not exempt and the user is unauthenticated. Forbidden "Superuser required." iff the path is not exempt and the user is authenticated but not a superuser. |
| `AccessGate.OpenPrefixPasses` | core/middleware.py:22-30 | Any path under an open prefix passes, whatever the user. |
| `AccessGate.AdminLoginLookalikePasses` | core/middleware.py:27 | `/admin/loginX` passes unauthenticated, because the test is a prefix test. |
| `AccessGate.LoginAndLogoutPass` | core/middleware.py:31-32 | The login and logout URLs pass, whatever the user. |
| `AccessGate.ExemptionIsExact` | core/middleware.py:31-38 | A path that is not exactly the login or logout URL, and is under no open prefix, is redirected for an anonymous user and forbidden for a non-superuser. |
| `AccessGate.SuperuserPasses` | core/middleware.py:34-40 | An authenticated superuser always passes. |
| `AccessGate.RedirectKeepsPath` | core/middleware.py:35 | The text after `login?next=` in a redirect is exactly the requested path. |
| `Tasks.ParseStatus` | tasks/models.py:57-62 | Each of the five codes maps to the status whose code it is. Any other string maps to none. |
| `Tasks.StatusCodeRoundTrip` | tasks/models.py:57-62 | Parsing a status's code gives back that status. |
| `Tasks.Priority.Value` | tasks/models.py:64-68 | A priority is stored as an integer from 1 to 4. |
| `Tasks.PriorityOf` | tasks/models.py:64-68 | Exactly the integers 1 to 4 are priorities, each with that stored value. |
| `Tasks.PriorityRoundTrip` | tasks/models.py:64-68 | Reading back a priority's stored value gives that priority. |
| `Tasks.PriorityValueInjective` | tasks/models.py:64-68 | Distinct priorities have distinct stored values. |
| `Tasks.Task.constructor` | tasks/models.py:75-173 | A new task is TODO, priority NORMAL (2), energy MEDIUM and order 0. Its optional fields are empty, so it is active, not a subtask and not a routine task. |
| `Tasks.Task.Cancel` | tasks/models.py:189-191 | The status becomes CANCELLED and the update time is set. Nothing else is written. The task is then inactive, but still overdue iff it has a due time before the given time. It stays a subtask or routine task as before. |
| `Tasks.Task.MarkDone` | tasks/models.py:193-196 | The status becomes DONE, the completion time is set to now (overwriting any earlier one) and the update time is set. Nothing else is written. The task is then inactive and never overdue. |
| `Tasks.Task.IsActive` | tasks/models.py:206-208 | A task is active iff its status code is neither `done` nor `cancelled`. |
| `Tasks.Task.IsOverdue` | tasks/models.py:210-216 | A task is overdue iff its status code is not `done` and it has a due time before the given time. |
| `Tasks.Task.IsSubtask` | tasks/models.py:198-200 | A task is a subtask iff it has a parent. |
| `Tasks.Task.IsRoutineTask` | tasks/models.py:185-187 | A task is a routine task iff it records a routine. |
| `Tasks.OverdueStaysOverdue` | tasks/models.py:210-216 | An overdue task stays overdue at every later time. |
| `Tasks.ActiveIffOpen` | tasks/models.py:206-208 | A task is active iff its status is TODO, IN_PROGRESS or BLOCKED. |
| `Tasks.OverdueIgnoresCancellation` | tasks/models.py:210-216 | A cancelled task past its due time is overdue, though inactive. Only DONE excludes overdue. |

## Left out

- The database queries are not modelled as queries. That covers the annotate/Count/Max query, `prefetch_related`, `order_by("name")`, `get_object_or_404`, `.save()`, the aggregate fallback and the `Meta.ordering` tuple. Stored touchpoint dates are a field of `Contact`, and the queries' aggregates are the functions `MaxDate` and `CountRecent`. The model does not order the contact list by name.
- `has_subtasks` (tasks/models.py:202-204) is a database existence query over related rows.
- The view functions `contacts_dashboard`, `contact_detail` and `create_touchpoint` are left out: template rendering, htmx branching, HTTP status codes and forms. Only their slug choice and touchpoint recording are modelled. `task_inbox` is a filter-and-sort query.
- The kanban board move and reordering are not modelled. tasks/urls.py:5-7 routes to `task_board`, `board_fragment` and `move_task`; tasks/views.py does not define them, so they are not part of this model.
- Admin registrations, URL tables, email sending (core/services.py) and the field-only models (journal, core) have no behaviour to verify.
- `Strength.FreshnessPenalty`: floating point is idealised as exact rationals. `int((d / t) * 60)` is modelled as `60 * d` divided by `t`, truncated toward zero. A rare rounding difference of the float product is not modelled. The band tests `t * 0.5` and `t * 1.5` are exact for the integer inputs involved.
- `Tasks.Task.IsOverdue`: the source compares a date field with a timestamp, which raises `TypeError` in Python. The model compares both on one abstract time axis and does not model the exception.
- The `next_due_in` field is declared optional in the source record but is always set by `_compute_strength`, so it is a plain integer here.
- `AccessGate.Call`: handing the request on to the next handler (`get_response`) is the outcome `Pass`. The response it produces is not modelled. The `Redirect` location is the string passed to `redirect()`; the framework's percent-encoding of the path in the `Location` header is not modelled. `reverse("login")` and `reverse("logout")` are parameters.
- Timestamps written by the framework (`updated_at` on save) take the `now` parameter.
