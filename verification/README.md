# Repack telemetry: consent gate, dispatcher and reporter

This project models `Repack_Telemetry`, the opt-in telemetry reporter of the
RePack for WooCommerce plugin. The plugin keeps a few options in the
WordPress option store. It shows an admin notice asking for consent. It
handles four signed URL actions: `hide-notice`, `telemetry` (opt in),
`revoke-telemetry` and `sync`. With consent, it posts a flat payload to
WeRePack.org. The payload holds the site URL, the locale, the start date,
the consent counter, the consent ratio, the coupon details and the last
send time.

Modules:

- `Values`: `Option`, and `Value`, the scalars that appear in the payload.
  `VBool(false)` is what `get_option` answers for an option never written.
- `Ratio`: `get_repack_ratio`. This is PHP `round(consents * 100 / orders)`
  done in exact integer arithmetic as `(2n + d) / (2d)`. It also models the
  line-207 return: the string `'0'`, or the positive number itself.
- `Payload`: `wp_parse_args`, `array_merge`, `get_data` and the body built
  by `send_data`. Payloads are `Fields`, a `map<string, Value>`.
- `Consent`: the persisted state (`optin`, `dismissed`, a pending single
  event, `lastSent`). Also `maybe_send_data` and `run_action`. `run_action`
  is written as the source's four independent guarded blocks. It is proved
  equal to a match over a parsed action (`Dispatch`).
- `Telemetry`: the component as WordPress drives it. The `repack_telemetry`
  filter becomes an `enabled` flag. Events are requests that reach `init`
  (front end, admin, AJAX, REST or cron alike; the nonce is the only guard), notice
  rendering and the firing of the scheduled event. `Run` replays a
  sequence of events, and lemmas about such traces follow.

Platform effects are inputs of each step (`Env`): whether the nonce
verifies, whether `wp_schedule_single_event` succeeds, whether
`wp_remote_post` returns an error, the clock, and the site data.

Three behaviours of the code are easy to misread, and the model follows the
code in each:

- Opting in schedules a single event (`wp_schedule_single_event`, line
  236), not a recurring job. WP-Cron unschedules a single event before its
  callback runs. So the invariant "opted in implies a job is scheduled"
  holds across requests (`RequestsKeepOptInScheduled`). The event's firing
  breaks it (`CronFireEndsSchedule`). Without further requests, at most one
  body is ever posted after an opt-in (`SingleEventSendsOnce`).
- `sync` runs `maybe_send_data`, so it still needs consent (lines 258 and
  66). It does not force a send.
- A positive ratio comes back as a number, not a string. The `(string)`
  cast on line 207 applies only inside the comparison.

## Model

| member | source | states |
|---|---|---|
| Values.StoredTime | admin/partials/class-repack-telemetry.php:173 | false exactly when no time is stored; otherwise the stored integer |
| Ratio.RoundDiv | admin/partials/class-repack-telemetry.php:205 | the result is within half of n/d, and halves round up (PHP `round` on a non-negative quotient) |
| Ratio.RepackRatio | admin/partials/class-repack-telemetry.php:201-205 | 0 when there are no consents or no orders; otherwise the nearest integer to consents*100/orders, halves up |
| Ratio.GetRepackRatio | admin/partials/class-repack-telemetry.php:201-207 | the result is the string '0' or a positive number; the number equals the rounded ratio; '0' exactly when the ratio is 0 |
| Ratio.RatioUnique | admin/partials/class-repack-telemetry.php:205 | the rounded percentage is the only integer nearest to consents*100/orders with halves up |
| Ratio.RatioAtMostHundred | admin/partials/class-repack-telemetry.php:201-205 | with no more consents than orders the ratio is at most 100 |
| Ratio.RatioMonotone | admin/partials/class-repack-telemetry.php:205 | more consents over the same orders never lower the ratio |
| Ratio.RatioExamples | admin/partials/class-repack-telemetry.php:201-207 | (5,0) gives '0'; (10,40) gives 25; (0,100) gives '0'; (1,8) gives 13, a half rounded up; (1,1000) gives '0' |
| Payload.ArrayMerge | admin/partials/class-repack-telemetry.php:90-99 | the keys of both arrays; the later array wins on a shared key; other keys keep the earlier value |
| Payload.ParseArgs | admin/partials/class-repack-telemetry.php:163-175 | arguments are merged over defaults; an argument wins over the default for the same key |
| Payload.Defaults | admin/partials/class-repack-telemetry.php:165-174 | exactly the eight default keys; the counter field is the stored consent counter; the ratio comes from the counter and the order count; the last-sent field is the stored time, or false if none |
| Payload.GetData | admin/partials/class-repack-telemetry.php:161-176 | every override key maps to its override; every other default key maps to its default; no other keys |
| Payload.SendBody | admin/partials/class-repack-telemetry.php:83-101 | the body has `action` plus the eight data keys; `action` is `repack-stats`; `repackLastSent` is the send time; other fields are the defaults |
| Payload.SendBodyIgnoresStoredLastSent | admin/partials/class-repack-telemetry.php:94-98 | the posted body does not depend on the stored last-sent time |
| Payload.GetDataWithoutOverrides | admin/partials/class-repack-telemetry.php:119 | `get_data()` without overrides is exactly the defaults, including the stored last-sent time |
| Payload.BodyRatioMatchesCounter | admin/partials/class-repack-telemetry.php:169-170 | the body reports the counter and the ratio computed from that same counter |
| Consent.ParseAction | admin/partials/class-repack-telemetry.php:223-255 | a recognised name is the name of the action returned; an unrecognised name matches no action |
| Consent.ParseActionName | admin/partials/class-repack-telemetry.php:223-255 | parsing an action's name gives back that action |
| Consent.MaybeSendData | admin/partials/class-repack-telemetry.php:64-74 | without opt-in, no post and no state change; with opt-in the send body is posted; lastSent becomes now when the transport reports no error and is unchanged otherwise; the other flags are untouched |
| Consent.RunAction | admin/partials/class-repack-telemetry.php:217-262 | no change when a parameter is missing, the nonce fails or the action is unknown; only sync posts, and only with opt-in; only hide-notice changes dismissed; opt-in happens only through telemetry after successful scheduling; lastSent moves only to now after an error-free post |
| Consent.RunActionIsDispatch | admin/partials/class-repack-telemetry.php:220-261 | the chain of four independent blocks equals a single match over the parsed, verified action |
| Consent.HideNoticeEffect | admin/partials/class-repack-telemetry.php:223-228 | a verified hide-notice sets dismissed, changes nothing else, posts nothing, and hides the notice |
| Consent.OptInEffect | admin/partials/class-repack-telemetry.php:232-240 | a verified telemetry action: if scheduling succeeds, an event is pending and opt-in is set; if it fails, the state is unchanged; dismissed and lastSent are never touched |
| Consent.RevokeEffect | admin/partials/class-repack-telemetry.php:244-251 | a verified revoke clears opt-in and the pending event, keeps dismissed and lastSent, and is idempotent |
| Consent.RevokeRestoresNotice | admin/partials/class-repack-telemetry.php:244-251 | after a revoke the notice is visible exactly when it was not dismissed |
| Consent.SyncIsMaybeSend | admin/partials/class-repack-telemetry.php:255-259 | a verified sync has exactly the effect of `maybe_send_data` |
| Telemetry.Handle | admin/partials/class-repack-telemetry.php:32-55 | when enabled, a request runs `run_action` and a firing of the pending event consumes it and runs `maybe_send_data`; a firing with nothing pending does nothing; when disabled, requests and notices change nothing and a firing only consumes the pending event, with no post; rendering never changes state; every post happens with opt-in and carries the stats marker |
| Telemetry.NoticeData | admin/partials/class-repack-telemetry.php:111-119 | the notice renders iff telemetry is enabled and the user has neither dismissed it nor opted in; it shows the default payload |
| Telemetry.Run | admin/partials/class-repack-telemetry.php:50-55 | a trace posts at most one body per event; every posted body carries the stats marker; a disabled component never posts |
| Telemetry.OptInThenFireSends | admin/partials/class-repack-telemetry.php:232-238 | a verified opt-in with successful scheduling, then the event firing, posts the body built at the firing exactly once; with no transport error the firing time is stored |
| Telemetry.NoConsentNoPost | admin/partials/class-repack-telemetry.php:64-68 | starting without consent, nothing is ever posted and consent stays off until a verified, successfully scheduled opt-in |
| Telemetry.RevokeSilences | admin/partials/class-repack-telemetry.php:244-251 | after a verified revoke, nothing is posted until consent is granted again |
| Telemetry.SingleEventSendsOnce | admin/partials/class-repack-telemetry.php:236 | with only cron firings, at most one body is posted, and only if an event was pending; afterwards none is pending |
| Telemetry.RequestsKeepOptInScheduled | admin/partials/class-repack-telemetry.php:236-238 | requests and notices keep the property "opted in implies an event is pending" |
| Telemetry.CronFireEndsSchedule | admin/partials/class-repack-telemetry.php:236 | firing the pending event leaves opt-in on with no event pending |

## Left out

- Hook registration is not modelled as such. `__construct` (lines 32-41) only registers hooks, which appears as the `enabled` flag. `init` (lines 50-55) runs `run_action`, which is the `Request` event of `Telemetry.Handle`, and registers `maybe_send_data` on the scheduled event, which is the `CronFire` event.
- Line 38 registers a `field_init` callback on `repack_field_init`, but the class defines no `field_init` method. If that action ever fires, the callback cannot be called. The model has no counterpart for it.
- The notice's HTML, JavaScript and template rendering are UI. Only the visibility gate and the data it is given are modelled.
- `wp_remote_post` is network I/O. It is the `transportOk` input. The body's key order and form encoding are not modelled.
- `WP_Query` order counting and the start-date window (`strtotime('-1 day', …)`, `wp_date`) are database and date-library calls. The order count is a `nat` in `Site`.
- `wp_verify_nonce`, `sanitize_text_field` and `wp_unslash` are not modelled. The nonce check is the `nonceValid` input, and the action string is taken as already clean.
- `home_url`, `get_locale` and the coupon helpers of `Repack_Public` are foreign calls. Their results are opaque values in `Site`.
- `Consent.MaybeSendData`: the two `time()` calls (lines 72 and 96) are one `now`. In the source they may read different seconds.
- `Ratio.GetRepackRatio`: PHP loose typing of `get_option` values is not modelled. The counter is a `nat`, so the strict `$consents === 0` test against a string-typed option is not represented. Concretely, includes/class-repack-activator.php stores an empty string as the counter; with at least one order, line 205 then computes `'' * 100`, which is a TypeError on PHP 8 and 0 with a warning on PHP 7. The model has no such error path. Float `round` is modelled by exact integer rounding.
- `Telemetry.Handle`: the scheduled state is a single flag. Several pending copies of the event collapse to "one pending". On revoke this is exact, since `wp_clear_scheduled_hook` clears them all. On opt-in, WordPress core's duplicate guard in `wp_schedule_single_event` (since 5.1) refuses an identical event due within ten minutes; with the one-minute offset of line 236 a second copy is refused while one is pending, which the model sees as `scheduleOk` being false.
- includes/class-repack-activator.php only adds the `repack_counter` option. It has nothing to verify.
