/** The consent gate and the URL action dispatcher of `Repack_Telemetry`:
    the persisted consent options, the four actions a signed admin URL can
    trigger, and the reporter that sends only with consent. */
module Consent {
  import opened Values
  import opened Payload

  /** The persisted options this component reads and writes. */
  datatype State = State(
    optin: bool,             // repack_telemetry_optin
    dismissed: bool,         // repack_telemetry_consent_dismissed
    scheduled: bool,         // a 'repack_telemetry' single event is pending
    lastSent: Option<int>    // repack_telemetry_sent
  )

  /** The query parameters of a request that reaches `init`; `None` when absent. */
  datatype Query = Query(repackAction: Option<string>, wpnonce: Option<string>)

  /** What the host platform answers during one request: whether the nonce
      verifies, whether scheduling the event succeeds, whether the post
      comes back without a transport error, the clock, and the site data. */
  datatype Env = Env(nonceValid: bool, scheduleOk: bool, transportOk: bool, now: int, site: Site)

  /** The new state and the body handed to the transport, if any. */
  datatype Outcome = Outcome(state: State, post: Option<Fields>)

  /** The actions a signed URL can request. */
  datatype Action = HideNotice | OptIn | Revoke | Sync

  /** The `repack-action` value naming each action. */
  function ActionName(a: Action): string
  {
    match a
    case HideNotice => "hide-notice"
    case OptIn => "telemetry"
    case Revoke => "revoke-telemetry"
    case Sync => "sync"
  }

  /** Recognise an action name; any other value is no action at all. */
  function ParseAction(name: string): (r: Option<Action>)
    ensures r.Some? ==> ActionName(r.value) == name
    ensures r.None? ==> forall a: Action :: ActionName(a) != name
  {
    if name == "hide-notice" then Some(HideNotice)
    else if name == "telemetry" then Some(OptIn)
    else if name == "revoke-telemetry" then Some(Revoke)
    else if name == "sync" then Some(Sync)
    else None
  }

  /** Parsing inverts naming. */
  lemma ParseActionName(a: Action)
    ensures ParseAction(ActionName(a)) == Some(a)
  {
  }

  /** The admin notice asking for consent is shown exactly while the user
      has neither dismissed it nor opted in. */
  predicate NoticeVisible(s: State)
  {
    !s.dismissed && !s.optin
  }

  /** `maybe_send_data`: without consent nothing happens; with consent the
      body is posted, and the send time is stored unless the transport
      reported an error. */
  function MaybeSendData(s: State, env: Env): (r: Outcome)
    ensures !s.optin ==> r == Outcome(s, None)
    ensures s.optin ==> r.post == Some(SendBody(env.site, s.lastSent, env.now))
    ensures s.optin && env.transportOk ==> r.state.lastSent == Some(env.now)
    ensures !env.transportOk ==> r.state.lastSent == s.lastSent
    ensures r.state.optin == s.optin && r.state.dismissed == s.dismissed && r.state.scheduled == s.scheduled
  {
    if !s.optin then Outcome(s, None)
    else
      var body := SendBody(env.site, s.lastSent, env.now);
      if env.transportOk then Outcome(s.(lastSent := Some(env.now)), Some(body))
      else Outcome(s, Some(body))
  }

  /** `run_action` as written: four independent guarded blocks run in turn
      on the same action name, each checking the nonce itself. */
  function RunAction(s: State, q: Query, env: Env): (r: Outcome)
    // Nothing changes without both parameters, a known action and a valid nonce.
    ensures q.repackAction.None? || q.wpnonce.None? || !env.nonceValid ==> r == Outcome(s, None)
    ensures q.repackAction.Some? && ParseAction(q.repackAction.value).None? ==> r == Outcome(s, None)
    // Only `sync` posts, and only with consent.
    ensures r.post.Some? ==> q.repackAction == Some("sync") && s.optin
    // Only `hide-notice` changes `dismissed`, and only to true.
    ensures r.state.dismissed != s.dismissed ==> q.repackAction == Some("hide-notice") && r.state.dismissed
    // Consent is only given by `telemetry` after the event was scheduled.
    ensures !s.optin && r.state.optin ==> q.repackAction == Some("telemetry") && env.scheduleOk && r.state.scheduled
    // The last-sent time only moves to now, after a post that reported no error.
    ensures r.state.lastSent != s.lastSent ==> r.post.Some? && env.transportOk && r.state.lastSent == Some(env.now)
  {
    if q.wpnonce.None? || q.repackAction.None? then Outcome(s, None)
    else
      var name := q.repackAction.value;
      var s1 :=
        if name == "hide-notice" && env.nonceValid then s.(dismissed := true) else s;
      var s2 :=
        if name == "telemetry" && env.nonceValid && env.scheduleOk
        then s1.(scheduled := true).(optin := true) else s1;
      var s3 :=
        if name == "revoke-telemetry" && env.nonceValid
        then s2.(scheduled := false).(optin := false) else s2;
      if name == "sync" && env.nonceValid then MaybeSendData(s3, env) else Outcome(s3, None)
  }

  /** The effect of one verified action. */
  function Apply(a: Action, s: State, env: Env): Outcome
  {
    match a
    case HideNotice => Outcome(s.(dismissed := true), None)
    case OptIn =>
      if env.scheduleOk then Outcome(s.(scheduled := true, optin := true), None)
      else Outcome(s, None)
    case Revoke => Outcome(s.(scheduled := false, optin := false), None)
    case Sync => MaybeSendData(s, env)
  }

  /** The dispatcher as a match over a recognised, verified action. */
  function Dispatch(s: State, q: Query, env: Env): Outcome
  {
    if q.wpnonce.None? || q.repackAction.None? || !env.nonceValid then Outcome(s, None)
    else
      match ParseAction(q.repackAction.value)
      case None => Outcome(s, None)
      case Some(a) => Apply(a, s, env)
  }

  /** The chain of independent `if`s behaves as the single match: at most
      one block fires, because the name equals at most one action name. */
  lemma RunActionIsDispatch(s: State, q: Query, env: Env)
    ensures RunAction(s, q, env) == Dispatch(s, q, env)
  {
  }

  /** A request carrying both parameters, action `a` and a nonce. */
  function Signed(a: Action, nonce: string): Query
  {
    Query(Some(ActionName(a)), Some(nonce))
  }

  /** `hide-notice` with a valid nonce dismisses the notice and touches
      nothing else. */
  lemma HideNoticeEffect(s: State, nonce: string, env: Env)
    requires env.nonceValid
    ensures RunAction(s, Signed(HideNotice, nonce), env) == Outcome(s.(dismissed := true), None)
    ensures !NoticeVisible(RunAction(s, Signed(HideNotice, nonce), env).state)
  {
  }

  /** `telemetry` with a valid nonce: on successful scheduling an event is
      pending and consent is recorded; on failure nothing changes. The
      dismissal flag is never touched and nothing is posted. */
  lemma OptInEffect(s: State, nonce: string, env: Env)
    requires env.nonceValid
    ensures var r := RunAction(s, Signed(OptIn, nonce), env);
      && r.post.None?
      && r.state.dismissed == s.dismissed
      && r.state.lastSent == s.lastSent
      && (env.scheduleOk ==> r.state.optin && r.state.scheduled)
      && (!env.scheduleOk ==> r.state == s)
  {
  }

  /** `revoke-telemetry` with a valid nonce withdraws consent and clears the
      pending event, keeps the dismissal flag and last-sent time, and is
      idempotent. */
  lemma RevokeEffect(s: State, nonce: string, env: Env)
    requires env.nonceValid
    ensures var r := RunAction(s, Signed(Revoke, nonce), env);
      && r.post.None?
      && !r.state.optin && !r.state.scheduled
      && r.state.dismissed == s.dismissed && r.state.lastSent == s.lastSent
      && RunAction(r.state, Signed(Revoke, nonce), env) == r
  {
  }

  /** After revoking, the consent notice is back unless it was dismissed. */
  lemma RevokeRestoresNotice(s: State, nonce: string, env: Env)
    requires env.nonceValid
    ensures NoticeVisible(RunAction(s, Signed(Revoke, nonce), env).state) == !s.dismissed
  {
  }

  /** `sync` with a valid nonce is exactly `maybe_send_data`, so it is still
      gated on consent. */
  lemma SyncIsMaybeSend(s: State, nonce: string, env: Env)
    requires env.nonceValid
    ensures RunAction(s, Signed(Sync, nonce), env) == MaybeSendData(s, env)
  {
  }
}
