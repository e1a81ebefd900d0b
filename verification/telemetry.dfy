/** The component as the host platform drives it: the `repack_telemetry`
    filter switches it on or off, any request that reaches `init` runs the
    action dispatcher, admin pages render the notice, and WP-Cron fires the pending event. */
module Telemetry {
  import opened Values
  import opened Payload
  import opened Consent

  /** What the host platform does to the component. */
  datatype Event =
    | Request(query: Query)   // any request reaching `init`, which runs `run_action`
    | RenderNotice            // the `admin_notices` hook
    | CronFire                // WP-Cron runs the pending 'repack_telemetry' event

  /** One event with the platform's answers during it. */
  datatype Tick = Tick(event: Event, env: Env)

  /** One event. When the filter disables telemetry no hook is registered:
      requests and notices do nothing, and a pending event that fires is
      consumed with no callback to run. A fired single event is unscheduled
      before its callback runs. Rendering the notice never writes state. */
  function Handle(enabled: bool, s: State, t: Tick): (r: Outcome)
    ensures !enabled ==> r.post.None? && r.state.optin == s.optin && r.state.dismissed == s.dismissed
    ensures !enabled ==> r.state.lastSent == s.lastSent
    // Disabled, nothing of the component runs: only a firing consumes the event.
    ensures !enabled && !t.event.CronFire? ==> r == Outcome(s, None)
    ensures !enabled && t.event.CronFire? ==> r == Outcome(s.(scheduled := false), None)
    ensures t.event.RenderNotice? ==> r == Outcome(s, None)
    ensures r.post.Some? ==> enabled && s.optin && IsStatsBody(r.post.value)
    ensures r.state.scheduled && !s.scheduled ==> t.event.Request? && r.state.optin
    // When enabled, a request runs the action dispatcher and a firing of the
    // pending event runs the reporter once the event is consumed.
    ensures enabled && t.event.Request? ==> r == RunAction(s, t.event.query, t.env)
    ensures t.event.CronFire? && s.scheduled && enabled ==> r == MaybeSendData(s.(scheduled := false), t.env)
    ensures t.event.CronFire? && !s.scheduled ==> r == Outcome(s, None)
  {
    match t.event
    case Request(q) => if enabled then RunAction(s, q, t.env) else Outcome(s, None)
    case RenderNotice => Outcome(s, None)
    case CronFire =>
      if !s.scheduled then Outcome(s, None)
      else
        var s' := s.(scheduled := false);
        if enabled then MaybeSendData(s', t.env) else Outcome(s', None)
  }

  /** The data the consent notice renders, when it is rendered at all. */
  function NoticeData(enabled: bool, s: State, site: Site): (r: Option<Fields>)
    ensures r.Some? <==> enabled && !s.dismissed && !s.optin
    ensures r.Some? ==> r.value == Defaults(site, s.lastSent)
  {
    if enabled && NoticeVisible(s) then Some(GetData(map[], site, s.lastSent)) else None
  }

  /** The final state after a sequence of events, and every body posted on
      the way, in order. */
  datatype Trace = Trace(state: State, posts: seq<Fields>)

  function Run(enabled: bool, s: State, ticks: seq<Tick>): (r: Trace)
    ensures |r.posts| <= |ticks|
    ensures forall i :: 0 <= i < |r.posts| ==> IsStatsBody(r.posts[i])
    ensures !enabled ==> r.posts == [] && r.state.optin == s.optin && r.state.dismissed == s.dismissed
    decreases |ticks|
  {
    if |ticks| == 0 then Trace(s, [])
    else
      var o := Handle(enabled, s, ticks[0]);
      var rest := Run(enabled, o.state, ticks[1..]);
      match o.post
      case None => rest
      case Some(body) => Trace(rest.state, [body] + rest.posts)
  }

  /** The tick through which consent is given: a signed `telemetry` request
      whose nonce verifies and whose event could be scheduled. */
  predicate GrantsConsent(t: Tick)
  {
    && t.event.Request?
    && t.event.query.repackAction == Some(ActionName(OptIn))
    && t.event.query.wpnonce.Some?
    && t.env.nonceValid
    && t.env.scheduleOk
  }

  /** No consent, no data: from a state without consent, as long as no
      event grants it, nothing is ever posted and consent stays off. */
  lemma {:induction false} NoConsentNoPost(enabled: bool, s: State, ticks: seq<Tick>)
    requires !s.optin
    requires forall i :: 0 <= i < |ticks| ==> !GrantsConsent(ticks[i])
    ensures Run(enabled, s, ticks).posts == []
    ensures !Run(enabled, s, ticks).state.optin
    decreases |ticks|
  {
    if |ticks| > 0 {
      var o := Handle(enabled, s, ticks[0]);
      assert !GrantsConsent(ticks[0]);
      assert o.post.None? && !o.state.optin;
      assert forall i :: 0 <= i < |ticks[1..]| ==> !GrantsConsent(ticks[1..][i]) by {
        forall i | 0 <= i < |ticks[1..]|
          ensures !GrantsConsent(ticks[1..][i])
        {
          assert ticks[1..][i] == ticks[i + 1];
        }
      }
      NoConsentNoPost(enabled, o.state, ticks[1..]);
    }
  }

  /** A verified revoke silences telemetry until consent is granted again. */
  lemma RevokeSilences(enabled: bool, s: State, nonce: string, env: Env, ticks: seq<Tick>)
    requires env.nonceValid
    requires forall i :: 0 <= i < |ticks| ==> !GrantsConsent(ticks[i])
    ensures Run(enabled, s, [Tick(Request(Signed(Revoke, nonce)), env)] + ticks).posts == []
  {
    var first := Tick(Request(Signed(Revoke, nonce)), env);
    var all := [first] + ticks;
    var o := Handle(enabled, s, first);
    assert all[1..] == ticks;
    if enabled {
      RevokeEffect(s, nonce, env);
      NoConsentNoPost(enabled, o.state, ticks);
    }
  }

  /** Opting in schedules a single event, not a recurring one: with only
      cron firings and no requests, at most one body is ever posted. */
  lemma {:induction false} SingleEventSendsOnce(enabled: bool, s: State, ticks: seq<Tick>)
    requires forall i :: 0 <= i < |ticks| ==> ticks[i].event.CronFire?
    ensures |Run(enabled, s, ticks).posts| <= (if s.scheduled then 1 else 0)
    ensures !Run(enabled, s, ticks).state.scheduled || (s.scheduled && ticks == [])
    decreases |ticks|
  {
    if |ticks| > 0 {
      var o := Handle(enabled, s, ticks[0]);
      assert !o.state.scheduled;
      assert o.post.Some? ==> s.scheduled;
      assert forall i :: 0 <= i < |ticks[1..]| ==> ticks[1..][i].event.CronFire? by {
        forall i | 0 <= i < |ticks[1..]|
          ensures ticks[1..][i].event.CronFire?
        {
          assert ticks[1..][i] == ticks[i + 1];
        }
      }
      SingleEventSendsOnce(enabled, o.state, ticks[1..]);
    }
  }

  /** Opting in and then letting the pending event fire posts the body
      built at the firing, once. */
  lemma OptInThenFireSends(s: State, nonce: string, e1: Env, e2: Env)
    requires e1.nonceValid && e1.scheduleOk
    ensures Run(true, s, [Tick(Request(Signed(OptIn, nonce)), e1), Tick(CronFire, e2)]).posts
      == [SendBody(e2.site, s.lastSent, e2.now)]
    ensures e2.transportOk ==>
      Run(true, s, [Tick(Request(Signed(OptIn, nonce)), e1), Tick(CronFire, e2)]).state.lastSent == Some(e2.now)
  {
    var ticks := [Tick(Request(Signed(OptIn, nonce)), e1), Tick(CronFire, e2)];
    OptInEffect(s, nonce, e1);
    var s1 := Handle(true, s, ticks[0]).state;
    assert s1.optin && s1.scheduled && s1.lastSent == s.lastSent;
    var o2 := Handle(true, s1, ticks[1]);
    assert o2 == MaybeSendData(s1.(scheduled := false), e2);
    assert ticks[1..] == [Tick(CronFire, e2)];
    assert ticks[1..][1..] == [];
    assert Run(true, s1, ticks[1..]) == Trace(o2.state, [SendBody(e2.site, s.lastSent, e2.now)]);
  }

  /** Consent comes with a pending event: every request and notice keeps
      `optin ==> scheduled`. */
  predicate OptInScheduled(s: State)
  {
    s.optin ==> s.scheduled
  }

  lemma RequestsKeepOptInScheduled(enabled: bool, s: State, t: Tick)
    requires OptInScheduled(s)
    requires !t.event.CronFire?
    ensures OptInScheduled(Handle(enabled, s, t).state)
  {
  }

  /** The firing of the single event breaks it: consent stays on while no
      event is pending any more. */
  lemma CronFireEndsSchedule(enabled: bool, s: State, env: Env)
    requires s.optin && s.scheduled
    ensures var r := Handle(enabled, s, Tick(CronFire, env));
      r.state.optin && !OptInScheduled(r.state)
  {
  }
}
