/** The flat key/value payload the reporter builds from stored options and
    site metadata, and the body it posts to WeRePack.org. */
module Payload {
  import opened Values
  import Ratio

  /** A PHP array with string keys, as far as its contents go. */
  type Fields = map<string, Value>

  /** Site metadata read while building the payload. Apart from the order
      count these come from calls whose result is opaque here (`home_url`,
      `get_locale`, the coupon helpers) or straight from the option store. */
  datatype Site = Site(
    homeUrl: string,       // home_url('/')
    locale: string,        // get_locale()
    start: Value,          // get_option('repack_start')
    counter: nat,          // get_option('repack_counter'): consents given so far
    orders: nat,           // orders found since the day before the start date
    couponExists: Value,   // Repack_Public::repack_coupon_exists()
    couponCode: Value      // Repack_Public::get_repack_coupon_name()
  )

  const ActionKey := "action"
  const ActionValue := "repack-stats"
  const LastSentKey := "repackLastSent"

  /** The keys `get_data` fills in by default. */
  const DataKeys: set<string> := {
    "siteURL", "siteLang", "repackStart", "repackCounter",
    "repackRatio", "repackCoupon", "repackCouponCode", LastSentKey
  }

  /** A body that carries the `action=repack-stats` marker. */
  predicate IsStatsBody(p: Fields)
  {
    ActionKey in p && p[ActionKey] == VStr(ActionValue)
  }

  /** PHP `array_merge` on string-keyed arrays: every key of either array,
      and where both have a key the later array's value wins. */
  function ArrayMerge(first: Fields, second: Fields): (r: Fields)
    ensures r.Keys == first.Keys + second.Keys
    ensures forall k :: k in second ==> r[k] == second[k]
    ensures forall k :: k in first && k !in second ==> r[k] == first[k]
  {
    first + second
  }

  /** `wp_parse_args`: the caller's arguments merged over the defaults. */
  function ParseArgs(args: Fields, defaults: Fields): (r: Fields)
    ensures r.Keys == args.Keys + defaults.Keys
    ensures forall k :: k in args ==> r[k] == args[k]
    ensures forall k :: k in defaults && k !in args ==> r[k] == defaults[k]
  {
    ArrayMerge(defaults, args)
  }

  /** The defaults of `get_data`: stored options and site metadata, with the
      ratio computed from the consent counter and the order count, and the
      stored last-sent time (`false` when nothing was ever sent). */
  function Defaults(site: Site, lastSent: Option<int>): (d: Fields)
    ensures d.Keys == DataKeys
    ensures d["repackCounter"] == VInt(site.counter)
    ensures d["repackRatio"] == Ratio.GetRepackRatio(site.counter, site.orders)
    ensures d[LastSentKey] == StoredTime(lastSent)
  {
    map[
      "siteURL" := VStr(site.homeUrl),
      "siteLang" := VStr(site.locale),
      "repackStart" := site.start,
      "repackCounter" := VInt(site.counter),
      "repackRatio" := Ratio.GetRepackRatio(site.counter, site.orders),
      "repackCoupon" := site.couponExists,
      "repackCouponCode" := site.couponCode,
      LastSentKey := StoredTime(lastSent)
    ]
  }

  /** `get_data($data)`: the payload with the given overrides. */
  function GetData(overrides: Fields, site: Site, lastSent: Option<int>): (r: Fields)
    ensures r.Keys == overrides.Keys + DataKeys
    ensures forall k :: k in overrides ==> r[k] == overrides[k]
    ensures forall k :: k in DataKeys && k !in overrides ==> r[k] == Defaults(site, lastSent)[k]
  {
    ParseArgs(overrides, Defaults(site, lastSent))
  }

  /** The body `send_data` posts at time `now`: the `action` marker merged
      with the payload whose last-sent field is overridden by `now`. */
  function SendBody(site: Site, lastSent: Option<int>, now: int): (body: Fields)
    ensures body.Keys == {ActionKey} + DataKeys
    ensures IsStatsBody(body)
    ensures body[LastSentKey] == VInt(now)
    ensures forall k :: k in DataKeys && k != LastSentKey ==> body[k] == Defaults(site, lastSent)[k]
  {
    ArrayMerge(map[ActionKey := VStr(ActionValue)], GetData(map[LastSentKey := VInt(now)], site, lastSent))
  }

  /** The posted body reports the send time, never the stored last-sent
      time: two stores that differ only there produce the same body. */
  lemma SendBodyIgnoresStoredLastSent(site: Site, a: Option<int>, b: Option<int>, now: int)
    ensures SendBody(site, a, now) == SendBody(site, b, now)
  {
    var ba, bb := SendBody(site, a, now), SendBody(site, b, now);
    assert forall k :: k in ba.Keys ==> ba[k] == bb[k];
  }

  /** Without overrides `get_data` is exactly its defaults; this is the data
      the consent notice offers to show. */
  lemma GetDataWithoutOverrides(site: Site, lastSent: Option<int>)
    ensures GetData(map[], site, lastSent) == Defaults(site, lastSent)
  {
  }

  /** The payload reports the consent counter and the ratio derived from it
      over the same order count. */
  lemma BodyRatioMatchesCounter(site: Site, lastSent: Option<int>, now: int)
    ensures SendBody(site, lastSent, now)["repackCounter"] == VInt(site.counter)
    ensures SendBody(site, lastSent, now)["repackRatio"] == Ratio.GetRepackRatio(site.counter, site.orders)
  {
  }
}
