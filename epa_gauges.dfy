/**
 * The card-status row builder of the ePA watchdog: of all the cards the
 * device lists, only SMC-B cards become rows, tagged with holder and card
 * handle and valued by the PIN status the service reports for the handle.
 */
module EpaGauges {
  import opened Wrappers
  import opened Cards
  import Configuration
  import UserAgents

  const DefaultTitle := "epa-fm-watchdog"
  const DefaultVersion := "0.0.1"

  predicate IsSmcb(p: Probe) {
    p.card.cardType == SmcB
  }

  /**
   * `checkCard`: the row for one card. Any PIN status but VERIFIED, and a
   * `KonnektorException` from the PIN query, yield 0.0; a row factory that
   * throws still yields a row with the same tags, valued 0.0.
   */
  function CheckCard(p: Probe): (r: Row)
    ensures r.tags.Keys == {HolderTag, CardHandleTag}
    ensures r.tags[HolderTag] == p.card.holderName
    ensures r.tags[CardHandleTag] == p.card.handle
    ensures TelematikIdTag !in r.tags
    ensures IsGaugeValue(r.value)
    ensures r.value == 1.0 <==> p.pin == Verified && !p.rowFactoryThrows
  {
    var tags := map[HolderTag := p.card.holderName, CardHandleTag := p.card.handle];
    if p.rowFactoryThrows then Row(tags, 0.0) else Row(tags, PinValue(p.pin))
  }

  /** The stream `filter` on the card type. */
  function SmcbOnly(probes: seq<Probe>): (r: seq<Probe>)
    ensures |r| <= |probes|
    ensures forall p :: p in r ==> p in probes && IsSmcb(p)
    ensures forall p :: p in probes && IsSmcb(p) ==> p in r
  {
    if probes == [] then []
    else if IsSmcb(probes[0]) then [probes[0]] + SmcbOnly(probes[1..])
    else SmcbOnly(probes[1..])
  }

  /** `iterator()`: the rows of one poll; a failed poll gives no rows. */
  function CardRows(poll: Poll): (r: seq<Row>)
    ensures poll.PollFailed? ==> r == []
    ensures poll.Listed? ==> |r| == |SmcbOnly(poll.probes)|
    ensures poll.Listed? ==> forall k :: 0 <= k < |r| ==> r[k] == CheckCard(SmcbOnly(poll.probes)[k])
  {
    match poll
    case PollFailed => []
    case Listed(probes) => MapRows(CheckCard, SmcbOnly(probes))
  }

  /** Filtering keeps relative order: it distributes over concatenation. */
  lemma {:induction false} SmcbOnlyAppend(a: seq<Probe>, b: seq<Probe>)
    ensures SmcbOnly(a + b) == SmcbOnly(a) + SmcbOnly(b)
  {
    if a == [] {
      assert a + b == b;
    } else {
      assert (a + b)[0] == a[0] && (a + b)[1..] == a[1..] + b;
      SmcbOnlyAppend(a[1..], b);
    }
  }

  /** The card types of a listing, in order. */
  function CardTypes(probes: seq<Probe>): (ts: seq<CardType>)
    ensures |ts| == |probes|
    ensures forall k :: 0 <= k < |probes| ==> ts[k] == probes[k].card.cardType
  {
    seq(|probes|, k requires 0 <= k < |probes| => probes[k].card.cardType)
  }

  /** The filter keeps as many cards as there are SMC-B entries among the card types. */
  lemma {:induction false} SmcbCount(probes: seq<Probe>)
    ensures |SmcbOnly(probes)| == multiset(CardTypes(probes))[SmcB]
  {
    if probes != [] {
      SmcbCount(probes[1..]);
      assert CardTypes(probes) == [probes[0].card.cardType] + CardTypes(probes[1..]);
    }
  }

  /** There is one row per SMC-B card in the listing. */
  lemma RowCountIsSmcbCount(probes: seq<Probe>)
    ensures |CardRows(Listed(probes))| == multiset(CardTypes(probes))[SmcB]
  {
    SmcbCount(probes);
  }

  /** No row value is ever anything but 0.0 or 1.0. */
  lemma RowValuesAreGaugeValues(poll: Poll)
    ensures forall row :: row in CardRows(poll) ==> IsGaugeValue(row.value)
  {
  }

  /** Every SMC-B card of the listing has its row; no card of another type has one. */
  lemma SmcbCardsHaveRows(probes: seq<Probe>, p: Probe)
    ensures p in probes && IsSmcb(p) ==> CheckCard(p) in CardRows(Listed(probes))
    ensures p in SmcbOnly(probes) ==> IsSmcb(p)
  {
  }

  /** `userAgent()` with the package's implementation title and version, where the manifest has them. */
  function UserAgent(title: Option<string>, version: Option<string>): (ua: string)
    requires title.Some? ==> UserAgents.IsAscii(title.value)
    ensures var t, v := title.GetOr(DefaultTitle), version.GetOr(DefaultVersion);
      && |ua| == |t| + 1 + |v|
      && ua[..|t|] == UserAgents.Sanitise(t) && ua[|t|] == '/' && ua[|t| + 1..] == v
      && UserAgents.IsAgent(ua[..|t|])
  {
    UserAgents.Build(DefaultTitle, DefaultVersion, title, version)
  }

  lemma DefaultUserAgent()
    ensures UserAgent(None, None) == "EPA_FM_WATCHDOG/0.0.1"
  {
    var agent := UserAgents.Sanitise(DefaultTitle);
    assert UserAgent(None, None)[..15] == agent;
    assert agent == "EPA_FM_WATCHDOG";
  }

  /** `buildService`: the identifiers from the configuration and the computed user agent. */
  function BuildService<K>(cfg: Configuration.Config<K>, title: Option<string>, version: Option<string>): (s: ServiceSettings)
    requires title.Some? ==> UserAgents.IsAscii(title.value)
    ensures s.workplaceId == cfg.workplaceId && s.clientSystemId == cfg.clientSystemId
    ensures s.mandantId == cfg.mandantId && s.userId == cfg.userId
    ensures s.userAgent == Some(UserAgent(title, version))
  {
    ServiceSettings(cfg.workplaceId, cfg.clientSystemId, cfg.mandantId, cfg.userId, Some(UserAgent(title, version)))
  }
}
