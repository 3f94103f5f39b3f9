/**
 * The card-status row builder of the konnektor watchdog: every SMC-B card the
 * device lists becomes one row tagged with holder, card handle and telematik
 * id, valued by whether the card reports its PIN as verified.
 */
module KonnektorGauges {
  import opened Wrappers
  import opened Cards
  import Configuration
  import UserAgents

  const DefaultTitle := "konnektor-watchdog"
  const DefaultVersion := "0.0.1"

  /**
   * `checkCard`: the row for one card. A `KonnektorException` from the PIN check yields 0.0; a row
   * factory that throws still yields a row with the same tags, valued 0.0.
   */
  function CheckCard(p: Probe): (r: Row)
    ensures r.tags.Keys == {HolderTag, CardHandleTag, TelematikIdTag}
    ensures r.tags[HolderTag] == p.card.holderName
    ensures r.tags[CardHandleTag] == p.card.handle
    ensures r.tags[TelematikIdTag] == p.card.telematikId
    ensures IsGaugeValue(r.value)
    ensures r.value == 1.0 <==> p.pin == Verified && !p.rowFactoryThrows
  {
    var tags := map[HolderTag := p.card.holderName, CardHandleTag := p.card.handle, TelematikIdTag := p.card.telematikId];
    if p.rowFactoryThrows then Row(tags, 0.0) else Row(tags, PinValue(p.pin))
  }

  /** `iterator()`: the rows of one poll; a failed poll gives no rows. */
  function CardRows(poll: Poll): (r: seq<Row>)
    ensures poll.PollFailed? ==> r == []
    ensures poll.Listed? ==> |r| == |poll.probes|
    ensures poll.Listed? ==> forall k :: 0 <= k < |r| ==> r[k] == CheckCard(poll.probes[k])
  {
    match poll
    case PollFailed => []
    case Listed(probes) => MapRows(CheckCard, probes)
  }

  /** No row value is ever anything but 0.0 or 1.0. */
  lemma RowValuesAreGaugeValues(poll: Poll)
    ensures forall row :: row in CardRows(poll) ==> IsGaugeValue(row.value)
  {
  }

  /** A row reads 1.0 exactly when its card's PIN is verified and its row was built. */
  lemma RowValueIff(probes: seq<Probe>, k: nat)
    requires k < |probes|
    ensures CardRows(Listed(probes))[k].value == 1.0 <==> probes[k].pin == Verified && !probes[k].rowFactoryThrows
    ensures CardRows(Listed(probes))[k].value == 0.0 <==> probes[k].pin != Verified || probes[k].rowFactoryThrows
  {
  }

  /** A card whose check fails changes its own row only; the other rows are untouched. */
  lemma FailureStaysLocal(probes: seq<Probe>, k: nat, p: Probe)
    requires k < |probes|
    ensures CardRows(Listed(probes[k := p])) == CardRows(Listed(probes))[k := CheckCard(p)]
  {
  }

  /** `userAgent()` with the package's implementation title and version, where the manifest has them. */
  function UserAgent(title: Option<string>, version: Option<string>): (ua: string)
    requires title.Some? ==> UserAgents.IsAscii(title.value)
    ensures var t, v := title.GetOr(DefaultTitle), version.GetOr(DefaultVersion);
      && |ua| == |t| + 1 + |v|
      && ua[..|t|] == UserAgents.Sanitise(t) && ua[|t|] == '/' && ua[|t| + 1..] == v
      && UserAgents.IsAgent(ua[..|t|])
  {
    UserAgents.Build(DefaultTitle, DefaultVersion, title, version)
  }

  lemma DefaultUserAgent()
    ensures UserAgent(None, None) == "KONNEKTOR_WATCHDOG/0.0.1"
  {
    var agent := UserAgents.Sanitise(DefaultTitle);
    assert UserAgent(None, None)[..18] == agent;
    assert agent == "KONNEKTOR_WATCHDOG";
  }

  /**
   * `buildService`: the identifiers from the configuration. The user agent is
   * computed (and logged) but not handed to the builder.
   */
  function BuildService<K>(cfg: Configuration.Config<K>): (s: ServiceSettings)
    ensures s.workplaceId == cfg.workplaceId && s.clientSystemId == cfg.clientSystemId
    ensures s.mandantId == cfg.mandantId && s.userId == cfg.userId
    ensures s.userAgent.None?
  {
    ServiceSettings(cfg.workplaceId, cfg.clientSystemId, cfg.mandantId, cfg.userId, None)
  }
}
