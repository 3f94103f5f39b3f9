/**
 * The data both card-status builders work on: the cards a device lists, what
 * checking one card's PIN yields, and the metric rows built from them.
 */
module Cards {
  import opened Wrappers

  /** The card category the device reports; only SMC-B cards are institution cards. */
  datatype CardType = SmcB | OtherType(name: string)

  /** One card as listed by the device in one poll. */
  datatype Card = Card(holderName: string, handle: string, telematikId: string, cardType: CardType)

  /**
   * The outcome of asking the device for a card's PIN state: verified, any
   * other state, or a `KonnektorException` raised while asking (the only
   * exception the value callback catches).
   */
  datatype PinOutcome = Verified | NotVerified | Failed

  /**
   * A listed card together with what the external collaborators do for it:
   * the PIN outcome, and whether the metrics library's row factory threw.
   */
  datatype Probe = Probe(card: Card, pin: PinOutcome, rowFactoryThrows: bool)

  /**
   * The outcome of one device poll (connect, build the service, list the
   * cards): a device or transport error, or the listed cards in order.
   */
  datatype Poll = PollFailed | Listed(probes: seq<Probe>)

  /** One gauge row: its tag set and its sample value. */
  datatype Row = Row(tags: map<string, string>, value: real)

  const HolderTag := "holder"
  const CardHandleTag := "card_handle"
  const TelematikIdTag := "telematik_id"

  /** The only values a card gauge ever reports. */
  predicate IsGaugeValue(v: real) {
    v == 0.0 || v == 1.0
  }

  /**
   * The value the gauge callback yields: 1.0 for a verified PIN, 0.0 for any
   * other state, and 0.0 when the query throws a `KonnektorException` (which
   * is swallowed).
   */
  function PinValue(pin: PinOutcome): (v: real)
    ensures IsGaugeValue(v)
    ensures v == 1.0 <==> pin == Verified
  {
    match pin
    case Verified => 1.0
    case NotVerified => 0.0
    case Failed => 0.0
  }

  /** The stream `map` of a builder's `checkCard` over the cards it keeps, collected in order. */
  function MapRows(check: Probe -> Row, probes: seq<Probe>): (r: seq<Row>)
    ensures |r| == |probes|
    ensures forall k :: 0 <= k < |probes| ==> r[k] == check(probes[k])
  {
    if probes == [] then [] else [check(probes[0])] + MapRows(check, probes[1..])
  }

  /** Mapping keeps listing order: the rows of two consecutive stretches are the rows of each, in order. */
  lemma MapRowsAppend(check: Probe -> Row, a: seq<Probe>, b: seq<Probe>)
    ensures MapRows(check, a + b) == MapRows(check, a) + MapRows(check, b)
  {
  }

  /**
   * What `buildService` hands the device-client service builder besides the
   * connection: the four identifiers and, where it is set, the user agent.
   */
  datatype ServiceSettings = ServiceSettings(
    workplaceId: string,
    clientSystemId: string,
    mandantId: string,
    userId: string,
    userAgent: Option<string>)
}
