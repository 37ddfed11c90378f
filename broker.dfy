/** The static broker catalog and the fee model (broker.service.ts). */
module Broker {
  import opened Wrappers

  datatype FeeType = Percentage | Fixed
  datatype FeeRole = Maker | Taker

  datatype BrokerConfig = BrokerConfig(
    id: string,
    name: string,
    feeType: FeeType,
    makerFee: real,
    takerFee: real)

  /** The broker used when a caller names none. */
  const DefaultBrokerId: string := "binance"

  const BinanceBroker: BrokerConfig := BrokerConfig("binance", "Binance", Percentage, 0.001, 0.001)
  const KrakenBroker: BrokerConfig := BrokerConfig("kraken", "Kraken", Percentage, 0.0016, 0.0026)
  const CoinbaseBroker: BrokerConfig := BrokerConfig("coinbase", "Coinbase Pro", Percentage, 0.004, 0.006)
  const FixedExampleBroker: BrokerConfig := BrokerConfig("fixed_example", "Fixed Fee Broker", Fixed, 1.0, 2.0)

  /** The catalog, in the order `getBrokers` returns it. */
  function GetBrokers(): (r: seq<BrokerConfig>)
    ensures |r| == 4
    ensures forall i :: 0 <= i < |r| ==> r[i].makerFee >= 0.0 && r[i].takerFee >= 0.0
  {
    [BinanceBroker, KrakenBroker, CoinbaseBroker, FixedExampleBroker]
  }

  /** The catalog's broker ids. */
  function CatalogIds(): set<string> {
    set b | b in GetBrokers() :: b.id
  }

  /** `Array.prototype.find`: the first entry with the given id. */
  function FindById(s: seq<BrokerConfig>, id: string): (r: Option<BrokerConfig>)
    ensures r.Some? <==> exists i :: 0 <= i < |s| && s[i].id == id
    ensures r.Some? ==> r.value.id == id && r.value in s
  {
    if |s| == 0 then None
    else if s[0].id == id then Some(s[0])
    else FindById(s[1..], id)
  }

  /** `getBroker`: the catalog entry with the given id, tried in catalog order. */
  function GetBroker(id: string): (r: Option<BrokerConfig>)
    ensures r.Some? ==> r.value.id == id
  {
    if id == BinanceBroker.id then Some(BinanceBroker)
    else if id == KrakenBroker.id then Some(KrakenBroker)
    else if id == CoinbaseBroker.id then Some(CoinbaseBroker)
    else if id == FixedExampleBroker.id then Some(FixedExampleBroker)
    else None
  }

  /** `getBroker` is the first-match search of the catalog, so it finds exactly the catalog ids. */
  lemma GetBrokerIsCatalogSearch(id: string)
    ensures GetBroker(id) == FindById(GetBrokers(), id)
    ensures GetBroker(id).Some? <==> id in CatalogIds()
    ensures GetBroker(id).Some? ==> GetBroker(id).value in GetBrokers()
  {
    var s := GetBrokers();
    assert s[1..] == [KrakenBroker, CoinbaseBroker, FixedExampleBroker];
    assert s[1..][1..] == [CoinbaseBroker, FixedExampleBroker];
    assert s[1..][1..][1..] == [FixedExampleBroker];
    assert s[1..][1..][1..][1..] == [];
    CatalogContents();
  }

  /** The id a call uses: the default applies only when the argument is omitted. */
  function BrokerIdOrDefault(brokerId: Option<string>): string {
    brokerId.GetOr(DefaultBrokerId)
  }

  /** `brokerId || 'binance'`: callers that pass an order's broker also replace an empty id. */
  function ChosenBrokerId(brokerId: Option<string>): (id: string)
    ensures id == DefaultBrokerId || brokerId == Some(id)
  {
    if brokerId.Some? && brokerId.value != "" then brokerId.value else DefaultBrokerId
  }

  /** `calculateFee(amount, price, type, brokerId = 'binance')`. */
  function CalculateFee(amount: real, price: real, role: FeeRole, brokerId: Option<string>): (fee: real)
    // an unknown broker charges nothing
    ensures GetBroker(BrokerIdOrDefault(brokerId)).None? ==> fee == 0.0
  {
    match GetBroker(BrokerIdOrDefault(brokerId))
    case None => 0.0
    case Some(broker) =>
      var feeRate := if role == Maker then broker.makerFee else broker.takerFee;
      if broker.feeType == Fixed then feeRate
      else amount * price * feeRate
  }

  /** The catalog holds exactly these four brokers, each id once. */
  lemma CatalogContents()
    ensures CatalogIds() == {"binance", "kraken", "coinbase", "fixed_example"}
    ensures forall i, j :: 0 <= i < j < |GetBrokers()| ==> GetBrokers()[i].id != GetBrokers()[j].id
  {
    var s := GetBrokers();
    assert forall b :: b in s ==> b == s[0] || b == s[1] || b == s[2] || b == s[3];
  }

  /** A broker id outside the catalog is charged nothing, whatever the trade. */
  lemma UnknownBrokerFree(amount: real, price: real, role: FeeRole, brokerId: Option<string>)
    requires BrokerIdOrDefault(brokerId) !in CatalogIds()
    ensures CalculateFee(amount, price, role, brokerId) == 0.0
  {
    GetBrokerIsCatalogSearch(BrokerIdOrDefault(brokerId));
  }

  lemma NonNegativeProduct(a: real, b: real, c: real)
    requires a >= 0.0 && b >= 0.0 && c >= 0.0
    ensures a * b * c >= 0.0
  {
    assert a * b >= 0.0;
  }

  /** Every catalog rate is non-negative, so no fee is negative on a non-negative trade. */
  lemma FeeNonNegative(amount: real, price: real, role: FeeRole, brokerId: Option<string>)
    requires amount >= 0.0 && price >= 0.0
    ensures CalculateFee(amount, price, role, brokerId) >= 0.0
  {
    var r := GetBroker(BrokerIdOrDefault(brokerId));
    if r.Some? {
      var b := r.value;
      var rate := if role == Maker then b.makerFee else b.takerFee;
      assert rate >= 0.0;
      NonNegativeProduct(amount, price, rate);
    }
  }

  /** A known broker charges the rate of the requested role: verbatim when its fee type is
      FIXED (whatever the amount and price), on the traded volume when it is PERCENTAGE. */
  lemma FeeOfKnownBroker(amount: real, price: real, role: FeeRole, brokerId: Option<string>, b: BrokerConfig)
    requires b in GetBrokers() && b.id == BrokerIdOrDefault(brokerId)
    ensures var rate := if role == Maker then b.makerFee else b.takerFee;
      CalculateFee(amount, price, role, brokerId) == if b.feeType == Fixed then rate else amount * price * rate
  {
    var s := GetBrokers();
    assert b == s[0] || b == s[1] || b == s[2] || b == s[3];
  }

  /** An omitted broker id is charged as Binance: a 0.1% taker fee, e.g. 1.0 on one unit at 1000. */
  lemma DefaultBrokerTakerFee(amount: real, price: real)
    ensures CalculateFee(amount, price, Taker, None) == amount * price * 0.001
    ensures CalculateFee(1.0, 1000.0, Taker, None) == 1.0
  {
    assert GetBrokers()[0].id == "binance";
  }
}
