/** `main` of fetch_eth.py: try Binance; on any failure fall back to Coinbase; write the
    chosen table and a meta record naming its provider. Each request is an outcome
    given as input: the decoded payload, or a failure. For Binance a failure is a
    network error, an HTTP error status, an undecodable body or a payload pandas cannot
    shape into a DataFrame; an instant out of pandas' range is modelled by
    `BinanceTable`. For Coinbase a failure is a network error, an HTTP error status or
    an undecodable body; its payload is typed, and its checks are `CoinbaseTable`'s. */
module Acquisition {
  import opened Wrappers
  import opened Candles

  datatype Outcome<T> = Fetched(payload: T) | Failed

  /** What escapes `main` when both providers fail: Coinbase's own exception, from its
      request or from building its table. */
  datatype FetchError = CoinbaseRequestFailed | CoinbaseTableFailed(cause: TableError)

  /** The table `main` goes on with and the provider it came from (`used`). */
  datatype Fetch = Fetch(table: Table, used: Provider)

  /** `fetch_coinbase_1m()` as a whole. */
  function CoinbaseFetch(c: Outcome<CoinbasePayload>): (r: Result<Table, FetchError>)
    ensures r.Ok? <==> c.Fetched? && CoinbaseTable(c.payload).Ok?
    ensures c.Failed? ==> r == Err(CoinbaseRequestFailed)
    ensures r.Err? && c.Fetched? ==> r.error == CoinbaseTableFailed(CoinbaseTable(c.payload).error)
    ensures r.Ok? ==> r.value == CoinbaseTable(c.payload).value
  {
    match c
    case Failed => Err(CoinbaseRequestFailed)
    case Fetched(p) =>
      match CoinbaseTable(p)
      case Err(e) => Err(CoinbaseTableFailed(e))
      case Ok(t) => Ok(t)
  }

  /** Binance's fetch goes through: the payload arrived and its instants convert. */
  predicate BinanceUsable(b: Outcome<seq<Kline>>)
  {
    b.Fetched? && KlinesInRange(b.payload)
  }

  /** The try/except of `main`: Binance's table if its fetch went through, otherwise
      Coinbase's table, otherwise Coinbase's exception. */
  function Acquire(b: Outcome<seq<Kline>>, c: Outcome<CoinbasePayload>, parse: string -> Option<real>)
    : (r: Result<Fetch, FetchError>)
    ensures r.Err? <==> !BinanceUsable(b) && CoinbaseFetch(c).Err?
    ensures r.Ok? ==> (r.value.used == Binance <==> BinanceUsable(b))
  {
    if b.Fetched? && BinanceTable(b.payload, parse).Ok? then
      Ok(Fetch(BinanceTable(b.payload, parse).value, Binance))
    else
      match CoinbaseFetch(c)
      case Err(e) => Err(e)
      case Ok(t) => Ok(Fetch(t, Coinbase))
  }

  /** The providers `main` contacts, in order: Coinbase only after Binance's fetch
      raised. */
  function Requests(b: Outcome<seq<Kline>>): (r: seq<Provider>)
    ensures 0 < |r| && r[0] == Binance
    ensures Coinbase in r <==> !BinanceUsable(b)
  {
    if BinanceUsable(b) then [Binance] else [Binance, Coinbase]
  }

  /** The meta file's `rows` and `source`; its generation time is left out. */
  datatype Meta = Meta(rows: nat, source: string)

  /** What `main` writes: the CSV table and the meta record. */
  datatype Published = Published(csv: Table, meta: Meta)

  /** `main`: an error means the exception escaped before either file was written. */
  function Run(b: Outcome<seq<Kline>>, c: Outcome<CoinbasePayload>, parse: string -> Option<real>)
    : (r: Result<Published, FetchError>)
    ensures r.Err? <==> Acquire(b, c, parse).Err?
    ensures r.Ok? ==> r.value.meta.rows == |r.value.csv.rows|
    ensures r.Ok? ==> (r.value.meta.source == "binance" <==> BinanceUsable(b))
    ensures r.Ok? ==> (r.value.meta.source == "coinbase" <==> !BinanceUsable(b))
  {
    match Acquire(b, c, parse)
    case Err(e) => Err(e)
    case Ok(f) => Ok(Published(f.table, Meta(|f.table.rows|, Tag(f.used))))
  }

  /** A Binance payload whose instants convert is used as is, whatever it holds (even no
      klines): Coinbase is never asked and its outcome makes no difference. A payload
      with an instant out of range raises inside the Binance fetch, and `main` goes on
      exactly as if the request had failed. */
  lemma BinanceFirst(klines: seq<Kline>, c: Outcome<CoinbasePayload>, c': Outcome<CoinbasePayload>, parse: string -> Option<real>)
    ensures KlinesInRange(klines) ==>
              && Run(Fetched(klines), c, parse) == Run(Fetched(klines), c', parse)
              && Requests(Fetched(klines)) == [Binance]
              && Run(Fetched(klines), c, parse).Ok?
              && Run(Fetched(klines), c, parse).value.csv == BinanceTable(klines, parse).value
              && Run(Fetched(klines), c, parse).value.meta == Meta(|klines|, "binance")
    ensures !KlinesInRange(klines) ==>
              && Run(Fetched(klines), c, parse) == Run(Failed, c, parse)
              && Requests(Fetched(klines)) == [Binance, Coinbase]
  {
  }

  /** After a Binance failure the result is exactly what Coinbase's fetch gives:
      its table, tagged "coinbase", or its error. */
  lemma CoinbaseFallback(c: Outcome<CoinbasePayload>, parse: string -> Option<real>)
    ensures Requests(Failed) == [Binance, Coinbase]
    ensures var r := Run(Failed, c, parse);
            && (r.Ok? <==> CoinbaseFetch(c).Ok?)
            && (r.Ok? ==> r.value.csv == CoinbaseFetch(c).value
                          && r.value.meta == Meta(|r.value.csv.rows|, "coinbase"))
            && (r.Err? ==> r.error == CoinbaseFetch(c).error)
  {
  }

  /** `main` fails exactly when Binance's fetch raises (the request failed or an instant
      is out of range) and Coinbase's does too: its request failed, it sent anything but
      a non-empty list of candles, or one of its instants is out of range. */
  lemma FailsOnlyWhenBothFail(b: Outcome<seq<Kline>>, c: Outcome<CoinbasePayload>, parse: string -> Option<real>)
    ensures Run(b, c, parse).Err? <==>
              && (b.Failed? || exists i :: 0 <= i < |b.payload| && !KlineInRange(b.payload[i]))
              && (|| c.Failed? || c.payload.NotAList? || |c.payload.candles| == 0
                  || exists i :: 0 <= i < |c.payload.candles| && !CandleInRange(c.payload.candles[i]))
  {
  }

  /** The written table is one provider's table, entire: the meta record counts its rows
      and names its provider, and every row carries that provider's tag. */
  lemma NoMixing(b: Outcome<seq<Kline>>, c: Outcome<CoinbasePayload>, parse: string -> Option<real>)
    requires Run(b, c, parse).Ok?
    ensures var p := Run(b, c, parse).value;
            && p.meta.rows == |p.csv.rows|
            && (p.meta.source == "binance" <==> BinanceUsable(b))
            && (p.meta.source == "coinbase" <==> !BinanceUsable(b))
            && (BinanceUsable(b) ==> p.csv == BinanceTable(b.payload, parse).value)
            && (!BinanceUsable(b) ==> c.Fetched? && p.csv == CoinbaseTable(c.payload).value)
            && forall i :: 0 <= i < |p.csv.rows| ==> p.csv.rows[i].source == p.meta.source
  {
    var p := Run(b, c, parse).value;
    if BinanceUsable(b) {
      BinanceRows(b.payload, parse);
    } else {
      CoinbaseRowsShape(c.payload);
    }
  }
}
