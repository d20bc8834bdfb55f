/** The candle tables fetch_eth.py builds from each provider's JSON payload: Binance
    klines with their price columns coerced to numbers, and Coinbase candles sorted by
    time and reshaped into the kline columns. Instants are integers counting
    milliseconds since the epoch; the conversion to Tokyo time changes only how an
    instant is written. */
module Candles {
  import opened Wrappers

  /** A cell as pandas holds it: a number, an unparsed string, or missing (NaN/None). */
  datatype Value = Num(x: real) | Text(s: string) | Missing

  datatype Provider = Binance | Coinbase

  /** The `source` tag every row carries, which is also the `used` name. */
  function Tag(p: Provider): (t: string)
    ensures t == "binance" || t == "coinbase"
  {
    match p
    case Binance => "binance"
    case Coinbase => "coinbase"
  }

  lemma TagInjective(p: Provider, q: Provider)
    ensures Tag(p) == Tag(q) <==> p == q
  {
  }

  /** One row of the saved table. `ignore` is the Binance-only `ignore` column and is
      absent from Coinbase tables. */
  datatype Candle = Candle(
    openTime: int, closeTime: int,
    open: Value, high: Value, low: Value, close: Value, volume: Value,
    quoteVolume: Value, trades: Value, takerBase: Value, takerQuote: Value,
    ignore: Option<Value>, source: string)

  /** A table: its column names in order, and its rows. */
  datatype Table = Table(columns: seq<string>, rows: seq<Candle>)

  /** pandas keeps an instant as a signed 64-bit count of nanoseconds whose smallest
      value stands for NaT. Converting an instant outside that range raises
      OutOfBoundsDatetime, and shifting a timestamp past it raises OverflowError. */
  const MaxNanos: int := 0x7FFF_FFFF_FFFF_FFFF

  predicate Representable(nanos: int)
  {
    -MaxNanos <= nanos <= MaxNanos
  }

  /** The errors building a table raises: Coinbase's "no data", or an instant pandas
      cannot represent. */
  datatype TableError = NoData | OutOfBoundsTime

  // ---------------------------------------------------------------------------
  // Binance

  /** One kline array of Binance's payload, in its 12-field order. */
  datatype Kline = Kline(
    openTime: int, open: Value, high: Value, low: Value, close: Value, volume: Value,
    closeTime: int, quoteVolume: Value, trades: Value, takerBase: Value,
    takerQuote: Value, ignore: Value)

  const BinanceColumns: seq<string> := [
    "open_time", "open", "high", "low", "close", "volume", "close_time",
    "quote_volume", "trades", "taker_base", "taker_quote", "ignore", "source"]

  /** `pd.to_numeric(v, errors="coerce")`: numbers stay, a string becomes the number it
      spells (`parse`, the decimal reader) or missing when it spells none. */
  function ToNumeric(v: Value, parse: string -> Option<real>): (r: Value)
    ensures r.Num? || r.Missing?
  {
    match v
    case Num(_) => v
    case Text(s) => (match parse(s) case Some(x) => Num(x) case None => Missing)
    case Missing => Missing
  }

  /** Both of a kline's millisecond instants convert to pandas timestamps. */
  predicate KlineInRange(k: Kline)
  {
    Representable(k.openTime * 1_000_000) && Representable(k.closeTime * 1_000_000)
  }

  predicate KlinesInRange(payload: seq<Kline>)
  {
    forall i :: 0 <= i < |payload| ==> KlineInRange(payload[i])
  }

  function BinanceRow(k: Kline, parse: string -> Option<real>): (r: Candle)
    ensures r.openTime == k.openTime && r.closeTime == k.closeTime
    ensures !r.open.Text? && !r.high.Text? && !r.low.Text? && !r.close.Text? && !r.volume.Text?
    ensures r.ignore.Some? && r.source == "binance"
  {
    Candle(k.openTime, k.closeTime,
           ToNumeric(k.open, parse), ToNumeric(k.high, parse), ToNumeric(k.low, parse),
           ToNumeric(k.close, parse), ToNumeric(k.volume, parse),
           k.quoteVolume, k.trades, k.takerBase, k.takerQuote,
           Some(k.ignore), Tag(Binance))
  }

  /** `fetch_binance_1m` once the payload is in hand: one row per kline, in payload
      order. There is no emptiness check; converting the time columns raises when an
      instant is out of pandas' range. */
  function BinanceTable(payload: seq<Kline>, parse: string -> Option<real>): (r: Result<Table, TableError>)
    ensures r.Ok? <==> KlinesInRange(payload)
    ensures r.Err? ==> r.error == OutOfBoundsTime
    ensures r.Ok? ==> r.value.columns == BinanceColumns && |r.value.rows| == |payload|
  {
    if exists i :: 0 <= i < |payload| && !KlineInRange(payload[i]) then Err(OutOfBoundsTime)
    else Ok(Table(BinanceColumns, seq(|payload|, i requires 0 <= i < |payload| => BinanceRow(payload[i], parse))))
  }

  /** Each Binance row keeps its kline's times and extra columns, carries the price and
      volume fields as numbers where they parse and missing where they do not (never
      zero), and is tagged "binance". */
  lemma BinanceRows(payload: seq<Kline>, parse: string -> Option<real>)
    requires KlinesInRange(payload)
    ensures var t := BinanceTable(payload, parse).value;
            forall i :: 0 <= i < |payload| ==>
              var k, c := payload[i], t.rows[i];
              && c.openTime == k.openTime && c.closeTime == k.closeTime
              && c.source == "binance"
              && c.ignore == Some(k.ignore)
              && c.quoteVolume == k.quoteVolume && c.trades == k.trades
              && c.takerBase == k.takerBase && c.takerQuote == k.takerQuote
              && Coerced(k.open, c.open, parse) && Coerced(k.high, c.high, parse)
              && Coerced(k.low, c.low, parse) && Coerced(k.close, c.close, parse)
              && Coerced(k.volume, c.volume, parse)
  {
  }

  /** What coercion makes of a raw cell: a number stays that number; a string becomes
      missing exactly when it does not parse, and otherwise its parsed value. */
  ghost predicate Coerced(raw: Value, v: Value, parse: string -> Option<real>)
  {
    && (raw.Num? ==> v == raw)
    && (raw.Missing? ==> v.Missing?)
    && (raw.Text? ==> (v.Missing? <==> parse(raw.s).None?))
    && (raw.Text? && parse(raw.s).Some? ==> v == Num(parse(raw.s).value))
  }

  // ---------------------------------------------------------------------------
  // Coinbase

  /** One `[time, low, high, open, close, volume]` array; `time` is in seconds. */
  datatype CoinbaseCandle = CoinbaseCandle(time: int, low: Value, high: Value, open: Value, close: Value, volume: Value)

  /** Coinbase's decoded JSON: a list of candles, or anything else (an error object). */
  datatype CoinbasePayload = NotAList | CandleList(candles: seq<CoinbaseCandle>)

  const CoinbaseColumns: seq<string> := [
    "open_time", "close_time", "open", "high", "low", "close", "volume",
    "quote_volume", "trades", "taker_base", "taker_quote", "source"]

  /** A minute in milliseconds. */
  const MinuteMillis: int := 60 * 1000

  /** One Coinbase candle as a table row: it opens at `time` seconds and closes one
      millisecond before the next minute; the columns Coinbase lacks are missing. */
  function CoinbaseRow(c: CoinbaseCandle): Candle
  {
    Candle(c.time * 1000, c.time * 1000 + MinuteMillis - 1,
           c.open, c.high, c.low, c.close, c.volume,
           Missing, Missing, Missing, Missing, None, Tag(Coinbase))
  }

  /** A Coinbase row keeps the candle's prices and volume, has no `ignore` column and
      is tagged "coinbase". */
  lemma CoinbaseRowColumns(c: CoinbaseCandle)
    ensures var r := CoinbaseRow(c);
            && r.open == c.open && r.high == c.high && r.low == c.low && r.close == c.close
            && r.volume == c.volume
            && r.ignore.None? && r.source == "coinbase"
  {
  }

  /** A Coinbase row opens on the whole second the candle names, in milliseconds, and
      spans one minute less a millisecond. */
  lemma CoinbaseRowTimes(c: CoinbaseCandle)
    ensures var r := CoinbaseRow(c);
            && r.openTime / 1000 == c.time && r.openTime % 1000 == 0
            && r.closeTime - r.openTime == 59999
  {
  }

  /** The open instant converts to a pandas timestamp, and so does that instant plus
      one minute, the intermediate of `+ Timedelta(minutes=1) - Timedelta(milliseconds=1)`. */
  predicate CandleInRange(c: CoinbaseCandle)
  {
    Representable(c.time * 1_000_000_000) && Representable(c.time * 1_000_000_000 + 60_000_000_000)
  }

  predicate SortedByTime(cs: seq<CoinbaseCandle>)
  {
    forall i, j :: 0 <= i < j < |cs| ==> cs[i].time <= cs[j].time
  }

  /** A candle no later than every candle of a sorted sequence can lead it. */
  lemma SortedCons(c: CoinbaseCandle, cs: seq<CoinbaseCandle>)
    requires SortedByTime(cs)
    requires forall k :: 0 <= k < |cs| ==> c.time <= cs[k].time
    ensures SortedByTime([c] + cs)
  {
    var r := [c] + cs;
    assert forall k :: 1 <= k < |r| ==> r[k] == cs[k - 1];
  }

  /** Candles drawn from `c` and `cs` are no earlier than a bound on all of them. */
  lemma NoEarlierThan(t: int, c: CoinbaseCandle, cs: seq<CoinbaseCandle>, r: seq<CoinbaseCandle>)
    requires t <= c.time
    requires forall k :: 0 <= k < |cs| ==> t <= cs[k].time
    requires forall k :: 0 <= k < |r| ==> r[k] == c || r[k] in cs
    ensures forall k :: 0 <= k < |r| ==> t <= r[k].time
  {
    forall k | 0 <= k < |r|
      ensures t <= r[k].time
    {
      if r[k] != c {
        var j :| 0 <= j < |cs| && cs[j] == r[k];
      }
    }
  }

  /** Inserts `c` before the first later candle of a sorted sequence. */
  function InsertByTime(c: CoinbaseCandle, cs: seq<CoinbaseCandle>): (r: seq<CoinbaseCandle>)
    requires SortedByTime(cs)
    ensures SortedByTime(r)
    ensures multiset(r) == multiset(cs) + multiset{c}
    ensures forall k :: 0 <= k < |r| ==> r[k] == c || r[k] in cs
    decreases |cs|
  {
    if |cs| == 0 then [c]
    else if c.time <= cs[0].time then
      SortedCons(c, cs);
      [c] + cs
    else
      var rest := InsertByTime(c, cs[1..]);
      assert cs == [cs[0]] + cs[1..];
      NoEarlierThan(cs[0].time, c, cs[1..], rest);
      SortedCons(cs[0], rest);
      [cs[0]] + rest
  }

  /** `sort_values("time")`: the candles in ascending time order. pandas' default sort
      is not stable, so only the order and the multiset of rows are stated. */
  function SortByTime(cs: seq<CoinbaseCandle>): (r: seq<CoinbaseCandle>)
    ensures SortedByTime(r)
    ensures multiset(r) == multiset(cs)
    decreases |cs|
  {
    if |cs| == 0 then []
    else
      assert cs == [cs[0]] + cs[1..];
      InsertByTime(cs[0], SortByTime(cs[1..]))
  }

  /** `fetch_coinbase_1m` once the payload is in hand: anything but a non-empty list is
      "Coinbase returned no data"; otherwise the candles sorted by time, reshaped, which
      raises when a candle's instants are out of pandas' range. Sorting keeps the
      candles, so whether one is out of range is decided on the payload. */
  function CoinbaseTable(p: CoinbasePayload): (r: Result<Table, TableError>)
    ensures r.Err? <==>
              || p.NotAList? || |p.candles| == 0
              || exists i :: 0 <= i < |p.candles| && !CandleInRange(p.candles[i])
    ensures r.Err? ==> (r.error == NoData <==> p.NotAList? || |p.candles| == 0)
    ensures r.Ok? ==> r.value.columns == CoinbaseColumns && |r.value.rows| == |p.candles|
  {
    if p.NotAList? || |p.candles| == 0 then Err(NoData)
    else if exists i :: 0 <= i < |p.candles| && !CandleInRange(p.candles[i]) then Err(OutOfBoundsTime)
    else
      var sorted := SortByTime(p.candles);
      assert |sorted| == |multiset(sorted)| == |multiset(p.candles)| == |p.candles|;
      Ok(Table(CoinbaseColumns, MapRows(sorted)))
  }

  /** The reshaped rows, one per candle and in the candles' order (MapRowsAt). */
  function MapRows(cs: seq<CoinbaseCandle>): (r: seq<Candle>)
    ensures |r| == |cs|
    decreases |cs|
  {
    if |cs| == 0 then [] else [CoinbaseRow(cs[0])] + MapRows(cs[1..])
  }

  /** Row `i` is the reshaped candle `i`. */
  lemma {:induction false} MapRowsAt(cs: seq<CoinbaseCandle>, i: nat)
    requires i < |cs|
    ensures MapRows(cs)[i] == CoinbaseRow(cs[i])
    decreases |cs|
  {
    if 0 < i {
      MapRowsAt(cs[1..], i - 1);
    }
  }

  lemma MapRowsCons(c: CoinbaseCandle, cs: seq<CoinbaseCandle>)
    ensures MapRows([c] + cs) == [CoinbaseRow(c)] + MapRows(cs)
  {
    assert ([c] + cs)[1..] == cs;
  }

  /** Reshaping commutes with concatenation. */
  lemma {:induction false} MapRowsAppend(a: seq<CoinbaseCandle>, b: seq<CoinbaseCandle>)
    ensures MapRows(a + b) == MapRows(a) + MapRows(b)
    decreases |a|
  {
    if |a| == 0 {
      assert a + b == b;
    } else {
      assert (a + b)[1..] == a[1..] + b;
      MapRowsAppend(a[1..], b);
    }
  }

  /** The rows of a sequence around one of its candles. */
  lemma MapRowsSplit(lo: seq<CoinbaseCandle>, x: CoinbaseCandle, hi: seq<CoinbaseCandle>)
    ensures MapRows(lo + [x] + hi) == MapRows(lo) + [CoinbaseRow(x)] + MapRows(hi)
  {
    assert MapRows([x]) == [CoinbaseRow(x)] by {
      assert [x][1..] == [];
    }
    MapRowsAppend(lo, [x]);
    MapRowsAppend(lo + [x], hi);
  }

  /** Removing one occurrence of `x` from two permutations of each other. */
  lemma MultisetRemove<T>(x: T, a: seq<T>, lo: seq<T>, hi: seq<T>)
    requires multiset([x] + a) == multiset(lo + [x] + hi)
    ensures multiset(a) == multiset(lo + hi)
  {
    assert multiset([x] + a) == multiset{x} + multiset(a);
    assert multiset(lo + [x] + hi) == multiset{x} + multiset(lo + hi);
    assert multiset(a) == (multiset{x} + multiset(a)) - multiset{x};
    assert multiset(lo + hi) == (multiset{x} + multiset(lo + hi)) - multiset{x};
  }

  /** Adding one occurrence of `x` to two permutations of each other. */
  lemma MultisetAdd<T>(x: T, a: seq<T>, lo: seq<T>, hi: seq<T>)
    requires multiset(a) == multiset(lo) + multiset(hi)
    ensures multiset([x] + a) == multiset(lo + [x] + hi)
  {
    assert multiset([x] + a) == multiset{x} + multiset(a);
    assert multiset(lo + [x] + hi) == multiset(lo) + multiset{x} + multiset(hi);
  }

  /** Candle sequences that are permutations of each other reshape into rows that are
      permutations of each other. */
  lemma {:induction false} MapRowsPermutation(a: seq<CoinbaseCandle>, b: seq<CoinbaseCandle>)
    requires multiset(a) == multiset(b)
    ensures multiset(MapRows(a)) == multiset(MapRows(b))
    decreases |a|
  {
    if |a| == 0 {
      assert |b| == |multiset(b)| == 0;
    } else {
      var x := a[0];
      assert x in multiset(b);
      var j :| 0 <= j < |b| && b[j] == x;
      var lo, hi := b[..j], b[j + 1..];
      assert a == [x] + a[1..];
      assert b == lo + [x] + hi;
      MultisetRemove(x, a[1..], lo, hi);
      MapRowsPermutation(a[1..], lo + hi);
      MapRowsCons(x, a[1..]);
      MapRowsSplit(lo, x, hi);
      MapRowsAppend(lo, hi);
      MultisetAdd(CoinbaseRow(x), MapRows(a[1..]), MapRows(lo), MapRows(hi));
    }
  }

  /** Inserting a candle adds one copy of its row to the reshaped rows. */
  lemma InsertRows(c: CoinbaseCandle, cs: seq<CoinbaseCandle>)
    requires SortedByTime(cs)
    ensures multiset(MapRows(InsertByTime(c, cs))) == multiset(MapRows(cs)) + multiset{CoinbaseRow(c)}
  {
    MapRowsPermutation(InsertByTime(c, cs), cs + [c]);
    MapRowsAppend(cs, [c]);
    assert MapRows([c]) == [CoinbaseRow(c)];
  }

  /** Sorting permutes the reshaped rows. */
  lemma SortRows(cs: seq<CoinbaseCandle>)
    ensures multiset(MapRows(SortByTime(cs))) == multiset(MapRows(cs))
  {
    MapRowsPermutation(SortByTime(cs), cs);
  }

  /** The rows of a Coinbase table are those of the payload's candles, each exactly as
      often as in the payload. */
  lemma CoinbaseRowsPermutation(p: CoinbasePayload)
    requires CoinbaseTable(p).Ok?
    ensures multiset(CoinbaseTable(p).value.rows) == multiset(MapRows(p.candles))
  {
    SortRows(p.candles);
  }

  /** The rows of a Coinbase table are in ascending time order. */
  lemma CoinbaseRowsAscending(p: CoinbasePayload)
    requires CoinbaseTable(p).Ok?
    ensures var rows := CoinbaseTable(p).value.rows;
            forall i, j :: 0 <= i < j < |rows| ==> rows[i].openTime <= rows[j].openTime
  {
    var sorted := SortByTime(p.candles);
    assert CoinbaseTable(p).value.rows == MapRows(sorted);
    SortedRowsAscending(sorted);
  }

  /** Reshaping candles in time order gives rows in open-time order. */
  lemma SortedRowsAscending(cs: seq<CoinbaseCandle>)
    requires SortedByTime(cs)
    ensures forall i, j :: 0 <= i < j < |cs| ==> MapRows(cs)[i].openTime <= MapRows(cs)[j].openTime
  {
    forall i, j | 0 <= i < j < |cs|
      ensures MapRows(cs)[i].openTime <= MapRows(cs)[j].openTime
    {
      MapRowsAt(cs, i);
      MapRowsAt(cs, j);
      assert cs[i].time <= cs[j].time;
    }
  }

  /** A candle whose instants convert gives a row whose millisecond instants do. */
  lemma CoinbaseRowInRange(c: CoinbaseCandle)
    requires CandleInRange(c)
    ensures Representable(CoinbaseRow(c).openTime * 1_000_000)
    ensures Representable(CoinbaseRow(c).closeTime * 1_000_000)
  {
    var r := CoinbaseRow(c);
    assert r.openTime * 1_000_000 == c.time * 1_000_000_000;
    assert r.closeTime * 1_000_000 == c.time * 1_000_000_000 + 59_999_000_000;
  }

  /** Every instant of a Coinbase table is one pandas can represent. */
  lemma CoinbaseRowsInRange(p: CoinbasePayload)
    requires CoinbaseTable(p).Ok?
    ensures var rows := CoinbaseTable(p).value.rows;
            forall i :: 0 <= i < |rows| ==>
              Representable(rows[i].openTime * 1_000_000) && Representable(rows[i].closeTime * 1_000_000)
  {
    var sorted := SortByTime(p.candles);
    var rows := CoinbaseTable(p).value.rows;
    forall i | 0 <= i < |rows|
      ensures Representable(rows[i].openTime * 1_000_000)
      ensures Representable(rows[i].closeTime * 1_000_000)
    {
      assert sorted[i] in multiset(p.candles);
      var j :| 0 <= j < |p.candles| && p.candles[j] == sorted[i];
      MapRowsAt(sorted, i);
      CoinbaseRowInRange(p.candles[j]);
    }
  }

  /** Each Coinbase row closes 59 999 ms after it opens, on a whole second, lacks the
      Binance-only columns and is tagged "coinbase". */
  lemma CoinbaseRowsShape(p: CoinbasePayload)
    requires CoinbaseTable(p).Ok?
    ensures var rows := CoinbaseTable(p).value.rows;
            forall i :: 0 <= i < |rows| ==>
              && rows[i].closeTime == rows[i].openTime + 59999
              && rows[i].openTime % 1000 == 0
              && rows[i].quoteVolume.Missing? && rows[i].trades.Missing?
              && rows[i].takerBase.Missing? && rows[i].takerQuote.Missing?
              && rows[i].ignore.None? && rows[i].source == "coinbase"
  {
    var sorted := SortByTime(p.candles);
    var rows := CoinbaseTable(p).value.rows;
    assert rows == MapRows(sorted);
    forall i | 0 <= i < |rows|
      ensures && rows[i].closeTime == rows[i].openTime + 59999
              && rows[i].openTime % 1000 == 0
              && rows[i].quoteVolume.Missing? && rows[i].trades.Missing?
              && rows[i].takerBase.Missing? && rows[i].takerQuote.Missing?
              && rows[i].ignore.None? && rows[i].source == "coinbase"
    {
      MapRowsAt(sorted, i);
      CoinbaseRowShape(sorted[i]);
    }
  }

  /** One row of the lemma above. */
  lemma CoinbaseRowShape(c: CoinbaseCandle)
    ensures var r := CoinbaseRow(c);
            && r.closeTime == r.openTime + 59999 && r.openTime % 1000 == 0
            && r.quoteVolume.Missing? && r.trades.Missing?
            && r.takerBase.Missing? && r.takerQuote.Missing?
            && r.ignore.None? && r.source == "coinbase"
  {
    CoinbaseRowColumns(c);
    CoinbaseRowTimes(c);
  }
}
