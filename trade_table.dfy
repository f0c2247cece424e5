/**
 * The trade half of the TradeBot component (chat/src/App.js): the one-shot
 * load of /api/trades on mount, split into the issued request and its
 * settlement, and the table panel rendered from the result.
 */
module TradeTable {
  import opened JsValues

  /** One property of a trade record: its key and the text its cell shows. */
  datatype Field = Field(key: string, value: string)

  /** A trade record, its properties in the order Object.keys enumerates them. */
  type Row = seq<Field>

  /**
   * A parsed /api/trades body: an array of records, or an object whose
   * `error` property may be missing or empty.
   */
  datatype TradesData = RowList(rows: seq<Row>) | ErrorObject(error: Option<string>)

  /**
   * How the request settles: a parsed body, or a failure to fetch or parse
   * (a `null` body fails the same way, since reading `data.error` throws
   * inside the handler and lands in the same catch).
   */
  datatype TradesOutcome = TradesPayload(data: TradesData) | TradesFailure

  /** What the `trades` state variable holds: an array, or an object that was stored as is. */
  datatype TradesValue = Rows(rows: seq<Row>) | NonArray(error: Option<string>)

  /** The `trades` and `loadingTrades` state variables, and whether the request is pending. */
  datatype TradesState = TradesState(trades: TradesValue, loadingTrades: bool, inFlight: bool)

  /** Right after mounting: no rows, loading, request issued. */
  const TradesMounted: TradesState := TradesState(Rows([]), true, true)

  /** `data.error`: an array has no such property. */
  function ErrorField(d: TradesData): Option<string> {
    match d
    case RowList(_) => None
    case ErrorObject(e) => e
  }

  /** `setTrades(data)`: the body itself becomes the state. */
  function Stored(d: TradesData): TradesValue {
    match d
    case RowList(rs) => Rows(rs)
    case ErrorObject(e) => NonArray(e)
  }

  /**
   * The effect after its request settles: a body whose `error` is falsy is
   * stored; a truthy `error` or a failure keeps the old rows. Every path
   * clears `loadingTrades`.
   */
  function SettleTrades(t: TradesState, o: TradesOutcome): (r: TradesState)
    requires t.inFlight
    ensures !r.loadingTrades && !r.inFlight
    ensures r.trades == t.trades || (o.TradesPayload? && r.trades == Stored(o.data))
  {
    match o
    case TradesFailure => t.(loadingTrades := false, inFlight := false)
    case TradesPayload(d) =>
      if !Truthy(ErrorField(d)) then t.(trades := Stored(d), loadingTrades := false, inFlight := false)
      else t.(loadingTrades := false, inFlight := false)
  }

  /** `Object.keys(row)`. */
  function Keys(r: Row): seq<string> {
    seq(|r|, j requires 0 <= j < |r| => r[j].key)
  }

  /** `Object.values(row)`. */
  function Values(r: Row): seq<string> {
    seq(|r|, j requires 0 <= j < |r| => r[j].value)
  }

  /** What the trade panel shows. */
  datatype TablePanel =
    | LoadingNotice
    | NoDataNotice
    | Table(header: seq<string>, body: seq<seq<string>>)
    | RenderThrows  // `trades` is not an array: `trades[0]` is undefined and Object.keys throws

  /**
   * The panel: loading notice while loading, else the no-data notice for an
   * empty array, else a table whose header is the first row's keys and whose
   * body gives every row's own values in its own key order.
   */
  function Panel(t: TradesState): (p: TablePanel)
    ensures p == LoadingNotice <==> t.loadingTrades
    ensures p.Table? ==> t.trades.Rows? && |p.body| == |t.trades.rows| > 0
  {
    if t.loadingTrades then LoadingNotice
    else match t.trades
      case NonArray(_) => RenderThrows
      case Rows(rs) =>
        if |rs| == 0 then NoDataNotice
        else Table(Keys(rs[0]), seq(|rs|, i requires 0 <= i < |rs| => Values(rs[i])))
  }

  // ----- properties -----

  /**
   * Settling clears `loadingTrades` and the pending request on every
   * outcome; the rows are replaced exactly when a body arrived whose `error`
   * is falsy, and otherwise stay as they were.
   */
  lemma SettleTradesClearsLoading(t: TradesState, o: TradesOutcome)
    requires t.inFlight
    ensures !SettleTrades(t, o).loadingTrades && !SettleTrades(t, o).inFlight
    ensures o.TradesPayload? && !Truthy(ErrorField(o.data)) ==> SettleTrades(t, o).trades == Stored(o.data)
    ensures o.TradesFailure? || Truthy(ErrorField(o.data)) ==> SettleTrades(t, o).trades == t.trades
  {
  }

  /** The panel is in exactly one of its states, chosen by `loadingTrades` and then by the rows. */
  lemma PanelTriState(t: TradesState)
    ensures Panel(t) == LoadingNotice <==> t.loadingTrades
    ensures Panel(t) == NoDataNotice <==> !t.loadingTrades && t.trades == Rows([])
    ensures Panel(t).Table? <==> !t.loadingTrades && t.trades.Rows? && |t.trades.rows| > 0
    ensures Panel(t) == RenderThrows <==> !t.loadingTrades && t.trades.NonArray?
  {
  }

  /**
   * A table's header is the key list of row 0, and row i of its body is
   * row i's values, in row i's own key order.
   */
  lemma TableShowsRowsInOwnOrder(t: TradesState)
    requires Panel(t).Table?
    ensures t.trades.Rows? && |t.trades.rows| > 0
    ensures var rs := t.trades.rows;
      |Panel(t).header| == |rs[0]| &&
      (forall j :: 0 <= j < |rs[0]| ==> Panel(t).header[j] == rs[0][j].key) &&
      |Panel(t).body| == |rs| &&
      (forall i :: 0 <= i < |rs| ==> |Panel(t).body[i]| == |rs[i]|) &&
      (forall i, j :: 0 <= i < |rs| && 0 <= j < |rs[i]| ==> Panel(t).body[i][j] == rs[i][j].value)
  {
  }

  /** Every row has the first row's keys in the first row's order. */
  predicate SameKeys(rs: seq<Row>)
    requires |rs| > 0
  {
    forall i :: 0 <= i < |rs| ==> Keys(rs[i]) == Keys(rs[0])
  }

  /** Every cell sits under the header of its own key, and no row is short or long. */
  predicate CellsUnderOwnKeys(header: seq<string>, rs: seq<Row>) {
    forall i :: 0 <= i < |rs| ==>
      |rs[i]| == |header| && forall j :: 0 <= j < |rs[i]| ==> header[j] == rs[i][j].key
  }

  /**
   * The header comes from the first row only: every cell lines up under the
   * header of its own key exactly when all rows share the first row's keys
   * in the same order.
   */
  lemma ColumnsAlignIffSameKeys(t: TradesState)
    requires Panel(t).Table?
    ensures t.trades.Rows? && |t.trades.rows| > 0
    ensures CellsUnderOwnKeys(Panel(t).header, t.trades.rows) <==> SameKeys(t.trades.rows)
  {
  }

  /**
   * What the panel shows once the load settles: a table exactly for a
   * non-empty array, the no-data notice for an empty array, a truthy error
   * or a failure, and a render that throws for an error object whose
   * `error` is missing or "" (such a body is stored as `trades`).
   */
  lemma SettledPanel(o: TradesOutcome)
    ensures var p := Panel(SettleTrades(TradesMounted, o));
      (p.Table? <==> o.TradesPayload? && o.data.RowList? && |o.data.rows| > 0) &&
      (p == NoDataNotice <==>
         o.TradesFailure? || (o.data.RowList? && o.data.rows == []) ||
         (o.data.ErrorObject? && Truthy(o.data.error))) &&
      (p == RenderThrows <==> o.TradesPayload? && o.data.ErrorObject? && !Truthy(o.data.error)) &&
      p != LoadingNotice
  {
  }

  /** The two-row sample: a table with header symbol, qty and the rows' values. */
  lemma SampleTable()
    ensures var aapl := [Field("symbol", "AAPL"), Field("qty", "10")];
      var tsla := [Field("symbol", "TSLA"), Field("qty", "5")];
      Panel(SettleTrades(TradesMounted, TradesPayload(RowList([aapl, tsla])))) ==
        Table(["symbol", "qty"], [["AAPL", "10"], ["TSLA", "5"]])
  {
    var aapl := [Field("symbol", "AAPL"), Field("qty", "10")];
    var tsla := [Field("symbol", "TSLA"), Field("qty", "5")];
    assert Keys(aapl) == ["symbol", "qty"];
    assert Values(aapl) == ["AAPL", "10"];
    assert Values(tsla) == ["TSLA", "5"];
    var rs := [aapl, tsla];
    assert seq(|rs|, i requires 0 <= i < |rs| => Values(rs[i])) == [Values(aapl), Values(tsla)];
  }
}
