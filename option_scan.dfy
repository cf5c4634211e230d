/** `scan_options`: one summary row per requested symbol, then the portfolio
    totals. The market-data provider is a parameter: its three lookups are
    functions of the symbol (and, for the option chain, of the query date). */
module OptionScan {
  import opened Wrappers
  import opened Rounding
  import opened OptionChain

  /** What the provider answers for one symbol. `prevClose` and `dailyClose`
      are the quote helpers, which never raise (`None` on any failure);
      `chain` is the option-chain request: `None` when it raises a
      `RequestException`, otherwise the response's `data` list. */
  datatype Market = Market(
    prevClose: string -> Option<real>,
    dailyClose: string -> Option<real>,
    chain: (string, string) -> Option<seq<Contract>>)

  /** A summary row. `expiration == ""` and `delta == None` are the row's
      empty-string sentinels. */
  datatype Row = Row(
    symbol: string,
    strike: real,
    prevClose: Option<real>,
    dailyClose: Option<real>,
    expiration: string,
    delta: Option<real>,
    premium: real,
    collateral: real)

  /** The scan's result: the rows and the two totals. */
  datatype Summary = Summary(rows: seq<Row>, totalPremium: real, totalCollateral: real)

  /** The row written when the chain request fails or no contract qualifies. */
  function Placeholder(symbol: string, prevClose: Option<real>, dailyClose: Option<real>): (r: Row)
    ensures r.symbol == symbol && r.prevClose == prevClose && r.dailyClose == dailyClose
    ensures SumPremium([r]) == 0.0 && SumStrike([r]) == 0.0
    ensures r.collateral == Round2(r.strike * 100.0)
  {
    Row(symbol, 0.0, prevClose, dailyClose, "", None, 0.0, 0.0)
  }

  /** The chosen contract cannot be priced: `float` rejects its bid or ask,
      or its strike is missing or not a number. */
  predicate Unpriceable(c: Contract)
    requires c.bid.Some? && c.ask.Some?
  {
    c.bid.value.NonNumeric? || c.ask.value.NonNumeric? || c.strike.None? || c.strike.value.NonNumeric?
  }

  /** The row for a chosen contract. Bid, ask and strike are converted in that
      order, and the first conversion that raises aborts the scan. */
  function Priced(symbol: string, prevClose: Option<real>, dailyClose: Option<real>, best: Contract): (r: Result<Row, ScanError>)
    requires HasDelta(best) && best.expiration.Some? && best.bid.Some? && best.ask.Some?
    ensures r.Err? <==> Unpriceable(best)
  {
    if best.bid.value.NonNumeric? then Err(NotANumber("bid"))
    else if best.ask.value.NonNumeric? then Err(NotANumber("ask"))
    else if best.strike.None? then Err(MissingStrike)
    else if best.strike.value.NonNumeric? then Err(NotANumber("strike"))
    else
      var bid, ask, strike := best.bid.value.value, best.ask.value.value, best.strike.value.value;
      Ok(Row(symbol, strike, prevClose, dailyClose, best.expiration.value, Some(DeltaOf(best)),
             Round2(((bid + ask) / 2.0) * 100.0), Round2(strike * 100.0)))
  }

  /** One iteration of the loop over symbols. */
  function RowFor(symbol: string, q: Query, m: Market): (r: Result<Row, ScanError>)
    ensures r.Ok? ==> r.value.symbol == symbol
                      && r.value.prevClose == m.prevClose(symbol)
                      && r.value.dailyClose == m.dailyClose(symbol)
    ensures r.Ok? ==> IsCents(r.value.premium) && r.value.collateral == Round2(r.value.strike * 100.0)
    ensures r.Ok? && r.value.delta.Some? ==>
              r.value.delta.value <= q.deltaTarget && r.value.expiration == q.expiration
    ensures m.chain(symbol, q.queryDate).None? ==>
              r == Ok(Placeholder(symbol, m.prevClose(symbol), m.dailyClose(symbol)))
    ensures r.Err? ==> m.chain(symbol, q.queryDate).Some?
  {
    var prevClose, dailyClose := m.prevClose(symbol), m.dailyClose(symbol);
    match m.chain(symbol, q.queryDate)
    case None => Ok(Placeholder(symbol, prevClose, dailyClose))
    case Some(cs) =>
      match Filter(cs, q)
      case Err(e) => Err(e)
      case Ok(fs) =>
        match Best(fs)
        case None => Ok(Placeholder(symbol, prevClose, dailyClose))
        case Some(best) => Priced(symbol, prevClose, dailyClose, best)
  }

  /** When the chain arrives but nothing in it qualifies, the row is the
      placeholder, with the quotes looked up independently. */
  lemma RowForUnmatched(symbol: string, q: Query, m: Market)
    requires m.chain(symbol, q.queryDate).Some?
    requires forall c :: c in m.chain(symbol, q.queryDate).value ==> !UnparsableDelta(c, q) && !Qualifies(c, q)
    ensures RowFor(symbol, q, m) == Ok(Placeholder(symbol, m.prevClose(symbol), m.dailyClose(symbol)))
  {
    var cs := m.chain(symbol, q.queryDate).value;
    assert forall i :: 0 <= i < |cs| ==> cs[i] in cs;
    FilterFails(cs, q);
    FilterKeeps(cs, q);
  }

  /** When the first contract with the largest qualifying delta can be priced,
      the row carries its strike, its expiration and delta unchanged, the
      premium of its mid price and the collateral of its strike. */
  lemma RowForMatched(symbol: string, q: Query, m: Market, i: int, bid: real, ask: real, strike: real)
    requires m.chain(symbol, q.queryDate).Some?
    requires Filter(m.chain(symbol, q.queryDate).value, q).Ok?
    requires FirstMaximal(m.chain(symbol, q.queryDate).value, q, i)
    requires m.chain(symbol, q.queryDate).value[i].bid == Some(Numeric(bid))
    requires m.chain(symbol, q.queryDate).value[i].ask == Some(Numeric(ask))
    requires m.chain(symbol, q.queryDate).value[i].strike == Some(Numeric(strike))
    ensures RowFor(symbol, q, m) ==
              Ok(Row(symbol, strike, m.prevClose(symbol), m.dailyClose(symbol), q.expiration,
                     Some(DeltaOf(m.chain(symbol, q.queryDate).value[i])),
                     Round2(((bid + ask) / 2.0) * 100.0), Round2(strike * 100.0)))
  {
    SelectComplete(m.chain(symbol, q.queryDate).value, q, i);
  }

  /** The row fails, and with it the whole scan, exactly when the chain arrives
      and either the filter meets an unparsable delta or the chosen contract
      cannot be priced. */
  lemma RowForFails(symbol: string, q: Query, m: Market)
    ensures RowFor(symbol, q, m).Err? <==>
              m.chain(symbol, q.queryDate).Some?
              && var cs := m.chain(symbol, q.queryDate).value;
                 (|| (exists k :: 0 <= k < |cs| && UnparsableDelta(cs[k], q))
                  || (exists i :: FirstMaximal(cs, q, i) && Unpriceable(cs[i])))
  {
    if m.chain(symbol, q.queryDate).Some? {
      var cs := m.chain(symbol, q.queryDate).value;
      FilterFails(cs, q);
      if Filter(cs, q).Ok? {
        SelectSound(cs, q);
        if Select(cs, q).value.Some? {
          var i :| FirstMaximal(cs, q, i) && cs[i] == Select(cs, q).value.value;
          forall j | FirstMaximal(cs, q, j) ensures j == i {
            FirstMaximalUnique(cs, q, i, j);
          }
        }
      }
    }
  }

  /** `sum(row["Premium"] for row in summary_rows)`. */
  function SumPremium(rows: seq<Row>): (r: real)
    ensures (forall k :: 0 <= k < |rows| ==> rows[k].premium >= 0.0) ==> r >= 0.0
    ensures (forall k :: 0 <= k < |rows| ==> rows[k].premium == 0.0) ==> r == 0.0
  {
    if rows == [] then 0.0 else rows[0].premium + SumPremium(rows[1..])
  }

  /** `sum(row["Strike"] for row in summary_rows)`. */
  function SumStrike(rows: seq<Row>): (r: real)
    ensures (forall k :: 0 <= k < |rows| ==> rows[k].strike >= 0.0) ==> r >= 0.0
    ensures (forall k :: 0 <= k < |rows| ==> rows[k].strike == 0.0) ==> r == 0.0
  {
    if rows == [] then 0.0 else rows[0].strike + SumStrike(rows[1..])
  }

  /** The sum of the rows' collateral fields, which the source does not use. */
  function SumCollateral(rows: seq<Row>): (r: real) {
    if rows == [] then 0.0 else rows[0].collateral + SumCollateral(rows[1..])
  }

  /** Both sums split over a concatenation of rows. */
  lemma {:induction false} SumsConcat(a: seq<Row>, b: seq<Row>)
    ensures SumPremium(a + b) == SumPremium(a) + SumPremium(b)
    ensures SumStrike(a + b) == SumStrike(a) + SumStrike(b)
  {
    if a == [] {
      assert a + b == b;
    } else {
      assert (a + b)[0] == a[0];
      assert (a + b)[1..] == a[1..] + b;
      SumsConcat(a[1..], b);
    }
  }

  /** A placeholder row adds nothing to either total. */
  lemma PlaceholderAddsNothing(a: seq<Row>, b: seq<Row>, symbol: string, prevClose: Option<real>, dailyClose: Option<real>)
    ensures SumPremium(a + [Placeholder(symbol, prevClose, dailyClose)] + b) == SumPremium(a + b)
    ensures SumStrike(a + [Placeholder(symbol, prevClose, dailyClose)] + b) == SumStrike(a + b)
  {
    var p := [Placeholder(symbol, prevClose, dailyClose)];
    SumsConcat(a, p);
    SumsConcat(a + p, b);
    SumsConcat(a, b);
    assert SumPremium(p) == 0.0 && SumStrike(p) == 0.0 by {
      assert p[1..] == [];
    }
  }

  /** Summing strikes and then multiplying by 100 gives the sum of the
      collateral fields whenever each of them is exactly 100 times its strike
      (that is, when rounding the collateral changed nothing). */
  lemma {:induction false} StrikeTotalIsCollateralTotal(rows: seq<Row>)
    requires forall r :: r in rows ==> r.collateral == r.strike * 100.0
    ensures SumStrike(rows) * 100.0 == SumCollateral(rows)
  {
    if rows != [] {
      assert rows[0] in rows;
      assert forall r :: r in rows[1..] ==> r in rows;
      StrikeTotalIsCollateralTotal(rows[1..]);
    }
  }

  /** The scan's result for the rows it built: the premium total is the
      rounded sum of the premiums, and the collateral total is 100 times the
      sum of the strikes, rounded (not the sum of the collateral fields). */
  function Summarize(rows: seq<Row>): (s: Summary)
    ensures s.rows == rows
    ensures IsCents(s.totalPremium) && IsCents(s.totalCollateral)
    ensures (forall r :: r in rows ==> r.premium == 0.0 && r.strike == 0.0) ==>
              s.totalPremium == 0.0 && s.totalCollateral == 0.0
  {
    Summary(rows, Round2(SumPremium(rows)), Round2(SumStrike(rows) * 100.0))
  }

  /** `scan_options`: the API-key check, then the loop that appends one row per
      symbol, then the totals. An exception in any iteration aborts the scan
      and no rows are returned. */
  method Scan(apiKey: string, symbols: seq<string>, q: Query, m: Market) returns (outcome: Result<Summary, ScanError>)
    ensures apiKey == "" ==> outcome == Err(MissingApiKey)
    ensures outcome.Ok? ==>
              && apiKey != ""
              && |outcome.value.rows| == |symbols|
              && forall k :: 0 <= k < |symbols| ==>
                   outcome.value.rows[k].symbol == symbols[k]
                   && RowFor(symbols[k], q, m) == Ok(outcome.value.rows[k])
    ensures outcome.Ok? ==> outcome.value == Summarize(outcome.value.rows)
    ensures outcome.Err? && apiKey != "" ==>
              exists k :: 0 <= k < |symbols| && RowFor(symbols[k], q, m) == Err(outcome.error)
                          && forall j :: 0 <= j < k ==> RowFor(symbols[j], q, m).Ok?
    ensures apiKey != "" && (forall k :: 0 <= k < |symbols| ==> RowFor(symbols[k], q, m).Ok?) ==> outcome.Ok?
  {
    if apiKey == "" {
      return Err(MissingApiKey);
    }
    var rows: seq<Row> := [];
    var i := 0;
    while i < |symbols|
      invariant 0 <= i <= |symbols|
      invariant |rows| == i
      invariant forall k :: 0 <= k < i ==> RowFor(symbols[k], q, m) == Ok(rows[k])
    {
      var row := RowFor(symbols[i], q, m);
      if row.Err? {
        return Err(row.error);
      }
      rows := rows + [row.value];
      i := i + 1;
    }
    outcome := Ok(Summarize(rows));
  }
}
