/** Concrete scans of one symbol, worked through the model. */
module Scenarios {
  import opened Wrappers
  import opened Rounding
  import opened OptionChain
  import opened OptionScan

  function PutQuery(): Query {
    Query("2025-08-01", "2025-08-15", -0.20, "put")
  }

  function Put(delta: real, bid: real, ask: real, strike: real): Contract {
    Contract(Some("2025-08-15"), Some("put"), Some(Numeric(delta)), Some(Numeric(bid)),
             Some(Numeric(ask)), Some(Numeric(strike)))
  }

  /** Of a -0.18 put and a -0.25 put with target -0.20, only the second
      qualifies; its mid price 0.90 gives a premium of 90 and its strike 95 a
      collateral of 9500. */
  lemma SecondPutSelected(m: Market)
    requires m.chain("AMD", "2025-08-01") == Some([Put(-0.18, 1.00, 1.20, 100.0), Put(-0.25, 0.80, 1.00, 95.0)])
    ensures RowFor("AMD", PutQuery(), m) ==
              Ok(Row("AMD", 95.0, m.prevClose("AMD"), m.dailyClose("AMD"), "2025-08-15", Some(-0.25), 90.0, 9500.0))
  {
    var cs := [Put(-0.18, 1.00, 1.20, 100.0), Put(-0.25, 0.80, 1.00, 95.0)];
    assert FirstMaximal(cs, PutQuery(), 1);
    RowForMatched("AMD", PutQuery(), m, 1, 0.80, 1.00, 95.0);
  }

  /** Two qualifying puts with the same delta: the earlier one in the list is
      the one reported. */
  lemma TieGoesToFirst(m: Market)
    requires m.chain("AMD", "2025-08-01") ==
               Some([Put(-0.30, 0.50, 0.60, 90.0), Put(-0.25, 0.80, 1.00, 95.0), Put(-0.25, 0.70, 0.90, 94.0)])
    ensures RowFor("AMD", PutQuery(), m).Ok?
    ensures RowFor("AMD", PutQuery(), m).value.strike == 95.0
  {
    var cs := [Put(-0.30, 0.50, 0.60, 90.0), Put(-0.25, 0.80, 1.00, 95.0), Put(-0.25, 0.70, 0.90, 94.0)];
    assert FirstMaximal(cs, PutQuery(), 1);
    RowForMatched("AMD", PutQuery(), m, 1, 0.80, 1.00, 95.0);
  }

  /** A failed chain request still yields a row, with the quotes unchanged. */
  lemma FailedRequestGivesPlaceholder(m: Market)
    requires m.chain("SOFI", "2025-08-01") == None
    ensures RowFor("SOFI", PutQuery(), m) ==
              Ok(Row("SOFI", 0.0, m.prevClose("SOFI"), m.dailyClose("SOFI"), "", None, 0.0, 0.0))
  {
  }
}
