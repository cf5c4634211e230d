/** The contract filter of `scan_options` (its list comprehension) and the
    choice of the best contract (its `max` call with a delta key). */
module OptionChain {
  import opened Wrappers

  /** A field that is present in a contract's JSON, as Python's `float` sees it:
      a number it parses, or something it rejects with `ValueError`. */
  datatype Raw = Numeric(value: real) | NonNumeric

  /** One element of the provider's `data` list; every field is read with
      `o.get(...)` and may be absent (`None`). */
  datatype Contract = Contract(
    expiration: Option<string>,
    optionType: Option<string>,
    delta: Option<Raw>,
    bid: Option<Raw>,
    ask: Option<Raw>,
    strike: Option<Raw>)

  /** The scan parameters every symbol shares. `expiration` is the text of
      `str(expiration_date)`; `optionType` is "put" or "call". */
  datatype Query = Query(queryDate: string, expiration: string, deltaTarget: real, optionType: string)

  /** The exceptions that escape `scan_options` and abort the whole scan:
      the `ValueError` for a missing API key, the `ValueError` of `float` on a
      field that is not a number, and the `KeyError` (or `TypeError`) of reading
      `best["strike"]` when the chosen contract has no strike. */
  datatype ScanError = MissingApiKey | NotANumber(field: string) | MissingStrike

  predicate HasDelta(c: Contract) {
    c.delta.Some? && c.delta.value.Numeric?
  }

  function DeltaOf(c: Contract): real
    requires HasDelta(c)
  {
    c.delta.value.value
  }

  /** The six conditions under which the comprehension keeps a contract. */
  predicate Qualifies(c: Contract, q: Query) {
    && c.expiration == Some(q.expiration)
    && c.optionType == Some(q.optionType)
    && HasDelta(c)
    && DeltaOf(c) <= q.deltaTarget
    && c.bid.Some?
    && c.ask.Some?
  }

  /** The comprehension's condition reaches `float(o["delta"])` on a delta that
      is not a number, which raises. */
  predicate UnparsableDelta(c: Contract, q: Query) {
    c.expiration == Some(q.expiration) && c.optionType == Some(q.optionType)
      && c.delta.Some? && c.delta.value.NonNumeric?
  }

  /** The comprehension's condition on one contract, evaluated left to right
      with `and` short-circuiting. */
  function Keep(c: Contract, q: Query): (r: Result<bool, ScanError>)
    ensures r.Err? <==> UnparsableDelta(c, q)
    ensures r.Err? ==> r.error == NotANumber("delta")
    ensures r.Ok? ==> (r.value <==> Qualifies(c, q))
  {
    if c.expiration != Some(q.expiration) then Ok(false)
    else if c.optionType != Some(q.optionType) then Ok(false)
    else if c.delta.None? then Ok(false)
    else if c.delta.value.NonNumeric? then Err(NotANumber("delta"))
    else if !(c.delta.value.value <= q.deltaTarget) then Ok(false)
    else if c.bid.None? then Ok(false)
    else if c.ask.None? then Ok(false)
    else Ok(true)
  }

  /** The list comprehension: the contracts that qualify, in list order, or the
      exception raised by the first unparsable delta it reaches. */
  function Filter(cs: seq<Contract>, q: Query): (r: Result<seq<Contract>, ScanError>)
    ensures r.Ok? ==> forall c :: c in r.value ==> Qualifies(c, q)
  {
    if cs == [] then Ok([])
    else
      match Keep(cs[0], q)
      case Err(e) => Err(e)
      case Ok(keep) =>
        match Filter(cs[1..], q)
        case Err(e) => Err(e)
        case Ok(rest) => Ok(if keep then [cs[0]] + rest else rest)
  }

  /** The comprehension raises exactly when some contract reaches an
      unparsable delta, and then with the delta's `ValueError`. */
  lemma {:induction false} FilterFails(cs: seq<Contract>, q: Query)
    ensures Filter(cs, q).Err? <==> exists i :: 0 <= i < |cs| && UnparsableDelta(cs[i], q)
    ensures Filter(cs, q).Err? ==> Filter(cs, q).error == NotANumber("delta")
  {
    if cs != [] {
      FilterFails(cs[1..], q);
      assert forall i :: 1 <= i < |cs| ==> cs[i] == cs[1..][i - 1];
      if Filter(cs[1..], q).Err? {
        var i :| 0 <= i < |cs[1..]| && UnparsableDelta(cs[1..][i], q);
        assert UnparsableDelta(cs[i + 1], q);
      }
    }
  }

  /** A successful filter keeps exactly the qualifying contracts: a contract is
      kept if and only if it is in the chain and qualifies, so nothing is kept
      exactly when nothing qualifies. */
  lemma {:induction false} FilterKeeps(cs: seq<Contract>, q: Query)
    requires Filter(cs, q).Ok?
    ensures forall c :: c in Filter(cs, q).value <==> c in cs && Qualifies(c, q)
    ensures |Filter(cs, q).value| <= |cs|
    ensures Filter(cs, q).value == [] <==> forall i :: 0 <= i < |cs| ==> !Qualifies(cs[i], q)
  {
    if cs != [] {
      FilterStep(cs, q);
      FilterKeeps(cs[1..], q);
      assert forall i :: 1 <= i < |cs| ==> cs[i] == cs[1..][i - 1];
      assert forall c :: c in cs <==> c == cs[0] || c in cs[1..];
    }
  }

  /** One step of the filter: a successful filter of a non-empty chain is the
      first contract, if it qualifies, before the filter of the rest. */
  lemma FilterStep(cs: seq<Contract>, q: Query)
    requires cs != [] && Filter(cs, q).Ok?
    ensures Filter(cs[1..], q).Ok?
    ensures Filter(cs, q).value ==
              if Qualifies(cs[0], q) then [cs[0]] + Filter(cs[1..], q).value else Filter(cs[1..], q).value
  {
  }

  /** Position of the element with the largest delta; on a tie the earliest
      wins, since Python's `max` replaces its candidate only on a strictly
      larger key. */
  function MaxIndex(s: seq<Contract>): (i: nat)
    requires |s| > 0
    requires forall c :: c in s ==> HasDelta(c)
    ensures i < |s|
    ensures forall k :: 0 <= k < |s| ==> DeltaOf(s[k]) <= DeltaOf(s[i])
    ensures forall k :: 0 <= k < i ==> DeltaOf(s[k]) < DeltaOf(s[i])
  {
    if |s| == 1 then 0
    else
      var m := MaxIndex(s[..|s| - 1]);
      if DeltaOf(s[|s| - 1]) > DeltaOf(s[m]) then |s| - 1 else m
  }

  /** `max(filtered, key=delta, default=None)`. */
  function Best(fs: seq<Contract>): (r: Option<Contract>)
    requires forall c :: c in fs ==> HasDelta(c)
    ensures r.None? <==> fs == []
    ensures r.Some? ==> r.value in fs && forall c :: c in fs ==> DeltaOf(c) <= DeltaOf(r.value)
    ensures r.Some? ==> exists i :: 0 <= i < |fs| && fs[i] == r.value
                                    && forall k :: 0 <= k < i ==> DeltaOf(fs[k]) < DeltaOf(r.value)
  {
    if fs == [] then None
    else
      var i := MaxIndex(fs);
      assert forall c :: c in fs ==> exists k :: 0 <= k < |fs| && fs[k] == c;
      Some(fs[i])
  }

  /** Filter, then select: the contract a symbol's row is built from, `None`
      when nothing qualifies. */
  function Select(cs: seq<Contract>, q: Query): (r: Result<Option<Contract>, ScanError>)
    ensures r.Err? <==> exists i :: 0 <= i < |cs| && UnparsableDelta(cs[i], q)
    ensures r.Ok? && r.value.Some? ==> r.value.value in cs && Qualifies(r.value.value, q)
  {
    FilterFails(cs, q);
    match Filter(cs, q)
    case Err(e) => Err(e)
    case Ok(fs) => FilterKeeps(cs, q); Ok(Best(fs))
  }

  /** `cs[i]` is the first contract with the largest delta among those that
      qualify: the source's selection stated without the filtered list. */
  predicate FirstMaximal(cs: seq<Contract>, q: Query, i: int) {
    && 0 <= i < |cs|
    && Qualifies(cs[i], q)
    && (forall k :: 0 <= k < |cs| && Qualifies(cs[k], q) ==> DeltaOf(cs[k]) <= DeltaOf(cs[i]))
    && (forall k :: 0 <= k < i && Qualifies(cs[k], q) ==> DeltaOf(cs[k]) < DeltaOf(cs[i]))
  }

  /** The filter keeps list order: filtering a concatenation concatenates the
      filtered parts. */
  lemma {:induction false} FilterConcat(a: seq<Contract>, b: seq<Contract>, q: Query)
    requires Filter(a, q).Ok? && Filter(b, q).Ok?
    ensures Filter(a + b, q) == Ok(Filter(a, q).value + Filter(b, q).value)
  {
    if a == [] {
      assert a + b == b;
      assert Filter(a, q).value + Filter(b, q).value == Filter(b, q).value;
    } else {
      assert (a + b)[0] == a[0];
      assert (a + b)[1..] == a[1..] + b;
      FilterConcat(a[1..], b, q);
      var fa, fb := Filter(a[1..], q).value, Filter(b, q).value;
      assert [a[0]] + (fa + fb) == ([a[0]] + fa) + fb;
    }
  }

  /** The tail of a prefix is a prefix of the tail. */
  lemma PrefixTail<T>(s: seq<T>, n: nat)
    requires n < |s|
    ensures s[..n + 1][0] == s[0] && s[..n + 1][1..] == s[1..][..n]
  {
  }

  /** Each kept contract comes from some position of the input, and what the
      filter keeps before that position is exactly the kept prefix. */
  lemma {:induction false} FilterOrigin(cs: seq<Contract>, q: Query, j: nat)
    requires Filter(cs, q).Ok? && j < |Filter(cs, q).value|
    ensures exists i :: 0 <= i < |cs| && cs[i] == Filter(cs, q).value[j]
                        && Filter(cs[..i], q) == Ok(Filter(cs, q).value[..j])
  {
    var fs := Filter(cs, q).value;
    FilterStep(cs, q);
    var c, rest := cs[0], cs[1..];
    var frs := Filter(rest, q).value;
    var kept := Qualifies(c, q);
    if kept && j == 0 {
      assert cs[..0] == [] && fs[..0] == [];
      assert cs[0] == fs[0];
    } else {
      var j' := if kept then j - 1 else j;
      FilterOrigin(rest, q, j');
      var i' :| 0 <= i' < |rest| && rest[i'] == frs[j'] && Filter(rest[..i'], q) == Ok(frs[..j']);
      var pre := cs[..i' + 1];
      PrefixTail(cs, i');
      FilterStep(pre, q);
      assert fs[..j] == if kept then [c] + frs[..j'] else frs[..j'];
      assert cs[i' + 1] == fs[j];
    }
  }

  /** What `Select` returns is the first contract with the largest delta among
      the qualifying ones, and `None` exactly when none qualifies. */
  lemma SelectSound(cs: seq<Contract>, q: Query)
    requires Select(cs, q).Ok?
    ensures Select(cs, q).value.None? <==> forall k :: 0 <= k < |cs| ==> !Qualifies(cs[k], q)
    ensures Select(cs, q).value.Some? ==>
              exists i :: FirstMaximal(cs, q, i) && cs[i] == Select(cs, q).value.value
  {
    var fs := Filter(cs, q).value;
    FilterKeeps(cs, q);
    if fs != [] {
      var m := MaxIndex(fs);
      assert Best(fs) == Some(fs[m]);
      assert fs[m] in fs;
      FilterOrigin(cs, q, m);
      var i :| 0 <= i < |cs| && cs[i] == fs[m] && Filter(cs[..i], q) == Ok(fs[..m]);
      forall k | 0 <= k < |cs| && Qualifies(cs[k], q)
        ensures DeltaOf(cs[k]) <= DeltaOf(cs[i])
      {
        assert cs[k] in cs;
      }
      forall k | 0 <= k < i && Qualifies(cs[k], q)
        ensures DeltaOf(cs[k]) < DeltaOf(cs[i])
      {
        assert cs[k] == cs[..i][k];
        FilterKeeps(cs[..i], q);
        assert cs[k] in fs[..m];
        var k' :| 0 <= k' < m && fs[..m][k'] == cs[k];
        assert fs[k'] == cs[k];
      }
      assert FirstMaximal(cs, q, i);
    }
  }

  /** At most one position is the first maximal one. */
  lemma FirstMaximalUnique(cs: seq<Contract>, q: Query, i: int, j: int)
    requires FirstMaximal(cs, q, i) && FirstMaximal(cs, q, j)
    ensures i == j
  {
  }

  /** Conversely, the first maximal qualifying contract is the one selected. */
  lemma SelectComplete(cs: seq<Contract>, q: Query, i: int)
    requires Filter(cs, q).Ok? && FirstMaximal(cs, q, i)
    ensures Select(cs, q) == Ok(Some(cs[i]))
  {
    FilterKeeps(cs, q);
    assert cs[i] in Filter(cs, q).value;
    SelectSound(cs, q);
    var j :| FirstMaximal(cs, q, j) && cs[j] == Select(cs, q).value.value;
    FirstMaximalUnique(cs, q, i, j);
  }
}
