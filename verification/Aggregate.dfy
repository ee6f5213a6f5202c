/** The price monitor's aggregation: median, outlier rejection against a provisional median, and a
    spread gate. Prices are reals; a quote that is not finite is kept apart. */
module Aggregate {

  datatype Num = NonFinite | Fin(r: real)

  datatype Quote = Quote(source: string, price: Num)

  datatype Config = Config(minSources: int, outlierPct: real, maxSpreadPct: real)

  datatype Cause = InvalidPrice | Outlier

  datatype Rejected = Rejected(source: string, price: Num, cause: Cause)

  datatype Refusal = TooFewValid | TooFewInBand | SpreadTooWide

  datatype Outcome =
    | Refused(why: Refusal, rejected: seq<Rejected>)
    | Accepted(medianUsd: Num, used: seq<string>, rejected: seq<Rejected>)

  // ---- Sorting and the median ----

  function Insert(x: real, s: seq<real>): seq<real> {
    if s == [] || x <= s[0] then [x] + s else [s[0]] + Insert(x, s[1..])
  }

  function Sort(s: seq<real>): seq<real> {
    if s == [] then [] else Insert(s[0], Sort(s[1..]))
  }

  predicate Sorted(s: seq<real>) {
    forall i, j :: 0 <= i < j < |s| ==> s[i] <= s[j]
  }

  lemma {:induction false} InsertAdds(x: real, s: seq<real>)
    ensures multiset(Insert(x, s)) == multiset(s) + multiset{x}
  {
    if s != [] && x > s[0] {
      InsertAdds(x, s[1..]);
      assert s == [s[0]] + s[1..];
    }
  }

  lemma {:induction false} InsertSorts(x: real, s: seq<real>)
    requires Sorted(s)
    ensures Sorted(Insert(x, s)) && |Insert(x, s)| == |s| + 1
    ensures Insert(x, s)[0] == if s == [] || x <= s[0] then x else s[0]
  {
    if s != [] && x > s[0] {
      InsertSorts(x, s[1..]);
    }
  }

  /** The sorted copy is sorted and holds the same values. */
  lemma {:induction false} SortIsPermutation(s: seq<real>)
    ensures Sorted(Sort(s)) && multiset(Sort(s)) == multiset(s) && |Sort(s)| == |s|
  {
    if s != [] {
      SortIsPermutation(s[1..]);
      InsertSorts(s[0], Sort(s[1..]));
      InsertAdds(s[0], Sort(s[1..]));
      assert s == [s[0]] + s[1..];
    }
  }

  /** The average of the two middles for an even count; of no values there is none. */
  function Median(values: seq<real>): Num {
    var sorted := Sort(values);
    var mid := |sorted| / 2;
    if |sorted| == 0 then NonFinite
    else if |sorted| % 2 == 1 then Fin(sorted[mid])
    else Fin((sorted[mid - 1] + sorted[mid]) / 2.0)
  }

  lemma HeadIsLeast(s: seq<real>, x: real)
    requires Sorted(s) && x in multiset(s)
    ensures s[0] <= x
  {
    var i :| 0 <= i < |s| && s[i] == x;
  }

  lemma TailMultiset(s: seq<real>)
    requires s != []
    ensures multiset(s[1..]) == multiset(s) - multiset{s[0]}
  {
    assert s == [s[0]] + s[1..];
  }

  lemma HeadsAgree(a: seq<real>, b: seq<real>)
    requires Sorted(a) && Sorted(b) && multiset(a) == multiset(b) && a != [] && b != []
    ensures a[0] == b[0] && multiset(a[1..]) == multiset(b[1..])
  {
    assert a[0] in multiset(a) && b[0] in multiset(b);
    HeadIsLeast(a, b[0]);
    HeadIsLeast(b, a[0]);
    TailMultiset(a);
    TailMultiset(b);
  }

  lemma {:induction false} SortedIsUnique(a: seq<real>, b: seq<real>)
    requires Sorted(a) && Sorted(b) && multiset(a) == multiset(b) && |a| == |b|
    ensures a == b
  {
    if a != [] {
      HeadsAgree(a, b);
      SortedIsUnique(a[1..], b[1..]);
      assert a == [a[0]] + a[1..] && b == [b[0]] + b[1..];
    }
  }

  /** The median does not depend on the order in which the quotes came in. */
  lemma MedianIgnoresOrder(a: seq<real>, b: seq<real>)
    requires multiset(a) == multiset(b)
    ensures Median(a) == Median(b)
  {
    SortIsPermutation(a);
    SortIsPermutation(b);
    assert |a| == |multiset(a)| && |b| == |multiset(b)|;
    SortedIsUnique(Sort(a), Sort(b));
  }

  // ---- Counting quotes in a band ----

  function CountIn(s: seq<real>, lo: real, hi: real): nat {
    if s == [] then 0 else (if lo <= s[0] <= hi then 1 else 0) + CountIn(s[1..], lo, hi)
  }

  lemma {:induction false} CountAppend(a: seq<real>, b: seq<real>, lo: real, hi: real)
    ensures CountIn(a + b, lo, hi) == CountIn(a, lo, hi) + CountIn(b, lo, hi)
  {
    if a == [] {
      assert a + b == b;
    } else {
      CountAppend(a[1..], b, lo, hi);
      assert (a + b)[1..] == a[1..] + b;
    }
  }

  lemma {:induction false} CountBound(s: seq<real>, lo: real, hi: real)
    ensures CountIn(s, lo, hi) <= |s|
    ensures (forall i :: 0 <= i < |s| ==> !(lo <= s[i] <= hi)) ==> CountIn(s, lo, hi) == 0
  {
    if s != [] {
      CountBound(s[1..], lo, hi);
    }
  }

  lemma {:induction false} CountInsert(x: real, s: seq<real>, lo: real, hi: real)
    ensures CountIn(Insert(x, s), lo, hi) == CountIn([x], lo, hi) + CountIn(s, lo, hi)
  {
    if s == [] || x <= s[0] {
      CountAppend([x], s, lo, hi);
    } else {
      CountInsert(x, s[1..], lo, hi);
      CountAppend([s[0]], Insert(x, s[1..]), lo, hi);
      assert s == [s[0]] + s[1..];
      CountAppend([s[0]], s[1..], lo, hi);
    }
  }

  lemma {:induction false} CountSort(s: seq<real>, lo: real, hi: real)
    ensures CountIn(Sort(s), lo, hi) == CountIn(s, lo, hi)
  {
    if s != [] {
      CountSort(s[1..], lo, hi);
      CountInsert(s[0], Sort(s[1..]), lo, hi);
    }
  }

  /** In a sorted sequence, an element outside the band leaves one side of it without band members. */
  lemma OutsideCounts(s: seq<real>, i: nat, lo: real, hi: real)
    requires Sorted(s) && i < |s| && lo <= hi
    ensures s[i] < lo ==> CountIn(s, lo, hi) <= |s| - i - 1
    ensures s[i] > hi ==> CountIn(s, lo, hi) <= i
  {
    assert s == s[..i + 1] + s[i + 1..] && s == s[..i] + s[i..];
    CountAppend(s[..i + 1], s[i + 1..], lo, hi);
    CountAppend(s[..i], s[i..], lo, hi);
    CountBound(s[..i + 1], lo, hi);
    CountBound(s[i + 1..], lo, hi);
    CountBound(s[..i], lo, hi);
    CountBound(s[i..], lo, hi);
  }

  /** A strict majority in a band pulls the median into it. */
  lemma MajorityHoldsMedian(values: seq<real>, lo: real, hi: real)
    requires 2 * CountIn(values, lo, hi) > |values| && lo <= hi
    ensures Median(values).Fin? && lo <= Median(values).r <= hi
  {
    var s := Sort(values);
    SortIsPermutation(values);
    CountSort(values, lo, hi);
    CountBound(s, lo, hi);
    var mid := |s| / 2;
    OutsideCounts(s, mid, lo, hi);
    if |s| % 2 == 0 {
      OutsideCounts(s, mid - 1, lo, hi);
    }
  }

  // ---- Aggregation ----

  predicate IsValid(q: Quote) {
    q.price.Fin? && q.price.r > 0.0
  }

  type ValidQuote = q: Quote | IsValid(q) witness Quote("", Fin(1.0))

  function ValidQuotes(quotes: seq<Quote>): seq<ValidQuote> {
    if quotes == [] then []
    else
      var init := ValidQuotes(quotes[..|quotes| - 1]);
      if IsValid(quotes[|quotes| - 1]) then init + [quotes[|quotes| - 1]] else init
  }

  function InvalidRejects(quotes: seq<Quote>): seq<Rejected> {
    if quotes == [] then []
    else
      var q := quotes[|quotes| - 1];
      InvalidRejects(quotes[..|quotes| - 1]) + if IsValid(q) then [] else [Rejected(q.source, q.price, InvalidPrice)]
  }

  function Abs(x: real): real {
    if x < 0.0 then -x else x
  }

  predicate IsOutlier(price: real, provisional: real, outlierPct: real)
    requires provisional > 0.0
  {
    Abs(price - provisional) / provisional > outlierPct / 100.0
  }

  function Survivors(quotes: seq<ValidQuote>, provisional: real, pct: real): (kept: seq<ValidQuote>)
    requires provisional > 0.0
    ensures |kept| <= |quotes|
  {
    if quotes == [] then []
    else
      var q := quotes[|quotes| - 1];
      Survivors(quotes[..|quotes| - 1], provisional, pct) + if IsOutlier(q.price.r, provisional, pct) then [] else [q]
  }

  function OutlierRejects(quotes: seq<ValidQuote>, provisional: real, pct: real): seq<Rejected>
    requires provisional > 0.0
  {
    if quotes == [] then []
    else
      var q := quotes[|quotes| - 1];
      OutlierRejects(quotes[..|quotes| - 1], provisional, pct)
      + if IsOutlier(q.price.r, provisional, pct) then [Rejected(q.source, q.price, Outlier)] else []
  }

  function Prices(quotes: seq<ValidQuote>): (ps: seq<real>)
    ensures |ps| == |quotes| && forall i :: 0 <= i < |ps| ==> ps[i] == quotes[i].price.r
  {
    seq(|quotes|, i requires 0 <= i < |quotes| => quotes[i].price.r)
  }

  function Sources(quotes: seq<ValidQuote>): seq<string> {
    seq(|quotes|, i requires 0 <= i < |quotes| => quotes[i].source)
  }

  function MaxOf(s: seq<real>): real
    requires s != []
  {
    if |s| == 1 then s[0] else var m := MaxOf(s[1..]); if s[0] >= m then s[0] else m
  }

  function MinOf(s: seq<real>): real
    requires s != []
  {
    if |s| == 1 then s[0] else var m := MinOf(s[1..]); if s[0] <= m then s[0] else m
  }

  lemma MedianIsPositive(values: seq<real>)
    requires values != [] && forall i :: 0 <= i < |values| ==> values[i] > 0.0
    ensures Median(values).Fin? && Median(values).r > 0.0
  {
    SortIsPermutation(values);
    var s := Sort(values);
    forall i | 0 <= i < |s| ensures s[i] > 0.0 {
      assert s[i] in multiset(s);
    }
  }

  /** The spread, in percent of the median, is beyond what is permitted. */
  predicate TooWide(gap: real, median: real, maxSpreadPct: real)
    requires median > 0.0
  {
    gap / median * 100.0 > maxSpreadPct
  }

  /** The gate on what is left. With no quotes at all the median is not a number and nothing compares. */
  function Judge(survivors: seq<ValidQuote>, rejected: seq<Rejected>, cfg: Config): Outcome {
    var prices := Prices(survivors);
    if |survivors| < cfg.minSources then Refused(TooFewInBand, rejected)
    else if prices == [] then Accepted(NonFinite, [], rejected)
    else
      MedianIsPositive(prices);
      if TooWide(MaxOf(prices) - MinOf(prices), Median(prices).r, cfg.maxSpreadPct) then Refused(SpreadTooWide, rejected)
      else Accepted(Median(prices), Sources(survivors), rejected)
  }

  function AggregateOf(quotes: seq<Quote>, cfg: Config): Outcome {
    var valid := ValidQuotes(quotes);
    var bad := InvalidRejects(quotes);
    if |valid| < cfg.minSources then Refused(TooFewValid, bad)
    else if valid == [] then Judge([], bad, cfg)
    else
      MedianIsPositive(Prices(valid));
      var provisional := Median(Prices(valid)).r;
      Judge(Survivors(valid, provisional, cfg.outlierPct), bad + OutlierRejects(valid, provisional, cfg.outlierPct), cfg)
  }

  /** The two filtering passes, each filling the shared list of rejects as it goes. */
  method RunAggregate(quotes: seq<Quote>, cfg: Config) returns (out: Outcome)
    ensures out == AggregateOf(quotes, cfg)
  {
    var rejects: seq<Rejected> := [];
    var valid: seq<ValidQuote> := [];
    for i := 0 to |quotes|
      invariant valid == ValidQuotes(quotes[..i]) && rejects == InvalidRejects(quotes[..i])
    {
      assert quotes[..i + 1][..i] == quotes[..i];
      var bad := !quotes[i].price.Fin? || quotes[i].price.r <= 0.0;
      if bad {
        rejects := rejects + [Rejected(quotes[i].source, quotes[i].price, InvalidPrice)];
      } else {
        valid := valid + [quotes[i]];
      }
    }
    assert quotes[..|quotes|] == quotes;
    if |valid| < cfg.minSources {
      return Refused(TooFewValid, rejects);
    }
    if |valid| == 0 {
      return Judge([], rejects, cfg);
    }
    MedianIsPositive(Prices(valid));
    var provisional := Median(Prices(valid)).r;
    var survivors: seq<ValidQuote> := [];
    var outliers: seq<Rejected> := [];
    for i := 0 to |valid|
      invariant survivors == Survivors(valid[..i], provisional, cfg.outlierPct)
      invariant outliers == OutlierRejects(valid[..i], provisional, cfg.outlierPct)
    {
      assert valid[..i + 1][..i] == valid[..i];
      if IsOutlier(valid[i].price.r, provisional, cfg.outlierPct) {
        outliers := outliers + [Rejected(valid[i].source, valid[i].price, Outlier)];
      } else {
        survivors := survivors + [valid[i]];
      }
    }
    assert valid[..|valid|] == valid;
    out := Judge(survivors, rejects + outliers, cfg);
  }

  // ---- A majority cannot be moved ----

  /** Near a provisional median inside the band, no quote of the band is an outlier. */
  lemma BandIsKept(price: real, provisional: real, lo: real, hi: real, pct: real)
    requires 0.0 < lo <= price <= hi && lo <= provisional <= hi && hi - lo <= pct / 100.0 * lo
    ensures !IsOutlier(price, provisional, pct)
  {
    var limit := pct / 100.0;
    var gap := Abs(price - provisional);
    assert gap <= hi - lo;
    assert limit >= 0.0 by {
      if limit < 0.0 {
        NegativeProduct(limit, lo);
      }
    }
    ScaleUp(limit, lo, provisional);
    assert gap <= limit * provisional;
    QuotientBound(gap, provisional, limit);
  }

  lemma NegativeProduct(a: real, b: real)
    requires a < 0.0 && b > 0.0
    ensures a * b < 0.0
  {
  }

  lemma ScaleUp(a: real, b: real, c: real)
    requires a >= 0.0 && b <= c
    ensures a * b <= a * c
  {
  }

  lemma QuotientBound(a: real, b: real, q: real)
    requires b > 0.0 && a <= q * b
    ensures a / b <= q
  {
  }

  lemma {:induction false} SurvivorsKeepBand(quotes: seq<ValidQuote>, provisional: real, pct: real, lo: real, hi: real)
    requires 0.0 < lo <= provisional <= hi && hi - lo <= pct / 100.0 * lo
    ensures CountIn(Prices(Survivors(quotes, provisional, pct)), lo, hi) == CountIn(Prices(quotes), lo, hi)
  {
    if quotes != [] {
      var init, q := quotes[..|quotes| - 1], quotes[|quotes| - 1];
      SurvivorsKeepBand(init, provisional, pct, lo, hi);
      assert Prices(quotes) == Prices(init) + [q.price.r];
      CountAppend(Prices(init), [q.price.r], lo, hi);
      var kept := Survivors(init, provisional, pct);
      if lo <= q.price.r <= hi {
        BandIsKept(q.price.r, provisional, lo, hi, pct);
      }
      if !IsOutlier(q.price.r, provisional, pct) {
        assert Prices(kept + [q]) == Prices(kept) + [q.price.r];
        CountAppend(Prices(kept), [q.price.r], lo, hi);
      } else {
        assert Survivors(quotes, provisional, pct) == kept;
      }
    }
  }

  /** The accepted price of a set of valid quotes with a majority in the band. */
  lemma AcceptedInBand(quotes: seq<Quote>, cfg: Config, lo: real, hi: real)
    requires 0.0 < lo <= hi && hi - lo <= cfg.outlierPct / 100.0 * lo
    requires 2 * CountIn(Prices(ValidQuotes(quotes)), lo, hi) > |ValidQuotes(quotes)|
    ensures var out := AggregateOf(quotes, cfg);
            out.Accepted? ==> out.medianUsd.Fin? && lo <= out.medianUsd.r <= hi
  {
    hide Median, IsOutlier, Survivors, CountIn, Judge;
    var valid := ValidQuotes(quotes);
    MajorityHoldsMedian(Prices(valid), lo, hi);
    var provisional := Median(Prices(valid)).r;
    CountBound(Prices(valid), lo, hi);
    var kept := Survivors(valid, provisional, cfg.outlierPct);
    SurvivorsKeepBand(valid, provisional, cfg.outlierPct, lo, hi);
    CountBound(Prices(kept), lo, hi);
    MajorityHoldsMedian(Prices(kept), lo, hi);
    JudgeInBand(kept, InvalidRejects(quotes) + OutlierRejects(valid, provisional, cfg.outlierPct), cfg, lo, hi);
  }

  /** If strictly more than half of the valid quotes lie in a band no wider than the tolerance, then
      the provisional median lies in it, none of those quotes is rejected, and any accepted price
      lies in it, whatever the other quotes say and in whatever order they come. */
  lemma MajorityIsSafe(quotes: seq<Quote>, cfg: Config, lo: real, hi: real)
    requires 0.0 < lo <= hi && hi - lo <= cfg.outlierPct / 100.0 * lo
    requires 2 * CountIn(Prices(ValidQuotes(quotes)), lo, hi) > |ValidQuotes(quotes)|
    ensures var provisional := Median(Prices(ValidQuotes(quotes)));
            && provisional.Fin? && lo <= provisional.r <= hi
            && forall q :: q in ValidQuotes(quotes) && lo <= q.price.r <= hi ==>
                 !IsOutlier(q.price.r, provisional.r, cfg.outlierPct)
    ensures var out := AggregateOf(quotes, cfg);
            out.Accepted? ==> out.medianUsd.Fin? && lo <= out.medianUsd.r <= hi
  {
    hide Median, IsOutlier, CountIn, AggregateOf, ValidQuotes;
    var valid := ValidQuotes(quotes);
    MajorityHoldsMedian(Prices(valid), lo, hi);
    var provisional := Median(Prices(valid)).r;
    forall q | q in valid && lo <= q.price.r <= hi ensures !IsOutlier(q.price.r, provisional, cfg.outlierPct) {
      BandIsKept(q.price.r, provisional, lo, hi, cfg.outlierPct);
    }
    AcceptedInBand(quotes, cfg, lo, hi);
  }

  lemma JudgeInBand(kept: seq<ValidQuote>, rejected: seq<Rejected>, cfg: Config, lo: real, hi: real)
    requires kept != [] && Median(Prices(kept)).Fin? && lo <= Median(Prices(kept)).r <= hi
    ensures var out := Judge(kept, rejected, cfg);
            out.Accepted? ==> out.medianUsd.Fin? && lo <= out.medianUsd.r <= hi
  {
    hide Median, MaxOf, MinOf;
    assert |Prices(kept)| > 0;
  }

  // ---- What is computed, said without the computation ----

  /** The median of any nonempty list is the middle of any sorted arrangement of it, and for an even count
      the mean of the two middles. */
  lemma MedianIsMiddle(values: seq<real>, arranged: seq<real>)
    requires values != [] && multiset(arranged) == multiset(values) && Sorted(arranged)
    ensures |arranged| == |values|
    ensures |values| % 2 == 1 ==> Median(values) == Fin(arranged[|values| / 2])
    ensures |values| % 2 == 0 ==> Median(values) == Fin((arranged[|values| / 2 - 1] + arranged[|values| / 2]) / 2.0)
  {
    assert |multiset(arranged)| == |arranged| && |multiset(values)| == |values|;
    SortIsPermutation(values);
    SortedIsUnique(Sort(values), arranged);
  }

  /** The filters keep the order of the quotes and look at each one alone: a quote counts if its price is
      finite and positive, and is kept if it deviates from the provisional median by no more than the
      tolerance. */
  lemma {:induction false} FiltersKeepOrder(a: seq<Quote>, b: seq<Quote>, q: Quote)
    ensures ValidQuotes(a + b) == ValidQuotes(a) + ValidQuotes(b) && InvalidRejects(a + b) == InvalidRejects(a) + InvalidRejects(b)
    ensures q.price.Fin? && q.price.r > 0.0 ==> ValidQuotes([q]) == [q] && InvalidRejects([q]) == []
    ensures q.price.NonFinite? || q.price.r <= 0.0 ==>
              ValidQuotes([q]) == [] && InvalidRejects([q]) == [Rejected(q.source, q.price, InvalidPrice)]
  {
    assert [q][..0] == [];
    assert ValidQuotes([]) == [] && InvalidRejects([]) == [];
    if b == [] {
      assert a + b == a;
    } else {
      FiltersKeepOrder(a, b[..|b| - 1], q);
      assert (a + b)[..|a + b| - 1] == a + b[..|b| - 1];
    }
  }

  lemma {:induction false} BandKeepsOrder(a: seq<ValidQuote>, b: seq<ValidQuote>, q: ValidQuote, m: real, pct: real)
    requires m > 0.0
    ensures Survivors(a + b, m, pct) == Survivors(a, m, pct) + Survivors(b, m, pct)
    ensures OutlierRejects(a + b, m, pct) == OutlierRejects(a, m, pct) + OutlierRejects(b, m, pct)
    ensures (q.price.r - m) * 100.0 <= pct * m && (m - q.price.r) * 100.0 <= pct * m ==>
              Survivors([q], m, pct) == [q] && OutlierRejects([q], m, pct) == []
    ensures (q.price.r - m) * 100.0 > pct * m || (m - q.price.r) * 100.0 > pct * m ==>
              Survivors([q], m, pct) == [] && OutlierRejects([q], m, pct) == [Rejected(q.source, q.price, Outlier)]
  {
    assert [q][..0] == [];
    DeviationScaled(Abs(q.price.r - m), m, pct);
    if b == [] {
      assert a + b == a;
    } else {
      hide IsOutlier;
      BandKeepsOrder(a, b[..|b| - 1], q, m, pct);
      assert (a + b)[..|a + b| - 1] == a + b[..|b| - 1];
    }
  }

  lemma DeviationScaled(d: real, m: real, pct: real)
    requires m > 0.0
    ensures d / m > pct / 100.0 <==> d * 100.0 > pct * m
    ensures d / m * 100.0 > pct <==> d * 100.0 > pct * m
  {
    var x := d / m;
    assert d == x * m;
    if x * 100.0 > pct {
      StrictScale(pct, x * 100.0, m);
    } else {
      ScaleUp(m, x * 100.0, pct);
    }
  }

  lemma WidthScaled(gap: real, median: real, pct: real)
    requires median > 0.0
    ensures TooWide(gap, median, pct) <==> gap * 100.0 > Share(pct, median)
  {
    DeviationScaled(gap, median, pct);
  }

  lemma StrictScale(a: real, b: real, m: real)
    requires m > 0.0 && a < b
    ensures a * m < b * m
  {
  }

  lemma {:induction false} ExtremesBound(s: seq<real>)
    requires s != []
    ensures MaxOf(s) in s && MinOf(s) in s
    ensures forall i :: 0 <= i < |s| ==> MinOf(s) <= s[i] <= MaxOf(s)
  {
    if |s| > 1 {
      ExtremesBound(s[1..]);
      assert forall i :: 0 < i < |s| ==> s[i] == s[1..][i - 1];
    }
  }

  /** The quotes within the tolerance of the provisional median. */
  function InBand(quotes: seq<Quote>, cfg: Config): seq<ValidQuote> {
    var valid := ValidQuotes(quotes);
    if valid == [] then []
    else
      MedianIsPositive(Prices(valid));
      Survivors(valid, Median(Prices(valid)).r, cfg.outlierPct)
  }

  /** A percentage of a price, times a hundred. */
  function Share(pct: real, price: real): real {
    pct * price
  }

  ghost predicate PairsWithin(prices: seq<real>, bound: real) {
    forall i, j :: 0 <= i < |prices| && 0 <= j < |prices| ==> (prices[i] - prices[j]) * 100.0 <= bound
  }

  /** No two surviving quotes differ by more than the permitted share of their median. */
  ghost predicate Agree(kept: seq<ValidQuote>, cfg: Config) {
    kept == [] || (Median(Prices(kept)).Fin? && PairsWithin(Prices(kept), Share(cfg.maxSpreadPct, Median(Prices(kept)).r)))
  }

  /** Quotes are accepted if and only if enough are valid, enough of those are within the tolerance, and
      those agree; then the price is their median and they are listed as used. Otherwise the first of
      these that fails is the reason given. */
  lemma AcceptedIff(quotes: seq<Quote>, cfg: Config)
    ensures var out, valid, kept := AggregateOf(quotes, cfg), ValidQuotes(quotes), InBand(quotes, cfg);
            && (out.Accepted? <==> |valid| >= cfg.minSources && |kept| >= cfg.minSources && Agree(kept, cfg))
            && (out.Accepted? ==> out.medianUsd == Median(Prices(kept)) && out.used == Sources(kept))
            && (out.Refused? && out.why == TooFewValid <==> |valid| < cfg.minSources)
            && (out.Refused? && out.why == TooFewInBand <==> |valid| >= cfg.minSources && |kept| < cfg.minSources)
  {
    var valid, kept := ValidQuotes(quotes), InBand(quotes, cfg);
    JudgeIff(kept, [], cfg);
    if valid != [] {
      MedianIsPositive(Prices(valid));
      JudgeIff(kept, InvalidRejects(quotes) + OutlierRejects(valid, Median(Prices(valid)).r, cfg.outlierPct), cfg);
    } else {
      JudgeIff(kept, InvalidRejects(quotes), cfg);
    }
    hide Judge, Agree, Median, Sources, ValidQuotes, Survivors;
  }

  lemma JudgeIff(kept: seq<ValidQuote>, rejected: seq<Rejected>, cfg: Config)
    ensures var out := Judge(kept, rejected, cfg);
            && (out.Accepted? <==> |kept| >= cfg.minSources && Agree(kept, cfg))
            && (out.Accepted? ==> out.medianUsd == Median(Prices(kept)) && out.used == Sources(kept))
            && (out.Refused? && out.why == TooFewInBand <==> |kept| < cfg.minSources)
            && !(out.Refused? && out.why == TooFewValid)
            && out.rejected == rejected
  {
    hide MaxOf, MinOf, Median, Agree, TooWide;
    if kept != [] {
      SpreadIff(kept, cfg);
    } else {
      assert Agree(kept, cfg) by { NoneAgree(cfg); }
      assert Median(Prices(kept)) == NonFinite by { MedianOfNone(); assert Prices(kept) == []; }
      assert Sources(kept) == [];
    }
  }

  lemma NoneAgree(cfg: Config)
    ensures Agree([], cfg)
  {
  }

  lemma MedianOfNone()
    ensures Median([]) == NonFinite
  {
  }

  /** The gate on the extremes is a gate on every pair. */
  lemma SpreadIff(kept: seq<ValidQuote>, cfg: Config)
    requires kept != []
    ensures var prices := Prices(kept);
            && Median(prices).Fin? && Median(prices).r > 0.0
            && (TooWide(MaxOf(prices) - MinOf(prices), Median(prices).r, cfg.maxSpreadPct) <==> !Agree(kept, cfg))
  {
    var prices := Prices(kept);
    MedianIsPositive(prices);
    hide MaxOf, MinOf, Median, PairsWithin, TooWide, Share;
    WidthScaled(MaxOf(prices) - MinOf(prices), Median(prices).r, cfg.maxSpreadPct);
    ExtremesDecide(prices, Share(cfg.maxSpreadPct, Median(prices).r));
  }

  lemma ExtremesDecide(prices: seq<real>, bound: real)
    requires prices != []
    ensures (MaxOf(prices) - MinOf(prices)) * 100.0 <= bound <==> PairsWithin(prices, bound)
  {
    ExtremesBound(prices);
    hide MaxOf, MinOf;
    var i :| 0 <= i < |prices| && prices[i] == MaxOf(prices);
    var j :| 0 <= j < |prices| && prices[j] == MinOf(prices);
    if PairsWithin(prices, bound) {
      assert (prices[i] - prices[j]) * 100.0 <= bound;
    }
  }

  /** Every quote is accounted for: used or listed as rejected, never both; the invalid ones are listed
      first, then those out of the band if it came to that. */
  lemma NothingIsLost(quotes: seq<Quote>, cfg: Config)
    ensures var out, valid := AggregateOf(quotes, cfg), ValidQuotes(quotes);
            && (out.Accepted? ==> |out.used| + |out.rejected| == |quotes|)
            && (|valid| < cfg.minSources || valid == [] ==> out.rejected == InvalidRejects(quotes))
            && (|valid| >= cfg.minSources && valid != [] ==>
                  && Median(Prices(valid)).Fin? && Median(Prices(valid)).r > 0.0
                  && out.rejected == InvalidRejects(quotes) + OutlierRejects(valid, Median(Prices(valid)).r, cfg.outlierPct))
  {
    AcceptedIff(quotes, cfg);
    var valid := ValidQuotes(quotes);
    ValidAndInvalid(quotes);
    if valid != [] {
      MedianIsPositive(Prices(valid));
      KeptAndRejected(valid, Median(Prices(valid)).r, cfg.outlierPct);
      JudgeIff(InBand(quotes, cfg), InvalidRejects(quotes) + OutlierRejects(valid, Median(Prices(valid)).r, cfg.outlierPct), cfg);
    } else {
      JudgeIff([], InvalidRejects(quotes), cfg);
    }
    hide Judge, Agree, Median, ValidQuotes, Survivors;
  }

  lemma {:induction false} ValidAndInvalid(quotes: seq<Quote>)
    ensures |ValidQuotes(quotes)| + |InvalidRejects(quotes)| == |quotes|
  {
    if quotes != [] {
      ValidAndInvalid(quotes[..|quotes| - 1]);
    }
  }

  lemma {:induction false} KeptAndRejected(quotes: seq<ValidQuote>, m: real, pct: real)
    requires m > 0.0
    ensures |Survivors(quotes, m, pct)| + |OutlierRejects(quotes, m, pct)| == |quotes|
  {
    if quotes != [] {
      KeptAndRejected(quotes[..|quotes| - 1], m, pct);
    }
  }
}
