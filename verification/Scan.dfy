// Tier 1 of Phase C (loop/cycle.py): the cheap pre-filter over every perp of the
// venue, and the choice of one candidate.
module Scan {
  import opened Domain
  import opened Gateways
  import opened Symbols
  import Gate

  datatype Candidate = Candidate(perpSymbol: string, spotSymbol: string, base: string, quote: string,
                                 fundingRate: real, windows: nat, approxApy: real)

  function CandidateOf(f: FundingInfo): Candidate {
    var spot := SpotOf(f.symbol);
    Candidate(f.symbol, spot, BaseAsset(spot), if '/' in spot then QuoteAsset(spot) else "USDT",
              f.predictedRate, f.windows, Gate.Tier1Apy(f.predictedRate, f.windows))
  }

  predicate Passes(f: FundingInfo, minApy: real) {
    minApy <= Gate.Tier1Apy(f.predictedRate, f.windows)
  }

  function Candidates(rates: seq<FundingInfo>, minApy: real): (cs: seq<Candidate>)
    ensures forall c :: c in cs <==> exists f :: f in rates && Passes(f, minApy) && c == CandidateOf(f)
  {
    if rates == [] then []
    else
      var f := rates[|rates| - 1];
      assert forall g :: g in rates <==> g in rates[..|rates| - 1] || g == f;
      Candidates(rates[..|rates| - 1], minApy) + if Passes(f, minApy) then [CandidateOf(f)] else []
  }

  method Tier1Scan(rates: seq<FundingInfo>, minApy: real) returns (candidates: seq<Candidate>)
    ensures candidates == Candidates(rates, minApy)
  {
    candidates := [];
    for n := 0 to |rates|
      invariant candidates == Candidates(rates[..n], minApy)
    {
      var f := rates[n];
      assert rates[..n + 1][..n] == rates[..n];
      var netBps := f.predictedRate * 10000.0 - 2.0 * (Gate.APPROX_FEE_BPS + Gate.APPROX_FEE_BPS);
      var netApy := Gate.ApyCompound(netBps, f.windows);
      if netApy < minApy {
        continue;
      }
      var spot := SpotOf(f.symbol);
      var quote := if '/' in spot then QuoteAsset(spot) else "USDT";
      candidates :=
        candidates + [Candidate(f.symbol, spot, BaseAsset(spot), quote, f.predictedRate, f.windows, netApy)];
    }
    assert rates[..|rates|] == rates;
  }

  /** Scanning two lists is scanning one: the candidates keep the order of the rates. */
  lemma {:induction false} ScanKeepsOrder(rates: seq<FundingInfo>, more: seq<FundingInfo>, minApy: real)
    ensures Candidates(rates + more, minApy) == Candidates(rates, minApy) + Candidates(more, minApy)
    decreases more
  {
    if more == [] {
      assert rates + more == rates;
    } else {
      var n := |more| - 1;
      ScanKeepsOrder(rates, more[..n], minApy);
      assert (rates + more)[..|rates + more| - 1] == rates + more[..n];
    }
  }

  /**
   * One rate of a perp BASE/QUOTE:SETTLE is a candidate exactly when the gate of
   * tier 3, at 5 bps a leg and no basis, reaches the threshold; it is then the
   * candidate of BASE and QUOTE, on the spot symbol BASE/QUOTE, at that very rate.
   */
  lemma CandidateMeaning(f: FundingInfo, base: string, quote: string, settle: string, minApy: real)
    requires '/' !in base && ':' !in base && '/' !in quote && ':' !in quote && '/' !in settle
    requires f.symbol == base + "/" + quote + ":" + settle
    ensures var apy := Gate.NetApy(Gate.GateInputs(f.predictedRate, f.windows, 0.0, 5.0, 5.0, 0.0, 0.0));
      Candidates([f], minApy)
      == if apy < minApy then []
         else [Candidate(f.symbol, base + "/" + quote, base, quote, f.predictedRate, f.windows, apy)]
  {
    SymbolParts(base, quote, settle);
    assert [f][..0] == [];
    assert Candidates([], minApy) == [];
  }

  /** A symbol of one part is taken as its own base and spot symbol, quoted in USDT. */
  lemma PlainCandidate(f: FundingInfo)
    requires '/' !in f.symbol && ':' !in f.symbol
    ensures var c := CandidateOf(f);
      c.perpSymbol == c.spotSymbol == c.base == f.symbol && c.quote == "USDT"
  {
    CutsBefore(f.symbol, ':', "");
    CutsBefore(f.symbol, '/', "");
  }

  /** k is the first of the best candidates whose base is not held. */
  ghost predicate Best(candidates: seq<Candidate>, held: set<string>, k: nat) {
    && k < |candidates| && candidates[k].base !in held
    && (forall j :: 0 <= j < |candidates| && candidates[j].base !in held ==>
        candidates[j].approxApy <= candidates[k].approxApy)
    && (forall j :: 0 <= j < k && candidates[j].base !in held ==> candidates[j].approxApy < candidates[k].approxApy)
  }

  lemma BestIsUnique(candidates: seq<Candidate>, held: set<string>, j: nat, k: nat)
    requires Best(candidates, held, j) && Best(candidates, held, k)
    ensures j == k
  {
  }

  /** The head of a stable descending sort of what is not held. */
  method PickBest(candidates: seq<Candidate>, held: set<string>) returns (best: Option<nat>)
    ensures best.Some? ==> Best(candidates, held, best.value)
    ensures best.None? <==> forall c :: c in candidates ==> c.base in held
  {
    best := None;
    for n := 0 to |candidates|
      invariant best.Some? ==> Best(candidates[..n], held, best.value)
      invariant best.None? <==> forall c :: c in candidates[..n] ==> c.base in held
    {
      assert candidates[..n + 1] == candidates[..n] + [candidates[n]];
      if candidates[n].base !in held && (best.None? || candidates[best.value].approxApy < candidates[n].approxApy) {
        best := Some(n);
      }
    }
    assert candidates[..|candidates|] == candidates;
  }
}
