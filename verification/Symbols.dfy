// Splitting venue symbols such as BASE/QUOTE and BASE/QUOTE:SETTLE.
module Symbols {

  /** Everything before the first c; all of s when there is none. */
  function Before(s: string, c: char): string {
    if s == [] || s[0] == c then [] else [s[0]] + Before(s[1..], c)
  }

  /** Everything after the first c; empty when there is none. */
  function After(s: string, c: char): string {
    if s == [] then [] else if s[0] == c then s[1..] else After(s[1..], c)
  }

  function BaseAsset(symbol: string): string {
    Before(symbol, '/')
  }

  /** The second '/'-separated part, up to a settlement suffix. */
  function QuoteAsset(symbol: string): string {
    Before(Before(After(symbol, '/'), '/'), ':')
  }

  function SpotOf(perpSymbol: string): string {
    Before(perpSymbol, ':')
  }

  lemma {:induction false} CutsBefore(a: string, c: char, rest: string)
    requires c !in a
    ensures Before(a + [c] + rest, c) == a && Before(a, c) == a
    ensures After(a + [c] + rest, c) == rest
  {
    if a != [] {
      CutsBefore(a[1..], c, rest);
      assert (a + [c] + rest)[1..] == a[1..] + [c] + rest;
    }
  }

  /** A perp symbol BASE/QUOTE:SETTLE and its spot symbol BASE/QUOTE come apart into their parts. */
  lemma SymbolParts(base: string, quote: string, settle: string)
    requires '/' !in base && ':' !in base && '/' !in quote && ':' !in quote && '/' !in settle
    ensures var spot, perp := base + "/" + quote, base + "/" + quote + ":" + settle;
      && SpotOf(perp) == spot && '/' in spot && '/' in perp
      && BaseAsset(spot) == BaseAsset(perp) == base && QuoteAsset(spot) == QuoteAsset(perp) == quote
  {
    var spot, perp := base + "/" + quote, base + "/" + quote + ":" + settle;
    var tail := quote + ":" + settle;
    assert perp == spot + [':'] + settle && perp == base + ['/'] + tail && spot == base + ['/'] + quote;
    CutsBefore(spot, ':', settle);
    CutsBefore(base, '/', tail);
    CutsBefore(base, '/', quote);
    CutsBefore(quote, '/', "");
    CutsBefore(tail, '/', "");
    assert tail == quote + [':'] + settle;
    CutsBefore(quote, ':', settle);
  }
}
