// Client order ids (loop/idempotency.py) and every place the loop makes one up.
//
// The digest is a parameter: the first 24 hex digits of sha256.
module ClientOrderIds {
  import opened Domain
  import opened PaperGateway

  type Digest = string -> string

  const DIGEST_LENGTH: nat := 24

  function LegName(leg: Leg): string {
    if leg == Spot then "spot" else "futures"
  }

  function SideName(side: Side): string {
    if side == Buy then "buy" else "sell"
  }

  /** The four parts with separators between them. */
  function Join(a: string, b: string, c: string, d: string): string {
    a + "|" + b + "|" + c + "|" + d
  }

  function Composite(cycle: string, symbol: string, leg: Leg, side: Side): string {
    Join(cycle, symbol, LegName(leg), SideName(side))
  }

  function ClientOrderId(digest: Digest, cycle: string, symbol: string, leg: Leg, side: Side): string {
    "c" + digest(Composite(cycle, symbol, leg, side))
  }

  function Decimal(n: nat): (s: string)
    ensures 0 < |s|
  {
    if n < 10 then ['0' + n as char] else Decimal(n / 10) + ['0' + (n % 10) as char]
  }

  /** Everything an order can be placed for. */
  datatype Use =
    | Entry(cycle: string, symbol: string, leg: Leg, side: Side)
    | Rollback(cycle: string, symbol: string, leg: Leg, side: Side)
    | Exit(cycle: string, symbol: string, leg: Leg, side: Side)
    | Hedge(position: nat, hedgeLeg: Leg)
    | CloseOut(position: nat, closeLeg: Leg)

  function PositionLeg(leg: Leg): string {
    if leg == Spot then "-spot" else "-perp"
  }

  function IdFor(digest: Digest, use: Use): string {
    match use
    case Entry(cycle, symbol, leg, side) => ClientOrderId(digest, cycle, symbol, leg, side)
    case Rollback(cycle, symbol, leg, side) => "r-" + ClientOrderId(digest, cycle, symbol, leg, side)
    case Exit(cycle, symbol, leg, side) => ClientOrderId(digest, cycle, symbol, leg, side) + "-x"
    case Hedge(position, leg) => "hedge-" + Decimal(position) + PositionLeg(leg)
    case CloseOut(position, leg) => "close-" + Decimal(position) + PositionLeg(leg)
  }

  /** The number a decimal numeral stands for. */
  function Numeral(s: string): nat
    requires forall i :: 0 <= i < |s| ==> '0' <= s[i] <= '9'
  {
    if s == [] then 0 else Numeral(s[..|s| - 1]) * 10 + (s[|s| - 1] as int - '0' as int)
  }

  lemma {:induction false} DecimalReads(n: nat)
    ensures (forall i :: 0 <= i < |Decimal(n)| ==> '0' <= Decimal(n)[i] <= '9') && Numeral(Decimal(n)) == n
  {
    if n < 10 {
      assert Decimal(n)[..0] == [];
    } else {
      DecimalReads(n / 10);
      assert Decimal(n)[..|Decimal(n)| - 1] == Decimal(n / 10);
    }
  }

  lemma JoinInWords(cycle: string, symbol: string, leg: string, side: string)
    ensures Join(cycle, symbol, leg, side) == cycle + "|" + symbol + ("|" + leg + "|" + side)
  {
  }

  lemma CompositeInWords(cycle: string, symbol: string, leg: Leg, side: Side)
    ensures Composite(cycle, symbol, leg, side)
         == cycle + "|" + symbol + if leg == Spot then (if side == Buy then "|spot|buy" else "|spot|sell")
                                   else if side == Buy then "|futures|buy" else "|futures|sell"
  {
    JoinInWords(cycle, symbol, LegName(leg), SideName(side));
    assert "|" + "spot" + "|" + "buy" == "|spot|buy" && "|" + "spot" + "|" + "sell" == "|spot|sell";
    assert "|" + "futures" + "|" + "buy" == "|futures|buy" && "|" + "futures" + "|" + "sell" == "|futures|sell";
  }

  /** Every id as the venue sees it: cycle and position ids in words. */
  lemma IdsInWords(digest: Digest, cycle: string, symbol: string, leg: Leg, side: Side, position: nat)
    ensures var composite :=
        cycle + "|" + symbol + if leg == Spot then (if side == Buy then "|spot|buy" else "|spot|sell")
                               else if side == Buy then "|futures|buy" else "|futures|sell";
      var row := Decimal(position) + if leg == Spot then "-spot" else "-perp";
      && IdFor(digest, Entry(cycle, symbol, leg, side)) == "c" + digest(composite)
      && IdFor(digest, Rollback(cycle, symbol, leg, side)) == "r-" + ("c" + digest(composite))
      && IdFor(digest, Exit(cycle, symbol, leg, side)) == "c" + digest(composite) + "-x"
      && IdFor(digest, Hedge(position, leg)) == "hedge-" + row
      && IdFor(digest, CloseOut(position, leg)) == "close-" + row
  {
    CompositeInWords(cycle, symbol, leg, side);
    assert "hedge-" + Decimal(position) + PositionLeg(leg) == "hedge-" + (Decimal(position) + PositionLeg(leg));
    assert "close-" + Decimal(position) + PositionLeg(leg) == "close-" + (Decimal(position) + PositionLeg(leg));
  }

  predicate IsHex(c: char) {
    '0' <= c <= '9' || 'a' <= c <= 'f'
  }

  /** The digests of the ids in use are 24 hex digits, and none of them collide. */
  ghost predicate Faithful(digest: Digest, inUse: set<string>) {
    && (forall s :: s in inUse ==> |digest(s)| == DIGEST_LENGTH && forall c :: c in digest(s) ==> IsHex(c))
    && (forall s, t :: s in inUse && t in inUse && digest(s) == digest(t) ==> s == t)
  }

  function Hashed(use: Use): set<string> {
    match use
    case Entry(cycle, symbol, leg, side) => {Composite(cycle, symbol, leg, side)}
    case Rollback(cycle, symbol, leg, side) => {Composite(cycle, symbol, leg, side)}
    case Exit(cycle, symbol, leg, side) => {Composite(cycle, symbol, leg, side)}
    case _ => {}
  }

  predicate PipeFree(use: Use) {
    match use
    case Entry(cycle, symbol, _, _) => '|' !in cycle && '|' !in symbol
    case Rollback(cycle, symbol, _, _) => '|' !in cycle && '|' !in symbol
    case Exit(cycle, symbol, _, _) => '|' !in cycle && '|' !in symbol
    case _ => true
  }

  /** Cutting at the first separator is unambiguous. */
  lemma CutAtPipe(a: string, rest: string, b: string, rest': string)
    requires '|' !in a && '|' !in b && a + "|" + rest == b + "|" + rest'
    ensures a == b && rest == rest'
  {
    var s, t := a + "|" + rest, b + "|" + rest';
    assert s[|a|] == '|' && t[|b|] == '|';
    assert forall k :: 0 <= k < |a| ==> s[k] == a[k] != '|';
    assert forall k :: 0 <= k < |b| ==> t[k] == b[k] != '|';
    assert |a| == |b|;
    assert s[..|a|] == a && t[..|b|] == b;
    assert s[|a| + 1..] == rest && t[|b| + 1..] == rest';
  }

  lemma JoinInjective(a: string, b: string, c: string, d: string, a': string, b': string, c': string, d': string)
    requires '|' !in a && '|' !in b && '|' !in c && '|' !in a' && '|' !in b' && '|' !in c'
    requires Join(a, b, c, d) == Join(a', b', c', d')
    ensures a == a' && b == b' && c == c' && d == d'
  {
    assert Join(a, b, c, d) == a + "|" + (b + "|" + (c + "|" + d));
    assert Join(a', b', c', d') == a' + "|" + (b' + "|" + (c' + "|" + d'));
    CutAtPipe(a, b + "|" + (c + "|" + d), a', b' + "|" + (c' + "|" + d'));
    CutAtPipe(b, c + "|" + d, b', c' + "|" + d');
    CutAtPipe(c, d, c', d');
  }

  lemma NamesTellApart(leg: Leg, leg': Leg, side: Side, side': Side)
    ensures LegName(leg) == LegName(leg') ==> leg == leg'
    ensures SideName(side) == SideName(side') ==> side == side'
    ensures '|' !in LegName(leg)
  {
    assert LegName(leg)[0] == if leg == Spot then 's' else 'f';
    assert SideName(side)[0] == if side == Buy then 'b' else 's';
  }

  lemma CompositeInjective(c: string, s: string, leg: Leg, side: Side, c': string, s': string, leg': Leg, side': Side)
    requires '|' !in c && '|' !in s && '|' !in c' && '|' !in s'
    requires Composite(c, s, leg, side) == Composite(c', s', leg', side')
    ensures c == c' && s == s' && leg == leg' && side == side'
  {
    NamesTellApart(leg, leg', side, side');
    NamesTellApart(leg', leg, side', side);
    JoinInjective(c, s, LegName(leg), SideName(side), c', s', LegName(leg'), SideName(side'));
  }

  /** With a separator inside a part, two different orders share one composite. */
  lemma CompositeNeedsPipeFreeParts()
    ensures Composite("a|b", "c", Spot, Buy) == Composite("a", "b|c", Spot, Buy)
  {
    assert "a|b" + "|" + "c" == "a" + "|" + "b|c";
  }

  lemma {:induction false} DecimalInjective(m: nat, n: nat)
    requires Decimal(m) == Decimal(n)
    ensures m == n
  {
    var s, t := Decimal(m), Decimal(n);
    assert s[|s| - 1] == '0' + (m % 10) as char;
    assert t[|t| - 1] == '0' + (n % 10) as char;
    if 10 <= m && 10 <= n {
      assert s[..|s| - 1] == Decimal(m / 10) && t[..|t| - 1] == Decimal(n / 10);
      DecimalInjective(m / 10, n / 10);
    }
  }

  lemma PositionIdInjective(head: string, m: nat, leg: Leg, n: nat, leg': Leg)
    requires head + Decimal(m) + PositionLeg(leg) == head + Decimal(n) + PositionLeg(leg')
    ensures m == n && leg == leg'
  {
    var s, t := head + Decimal(m) + PositionLeg(leg), head + Decimal(n) + PositionLeg(leg');
    assert s[|s| - 1] == PositionLeg(leg)[4] && t[|t| - 1] == PositionLeg(leg')[4];
    assert s[|head|..|s| - 5] == Decimal(m) && t[|head|..|t| - 5] == Decimal(n);
    DecimalInjective(m, n);
  }

  /** The first two characters and the length tell the five kinds of id apart. */
  lemma Namespace(digest: Digest, inUse: set<string>, use: Use)
    requires Faithful(digest, inUse) && Hashed(use) <= inUse
    ensures var id := IdFor(digest, use);
      match use
      case Entry(_, _, _, _) => |id| == 1 + DIGEST_LENGTH && id[0] == 'c' && IsHex(id[1])
      case Rollback(_, _, _, _) => 2 <= |id| && id[0] == 'r'
      case Exit(_, _, _, _) => |id| == 3 + DIGEST_LENGTH && id[0] == 'c' && IsHex(id[1])
      case Hedge(_, _) => 2 <= |id| && id[0] == 'h'
      case CloseOut(_, _) => 2 <= |id| && id[0] == 'c' && !IsHex(id[1])
  {
    match use
    case Entry(c, s, leg, side) => assert digest(Composite(c, s, leg, side))[0] in digest(Composite(c, s, leg, side));
    case Exit(c, s, leg, side) => assert digest(Composite(c, s, leg, side))[0] in digest(Composite(c, s, leg, side));
    case _ =>
  }

  /** One id, one use: entry, rollback, exit, hedge and close ids never meet, within or across kinds. */
  lemma IdsAreUnique(digest: Digest, inUse: set<string>, u: Use, v: Use)
    requires Faithful(digest, inUse) && Hashed(u) <= inUse && Hashed(v) <= inUse && PipeFree(u) && PipeFree(v)
    requires IdFor(digest, u) == IdFor(digest, v)
    ensures u == v
  {
    Namespace(digest, inUse, u);
    Namespace(digest, inUse, v);
    match u
    case Entry(c, s, leg, side) => SameDigest(digest, inUse, c, s, leg, side, v.cycle, v.symbol, v.leg, v.side);
    case Rollback(c, s, leg, side) =>
      assert IdFor(digest, u)[2..] == ClientOrderId(digest, c, s, leg, side);
      assert IdFor(digest, v)[2..] == ClientOrderId(digest, v.cycle, v.symbol, v.leg, v.side);
      SameDigest(digest, inUse, c, s, leg, side, v.cycle, v.symbol, v.leg, v.side);
    case Exit(c, s, leg, side) =>
      assert IdFor(digest, u)[..1 + DIGEST_LENGTH] == ClientOrderId(digest, c, s, leg, side);
      assert IdFor(digest, v)[..1 + DIGEST_LENGTH] == ClientOrderId(digest, v.cycle, v.symbol, v.leg, v.side);
      SameDigest(digest, inUse, c, s, leg, side, v.cycle, v.symbol, v.leg, v.side);
    case Hedge(p, leg) => PositionIdInjective("hedge-", p, leg, v.position, v.hedgeLeg);
    case CloseOut(p, leg) => PositionIdInjective("close-", p, leg, v.position, v.closeLeg);
  }

  lemma SameDigest(digest: Digest, inUse: set<string>, c: string, s: string, leg: Leg, side: Side,
                   c': string, s': string, leg': Leg, side': Side)
    requires Faithful(digest, inUse) && Composite(c, s, leg, side) in inUse && Composite(c', s', leg', side') in inUse
    requires '|' !in c && '|' !in s && '|' !in c' && '|' !in s'
    requires ClientOrderId(digest, c, s, leg, side) == ClientOrderId(digest, c', s', leg', side')
    ensures c == c' && s == s' && leg == leg' && side == side'
  {
    var x, y := ClientOrderId(digest, c, s, leg, side), ClientOrderId(digest, c', s', leg', side');
    assert x[1..] == digest(Composite(c, s, leg, side)) && y[1..] == digest(Composite(c', s', leg', side'));
    CompositeInjective(c, s, leg, side, c', s', leg', side');
  }

  const EXIT_CYCLE: string := "exit"

  /**
   * Phase B closes under one constant cycle id, so the exit orders of a symbol
   * carry the same id in every cycle and for every position: once one has been
   * sent to the synthetic gateway, no later one on that symbol is ever accepted,
   * whatever the books become.
   */
  lemma {:induction false} ExitSpendsTheSymbol(
    cfg: Config, st: PaperState, digest: Digest, first: Order, others: seq<(Config, Order)>, cfg': Config, again: Order)
    requires first.coid == again.coid == IdFor(digest, Exit(EXIT_CYCLE, first.symbol, first.leg, first.side))
    ensures var after := Run(Place(cfg, st, first).1, others).1; !Place(cfg', after, again).0.accepted
  {
    PlaceAnswersTheOrder(cfg, st, first);
    SeenForever(Place(cfg, st, first).1, others, first.coid);
  }

  lemma {:induction false} SeenForever(st: PaperState, calls: seq<(Config, Order)>, id: string)
    requires id in st.seen
    ensures id in Run(st, calls).1.seen
    decreases calls
  {
    if calls != [] {
      var (cfg, order) := calls[0];
      PlaceAnswersTheOrder(cfg, st, order);
      SeenForever(Place(cfg, st, order).1, calls[1..], id);
    }
  }
}
