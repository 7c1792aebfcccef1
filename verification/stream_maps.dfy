/** Per-stream level and balance tables and the reconciliation that fits
    them to the source's channel count. Stream indices are unsigned numbers
    (0 = left, 1 = right, ...). */
module StreamMaps {

  /** A balance coefficient. Reconciliation writes only real values; setters
      may store any complex value. */
  datatype Complex = Complex(re: real, im: real)

  /** The stream indices a source with `n` channels produces: exactly the
      `n` indices 0 .. n-1. */
  function Streams(n: nat): (s: set<nat>)
    ensures forall c: nat :: c in s <==> c < n
  {
    if n == 0 then {} else Streams(n - 1) + {n - 1}
  }

  /** A source with `n` channels has exactly `n` stream indices. */
  lemma {:induction false} StreamsCount(n: nat)
    ensures |Streams(n)| == n
  {
    if n > 0 {
      StreamsCount(n - 1);
    }
  }

  /** The reference stereo position of stream `c` out of `n`: centred for a
      mono source, otherwise evenly spaced from -1 (index 0) to +1 (index n-1). */
  function BalanceOf(c: nat, n: nat): real
  {
    if n > 1 then 2.0 * c as real / (n - 1) as real - 1.0 else 0.0
  }

  /** `m` with unity gain written for every stream index below `n`; every
      other key keeps its value. */
  function ReconciledLevels(m: map<nat, real>, n: nat): map<nat, real>
  {
    map k | k in m.Keys + Streams(n) :: if k < n then 1.0 else m[k]
  }

  /** `m` with the reference position of an `n`-channel source written for
      every stream index below `upTo`; every other key keeps its value. */
  function SpreadBalances(m: map<nat, Complex>, upTo: nat, n: nat): map<nat, Complex>
  {
    map k | k in m.Keys + Streams(upTo) :: if k < upTo then Complex(BalanceOf(k, n), 0.0) else m[k]
  }

  /** `m` with the reference position written for every stream of an
      `n`-channel source. */
  function ReconciledBalances(m: map<nat, Complex>, n: nat): map<nat, Complex>
  {
    SpreadBalances(m, n, n)
  }

  /** Reconciling up to no stream changes nothing. */
  lemma ReconcileNone(levels: map<nat, real>, balances: map<nat, Complex>, n: nat)
    ensures ReconciledLevels(levels, 0) == levels
    ensures SpreadBalances(balances, 0, n) == balances
  {
    assert ReconciledLevels(levels, 0).Keys == levels.Keys;
    assert SpreadBalances(balances, 0, n).Keys == balances.Keys;
  }

  /** Each further stream overwrites exactly one level entry. */
  lemma LevelsStep(levels: map<nat, real>, c: nat)
    ensures ReconciledLevels(levels, c + 1) == ReconciledLevels(levels, c)[c := 1.0]
  {
    var l0, l1 := ReconciledLevels(levels, c), ReconciledLevels(levels, c + 1);
    var l := l0[c := 1.0];
    assert l1.Keys == l.Keys;
    forall k | k in l1
      ensures l1[k] == l[k]
    {
    }
  }

  /** Each further stream overwrites exactly one balance entry. */
  lemma BalancesStep(balances: map<nat, Complex>, c: nat, n: nat)
    ensures SpreadBalances(balances, c + 1, n) == SpreadBalances(balances, c, n)[c := Complex(BalanceOf(c, n), 0.0)]
  {
    var b0, b1 := SpreadBalances(balances, c, n), SpreadBalances(balances, c + 1, n);
    var b := b0[c := Complex(BalanceOf(c, n), 0.0)];
    assert b1.Keys == b.Keys;
    forall k | k in b1
      ensures b1[k] == b[k]
    {
    }
  }

  /** What reconciliation leaves behind: unity gain and the reference position
      on every stream below `n`, and every other entry exactly as it was
      (entries at indices `n` and above are not removed). */
  lemma ReconciledMeaning(levels: map<nat, real>, balances: map<nat, Complex>, n: nat)
    ensures ReconciledLevels(levels, n).Keys == levels.Keys + Streams(n)
    ensures ReconciledBalances(balances, n).Keys == balances.Keys + Streams(n)
    ensures forall c: nat :: c < n ==> ReconciledLevels(levels, n)[c] == 1.0
    ensures forall c: nat :: c < n ==> ReconciledBalances(balances, n)[c] == Complex(BalanceOf(c, n), 0.0)
    ensures forall k :: k in levels && k >= n ==> ReconciledLevels(levels, n)[k] == levels[k]
    ensures forall k :: k in balances && k >= n ==> ReconciledBalances(balances, n)[k] == balances[k]
  {
  }

  /** Reconciliation never removes a key: the level table only grows, and it
      always has at least one entry per stream. */
  lemma KeysOnlyGrow(levels: map<nat, real>, n: nat)
    ensures levels.Keys <= ReconciledLevels(levels, n).Keys
    ensures |levels| <= |ReconciledLevels(levels, n)|
    ensures n <= |ReconciledLevels(levels, n)|
  {
    var r := ReconciledLevels(levels, n);
    StreamsCount(n);
    SubsetCount(levels.Keys, r.Keys);
    SubsetCount(Streams(n), r.Keys);
  }

  /** A subset is no larger than its superset. */
  lemma SubsetCount(a: set<nat>, b: set<nat>)
    requires a <= b
    ensures |a| <= |b|
  {
    assert b == a + (b - a);
  }

  /** The reconciled level table has exactly `n` entries if and only if no
      key at index `n` or above was present before. */
  lemma ReconciledSizeExact(levels: map<nat, real>, n: nat)
    ensures |ReconciledLevels(levels, n)| == n <==> forall k :: k in levels ==> k < n
  {
    var keys := ReconciledLevels(levels, n).Keys;
    StreamsCount(n);
    if forall k :: k in levels ==> k < n {
      assert keys == Streams(n);
    } else {
      var k :| k in levels && k >= n;
      assert Streams(n) + {k} <= keys;
      SubsetCount(Streams(n) + {k}, keys);
    }
  }

  /** Reconciling twice with the same channel count is the same as once. */
  lemma ReconcileIdempotent(levels: map<nat, real>, balances: map<nat, Complex>, n: nat)
    ensures ReconciledLevels(ReconciledLevels(levels, n), n) == ReconciledLevels(levels, n)
    ensures ReconciledBalances(ReconciledBalances(balances, n), n) == ReconciledBalances(balances, n)
  {
    var once := ReconciledLevels(levels, n);
    var twice := ReconciledLevels(once, n);
    assert twice.Keys == once.Keys;
    forall k | k in once
      ensures twice[k] == once[k]
    {
    }
    var spread := ReconciledBalances(balances, n);
    var respread := ReconciledBalances(spread, n);
    assert respread.Keys == spread.Keys;
    forall k | k in spread
      ensures respread[k] == spread[k]
    {
    }
  }

  /** When the channel count shrinks from `wide` to `narrow`, the entries for
      the streams that went away survive the second reconciliation, so the level
      table stays larger than the channel count. */
  lemma ShrinkKeepsStale(levels: map<nat, real>, balances: map<nat, Complex>, wide: nat, narrow: nat)
    requires narrow < wide
    ensures var r := ReconciledLevels(ReconciledLevels(levels, wide), narrow);
      forall c: nat :: narrow <= c < wide ==> c in r && r[c] == 1.0
    ensures var r := ReconciledBalances(ReconciledBalances(balances, wide), narrow);
      forall c: nat :: narrow <= c < wide ==> c in r && r[c] == Complex(BalanceOf(c, wide), 0.0)
    ensures |ReconciledLevels(ReconciledLevels(levels, wide), narrow)| > narrow
  {
    var once := ReconciledLevels(levels, wide);
    assert narrow in once;
    ReconciledSizeExact(once, narrow);
    KeysOnlyGrow(once, narrow);
  }

  /** A positive factor keeps the sign of a product. */
  lemma ProductSign(a: real, d: real)
    requires d > 0.0
    ensures a > 0.0 ==> a * d > 0.0
    ensures a < 0.0 ==> a * d < 0.0
    ensures a == 0.0 ==> a * d == 0.0
  {
  }

  /** Dividing by a positive number keeps a strict order. */
  lemma DivStrict(x: real, y: real, d: real)
    requires d > 0.0 && x < y
    ensures x / d < y / d
  {
    var p, q := x / d, y / d;
    assert p * d == x && q * d == y;
    assert (q - p) * d == y - x;
    ProductSign(q - p, d);
  }

  /** A number divided by itself. */
  lemma DivSelf(d: real)
    requires d > 0.0
    ensures 2.0 * d / d == 2.0
  {
  }

  /** The reference positions of a source with two or more channels: the first
      stream is full left, the last full right, every stream lies in [-1, 1]. */
  lemma BalanceEnds(c: nat, n: nat)
    requires 1 < n && c < n
    ensures BalanceOf(0, n) == -1.0 && BalanceOf(n - 1, n) == 1.0
    ensures -1.0 <= BalanceOf(c, n) <= 1.0
  {
    var d := (n - 1) as real;
    DivSelf(d);
    if 0 < c { DivStrict(0.0, 2.0 * c as real, d); }
    if c < n - 1 { DivStrict(2.0 * c as real, 2.0 * d, d); }
  }

  /** The reference positions are strictly increasing in the stream index. */
  lemma BalanceIncreasing(c: nat, e: nat, n: nat)
    requires c < e < n
    ensures BalanceOf(c, n) < BalanceOf(e, n)
  {
    DivStrict(2.0 * c as real, 2.0 * e as real, (n - 1) as real);
  }

  /** Neighbouring streams are the same distance apart, and the layout is
      mirror-symmetric around the centre. */
  lemma BalanceEvenlySpaced(c: nat, n: nat)
    requires 1 < n && c + 1 < n
    ensures BalanceOf(c + 1, n) - BalanceOf(c, n) == 2.0 / (n - 1) as real
    ensures BalanceOf(n - 1 - c, n) == -BalanceOf(c, n)
  {
    var d := (n - 1) as real;
    var p, q, r, s := 2.0 * c as real / d, 2.0 * (c + 1) as real / d, 2.0 * (n - 1 - c) as real / d, 2.0 / d;
    assert p * d == 2.0 * c as real && q * d == 2.0 * (c + 1) as real && r * d == 2.0 * (n - 1 - c) as real && s * d == 2.0;
    assert (q - p - s) * d == 0.0;
    ProductSign(q - p - s, d);
    assert (r + p - 2.0) * d == 0.0;
    ProductSign(r + p - 2.0, d);
  }
}
