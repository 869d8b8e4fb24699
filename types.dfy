/** Shared vocabulary of the block-template builder: consensus constants,
    pending transactions as abstract records, fee rates and the free-priority
    threshold. */
module MinerTypes {

  /** A transaction hash (uint256), abstracted to a number. */
  type TxId = nat

  datatype Option<T> = None | Some(value: T)

  /** An unsigned byte. */
  newtype byte = x: int | 0 <= x < 256

  /** Largest serialized block size the consensus rules accept. */
  const MAX_BLOCK_SIZE: nat := 2000000

  /** Largest number of legacy signature operations in one block. */
  const MAX_BLOCK_SIGOPS: nat := 20000

  /** Satoshis per coin. */
  const COIN: nat := 100000000

  /** A pending transaction as the selector sees it. The values that come
      from collaborators outside this model are carried as fields:
      `priority` is what ComputePriority makes of the input value-age sum,
      `priorityDelta`/`feeDelta` are what ApplyDeltas adds for this hash,
      `isFinal` is IsFinalTx at the target height, `p2shSigOps` is
      GetP2SHSigOpCount against the coin view, and `scriptsValid` is the
      verdict of ContextualCheckInputs. */
  datatype Tx = Tx(
    id: TxId,
    inputs: seq<TxId>,
    size: nat,
    legacySigOps: nat,
    p2shSigOps: nat,
    fee: int,
    priority: int,
    priorityDelta: int,
    feeDelta: int,
    isCoinBase: bool,
    isFinal: bool,
    scriptsValid: bool)

  /** Signature operations a transaction contributes once it is accepted. */
  function TxSigOps(tx: Tx): nat
  {
    tx.legacySigOps + tx.p2shSigOps
  }

  /** Division truncating toward zero, as C++ does on signed integers. */
  function TruncDiv(a: int, b: nat): (q: int)
    requires b > 0
    ensures a >= 0 ==> 0 <= q && q * b <= a < (q + 1) * b
    ensures a < 0 ==> q <= 0 && (q - 1) * b < a <= q * b
  {
    if a >= 0 then
      DivBounds(a, b);
      a / b
    else
      DivBounds(-a, b);
      assert -((-a) / b) * b == -(((-a) / b) * b);
      assert (-((-a) / b) - 1) * b == -(((-a) / b + 1) * b);
      -((-a) / b)
  }

  /** Euclidean division of naturals brackets the dividend. */
  lemma DivBounds(a: nat, b: nat)
    requires b > 0
    ensures 0 <= a / b && (a / b) * b <= a < (a / b + 1) * b
  {
    var q := a / b;
    assert a == q * b + a % b;
    assert (q + 1) * b == q * b + b;
  }

  /** Fee per 1000 bytes, as a CFeeRate is built from a fee and a size;
      a transaction of size zero has rate zero. */
  function FeeRatePerK(fee: int, size: nat): (rate: int)
    ensures size == 0 ==> rate == 0
    ensures size > 0 && fee >= 0 ==> 0 <= rate && rate * size <= fee * 1000 < (rate + 1) * size
    ensures size > 0 && fee < 0 ==> rate <= 0
  {
    if size == 0 then 0 else TruncDiv(fee * 1000, size)
  }

  /** Paying more on the same size never lowers the fee rate. */
  lemma FeeRateMonotone(fee1: int, fee2: int, size: nat)
    requires fee1 <= fee2
    ensures FeeRatePerK(fee1, size) <= FeeRatePerK(fee2, size)
  {
    if size > 0 {
      var a, b := fee1 * 1000, fee2 * 1000;
      if a >= 0 {
        DivMonotone(a, b, size);
      } else if b < 0 {
        DivMonotone(-b, -a, size);
      }
    }
  }

  /** Quotient and remainder are the only pair that rebuilds the
      dividend with the remainder in range. */
  lemma DivModUnique(a: int, d: int, q: int, r: int)
    requires d > 0 && 0 <= r < d && a == q * d + r
    ensures a / d == q && a % d == r
  {
    var q', r' := a / d, a % d;
    assert a == q' * d + r';
    if q' < q {
      assert (q - q') * d == q * d - q' * d;
      MulAtLeast(q - q', d);
    } else if q < q' {
      assert (q' - q) * d == q' * d - q * d;
      MulAtLeast(q' - q, d);
    }
  }

  lemma MulAtLeast(x: int, d: int)
    requires x >= 1 && d > 0
    ensures x * d >= d
  {
  }

  lemma DivMonotone(a: nat, b: nat, d: nat)
    requires a <= b && d > 0
    ensures a / d <= b / d
  {
    assert (a / d) * d <= a <= b < (b / d + 1) * d;
    MulCancel(a / d, b / d + 1, d);
  }

  lemma MulCancel(x: int, y: int, d: nat)
    requires d > 0 && x * d < y * d
    ensures x < y
  {
  }

  /** Priority above which a transaction may be mined without paying fees. */
  const FREE_PRIORITY_THRESHOLD: int := COIN * 144 / 250

  /** AllowFree: the priority is high enough for a free transaction. */
  predicate AllowFree(priority: int)
  {
    priority > FREE_PRIORITY_THRESHOLD
  }

  /** Priority after the pool's priority delta is applied. */
  function ModifiedPriority(tx: Tx): int
  {
    tx.priority + tx.priorityDelta
  }

  /** Fee rate after the pool's fee delta is applied. */
  function ModifiedFeeRate(tx: Tx): int
  {
    FeeRatePerK(tx.fee + tx.feeDelta, tx.size)
  }

  /** The set of ids of a sequence of transactions. */
  function Ids(txs: seq<Tx>): (s: set<TxId>)
    ensures forall i :: 0 <= i < |txs| ==> txs[i].id in s
    ensures forall h :: h in s ==> exists i :: 0 <= i < |txs| && txs[i].id == h
  {
    if txs == [] then {} else Ids(txs[..|txs| - 1]) + {txs[|txs| - 1].id}
  }

  /** No two transactions of the sequence share an id. */
  predicate DistinctIds(txs: seq<Tx>)
  {
    forall i, j :: 0 <= i < j < |txs| ==> txs[i].id != txs[j].id
  }

  /** Sum of a sequence of integers. */
  function Sum(s: seq<int>): int
  {
    if s == [] then 0 else Sum(s[..|s| - 1]) + s[|s| - 1]
  }

  /** Sum of the serialized sizes of a sequence of transactions. */
  function SumSizes(txs: seq<Tx>): nat
  {
    if txs == [] then 0 else SumSizes(txs[..|txs| - 1]) + txs[|txs| - 1].size
  }

  lemma SumAppend(s: seq<int>, x: int)
    ensures Sum(s + [x]) == Sum(s) + x
  {
    assert (s + [x])[..|s|] == s;
  }

  lemma {:induction false} SumPrepend(x: int, s: seq<int>)
    ensures Sum([x] + s) == x + Sum(s)
  {
    if s != [] {
      var init := s[..|s| - 1];
      SumPrepend(x, init);
      assert ([x] + s)[..|s|] == [x] + init;
    }
  }

  lemma SumSizesAppend(txs: seq<Tx>, t: Tx)
    ensures SumSizes(txs + [t]) == SumSizes(txs) + t.size
  {
    assert (txs + [t])[..|txs|] == txs;
  }

  lemma IdsAppend(txs: seq<Tx>, t: Tx)
    ensures Ids(txs + [t]) == Ids(txs) + {t.id}
  {
    assert (txs + [t])[..|txs|] == txs;
  }
}
