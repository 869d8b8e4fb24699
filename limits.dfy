/** The block-size policy limits and their clamping to sane values. */
module BlockLimits {
  import opened MinerTypes

  const UINT32_MODULUS: nat := 0x1_0000_0000

  /** Conversion of a configured 64-bit signed value to `unsigned int`:
      C++ reduces it modulo 2^32 (Dafny's % is never negative). */
  function ToUInt32(x: int): (r: nat)
    ensures r < UINT32_MODULUS
    ensures 0 <= x < UINT32_MODULUS ==> r == x
    ensures (r - x) % UINT32_MODULUS == 0
  {
    x % UINT32_MODULUS
  }

  /** The three size limits after clamping. */
  datatype Limits = Limits(maxSize: nat, prioritySize: nat, minSize: nat)

  /** The limits every later step may rely on. */
  predicate Sane(l: Limits)
  {
    1000 <= l.maxSize <= MAX_BLOCK_SIZE - 1000 &&
    l.prioritySize <= l.maxSize &&
    l.minSize <= l.maxSize
  }

  function Min(a: int, b: int): int { if a <= b then a else b }
  function Max(a: int, b: int): int { if a >= b then a else b }

  /** The configured -blockmaxsize, -blockprioritysize and -blockminsize,
      clamped: the maximum into [1000, MAX_BLOCK_SIZE - 1000], the other two
      to at most the maximum. A configured value already within its range is
      kept; one outside it becomes the nearest bound. */
  function ClampLimits(maxArg: int, priorityArg: int, minArg: int): (l: Limits)
    ensures Sane(l)
    ensures var m := ToUInt32(maxArg);
      (1000 <= m <= MAX_BLOCK_SIZE - 1000 ==> l.maxSize == m) &&
      (m < 1000 ==> l.maxSize == 1000) &&
      (m > MAX_BLOCK_SIZE - 1000 ==> l.maxSize == MAX_BLOCK_SIZE - 1000)
    ensures ToUInt32(priorityArg) <= l.maxSize ==> l.prioritySize == ToUInt32(priorityArg)
    ensures ToUInt32(priorityArg) > l.maxSize ==> l.prioritySize == l.maxSize
    ensures ToUInt32(minArg) <= l.maxSize ==> l.minSize == ToUInt32(minArg)
    ensures ToUInt32(minArg) > l.maxSize ==> l.minSize == l.maxSize
  {
    var maxSize := Max(1000, Min(MAX_BLOCK_SIZE - 1000, ToUInt32(maxArg)));
    var prioritySize := Min(maxSize, ToUInt32(priorityArg));
    var minSize := Min(maxSize, ToUInt32(minArg));
    Limits(maxSize, prioritySize, minSize)
  }

  /** Clamping is idempotent: clamping limits that are already clamped
      changes nothing. */
  lemma ClampIdempotent(maxArg: int, priorityArg: int, minArg: int)
    ensures var l := ClampLimits(maxArg, priorityArg, minArg);
      ClampLimits(l.maxSize, l.prioritySize, l.minSize) == l
  {
  }

  /** A configured negative maximum wraps to a large unsigned value and so
      selects the largest allowed block, not the smallest. */
  lemma NegativeMaxWraps()
    ensures ClampLimits(-1, 0, 0).maxSize == MAX_BLOCK_SIZE - 1000
  {
  }
}
