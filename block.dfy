/** The block template around the selected transactions: the block and its
    header, the coinbase paying the subsidy plus the collected fees, the
    template's per-transaction fee and signature-operation vectors, the
    randomised nonce, UpdateTime and IncrementExtraNonce. */
module BlockAssembly {
  import opened MinerTypes
  import opened BlockLimits
  import opened Selection
  import opened CoinbaseScript

  /** An input: the output it spends (`None` is the null prevout of a
      coinbase) and its scriptSig. */
  datatype TxIn = TxIn(prevout: Option<(TxId, nat)>, scriptSig: seq<byte>)

  datatype TxOut = TxOut(value: int, scriptPubKey: seq<byte>)

  /** A transaction of the block: the coinbase, which the miner builds, or
      one taken from the pool. */
  datatype BlockTx = Coinbase(vin: seq<TxIn>, vout: seq<TxOut>) | Pooled(tx: Tx)

  /** The merkle root in the header, as the commitment it is: the null hash
      of a fresh header, or BuildMerkleTree over a list of transactions
      (the hash is idealised as injective). */
  datatype Digest = NoRoot | MerkleRootOf(txs: seq<BlockTx>)

  /** The target in the header's nBits: null in a fresh header, or what
      GetNextWorkRequired answers for the previous block and a block time. */
  datatype Target = NullTarget | NextWorkRequired(prevHash: nat, time: nat)

  /** The header fields as one value, for collaborators that judge a block. */
  datatype Header = Header(version: int, prevHash: nat, merkleRoot: Digest, reserved: nat,
                           time: nat, bits: Target, nonce: nat, solution: seq<byte>)

  /** The header time UpdateTime writes: one second past the median time
      past, or the adjusted time if that is later, stored in the 32-bit
      nTime field. */
  function BlockTime(medianTimePast: int, adjustedTime: int): (t: nat)
    ensures t < UINT32_MODULUS
    ensures 0 <= Max(medianTimePast + 1, adjustedTime) < UINT32_MODULUS ==>
      t > medianTimePast && t >= adjustedTime && (t == medianTimePast + 1 || t == adjustedTime)
  {
    var m := Max(medianTimePast + 1, adjustedTime);
    assert m == medianTimePast + 1 || m == adjustedTime;
    ToUInt32(m)
  }

  /** While the time fits in 32 bits, a later clock never moves the header
      time back. */
  lemma BlockTimeMonotone(medianTimePast: int, adjusted1: int, adjusted2: int)
    requires 0 <= medianTimePast && adjusted1 <= adjusted2
    requires 0 <= Max(medianTimePast + 1, adjusted2) < UINT32_MODULUS
    ensures BlockTime(medianTimePast, adjusted1) <= BlockTime(medianTimePast, adjusted2)
  {
  }

  /** Powers of two for the 256-bit nonce (an arith_uint256, modelled as
      a number below 2^256). */
  const TWO_16: nat := 0x1_0000
  const TWO_32: nat := 0x1_0000_0000
  const TWO_224: nat := 0x1_0000_0000_0000_0000_0000_0000_0000_0000_0000_0000_0000_0000_0000_0000
  const TWO_240: nat := TWO_224 * TWO_16
  const NONCE_MODULUS: nat := TWO_224 * TWO_32

  /** The template nonce: the random value shifted left by 32 (bits pushed
      past bit 255 are lost) and right by 16. */
  function MaskNonce(random: nat): (n: nat)
    ensures n == (random % TWO_224) * TWO_16
  {
    ShiftArith(random);
    ((random * TWO_32) % NONCE_MODULUS) / TWO_16
  }

  /** Shifting a 256-bit value left by 32 and then right by 16 keeps its
      low 224 bits, moved up by 16. */
  lemma ShiftArith(random: nat)
    ensures ((random * TWO_32) % NONCE_MODULUS) / TWO_16 == (random % TWO_224) * TWO_16
  {
    var m, q := random % TWO_224, random / TWO_224;
    assert random == q * TWO_224 + m;
    assert random * TWO_32 == q * NONCE_MODULUS + m * TWO_32;
    DivModUnique(random * TWO_32, NONCE_MODULUS, q, m * TWO_32);
    DivModUnique(m * TWO_32, TWO_16, m * TWO_16, 0);
  }

  /** The masked nonce has its bottom 16 and top 16 bits clear (kept for
      thread flags and the search counter), and the 224 bits between hold
      the random value's low bits. */
  lemma MaskNonceBits(random: nat)
    ensures MaskNonce(random) % TWO_16 == 0
    ensures MaskNonce(random) < TWO_240
    ensures MaskNonce(random) / TWO_16 == random % TWO_224
  {
    var m := random % TWO_224;
    DivModUnique(m * TWO_16, TWO_16, m, 0);
  }

  /** CBlock: the header fields and the transactions, the coinbase first. */
  class Block {
    var version: int
    var prevHash: nat
    var merkleRoot: Digest
    var reserved: nat
    var time: nat
    var bits: Target
    var nonce: nat
    var solution: seq<byte>
    var vtx: seq<BlockTx>

    /** A null header and no transactions. */
    constructor ()
      ensures version == 0 && prevHash == 0 && merkleRoot == NoRoot && reserved == 0
      ensures time == 0 && bits == NullTarget && nonce == 0 && solution == [] && vtx == []
    {
      version, prevHash, merkleRoot, reserved := 0, 0, NoRoot, 0;
      time, bits, nonce, solution, vtx := 0, NullTarget, 0, [], [];
    }

    function HeaderValue(): Header
      reads this
    {
      Header(version, prevHash, merkleRoot, reserved, time, bits, nonce, solution)
    }

    /** UpdateTime: moves the header time to BlockTime and, where the chain
        allows minimum-difficulty blocks, recomputes the target for the new
        time on the previous block `prevBlock`. */
    method UpdateTime(prevBlock: nat, medianTimePast: int, adjustedTime: int, allowMinDifficulty: bool)
      modifies this
      ensures time == BlockTime(medianTimePast, adjustedTime)
      ensures bits == (if allowMinDifficulty then NextWorkRequired(prevBlock, time) else old(bits))
      ensures version == old(version) && prevHash == old(prevHash) && merkleRoot == old(merkleRoot)
      ensures reserved == old(reserved) && nonce == old(nonce) && solution == old(solution) && vtx == old(vtx)
    {
      time := BlockTime(medianTimePast, adjustedTime);
      if allowMinDifficulty {
        bits := NextWorkRequired(prevBlock, time);
      }
    }
  }

  /** CBlockTemplate: the block with, per transaction, its fee and its
      signature-operation count (entry 0 is the coinbase's). */
  class BlockTemplate {
    var block: Block
    var txFees: seq<int>
    var txSigOps: seq<int>

    constructor ()
      ensures fresh(block)
      ensures block.vtx == [] && block.nonce == 0 && block.merkleRoot == NoRoot
      ensures txFees == [] && txSigOps == []
    {
      block := new Block();
      txFees, txSigOps := [], [];
    }
  }

  /** The selected pool transactions as block transactions. */
  function PooledTxs(txs: seq<Tx>): (r: seq<BlockTx>)
    ensures |r| == |txs| && forall i :: 0 <= i < |txs| ==> r[i] == Pooled(txs[i])
  {
    if txs == [] then [] else PooledTxs(txs[..|txs| - 1]) + [Pooled(txs[|txs| - 1])]
  }

  /** The template's coinbase: one input with the null prevout whose script
      carries the height, and one output paying `value` to the miner. */
  function TemplateCoinbase(height: nat, value: int, scriptPubKey: seq<byte>): (t: BlockTx)
    ensures t.Coinbase? && |t.vin| == 1 && t.vin[0].prevout == None
    ensures t.vout == [TxOut(value, scriptPubKey)]
    ensures height < 0x1_0000_0000 ==>
      ReadPushedInt(t.vin[0].scriptSig) == Some((height, |PushInt(height)|))
  {
    assert height < 0x1_0000_0000 ==> ReadPushedInt(TemplateScriptSig(height)) == Some((height, |PushInt(height)|)) by {
      if height < 0x1_0000_0000 {
        PushIntRoundTrip(height, [OP_0]);
      }
    }
    Coinbase([TxIn(None, TemplateScriptSig(height))], [TxOut(value, scriptPubKey)])
  }

  /** The template's fee vector: the coinbase entry is minus the fee total,
      then each selected transaction's fee. */
  function TemplateFees(d: Draft): seq<int>
  {
    [-d.totalFees] + d.fees
  }

  /** For a block built by appending, the coinbase entry of the fee vector
      cancels the others: it is minus their sum, and the whole vector sums
      to zero. */
  lemma TemplateFeesBalance(d: Draft)
    requires d.totalFees == Sum(d.fees)
    ensures var fees := TemplateFees(d);
      |fees| == |d.fees| + 1 && fees[0] == -Sum(fees[1..]) && Sum(fees) == 0
  {
    var fees := TemplateFees(d);
    assert fees[1..] == d.fees;
    SumPrepend(-d.totalFees, d.fees);
  }

  /** Configuration the template builder reads: -blockmaxsize,
      -blockprioritysize, -blockminsize and the minimum relay fee rate. */
  datatype MinerArgs = MinerArgs(blockMaxSize: int, blockPrioritySize: int, blockMinSize: int,
                                 minRelayFeeRate: int)

  /** The chain tip the template builds on. */
  datatype Tip = Tip(height: nat, hash: nat, medianTimePast: int)

  /** Values CreateNewBlock takes from its collaborators: GetAdjustedTime,
      ComputeBlockVersion, GetBlockSubsidy at the new height, GetRandHash,
      and whether the chain allows minimum-difficulty blocks. */
  datatype Env = Env(adjustedTime: int, version: int, subsidy: int, randomHash: nat,
                     allowMinDifficulty: bool)

  /** The transaction selection of CreateNewBlock: the candidates are built
      from the pool and selected under the clamped limits. `rounds` are the
      rounds of the selection loop, from the start state on the candidates
      to `finish`, which has an empty queue and holds `d`. */
  method SelectForBlock(pool: seq<Tx>, coins: set<TxId>, limits: Limits, minRelayFeeRate: int)
    returns (d: Draft, ghost dependers: map<TxId, seq<nat>>, ghost rounds: seq<Round>, ghost finish: SelectionState)
    requires Consistent(pool, coins) && DistinctIds(pool)
    ensures Tally(d)
    ensures d.txs != [] ==> d.size < limits.maxSize && d.sigOpCount < MAX_BLOCK_SIGOPS
    ensures Chosen(pool, coins, d.txs, coins + Ids(d.txs))
    ensures DependersIndex(InitialOrphans(pool, coins), dependers)
    ensures Trace(dependers, limits, minRelayFeeRate,
                  StartState(coins, InitialQueue(pool, coins), InitialOrphans(pool, coins), limits), rounds, finish)
    ensures finish.queue == [] && finish.d == d
  {
    var queue, orphans, dependers0 := BuildCandidates(pool, coins);
    dependers := dependers0;
    ghost var modes;
    d, modes, rounds, finish := SelectTransactions(pool, queue, orphans, dependers0, coins, limits, minRelayFeeRate);
  }

  /** The transactions and the two vectors of the template for the
      selected block `d`: the coinbase, paying the subsidy plus the fees and
      carrying the height, then one entry per selected transaction. */
  predicate AssembledTxs(vtx: seq<BlockTx>, txFees: seq<int>, txSigOps: seq<int>, d: Draft, tip: Tip,
                         scriptPubKey: seq<byte>, env: Env, coinbaseSigOps: nat)
  {
    vtx == [TemplateCoinbase(tip.height + 1, env.subsidy + d.totalFees, scriptPubKey)] + PooledTxs(d.txs) &&
    txFees == TemplateFees(d) &&
    txSigOps == [coinbaseSigOps as int] + d.sigOps
  }

  /** The header of the template: the version, the tip as previous block,
      no merkle root yet, the time UpdateTime gives, the target for that
      time, the masked random nonce and an empty solution. */
  function TemplateHeader(tip: Tip, env: Env): Header
  {
    var time := BlockTime(tip.medianTimePast, env.adjustedTime);
    Header(env.version, tip.hash, NoRoot, 0, time, NextWorkRequired(tip.hash, time), MaskNonce(env.randomHash), [])
  }

  /** The template for the selected block `d`. */
  predicate Assembled(t: BlockTemplate, d: Draft, tip: Tip, scriptPubKey: seq<byte>, env: Env,
                      coinbaseSigOps: nat)
    reads t, t.block
  {
    AssembledTxs(t.block.vtx, t.txFees, t.txSigOps, d, tip, scriptPubKey, env, coinbaseSigOps) &&
    t.block.HeaderValue() == TemplateHeader(tip, env)
  }

  /** What the assembled transactions and vectors mean for a block built by
      appending: the three line up, index 0 is the coinbase, the coinbase
      pays the subsidy plus the sum of the other fee entries, the fee vector
      sums to zero, and the block's size and signature-operation totals are
      the reserved amounts plus the entries'. */
  lemma AssembledMeaning(vtx: seq<BlockTx>, txFees: seq<int>, txSigOps: seq<int>, d: Draft, tip: Tip,
                         scriptPubKey: seq<byte>, env: Env, coinbaseSigOps: nat)
    requires Balanced(d)
    requires AssembledTxs(vtx, txFees, txSigOps, d, tip, scriptPubKey, env, coinbaseSigOps)
    ensures |vtx| == |txFees| == |txSigOps| == |d.txs| + 1
    ensures vtx[1..] == PooledTxs(d.txs)
    ensures forall i :: 1 <= i < |vtx| ==> txFees[i] == d.txs[i - 1].fee && txSigOps[i] == TxSigOps(d.txs[i - 1])
    ensures vtx[0] == TemplateCoinbase(tip.height + 1, env.subsidy + d.totalFees, scriptPubKey)
    ensures d.totalFees == Sum(txFees[1..])
    ensures txFees[0] == -Sum(txFees[1..]) && Sum(txFees) == 0
    ensures txSigOps[0] == coinbaseSigOps
    ensures d.sigOpCount == 100 + Sum(txSigOps[1..]) && d.size == 1000 + SumSizes(d.txs)
  {
    TemplateFeesBalance(d);
    assert vtx[1..] == PooledTxs(d.txs);
    assert txSigOps[1..] == d.sigOps;
    assert txFees[1..] == d.fees;
    assert Sum(txFees[1..]) == d.totalFees;
  }

  /** Overwriting the only element before `rest`. */
  lemma ReplaceHead<T>(s: seq<T>, y: T, rest: seq<T>)
    requires |s| == 1
    ensures (s + rest)[0 := y] == [y] + rest
  {
  }

  /** The header as CreateNewBlock fills it in: the masked random nonce,
      the tip as previous block, a null reserved field, UpdateTime, the
      target for the new time and an empty solution. */
  method FillHeader(b: Block, tip: Tip, env: Env)
    requires b.version == env.version && b.merkleRoot == NoRoot
    modifies b
    ensures b.HeaderValue() == TemplateHeader(tip, env)
    ensures b.vtx == old(b.vtx)
  {
    b.nonce := MaskNonce(env.randomHash);
    b.prevHash := tip.hash;
    b.reserved := 0;
    b.UpdateTime(tip.hash, tip.medianTimePast, env.adjustedTime, env.allowMinDifficulty);
    b.bits := NextWorkRequired(tip.hash, b.time);
    b.solution := [];
  }

  /** Replacing the dummy coinbase and the placeholder entries of
      one-element vectors, after the selected transactions are appended,
      gives the template's transactions and vectors. */
  lemma DummyReplaced(vtx: seq<BlockTx>, txFees: seq<int>, txSigOps: seq<int>, d: Draft, tip: Tip,
                      scriptPubKey: seq<byte>, env: Env, coinbaseSigOps: nat)
    requires |vtx| == 1 && |txFees| == 1 && |txSigOps| == 1
    ensures AssembledTxs((vtx + PooledTxs(d.txs))[0 := TemplateCoinbase(tip.height + 1, env.subsidy + d.totalFees, scriptPubKey)],
                         (txFees + d.fees)[0 := -d.totalFees],
                         (txSigOps + d.sigOps)[0 := coinbaseSigOps],
                         d, tip, scriptPubKey, env, coinbaseSigOps)
  {
    CoinbaseReplaced(vtx, d, tip, scriptPubKey, env);
    FeesReplaced(txFees, d);
    SigOpsReplaced(txSigOps, d, coinbaseSigOps);
  }

  lemma CoinbaseReplaced(vtx: seq<BlockTx>, d: Draft, tip: Tip, scriptPubKey: seq<byte>, env: Env)
    requires |vtx| == 1
    ensures var coinbase := TemplateCoinbase(tip.height + 1, env.subsidy + d.totalFees, scriptPubKey);
      (vtx + PooledTxs(d.txs))[0 := coinbase] == [coinbase] + PooledTxs(d.txs)
  {
    ReplaceHead(vtx, TemplateCoinbase(tip.height + 1, env.subsidy + d.totalFees, scriptPubKey), PooledTxs(d.txs));
  }

  lemma FeesReplaced(txFees: seq<int>, d: Draft)
    requires |txFees| == 1
    ensures (txFees + d.fees)[0 := -d.totalFees] == TemplateFees(d)
  {
    ReplaceHead(txFees, -d.totalFees, d.fees);
  }

  lemma SigOpsReplaced(txSigOps: seq<int>, d: Draft, coinbaseSigOps: nat)
    requires |txSigOps| == 1
    ensures (txSigOps + d.sigOps)[0 := coinbaseSigOps] == [coinbaseSigOps as int] + d.sigOps
  {
    ReplaceHead(txSigOps, coinbaseSigOps as int, d.sigOps);
  }

  /** The part of CreateNewBlock after the selection, on a template holding
      the dummy coinbase and the placeholder entries: the selected
      transactions and their entries are appended, the coinbase and the
      entries at index 0 are replaced, and the header is filled in. */
  method FillTemplate(t: BlockTemplate, d: Draft, tip: Tip, scriptPubKey: seq<byte>, env: Env,
                      coinbaseSigOps: nat)
    requires |t.block.vtx| == 1 && |t.txFees| == 1 && |t.txSigOps| == 1
    requires t.block.version == env.version && t.block.merkleRoot == NoRoot
    modifies t, t.block
    ensures t.block == old(t.block)
    ensures Assembled(t, d, tip, scriptPubKey, env, coinbaseSigOps)
  {
    var b := t.block;
    DummyReplaced(b.vtx, t.txFees, t.txSigOps, d, tip, scriptPubKey, env, coinbaseSigOps);
    // The coinbase pays the subsidy plus the fees.
    var coinbase := TemplateCoinbase(tip.height + 1, env.subsidy + d.totalFees, scriptPubKey);
    b.vtx := (b.vtx + PooledTxs(d.txs))[0 := coinbase];
    t.txFees := (t.txFees + d.fees)[0 := -d.totalFees];
    t.txSigOps := (t.txSigOps + d.sigOps)[0 := coinbaseSigOps];
    FillHeader(b, tip, env);
  }

  /** CreateNewBlock. A dummy coinbase and placeholder vector entries are
      pushed first; the limits are clamped; the transactions are selected;
      then the template is filled in around them. `ok` is
      TestBlockValidity's verdict on the finished block; when it is false
      the source throws and the template is discarded. `coinbaseSigOps` is
      GetLegacySigOpCount of the finished coinbase. */
  method CreateNewBlock(pool: seq<Tx>, coins: set<TxId>, args: MinerArgs, tip: Tip,
                        scriptPubKey: seq<byte>, env: Env,
                        coinbaseSigOps: nat, blockValid: (Header, seq<BlockTx>) -> bool)
    returns (t: BlockTemplate, ok: bool, d: Draft, ghost dependers: map<TxId, seq<nat>>,
             ghost rounds: seq<Round>, ghost finish: SelectionState)
    requires Consistent(pool, coins) && DistinctIds(pool)
    ensures fresh(t) && fresh(t.block)
    ensures Tally(d) && Assembled(t, d, tip, scriptPubKey, env, coinbaseSigOps)
    ensures Chosen(pool, coins, d.txs, coins + Ids(d.txs))
    ensures var limits := ClampLimits(args.blockMaxSize, args.blockPrioritySize, args.blockMinSize);
      d.txs != [] ==> d.size < limits.maxSize && d.sigOpCount < MAX_BLOCK_SIGOPS
    ensures DependersIndex(InitialOrphans(pool, coins), dependers)
    ensures var limits := ClampLimits(args.blockMaxSize, args.blockPrioritySize, args.blockMinSize);
      Trace(dependers, limits, args.minRelayFeeRate,
            StartState(coins, InitialQueue(pool, coins), InitialOrphans(pool, coins), limits), rounds, finish)
    ensures finish.queue == [] && finish.d == d
    ensures ok == blockValid(t.block.HeaderValue(), t.block.vtx)
  {
    t := new BlockTemplate();
    // Dummy coinbase and placeholder entries, set at the end.
    t.block.vtx := [Coinbase([], [])];
    t.txFees := [-1];
    t.txSigOps := [-1];

    var limits := ClampLimits(args.blockMaxSize, args.blockPrioritySize, args.blockMinSize);
    t.block.time := ToUInt32(env.adjustedTime);
    t.block.version := env.version;
    d, dependers, rounds, finish := SelectForBlock(pool, coins, limits, args.minRelayFeeRate);
    FillTemplate(t, d, tip, scriptPubKey, env, coinbaseSigOps);
    ok := blockValid(t.block.HeaderValue(), t.block.vtx);
  }

  /** The counter IncrementExtraNonce leaves: restarted from zero when the
      previous block changed, then incremented in 32 bits. */
  function NextExtraNonce(prevChanged: bool, extraNonce: nat): (n: nat)
    requires extraNonce < UINT32_MODULUS
    ensures n < UINT32_MODULUS
    ensures prevChanged ==> n == 1
    ensures !prevChanged ==> (n - extraNonce - 1) % UINT32_MODULUS == 0
    ensures n == 0 <==> !prevChanged && extraNonce == UINT32_MODULUS - 1
  {
    ToUInt32((if prevChanged then 0 else extraNonce) + 1)
  }

  /** On one previous block, k calls after the reset count 1, 2, ..., k:
      the first 2^32 - 1 coinbases all carry distinct extranonces. */
  function ExtraNonceAfter(k: nat): nat
    requires 1 <= k < UINT32_MODULUS
  {
    if k == 1 then NextExtraNonce(true, 0) else NextExtraNonce(false, ExtraNonceAfter(k - 1))
  }

  lemma {:induction false} ExtraNonceCounts(k: nat)
    requires 1 <= k < UINT32_MODULUS
    ensures ExtraNonceAfter(k) == k
  {
    if k > 1 {
      ExtraNonceCounts(k - 1);
    }
  }

  /** Two calls on the same previous block, neither the 2^32-th, write
      different coinbase scripts. */
  lemma ExtraNonceFreshScripts(height: nat, j: nat, k: nat, flags: seq<byte>)
    requires height < UINT32_MODULUS
    requires 1 <= j < k < UINT32_MODULUS
    ensures ExtraNonceScriptSig(height, ExtraNonceAfter(j), flags) !=
            ExtraNonceScriptSig(height, ExtraNonceAfter(k), flags)
  {
    ExtraNonceCounts(j);
    ExtraNonceCounts(k);
    ExtraNonceScriptsDiffer(height, j, k, flags);
  }

  /** The function-static hashPrevBlock of IncrementExtraNonce: the
      previous-block hash the last call saw (zero before the first). */
  class ExtraNonceTracker {
    var hashPrevBlock: nat

    constructor ()
      ensures hashPrevBlock == 0
    {
      hashPrevBlock := 0;
    }

    /** The counter step of IncrementExtraNonce: a new previous block
        restarts the counter and is remembered. */
    method Advance(prevHash: nat, extraNonce: nat) returns (extraNonce': nat)
      requires extraNonce < UINT32_MODULUS
      modifies this
      ensures hashPrevBlock == prevHash
      ensures extraNonce' == NextExtraNonce(old(hashPrevBlock) != prevHash, extraNonce)
    {
      var changed := hashPrevBlock != prevHash;
      if changed {
        hashPrevBlock := prevHash;
      }
      extraNonce' := NextExtraNonce(changed, extraNonce);
    }
  }

  /** The block's transactions with the coinbase's first input script
      replaced. */
  function WithCoinbaseScript(vtx: seq<BlockTx>, script: seq<byte>): seq<BlockTx>
    requires |vtx| > 0 && vtx[0].Coinbase? && |vtx[0].vin| > 0
  {
    vtx[0 := vtx[0].(vin := vtx[0].vin[0 := vtx[0].vin[0].(scriptSig := script)])]
  }

  /** Writes the new coinbase script into the block and recomputes the
      merkle root. */
  method SetCoinbaseScript(b: Block, script: seq<byte>)
    requires |b.vtx| > 0 && b.vtx[0].Coinbase? && |b.vtx[0].vin| > 0
    modifies b
    ensures b.vtx == WithCoinbaseScript(old(b.vtx), script) && b.merkleRoot == MerkleRootOf(b.vtx)
    ensures b.version == old(b.version) && b.prevHash == old(b.prevHash) && b.reserved == old(b.reserved)
    ensures b.time == old(b.time) && b.bits == old(b.bits) && b.nonce == old(b.nonce) && b.solution == old(b.solution)
  {
    b.vtx := WithCoinbaseScript(b.vtx, script);
    b.merkleRoot := MerkleRootOf(b.vtx);
  }

  /** Writes the new coinbase scriptSig when it stays within the 100-byte
      bound (the source asserts it does); `ok` says whether it did. */
  method WriteScriptSig(b: Block, script: seq<byte>) returns (ok: bool)
    requires |b.vtx| > 0 && b.vtx[0].Coinbase? && |b.vtx[0].vin| > 0
    modifies b
    ensures ok == (|script| <= MAX_COINBASE_SCRIPTSIG)
    ensures ok ==> b.vtx == WithCoinbaseScript(old(b.vtx), script) && b.merkleRoot == MerkleRootOf(b.vtx)
    ensures !ok ==> b.vtx == old(b.vtx) && b.merkleRoot == old(b.merkleRoot)
    ensures b.version == old(b.version) && b.prevHash == old(b.prevHash) && b.reserved == old(b.reserved)
    ensures b.time == old(b.time) && b.bits == old(b.bits) && b.nonce == old(b.nonce) && b.solution == old(b.solution)
  {
    ok := |script| <= MAX_COINBASE_SCRIPTSIG;
    if ok {
      SetCoinbaseScript(b, script);
    }
  }

  /** IncrementExtraNonce: restarts the counter when the block builds on a
      different previous block than the last call saw, increments it,
      rewrites the coinbase scriptSig as height, extranonce and
      COINBASE_FLAGS, and recomputes the merkle root. The scriptSig must
      stay within 100 bytes: `ok` is false, and the block untouched, where
      the source's assertion would fail. */
  method IncrementExtraNonce(b: Block, tracker: ExtraNonceTracker, prevHeight: nat, extraNonce: nat,
                             flags: seq<byte>)
    returns (extraNonce': nat, ok: bool)
    requires extraNonce < UINT32_MODULUS
    requires |b.vtx| > 0 && b.vtx[0].Coinbase? && |b.vtx[0].vin| > 0
    modifies b, tracker
    ensures tracker.hashPrevBlock == b.prevHash
    ensures extraNonce' == NextExtraNonce(old(tracker.hashPrevBlock) != b.prevHash, extraNonce)
    ensures ok == (|ExtraNonceScriptSig(ToUInt32(prevHeight + 1), extraNonce', flags)| <= MAX_COINBASE_SCRIPTSIG)
    ensures ok ==> b.vtx == WithCoinbaseScript(old(b.vtx), ExtraNonceScriptSig(ToUInt32(prevHeight + 1), extraNonce', flags))
    ensures ok ==> b.merkleRoot == MerkleRootOf(b.vtx)
    ensures !ok ==> b.vtx == old(b.vtx) && b.merkleRoot == old(b.merkleRoot)
    ensures b.version == old(b.version) && b.prevHash == old(b.prevHash) && b.reserved == old(b.reserved)
    ensures b.time == old(b.time) && b.bits == old(b.bits) && b.nonce == old(b.nonce) && b.solution == old(b.solution)
  {
    extraNonce' := tracker.Advance(b.prevHash, extraNonce);
    var height := ToUInt32(prevHeight + 1);
    var script := ExtraNonceScriptSig(height, extraNonce', flags);
    ok := WriteScriptSig(b, script);
  }
}
