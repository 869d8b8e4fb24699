/** The coinbase input script: how the block height, the extranonce and the
    coinbase flags are written into it. Numbers are pushed the way Bitcoin
    script pushes integers: small values as a single opcode, others as a
    direct push of their minimal little-endian script-number encoding. */
module CoinbaseScript {
  import opened MinerTypes

  const OP_0: byte := 0x00
  const OP_1NEGATE: byte := 0x4f
  const OP_1: byte := 0x51
  const OP_16: byte := 0x60
  const OP_PUSHDATA1: byte := 0x4c

  /** Largest coinbase input script the miner accepts. */
  const MAX_COINBASE_SCRIPTSIG: nat := 100

  /** 256^k. */
  function Pow256(k: nat): (p: nat)
    ensures p >= 1
  {
    if k == 0 then 1 else 256 * Pow256(k - 1)
  }

  /** Minimal little-endian bytes of a magnitude; zero has none. */
  function LittleEndian(n: nat): (bs: seq<byte>)
    ensures bs != [] <==> n != 0
    ensures bs != [] ==> bs[|bs| - 1] != 0
  {
    if n == 0 then [] else [(n % 256) as byte] + LittleEndian(n / 256)
  }

  /** The value of little-endian bytes. */
  function FromLittleEndian(bs: seq<byte>): nat
  {
    if bs == [] then 0 else bs[0] as nat + 256 * FromLittleEndian(bs[1..])
  }

  /** CScriptNum serialization of a non-negative value: the magnitude's
      minimal little-endian bytes, plus a 0x00 byte when the top bit of the
      last byte is set (that bit is the sign). */
  function ScriptNumBytes(n: nat): (bs: seq<byte>)
    ensures bs == [] <==> n == 0
    ensures bs != [] ==> bs[|bs| - 1] < 0x80
  {
    var le := LittleEndian(n);
    if le != [] && le[|le| - 1] >= 0x80 then le + [0] else le
  }

  /** The value a script number denotes: little-endian magnitude, negative
      when the top bit of the last byte is set. */
  function ScriptNumValue(bs: seq<byte>): int
  {
    if bs == [] then 0
    else
      var last := bs[|bs| - 1];
      if last >= 0x80 then -(FromLittleEndian(bs[..|bs| - 1] + [last - 0x80]) as int)
      else FromLittleEndian(bs)
  }

  lemma {:induction false} LittleEndianRoundTrip(n: nat)
    ensures FromLittleEndian(LittleEndian(n)) == n
  {
    if n != 0 {
      LittleEndianRoundTrip(n / 256);
      assert LittleEndian(n)[1..] == LittleEndian(n / 256);
    }
  }

  lemma {:induction false} FromLittleEndianPad(bs: seq<byte>)
    ensures FromLittleEndian(bs + [0]) == FromLittleEndian(bs)
  {
    if bs != [] {
      assert (bs + [0])[1..] == bs[1..] + [0];
      FromLittleEndianPad(bs[1..]);
    }
  }

  /** Decoding a serialized non-negative script number gives it back. */
  lemma ScriptNumRoundTrip(n: nat)
    ensures ScriptNumValue(ScriptNumBytes(n)) == n
  {
    LittleEndianRoundTrip(n);
    var le := LittleEndian(n);
    if le != [] && le[|le| - 1] >= 0x80 {
      FromLittleEndianPad(le);
    }
  }

  lemma {:induction false} LittleEndianLength(n: nat, k: nat)
    requires n < Pow256(k)
    ensures |LittleEndian(n)| <= k
  {
    if n != 0 {
      assert k > 0;
      LittleEndianLength(n / 256, k - 1);
    }
  }

  /** A 32-bit value takes at most five bytes as a script number. */
  lemma ScriptNumLength(n: nat)
    requires n < 0x1_0000_0000
    ensures |ScriptNumBytes(n)| <= 5
  {
    assert Pow256(4) == 0x1_0000_0000 by {
      assert Pow256(2) == 65536;
    }
    LittleEndianLength(n, 4);
  }

  /** Little-endian bytes of a length field. */
  function LengthBytes(n: nat, width: nat): (bs: seq<byte>)
    ensures |bs| == width
  {
    if width == 0 then [] else [(n % 256) as byte] + LengthBytes(n / 256, width - 1)
  }

  /** CScript << data: the shortest push opcode for the length, then the
      data. */
  function PushData(data: seq<byte>): (s: seq<byte>)
    ensures |data| < OP_PUSHDATA1 as nat ==> s == [|data| as byte] + data
    ensures |s| > |data|
  {
    if |data| < OP_PUSHDATA1 as nat then [|data| as byte] + data
    else if |data| <= 0xff then [OP_PUSHDATA1, |data| as byte] + data
    else if |data| <= 0xffff then [0x4d] + LengthBytes(|data|, 2) + data
    else [0x4e] + LengthBytes(|data|, 4) + data
  }

  /** The pushed data closes every push, whatever its length. */
  lemma PushDataSuffix(data: seq<byte>)
    ensures var s := PushData(data); s[|s| - |data|..] == data
  {
  }

  /** CScript << n for a non-negative integer: OP_0, OP_1..OP_16, or a push
      of the script-number bytes. */
  function PushInt(n: nat): (s: seq<byte>)
    ensures s != []
    ensures n <= 16 <==> |s| == 1
  {
    if n == 0 then [OP_0]
    else if n <= 16 then [(OP_1 as int + n - 1) as byte]
    else PushData(ScriptNumBytes(n))
  }

  /** Reads the integer pushed at the start of a script: its value and how
      many bytes the push took. */
  function ReadPushedInt(s: seq<byte>): Option<(int, nat)>
  {
    if s == [] then None
    else if s[0] == OP_0 then Some((0, 1))
    else if s[0] == OP_1NEGATE then Some((-1, 1))
    else if OP_1 <= s[0] <= OP_16 then Some((s[0] as int - (OP_1 as int - 1), 1))
    else if s[0] < OP_PUSHDATA1 && s[0] as nat < |s| then
      Some((ScriptNumValue(s[1..1 + s[0] as nat]), 1 + s[0] as nat))
    else None
  }

  /** The integer pushed first is read back, whatever follows it: the height
      is recoverable from the start of every coinbase script built here. */
  lemma PushIntRoundTrip(n: nat, rest: seq<byte>)
    requires n < 0x1_0000_0000
    ensures ReadPushedInt(PushInt(n) + rest) == Some((n, |PushInt(n)|))
  {
    if n > 16 {
      var bs := ScriptNumBytes(n);
      ScriptNumLength(n);
      ScriptNumRoundTrip(n);
      var s := PushInt(n) + rest;
      assert s[1..1 + |bs|] == bs;
    }
  }

  lemma PushIntLength(n: nat)
    requires n < 0x1_0000_0000
    ensures 1 <= |PushInt(n)| <= 6
  {
    if n > 16 {
      ScriptNumLength(n);
    }
  }

  /** The scriptSig of the template's coinbase: the height, then OP_0. */
  function TemplateScriptSig(height: nat): seq<byte>
  {
    PushInt(height) + [OP_0]
  }

  /** The scriptSig IncrementExtraNonce writes: the height, the extranonce
      as a script number, then the coinbase flags. */
  function ExtraNonceScriptSig(height: nat, extraNonce: nat, flags: seq<byte>): (s: seq<byte>)
    ensures |s| > |PushInt(height)| + |flags|
    ensures s[..|PushInt(height)|] == PushInt(height)
    ensures s[|s| - |flags|..] == flags
  {
    var h, n := PushInt(height), PushData(ScriptNumBytes(extraNonce));
    PushesFramed(h, n, flags);
    h + (n + flags)
  }

  /** A script made of a push, a second non-empty push and the flags
      starts with the first push and ends with the flags. */
  lemma PushesFramed(h: seq<byte>, n: seq<byte>, flags: seq<byte>)
    requires n != []
    ensures (h + (n + flags))[..|h|] == h
    ensures var s := h + (n + flags); s[|s| - |flags|..] == flags
    ensures |h + (n + flags)| > |h| + |flags|
  {
    var s := h + (n + flags);
    assert s[|s| - |flags|..] == flags;
  }

  /** For 32-bit height and extranonce the script is at most 12 bytes plus
      the flags, so it stays within the 100-byte bound whenever the flags
      take at most 88 bytes. */
  lemma ExtraNonceScriptSigLength(height: nat, extraNonce: nat, flags: seq<byte>)
    requires height < 0x1_0000_0000 && extraNonce < 0x1_0000_0000
    ensures |ExtraNonceScriptSig(height, extraNonce, flags)| <= 12 + |flags|
    ensures |flags| <= MAX_COINBASE_SCRIPTSIG - 12 ==>
      |ExtraNonceScriptSig(height, extraNonce, flags)| <= MAX_COINBASE_SCRIPTSIG
  {
    PushIntLength(height);
    ScriptNumLength(extraNonce);
  }

  /** Both coinbase scripts start with the height, so it can be read back. */
  lemma ScriptSigsCarryHeight(height: nat, extraNonce: nat, flags: seq<byte>)
    requires height < 0x1_0000_0000
    ensures ReadPushedInt(TemplateScriptSig(height)).Some?
    ensures ReadPushedInt(TemplateScriptSig(height)).value.0 == height
    ensures ReadPushedInt(ExtraNonceScriptSig(height, extraNonce, flags)).Some?
    ensures ReadPushedInt(ExtraNonceScriptSig(height, extraNonce, flags)).value.0 == height
  {
    PushIntRoundTrip(height, [OP_0]);
    PushIntRoundTrip(height, PushData(ScriptNumBytes(extraNonce)) + flags);
  }

  lemma SliceAfter(head: seq<byte>, tail: seq<byte>)
    ensures (head + tail)[|head|..] == tail
  {
  }

  /** A script number pushed as data is read back, whatever follows it. */
  lemma PushNumRoundTrip(n: nat, rest: seq<byte>)
    requires n < 0x1_0000_0000
    ensures ReadPushedInt(PushData(ScriptNumBytes(n)) + rest) == Some((n, 1 + |ScriptNumBytes(n)|))
  {
    var bs := ScriptNumBytes(n);
    ScriptNumLength(n);
    ScriptNumRoundTrip(n);
    var s := PushData(bs) + rest;
    assert s[1..1 + |bs|] == bs;
  }

  /** The extranonce is read back from the script, right after the height. */
  lemma ExtraNonceReadBack(height: nat, extraNonce: nat, flags: seq<byte>)
    requires height < 0x1_0000_0000 && extraNonce < 0x1_0000_0000
    ensures var s := ExtraNonceScriptSig(height, extraNonce, flags);
      |PushInt(height)| <= |s| &&
      ReadPushedInt(s[|PushInt(height)|..]) == Some((extraNonce as int, 1 + |ScriptNumBytes(extraNonce)|))
  {
    PushNumRoundTrip(extraNonce, flags);
    SliceAfter(PushInt(height), PushData(ScriptNumBytes(extraNonce)) + flags);
  }

  /** Two different 32-bit extranonces give two different coinbase scripts
      at the same height, so every increment changes the coinbase. */
  lemma ExtraNonceScriptsDiffer(height: nat, n1: nat, n2: nat, flags: seq<byte>)
    requires height < 0x1_0000_0000 && n1 < 0x1_0000_0000 && n2 < 0x1_0000_0000
    requires n1 != n2
    ensures ExtraNonceScriptSig(height, n1, flags) != ExtraNonceScriptSig(height, n2, flags)
  {
    ExtraNonceReadBack(height, n1, flags);
    ExtraNonceReadBack(height, n2, flags);
  }
}
