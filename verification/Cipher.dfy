/** Encryption of a telemetry payload: CBC over 16-byte blocks with PKCS#7 padding, written through a
    moving pointer into a buffer one block longer than the payload. */
module Cipher {
  import opened Prelude

  const BLOCK_SIZE := 16

  type Block = b: seq<Byte> | |b| == 16 witness seq(16, i => 0)

  /** One step of the chain: the cipher block that follows `previous` for a plain block. */
  type Chaining = (Block, Block) -> Block

  /** PKCS#7, section 6.3 of RFC 5652: as many bytes as fill the last block, each their number. */
  function Pad(m: seq<Byte>): (r: seq<Byte>)
    ensures |r| == |m| + BLOCK_SIZE - |m| % BLOCK_SIZE
  {
    var n := BLOCK_SIZE - |m| % BLOCK_SIZE;
    m + seq(n, i => n)
  }

  /** Whole blocks, and at least one byte of padding. */
  lemma PadLayout(m: seq<Byte>, k: nat)
    ensures |Pad(m)| % 16 == 0 && 1 <= |Pad(m)| - |m| <= 16 && m <= Pad(m)
    ensures |m| <= k < |Pad(m)| ==> Pad(m)[k] == |Pad(m)| - |m|
  {
  }

  function Unpad(s: seq<Byte>): seq<Byte> {
    if s == [] || s[|s| - 1] > |s| then [] else s[..|s| - s[|s| - 1]]
  }

  function Last(iv: Block, cipher: seq<Byte>): Block {
    if |cipher| < BLOCK_SIZE then iv else cipher[|cipher| - BLOCK_SIZE..]
  }

  /** The cipher blocks of whole plain blocks. */
  function Chained(chain: Chaining, iv: Block, plain: seq<Byte>): (r: seq<Byte>)
    ensures |plain| % BLOCK_SIZE == 0 ==> |r| == |plain|
    decreases |plain|
  {
    if |plain| < BLOCK_SIZE then []
    else
      var k := |plain| - BLOCK_SIZE;
      var before := Chained(chain, iv, plain[..k]);
      before + chain(Last(iv, before), plain[k..])
  }

  function Encrypted(chain: Chaining, iv: Block, m: seq<Byte>): seq<Byte> {
    Chained(chain, iv, Pad(m))
  }

  /** Padding is undone without knowing the length. */
  lemma PaddingRoundTrip(m: seq<Byte>)
    ensures Unpad(Pad(m)) == m
  {
    var n := BLOCK_SIZE - |m| % BLOCK_SIZE;
    assert Pad(m)[|Pad(m)| - 1] == n;
    assert Pad(m)[..|m|] == m;
  }

  lemma ChainedNext(chain: Chaining, iv: Block, plain: seq<Byte>, b: Block)
    ensures var before := Chained(chain, iv, plain);
            Chained(chain, iv, plain + b) == before + chain(Last(iv, before), b)
  {
    assert (plain + b)[..|plain|] == plain && (plain + b)[|plain|..] == b;
  }

  lemma SliceOfFront(front: seq<Byte>, back: seq<Byte>, at: nat)
    requires at + 16 <= |front|
    ensures (front + back)[at..at + 16] == front[at..at + 16]
  {
  }

  /** Each block is chained to the cipher block before it, the first to the vector. */
  lemma {:induction false} BlockChained(chain: Chaining, iv: Block, plain: seq<Byte>, at: nat)
    requires |plain| % 16 == at % 16 == 0 && at + 16 <= |plain|
    ensures var r := Chained(chain, iv, plain);
            && |r| == |plain|
            && r[at..at + 16] == chain(if at == 0 then iv else r[at - 16..at], plain[at..at + 16])
    decreases |plain|
  {
    hide Chained;
    var n := |plain| - 16;
    var front, b: Block := plain[..n], plain[n..];
    assert plain == front + b;
    ChainedNext(chain, iv, front, b);
    var before := Chained(chain, iv, front);
    var last: seq<Byte> := chain(Last(iv, before), b);
    if at == n {
      assert (before + last)[n..n + 16] == last && plain[n..n + 16] == b;
      if n > 0 { SliceOfFront(before, last, n - 16); }
    } else {
      BlockChained(chain, iv, front, at);
      SliceOfFront(front, b, at);
      SliceOfFront(before, last, at);
      if at > 0 { SliceOfFront(before, last, at - 16); }
    }
  }

  // The receiving side.

  /** What a chain block undoes its chaining with: the block before it decides. */
  ghost predicate Inverts(chain: Chaining, unchain: Chaining) {
    forall previous: Block, b: Block :: unchain(previous, chain(previous, b)) == b
  }

  function Unchained(unchain: Chaining, iv: Block, cipher: seq<Byte>): seq<Byte>
    decreases |cipher|
  {
    if |cipher| < BLOCK_SIZE then []
    else
      var k := |cipher| - BLOCK_SIZE;
      Unchained(unchain, iv, cipher[..k]) + unchain(Last(iv, cipher[..k]), cipher[k..])
  }

  function Decrypted(unchain: Chaining, iv: Block, cipher: seq<Byte>): seq<Byte> {
    Unpad(Unchained(unchain, iv, cipher))
  }

  lemma UnchainedNext(unchain: Chaining, iv: Block, cipher: seq<Byte>, b: Block)
    ensures Unchained(unchain, iv, cipher + b) == Unchained(unchain, iv, cipher) + unchain(Last(iv, cipher), b)
  {
    assert (cipher + b)[..|cipher|] == cipher && (cipher + b)[|cipher|..] == b;
  }

  lemma {:induction false} ChainedUndone(chain: Chaining, unchain: Chaining, iv: Block, plain: seq<Byte>)
    requires Inverts(chain, unchain) && |plain| % BLOCK_SIZE == 0
    ensures Unchained(unchain, iv, Chained(chain, iv, plain)) == plain
    decreases |plain|
  {
    if plain != [] {
      hide Chained, Unchained;
      var k := |plain| - BLOCK_SIZE;
      var b: Block := plain[k..];
      assert plain == plain[..k] + b;
      ChainedUndone(chain, unchain, iv, plain[..k]);
      var before := Chained(chain, iv, plain[..k]);
      ChainedNext(chain, iv, plain[..k], b);
      UnchainedNext(unchain, iv, before, chain(Last(iv, before), b));
    }
  }

  /** Whoever can undo single blocks gets the payload back from its ciphertext and vector. */
  lemma DecryptionUndoes(chain: Chaining, unchain: Chaining, iv: Block, m: seq<Byte>)
    requires Inverts(chain, unchain)
    ensures Decrypted(unchain, iv, Encrypted(chain, iv, m)) == m
  {
    hide Chained, Unchained;
    ChainedUndone(chain, unchain, iv, Pad(m));
    PaddingRoundTrip(m);
  }

  /** Encrypts one block at the pointer and moves it on. */
  method WriteBlock(buffer: array<Byte>, at: nat, previous: Block, plain: Block, chain: Chaining)
    returns (block: Block, next: nat)
    requires at + BLOCK_SIZE <= buffer.Length
    modifies buffer
    ensures block == chain(previous, plain) && next == at + BLOCK_SIZE
    ensures buffer[..next] == old(buffer[..at]) + block
  {
    block := chain(previous, plain);
    for i := 0 to BLOCK_SIZE
      invariant buffer[..at + i] == old(buffer[..at]) + block[..i]
    {
      buffer[at + i] := block[i];
    }
    next := at + BLOCK_SIZE;
  }

  lemma WholeBlocks(size: nat, blocks: nat)
    requires blocks * BLOCK_SIZE <= size < blocks * BLOCK_SIZE + BLOCK_SIZE
    ensures size % BLOCK_SIZE == size - blocks * BLOCK_SIZE
  {
  }

  lemma PadLastBlock(m: seq<Byte>, k: nat)
    requires k <= |m| && |m| % BLOCK_SIZE == |m| - k
    ensures var n := BLOCK_SIZE - |m| % BLOCK_SIZE; Pad(m) == m[..k] + (m[k..] + seq(n, i => n))
  {
  }

  lemma LastAppended(iv: Block, cipher: seq<Byte>, b: Block)
    ensures Last(iv, cipher + b) == b
  {
  }

  lemma UpdateNext(chain: Chaining, iv: Block, message: seq<Byte>, written: nat)
    requires written + BLOCK_SIZE <= |message|
    ensures var before := Chained(chain, iv, message[..written]);
            var block := chain(Last(iv, before), message[written..written + BLOCK_SIZE]);
            var after := Chained(chain, iv, message[..written + BLOCK_SIZE]);
            after == before + block && Last(iv, after) == block
  {
    hide Chained, Last;
    var plain := message[written..written + BLOCK_SIZE];
    assert message[..written + BLOCK_SIZE] == message[..written] + plain;
    ChainedNext(chain, iv, message[..written], plain);
    var before := Chained(chain, iv, message[..written]);
    LastAppended(iv, before, chain(Last(iv, before), plain));
  }

  /** Writes the whole blocks of the message; `previous` is the last one. */
  method EncryptUpdate(buffer: array<Byte>, message: seq<Byte>, iv: Block, chain: Chaining)
    returns (written: nat, previous: Block)
    requires buffer.Length == |message| + BLOCK_SIZE
    modifies buffer
    ensures written == |message| - |message| % BLOCK_SIZE
    ensures buffer[..written] == Chained(chain, iv, message[..written])
    ensures previous == Last(iv, Chained(chain, iv, message[..written]))
  {
    written, previous := 0, iv;
    assert Chained(chain, iv, []) == [] == buffer[..0] && message[..0] == [];
    assert Last(iv, []) == iv;
    hide Chained, Last;
    ghost var blocks := 0;
    while written + BLOCK_SIZE <= |message|
      invariant written == blocks * BLOCK_SIZE <= |message|
      invariant buffer[..written] == Chained(chain, iv, message[..written])
      invariant previous == Last(iv, Chained(chain, iv, message[..written]))
    {
      UpdateNext(chain, iv, message, written);
      previous, written := WriteBlock(buffer, written, previous, message[written..written + BLOCK_SIZE], chain);
      blocks := blocks + 1;
    }
    WholeBlocks(|message|, blocks);
  }

  /** Writes the padded rest. */
  method EncryptFinal(buffer: array<Byte>, message: seq<Byte>, written: nat, previous: Block, ghost iv: Block,
                      chain: Chaining)
    returns (end: nat)
    requires buffer.Length == |message| + BLOCK_SIZE && written == |message| - |message| % BLOCK_SIZE
    requires buffer[..written] == Chained(chain, iv, message[..written])
    requires previous == Last(iv, Chained(chain, iv, message[..written]))
    modifies buffer
    ensures |message| < end <= buffer.Length && buffer[..end] == Encrypted(chain, iv, message)
  {
    hide Chained, Pad, Last;
    var n := BLOCK_SIZE - |message| % BLOCK_SIZE;
    var plain := message[written..] + seq(n, _ => n);
    PadLastBlock(message, written);
    ChainedNext(chain, iv, message[..written], plain);
    var _, next := WriteBlock(buffer, written, previous, plain, chain);
    end := next;
  }

  /** Both stay inside the buffer. */
  method Encrypt(message: seq<Byte>, iv: Block, chain: Chaining) returns (cipher: seq<Byte>)
    ensures cipher == Encrypted(chain, iv, message)
    ensures |message| < |cipher| <= |message| + BLOCK_SIZE
  {
    hide Encrypted, Chained, Last;
    var buffer := new Byte[|message| + BLOCK_SIZE](_ => 48);
    var written, previous := EncryptUpdate(buffer, message, iv, chain);
    var end := EncryptFinal(buffer, message, written, previous, iv, chain);
    cipher := buffer[..end];
  }
}
