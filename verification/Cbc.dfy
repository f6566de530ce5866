/**
 Encryption of stored secrets: padding of section 6.3 of RFC 5652, cipher block chaining of section 6.2 of
 NIST SP 800-38A with the initialization vector in front, and a text encoding around it. The block function and
 the text encoding are any invertible pairs.
 */
module Cbc {

  const SIZE := 16

  type Block = b: seq<bv8> | |b| == SIZE witness seq(SIZE, _ => 0)

  datatype Cipher = Cipher(enc: Block -> Block, dec: Block -> Block)

  ghost predicate Invertible(c: Cipher) {
    forall b: Block :: c.dec(c.enc(b)) == b
  }

  datatype Decoded = Bytes(bytes: seq<bv8>) | NotText

  datatype Codec = Codec(encode: seq<bv8> -> string, decode: string -> Decoded)

  ghost predicate Reversible(t: Codec) {
    forall b: seq<bv8> :: t.decode(t.encode(b)) == Bytes(b)
  }

  datatype Result = Plain(bytes: seq<bv8>) | BadEncoding | EmptyInput | BadPadding | Panic

  // ---------------------------------------------------------------- padding

  /** So many bytes, each holding their number. */
  function Padding(n: nat): (r: seq<bv8>)
    requires n <= SIZE
    ensures |r| == n
  {
    seq(n, _ => n as bv8)
  }

  function PadCount(length: nat): (n: nat)
    ensures 1 <= n <= SIZE && (length + n) % SIZE == 0
  {
    SIZE - length % SIZE
  }

  /** Between one and sixteen bytes up to the next whole block. */
  function Pad(input: seq<bv8>): seq<bv8> {
    input + Padding(PadCount(|input|))
  }

  function Unpad(input: seq<bv8>): Result {
    if |input| == 0 then EmptyInput
    else
      var n := input[|input| - 1] as int;
      if n == 0 || n > |input| then BadPadding else Plain(input[..|input| - n])
  }

  lemma PadShape(input: seq<bv8>)
    ensures |Pad(input)| % SIZE == 0 && |input| < |Pad(input)| <= |input| + SIZE && input <= Pad(input)
  {
  }

  /** Up to sixteen bytes come behind the text, each holding their number. */
  lemma PadExactly(input: seq<bv8>)
    ensures var n := |Pad(input)| - |input|;
            && 1 <= n <= 16 && |Pad(input)| % 16 == 0 && Pad(input)[..|input|] == input
            && forall k | |input| <= k < |Pad(input)| :: Pad(input)[k] as int == n
  {
    SmallBytes(PadCount(|input|));
  }

  lemma SmallBytes(n: int)
    requires 0 <= n <= 16
    ensures (n as bv8) as int == n
  {
  }

  lemma UnpadPad(input: seq<bv8>)
    ensures Unpad(Pad(input)) == Plain(input)
  {
    var n := PadCount(|input|);
    SmallBytes(n);
    assert Pad(input)[|Pad(input)| - 1] == n as bv8;
    assert Pad(input)[..|input|] == input;
  }

  /** Padding as the standard requires a receiver to see it. */
  predicate ProperlyPadded(x: seq<bv8>) {
    && |x| > 0 && |x| % SIZE == 0
    && var n := x[|x| - 1] as int;
       1 <= n <= SIZE && x[|x| - n..] == Padding(n)
  }

  lemma PadIsProper(y: seq<bv8>)
    ensures ProperlyPadded(Pad(y))
  {
    var n := PadCount(|y|);
    SmallBytes(n);
    PadShape(y);
    assert Pad(y)[|Pad(y)| - 1] == Padding(n)[n - 1];
  }

  lemma ProperIsPad(x: seq<bv8>)
    requires ProperlyPadded(x)
    ensures Unpad(x).Plain? && Pad(Unpad(x).bytes) == x
  {
    var n := x[|x| - 1] as int;
    var y := x[..|x| - n];
    PadLength(|x|, n);
    assert x == y + Padding(n);
  }

  lemma PadLength(length: int, n: int)
    requires length % SIZE == 0 && 1 <= n <= SIZE <= length
    ensures PadCount(length - n) == n
  {
  }

  /** Removal looks at the last byte only; it undoes padding exactly on properly padded input. */
  lemma UnpadIsInverseExactly(x: seq<bv8>)
    ensures Unpad(x).Plain? && Pad(Unpad(x).bytes) == x <==> ProperlyPadded(x)
  {
    if ProperlyPadded(x) {
      ProperIsPad(x);
    }
    if Unpad(x).Plain? {
      PadIsProper(Unpad(x).bytes);
    }
  }

  /** The last byte says how many bytes go, and it may say any number but zero and those beyond the text. */
  lemma UnpadExactly(x: seq<bv8>, y: seq<bv8>)
    ensures Unpad(x) == Plain(y) <==> y <= x && |x| > |y| && x[|x| - 1] as int == |x| - |y|
    ensures Unpad(x) == EmptyInput <==> x == []
    ensures Unpad(x) == BadPadding <==> x != [] && (x[|x| - 1] as int == 0 || x[|x| - 1] as int > |x|)
  {
    if y <= x && |x| > |y| {
      assert x[..|y|] == y;
    }
  }

  /** So a block that no padding produces is accepted, and a byte of it is dropped without a look. */
  lemma UnpadAcceptsMore(x: seq<bv8>)
    requires |x| == SIZE && x[SIZE - 1] == 2 && x[SIZE - 2] != 2
    ensures Unpad(x) == Plain(x[..SIZE - 2]) && !ProperlyPadded(x)
  {
    SmallBytes(2);
  }

  // ---------------------------------------------------------------- chaining

  /** Bit by bit. */
  function Xor(a: Block, b: Block): Block {
    seq(SIZE, i requires 0 <= i < SIZE => a[i] ^ b[i])
  }

  lemma XorBits(a: Block, b: Block, i: nat)
    requires i < 16
    ensures Xor(a, b)[i] == a[i] ^ b[i]
  {
  }

  lemma XorTwice(a: Block, b: Block)
    ensures Xor(Xor(a, b), b) == a
  {
    forall i | 0 <= i < SIZE ensures Xor(Xor(a, b), b)[i] == a[i] {
      XorByteTwice(a[i], b[i]);
    }
  }

  lemma XorByteTwice(x: bv8, y: bv8)
    ensures (x ^ y) ^ y == x
  {
  }

  /** The last block of a text of whole blocks, or the vector it starts from. */
  function Last(iv: Block, text: seq<bv8>): Block
    requires |text| % SIZE == 0
  {
    if text == [] then iv else text[|text| - SIZE..]
  }

  function Chain(c: Cipher, iv: Block, text: seq<bv8>): (r: seq<bv8>)
    requires |text| % SIZE == 0
    ensures |r| == |text|
  {
    if text == [] then []
    else
      var front := Chain(c, iv, text[..|text| - SIZE]);
      front + c.enc(Xor(text[|text| - SIZE..], Last(iv, front)))
  }

  function Unchain(c: Cipher, iv: Block, text: seq<bv8>): (r: seq<bv8>)
    requires |text| % SIZE == 0
    ensures |r| == |text|
  {
    if text == [] then []
    else
      var front := text[..|text| - SIZE];
      Unchain(c, iv, front) + Xor(c.dec(text[|text| - SIZE..]), Last(iv, front))
  }

  /** One more block. */
  lemma UnchainMore(c: Cipher, iv: Block, front: seq<bv8>, last: Block)
    requires |front| % SIZE == 0
    ensures |front + last| % SIZE == 0
    ensures Unchain(c, iv, front + last) == Unchain(c, iv, front) + Xor(c.dec(last), Last(iv, front))
  {
    var text := front + last;
    assert text[..|text| - SIZE] == front && text[|text| - SIZE..] == last;
  }

  lemma ChainMore(c: Cipher, iv: Block, front: seq<bv8>, last: Block)
    requires |front| % SIZE == 0
    ensures |front + last| % SIZE == 0
    ensures Chain(c, iv, front + last) == Chain(c, iv, front) + c.enc(Xor(last, Last(iv, Chain(c, iv, front))))
  {
    var text := front + last;
    assert text[..|text| - SIZE] == front && text[|text| - SIZE..] == last;
  }

  lemma {:induction false} UnchainChain(c: Cipher, iv: Block, text: seq<bv8>)
    requires Invertible(c) && |text| % SIZE == 0
    ensures Unchain(c, iv, Chain(c, iv, text)) == text
  {
    if text != [] {
      var front, last: Block := text[..|text| - SIZE], text[|text| - SIZE..];
      assert text == front + last;
      var sealed := Chain(c, iv, front);
      UnchainChain(c, iv, front);
      ChainMore(c, iv, front, last);
      UnchainMore(c, iv, sealed, c.enc(Xor(last, Last(iv, sealed))));
      XorTwice(last, Last(iv, sealed));
    }
  }

  lemma {:induction false} ChainPrefix(c: Cipher, iv: Block, text: seq<bv8>, at: nat)
    requires |text| % SIZE == 0 && at % SIZE == 0 && at <= |text|
    ensures Chain(c, iv, text)[..at] == Chain(c, iv, text[..at])
    decreases |text|
  {
    if at == |text| {
      assert text[..at] == text;
    } else {
      var front := text[..|text| - SIZE];
      ChainPrefix(c, iv, front, at);
      assert front[..at] == text[..at];
      assert Chain(c, iv, text)[..|front|] == Chain(c, iv, front);
    }
  }

  lemma {:induction false} UnchainPrefix(c: Cipher, iv: Block, text: seq<bv8>, at: nat)
    requires |text| % SIZE == 0 && at % SIZE == 0 && at <= |text|
    ensures Unchain(c, iv, text)[..at] == Unchain(c, iv, text[..at])
    decreases |text|
  {
    if at == |text| {
      assert text[..at] == text;
    } else {
      var front := text[..|text| - SIZE];
      UnchainPrefix(c, iv, front, at);
      assert front[..at] == text[..at];
      assert Unchain(c, iv, text)[..|front|] == Unchain(c, iv, front);
    }
  }

  /** The block of a text that ends at a position, or the vector at its beginning. */
  function Before(iv: Block, text: seq<bv8>, at: nat): Block
    requires at % 16 == 0 && at <= |text|
  {
    if at == 0 then iv else text[at - 16..at]
  }

  /** Each block is encrypted after it was combined with the encrypted block before it, the first with the vector. */
  lemma ChainBlock(c: Cipher, iv: Block, text: seq<bv8>, at: nat)
    requires |text| % 16 == 0 && at % 16 == 0 && at + 16 <= |text|
    ensures var sealed := Chain(c, iv, text);
            sealed[at..at + 16] == c.enc(Xor(text[at..at + 16], Before(iv, sealed, at)))
  {
    var front, block: Block := text[..at], text[at..at + 16];
    var sealed, body := Chain(c, iv, text), Chain(c, iv, front);
    ChainPrefix(c, iv, text, at);
    ChainPrefix(c, iv, text, at + 16);
    assert text[..at + 16] == front + block;
    ChainMore(c, iv, front, block);
    assert sealed[..at + 16] == body + c.enc(Xor(block, Last(iv, body)));
    assert sealed[at..at + 16] == sealed[..at + 16][at..];
    assert Last(iv, body) == Before(iv, sealed, at);
  }

  /** And back: the decrypted block is combined with the encrypted block before it. */
  lemma UnchainBlock(c: Cipher, iv: Block, sealed: seq<bv8>, at: nat)
    requires |sealed| % 16 == 0 && at % 16 == 0 && at + 16 <= |sealed|
    ensures Unchain(c, iv, sealed)[at..at + 16] ==
            Xor(c.dec(sealed[at..at + 16]), Before(iv, sealed, at))
  {
    var front, block: Block := sealed[..at], sealed[at..at + 16];
    var text, body := Unchain(c, iv, sealed), Unchain(c, iv, front);
    UnchainPrefix(c, iv, sealed, at);
    UnchainPrefix(c, iv, sealed, at + 16);
    assert sealed[..at + 16] == front + block;
    UnchainMore(c, iv, front, block);
    assert text[..at + 16] == body + Xor(c.dec(block), Last(iv, front));
    assert text[at..at + 16] == text[..at + 16][at..];
    assert Last(iv, front) == Before(iv, sealed, at);
  }

  // ---------------------------------------------------------------- the whole

  function Encrypt(c: Cipher, t: Codec, iv: Block, plain: seq<bv8>): string {
    PadShape(plain);
    t.encode(iv + Chain(c, iv, Pad(plain)))
  }

  /** Input shorter than a vector, or not of whole blocks, makes the original fail at run time. */
  function Decrypt(c: Cipher, t: Codec, text: string): Result {
    match t.decode(text)
    case NotText => BadEncoding
    case Bytes(sealed) =>
      if |sealed| < SIZE || |sealed| % SIZE != 0 then Panic
      else Unpad(Unchain(c, sealed[..SIZE], sealed[SIZE..]))
  }

  lemma OpensSealed(c: Cipher, iv: Block, plain: seq<bv8>)
    requires Invertible(c)
    ensures |Pad(plain)| % SIZE == 0 && Unpad(Unchain(c, iv, Chain(c, iv, Pad(plain)))) == Plain(plain)
  {
    PadShape(plain);
    UnchainChain(c, iv, Pad(plain));
    UnpadPad(plain);
  }

  lemma SplitSealed(iv: Block, body: seq<bv8>)
    requires |body| % SIZE == 0
    ensures |iv + body| >= SIZE && |iv + body| % SIZE == 0
    ensures (iv + body)[..SIZE] == iv && (iv + body)[SIZE..] == body
  {
  }

  /** What is stored: the vector, then the padded text, chained. */
  lemma SealedForm(c: Cipher, t: Codec, iv: Block, plain: seq<bv8>)
    requires Reversible(t)
    ensures |Pad(plain)| % SIZE == 0
    ensures t.decode(Encrypt(c, t, iv, plain)) == Bytes(iv + Chain(c, iv, Pad(plain)))
  {
    PadShape(plain);
  }

  /** What cannot be decrypted, and how that ends. */
  lemma DecryptFails(c: Cipher, t: Codec, text: string)
    ensures Decrypt(c, t, text) == BadEncoding <==> t.decode(text).NotText?
    ensures Decrypt(c, t, text) == Panic <==>
              t.decode(text).Bytes? && (|t.decode(text).bytes| < 16 || |t.decode(text).bytes| % 16 != 0)
    ensures Decrypt(c, t, text) == EmptyInput <==> t.decode(text).Bytes? && |t.decode(text).bytes| == 16
  {
  }

  /** Decryption returns what was encrypted, for every text, empty or of any length, and every vector. */
  lemma RoundTrip(c: Cipher, t: Codec, iv: Block, plain: seq<bv8>)
    requires Invertible(c) && Reversible(t)
    ensures Decrypt(c, t, Encrypt(c, t, iv, plain)) == Plain(plain)
  {
    OpensSealed(c, iv, plain);
    SplitSealed(iv, Chain(c, iv, Pad(plain)));
  }

  // ---------------------------------------------------------------- the buffers

  method CopyInto(dst: array<bv8>, at: nat, block: Block)
    requires at + SIZE <= dst.Length
    modifies dst
    ensures dst[..] == old(dst[..at]) + block + old(dst[at + SIZE..])
  {
    for k := 0 to SIZE
      invariant dst[..at] == old(dst[..at]) && dst[at..at + k] == block[..k] && dst[at + k..] == old(dst[at + k..])
    {
      dst[at + k] := block[k];
    }
  }

  /** The buffer is filled block by block, each chained to the one before. */
  method EncryptBlocks(c: Cipher, iv: Block, dst: array<bv8>, src: seq<bv8>)
    requires |src| == dst.Length && |src| % SIZE == 0
    modifies dst
    ensures dst[..] == Chain(c, iv, src)
  {
    var prev := iv;
    var at := 0;
    while at < |src|
      invariant at % SIZE == 0 && at <= |src|
      invariant dst[..at] == Chain(c, iv, src[..at]) && prev == Last(iv, dst[..at])
    {
      var block := c.enc(Xor(src[at..at + SIZE], prev));
      ChainMore(c, iv, src[..at], src[at..at + SIZE]);
      assert src[..at + SIZE] == src[..at] + src[at..at + SIZE];
      CopyInto(dst, at, block);
      assert dst[..at + SIZE] == Chain(c, iv, src[..at]) + block;
      prev := block;
      at := at + SIZE;
    }
    assert src[..at] == src && dst[..at] == dst[..];
  }

  method DecryptBlocks(c: Cipher, iv: Block, dst: array<bv8>, src: seq<bv8>)
    requires |src| == dst.Length && |src| % SIZE == 0
    modifies dst
    ensures dst[..] == Unchain(c, iv, src)
  {
    var prev := iv;
    var at := 0;
    while at < |src|
      invariant at % SIZE == 0 && at <= |src|
      invariant dst[..at] == Unchain(c, iv, src[..at]) && prev == Last(iv, src[..at])
    {
      var sealed: Block := src[at..at + SIZE];
      var block := Xor(c.dec(sealed), prev);
      UnchainMore(c, iv, src[..at], sealed);
      assert src[..at + SIZE] == src[..at] + sealed;
      CopyInto(dst, at, block);
      assert dst[..at + SIZE] == Unchain(c, iv, src[..at]) + block;
      prev := sealed;
      at := at + SIZE;
    }
    assert src[..at] == src && dst[..at] == dst[..];
  }

  method EncryptText(c: Cipher, t: Codec, iv: Block, plain: seq<bv8>) returns (text: string)
    requires Invertible(c) && Reversible(t)
    ensures text == Encrypt(c, t, iv, plain) && Decrypt(c, t, text) == Plain(plain)
  {
    PadShape(plain);
    var padded := Pad(plain);
    var sealed := new bv8[|padded|];
    EncryptBlocks(c, iv, sealed, padded);
    text := t.encode(iv + sealed[..]);
    RoundTrip(c, t, iv, plain);
  }

  method DecryptText(c: Cipher, t: Codec, text: string) returns (r: Result)
    ensures r == Decrypt(c, t, text)
  {
    var d := t.decode(text);
    if d.NotText? {
      return BadEncoding;
    }
    var sealed := d.bytes;
    if |sealed| < SIZE || |sealed| % SIZE != 0 {
      return Panic;
    }
    var buffer := new bv8[|sealed| - SIZE];
    DecryptBlocks(c, sealed[..SIZE], buffer, sealed[SIZE..]);
    r := Unpad(buffer[..]);
  }
}
