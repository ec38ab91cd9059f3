// HKDF over an arbitrary 32-byte MAC (section 2 of RFC 5869).
module Hkdf {
  import opened Common

  const HASH_SIZE := 32
  const MAX_OUTPUT := 255 * HASH_SIZE

  type Digest = b: Bytes | |b| == HASH_SIZE witness seq(HASH_SIZE, _ => 0)

  // HMAC-SHA256 as a function of key and data.
  type Mac = (Bytes, Bytes) -> Digest

  datatype Error = OutputTooLong

  // T(n) of section 2.3, for any n up to 255.
  function Block(mac: Mac, prk: Bytes, info: Bytes, n: nat): (t: Bytes)
    requires n <= 255
    ensures |t| == if n == 0 then 0 else HASH_SIZE
  {
    if n == 0 then [] else mac(prk, Block(mac, prk, info, n - 1) + info + [n])
  }

  // T(1) | T(2) | ... | T(n)
  function Blocks(mac: Mac, prk: Bytes, info: Bytes, n: nat): (ts: Bytes)
    requires n <= 255
    ensures |ts| == n * HASH_SIZE
  {
    if n == 0 then [] else Blocks(mac, prk, info, n - 1) + Block(mac, prk, info, n)
  }

  // How many blocks reach `length` bytes: the least N with 32 * N >= length.
  function Needed(length: nat): nat {
    (length + HASH_SIZE - 1) / HASH_SIZE
  }

  lemma NeededIsLeast(length: nat, n: nat)
    ensures Needed(length) * HASH_SIZE >= length
    ensures n * HASH_SIZE >= length && (n == 0 || (n - 1) * HASH_SIZE < length) <==> n == Needed(length)
    ensures length <= MAX_OUTPUT ==> Needed(length) <= 255
  {
  }

  // The output keying material: the first bytes of T(1) | ... | T(N).
  function Output(mac: Mac, prk: Bytes, info: Bytes, length: nat): Result<Bytes, Error> {
    if length > MAX_OUTPUT then Err(OutputTooLong)
    else
      NeededIsLeast(length, 0);
      Ok(Blocks(mac, prk, info, Needed(length))[..length])
  }

  lemma {:induction false} BlocksExtend(mac: Mac, prk: Bytes, info: Bytes, n: nat, m: nat)
    requires n <= m <= 255
    ensures Blocks(mac, prk, info, n) <= Blocks(mac, prk, info, m)
    decreases m
  {
    if n < m {
      BlocksExtend(mac, prk, info, n, m - 1);
    }
  }

  // A shorter output, though it stops after fewer blocks, is a prefix of a
  // longer one.
  lemma OutputPrefix(mac: Mac, prk: Bytes, info: Bytes, short: nat, long: nat)
    requires short <= long <= MAX_OUTPUT
    ensures Output(mac, prk, info, short).Ok? && Output(mac, prk, info, long).Ok?
    ensures Output(mac, prk, info, short).value == Output(mac, prk, info, long).value[..short]
  {
    hide Blocks;
    NeededIsLeast(short, 0);
    NeededIsLeast(long, 0);
    BlocksExtend(mac, prk, info, Needed(short), Needed(long));
    var few, many := Blocks(mac, prk, info, Needed(short)), Blocks(mac, prk, info, Needed(long));
    assert few[..short] == many[..short] == many[..long][..short];
  }

  // x++ on a byte
  function Inc8(x: Byte): Byte {
    if x == 255 then 0 else x + 1
  }

  // The counter takes the values 1 to 255 in turn and is never used after it
  // has wrapped.
  method Expand(mac: Mac, prk: Bytes, info: Bytes, length: nat) returns (r: Result<Bytes, Error>)
    ensures r == Output(mac, prk, info, length)
  {
    if length > MAX_OUTPUT {
      return Err(OutputTooLong);
    }
    var output, previous: Bytes := [], [];
    var counter: Byte := 1;
    ghost var n := 0;
    while |output| < length
      invariant 0 <= n <= 255 && (n < 255 ==> counter == n + 1) && (n > 0 ==> (n - 1) * HASH_SIZE < length)
      invariant previous == Block(mac, prk, info, n) && output == Blocks(mac, prk, info, n)
      decreases length - |output|
    {
      previous := mac(prk, previous + info + [counter]);
      output := output + previous;
      counter := Inc8(counter);
      n := n + 1;
    }
    NeededIsLeast(length, n);
    return Ok(output[..length]);
  }

  // A missing salt stands for 32 zero bytes.
  function Extract(mac: Mac, secret: Bytes, salt: Option<Bytes>): Digest {
    mac(match salt case None => seq(HASH_SIZE, _ => 0) case Some(s) => s, secret)
  }

  // The salt is the key and the secret the data of the first MAC, whose result
  // is the key of the second: the first block of every output.
  lemma FirstBlock(mac: Mac, secret: Bytes, salt: Option<Bytes>, info: Bytes, length: nat)
    requires HASH_SIZE <= length <= MAX_OUTPUT
    ensures var key := if salt.Some? then salt.value else seq(HASH_SIZE, _ => 0);
            var r := Output(mac, Extract(mac, secret, salt), info, length);
            r.Ok? && r.value[..HASH_SIZE] == mac(mac(key, secret), info + [1])
  {
    var prk := Extract(mac, secret, salt);
    OutputPrefix(mac, prk, info, HASH_SIZE, length);
    assert Blocks(mac, prk, info, 1) == Block(mac, prk, info, 1);
    assert Block(mac, prk, info, 0) + info + [1] == info + [1];
    assert Needed(HASH_SIZE) == 1;
    var zeros: Bytes := seq(HASH_SIZE, _ => 0);
    assert salt.None? ==> prk == mac(zeros, secret);
  }

  method Derive(mac: Mac, secret: Bytes, salt: Option<Bytes>, info: Bytes, length: nat) returns (r: Result<Bytes, Error>)
    ensures r == Output(mac, Extract(mac, secret, salt), info, length)
  {
    r := Expand(mac, Extract(mac, secret, salt), info, length);
  }

  // The two keys are the halves of one output: each n bytes, in order, and
  // refused together.
  method Keys(mac: Mac, secret: Bytes, salt: Option<Bytes>, info: Bytes, n: nat) returns (r: Result<(Bytes, Bytes), Error>)
    ensures r.Ok? <==> 2 * n <= MAX_OUTPUT
    ensures r.Ok? ==> |r.value.0| == |r.value.1| == n
    ensures r.Ok? ==> Output(mac, Extract(mac, secret, salt), info, 2 * n) == Ok(r.value.0 + r.value.1)
  {
    var both := Derive(mac, secret, salt, info, 2 * n);
    if both.Err? {
      return Err(both.error);
    }
    assert both.value == both.value[..n] + both.value[n..2 * n];
    return Ok((both.value[..n], both.value[n..2 * n]));
  }
}
