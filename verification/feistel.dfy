/** The four-round balanced Feistel cipher on 64-bit blocks. */
module Feistel {
  type RoundKeys = k: seq<bv32> | |k| == 4 witness [0, 0, 0, 0]

  datatype Halves = Halves(l: bv32, r: bv32)

  function Split(block: bv64): Halves {
    Halves((block >> 32) as bv32, (block & 0xFFFF_FFFF) as bv32)
  }

  function Join(h: Halves): bv64 {
    ((h.l as bv64) << 32) | (h.r as bv64)
  }

  function FeistelRound(r: bv32, k: bv32): bv32 {
    (r ^ k) * 0x9e37_79b9
  }

  function Round(h: Halves, k: bv32): Halves {
    Halves(h.r, h.l ^ FeistelRound(h.r, k))
  }

  function Unround(h: Halves, k: bv32): Halves {
    Halves(h.r ^ FeistelRound(h.l, k), h.l)
  }

  /** The state after the first n rounds. */
  function Forward(h: Halves, keys: seq<bv32>, n: nat): Halves
    requires n <= |keys|
  {
    if n == 0 then h else Round(Forward(h, keys, n - 1), keys[n - 1])
  }

  /** The state after undoing rounds n-1, ..., 0. */
  function Backward(h: Halves, keys: seq<bv32>, n: nat): Halves
    requires n <= |keys|
    decreases n
  {
    if n == 0 then h else Backward(Unround(h, keys[n - 1]), keys, n - 1)
  }

  function EncryptBlock(block: bv64, keys: RoundKeys): bv64 {
    Join(Forward(Split(block), keys, 4))
  }

  function DecryptBlock(block: bv64, keys: RoundKeys): bv64 {
    Join(Backward(Split(block), keys, 4))
  }

  lemma XorCancels(a: bv32, b: bv32)
    ensures (a ^ b) ^ b == a
  {
  }

  lemma SplitJoin(block: bv64, h: Halves)
    ensures Join(Split(block)) == block
    ensures Split(Join(h)) == h
  {
  }

  lemma RoundIsInvertible(h: Halves, k: bv32)
    ensures Unround(Round(h, k), k) == h
    ensures Round(Unround(h, k), k) == h
  {
    XorCancels(h.l, FeistelRound(h.r, k));
    XorCancels(h.r, FeistelRound(h.l, k));
  }

  lemma {:induction false} BackwardUndoesForward(h: Halves, keys: seq<bv32>, n: nat)
    requires n <= |keys|
    ensures Backward(Forward(h, keys, n), keys, n) == h
  {
    if n > 0 {
      RoundIsInvertible(Forward(h, keys, n - 1), keys[n - 1]);
      BackwardUndoesForward(h, keys, n - 1);
    }
  }

  lemma {:induction false} ForwardUndoesBackward(h: Halves, keys: seq<bv32>, n: nat)
    requires n <= |keys|
    ensures Forward(Backward(h, keys, n), keys, n) == h
    decreases n
  {
    if n > 0 {
      RoundIsInvertible(h, keys[n - 1]);
      ForwardUndoesBackward(Unround(h, keys[n - 1]), keys, n - 1);
    }
  }

  /** Encryption is a bijection on blocks for every choice of round keys. */
  lemma CipherIsBijective(block: bv64, keys: RoundKeys)
    ensures DecryptBlock(EncryptBlock(block, keys), keys) == block
    ensures EncryptBlock(DecryptBlock(block, keys), keys) == block
  {
    var h := Split(block);
    SplitJoin(block, Forward(h, keys, 4));
    SplitJoin(block, Backward(h, keys, 4));
    BackwardUndoesForward(h, keys, 4);
    ForwardUndoesBackward(h, keys, 4);
  }

  const KNOWN_KEYS: RoundKeys := [0x0123_4567, 0x89ab_cdef, 0xdead_beef, 0x0bad_cafe]

  /** One block, followed through the four rounds. */
  lemma KnownBlock()
    ensures EncryptBlock(42, KNOWN_KEYS) == 0x5462_dfa2_a8f3_a82c
  {
    var h := Split(42);
    assert h == Halves(0, 42);
    assert Forward(h, KNOWN_KEYS, 0) == h;
    assert Forward(h, KNOWN_KEYS, 1) == Halves(0x2a, 0xe7c9_79a5);
    assert Forward(h, KNOWN_KEYS, 2) == Halves(0xe7c9_79a5, 0xd471_4350);
    assert Forward(h, KNOWN_KEYS, 3) == Halves(0xd471_4350, 0x5462_dfa2);
    assert Forward(h, KNOWN_KEYS, 4) == Halves(0x5462_dfa2, 0xa8f3_a82c);
  }

  method Encrypt(block: bv64, keys: RoundKeys) returns (result: bv64)
    ensures result == EncryptBlock(block, keys)
    ensures DecryptBlock(result, keys) == block
  {
    var h := Split(block);
    var l, r := h.l, h.r;
    for i := 0 to 4
      invariant Halves(l, r) == Forward(Split(block), keys, i)
    {
      var nextL := r;
      var nextR := l ^ FeistelRound(r, keys[i]);
      l, r := nextL, nextR;
    }
    result := Join(Halves(l, r));
    CipherIsBijective(block, keys);
  }

  method Decrypt(block: bv64, keys: RoundKeys) returns (result: bv64)
    ensures result == DecryptBlock(block, keys)
    ensures EncryptBlock(result, keys) == block
  {
    var h := Split(block);
    var l, r := h.l, h.r;
    for i := 4 downto 0
      invariant Backward(Halves(l, r), keys, i) == Backward(Split(block), keys, 4)
    {
      var prevR := l;
      var prevL := r ^ FeistelRound(l, keys[i]);
      l, r := prevL, prevR;
    }
    result := Join(Halves(l, r));
    CipherIsBijective(block, keys);
  }
}
