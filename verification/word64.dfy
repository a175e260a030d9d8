/** Words as bit-vectors and as numbers: the two views of Go's uint64 agree. */
module Word64 {
  import opened MachineInt

  function Number(b: bv64): (n: uint64) {
    b as int
  }

  function Word(n: uint64): (b: bv64) {
    n as bv64
  }

  lemma WordOfNumber(b: bv64)
    ensures Word(Number(b)) == b
  {
  }

  /** Every number below 2^64 is the value of a word, built two halves at a time. */
  lemma NumberOfWord(n: uint64)
    ensures Number(Word(n)) == n
  {
    var b := Onto64(n);
    WordOfNumber(b);
  }

  lemma Onto2(n: nat) returns (b: bv2)
    requires n < 4
    ensures b as nat == n
  {
    b := if n == 0 then 0 else if n == 1 then 1 else if n == 2 then 2 else 3;
  }

  lemma Join2(l: bv2, r: bv2)
    ensures (((l as bv4) << 2) | (r as bv4)) as nat == (l as nat) * 4 + (r as nat)
  {
  }

  lemma Join4(l: bv4, r: bv4)
    ensures (((l as bv8) << 4) | (r as bv8)) as nat == (l as nat) * 0x10 + (r as nat)
  {
  }

  lemma Join8(l: bv8, r: bv8)
    ensures (((l as bv16) << 8) | (r as bv16)) as nat == (l as nat) * 0x100 + (r as nat)
  {
  }

  lemma Join16(l: bv16, r: bv16)
    ensures (((l as bv32) << 16) | (r as bv32)) as nat == (l as nat) * 0x1_0000 + (r as nat)
  {
  }

  lemma Join32(l: bv32, r: bv32)
    ensures (((l as bv64) << 32) | (r as bv64)) as nat == (l as nat) * 0x1_0000_0000 + (r as nat)
  {
  }

  lemma Onto4(n: nat) returns (b: bv4)
    requires n < 0x10
    ensures b as nat == n
  {
    var l := Onto2(n / 4);
    var r := Onto2(n % 4);
    Join2(l, r);
    b := ((l as bv4) << 2) | (r as bv4);
  }

  lemma Onto8(n: nat) returns (b: bv8)
    requires n < 0x100
    ensures b as nat == n
  {
    var l := Onto4(n / 0x10);
    var r := Onto4(n % 0x10);
    Join4(l, r);
    b := ((l as bv8) << 4) | (r as bv8);
  }

  lemma Onto16(n: nat) returns (b: bv16)
    requires n < 0x1_0000
    ensures b as nat == n
  {
    var l := Onto8(n / 0x100);
    var r := Onto8(n % 0x100);
    Join8(l, r);
    b := ((l as bv16) << 8) | (r as bv16);
  }

  lemma Onto32(n: nat) returns (b: bv32)
    requires n < 0x1_0000_0000
    ensures b as nat == n
  {
    var l := Onto16(n / 0x1_0000);
    var r := Onto16(n % 0x1_0000);
    Join16(l, r);
    b := ((l as bv32) << 16) | (r as bv32);
  }

  lemma Onto64(n: nat) returns (b: bv64)
    requires n < 0x1_0000_0000_0000_0000
    ensures b as nat == n
  {
    var l := Onto32(n / 0x1_0000_0000);
    var r := Onto32(n % 0x1_0000_0000);
    Join32(l, r);
    b := ((l as bv64) << 32) | (r as bv64);
  }
}
