/** Numbers below 256 and bytes are the same thing. */
module Octets {
  lemma ByteOfNumber(n: nat)
    requires n < 256
    ensures (n as bv8) as nat == n
  {
  }

  lemma NumberOfWord(x: bv32)
    ensures (x as nat) as bv32 == x
  {
  }

  lemma LowByteIsSmall(x: bv32)
    ensures (x & 0xFF) as nat < 256
  {
  }
}
