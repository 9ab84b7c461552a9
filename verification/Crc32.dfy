/**
 The bitwise CRC-32 that guards compressed text, and its table-driven form from section 8 of
 RFC 1952. A 32-bit register is its 32 bits, least significant first.
 */
module Crc32 {
  function Zeros(n: nat): (z: seq<bool>)
    ensures |z| == n && forall i :: 0 <= i < n ==> !z[i]
  {
    if n == 0 then [] else [false] + Zeros(n - 1)
  }

  type Word = w: seq<bool> | |w| == 32 witness Zeros(32)
  type Byte = b: seq<bool> | |b| == 8 witness Zeros(8)

  /** 0xEDB88320 */
  const POLYNOMIAL: Word := [
    false, false, false, false, false, true, false, false,
    true, true, false, false, false, false, false, true,
    false, false, false, true, true, true, false, true,
    true, false, true, true, false, true, true, true
  ]

  /** 0xFFFFFFFF */
  const SEED: Word := Not(Zeros(32))

  /** The rounds spent on one byte. */
  const ROUNDS: nat := 8

  function Xor(a: Word, b: Word): Word {
    seq(32, i requires 0 <= i < 32 => a[i] != b[i])
  }

  function Not(a: Word): Word {
    seq(32, i requires 0 <= i < 32 => !a[i])
  }

  /** A logical shift to the right by `n` places. */
  function ShiftRight(a: Word, n: nat): Word
    requires n <= 32
  {
    a[n..] + Zeros(n)
  }

  function Widen(b: Byte): Word {
    b + Zeros(24)
  }

  /** One round of the inner loop. */
  function Shift(crc: Word): Word {
    if crc[0] then Xor(ShiftRight(crc, 1), POLYNOMIAL) else ShiftRight(crc, 1)
  }

  function ShiftTimes(crc: Word, n: nat): Word
    decreases n
  {
    if n == 0 then crc else ShiftTimes(Shift(crc), n - 1)
  }

  /** The register after a message, with this many rounds for every byte. */
  function RegisterIn(rounds: nat, crc: Word, data: seq<Byte>): Word
    decreases |data|
  {
    if data == [] then crc
    else ShiftTimes(Xor(RegisterIn(rounds, crc, data[..|data| - 1]), Widen(data[|data| - 1])), rounds)
  }

  function Register(crc: Word, data: seq<Byte>): Word {
    RegisterIn(ROUNDS, crc, data)
  }

  function Checksum(data: seq<Byte>): Word {
    Not(Register(SEED, data))
  }

  method ShiftRounds(start: Word, rounds: nat) returns (crc: Word)
    ensures crc == ShiftTimes(start, rounds)
  {
    crc := start;
    var round := 0;
    while round < rounds
      invariant 0 <= round <= rounds
      invariant ShiftTimes(crc, rounds - round) == ShiftTimes(start, rounds)
    {
      if crc[0] {
        crc := Xor(ShiftRight(crc, 1), POLYNOMIAL);
      } else {
        crc := ShiftRight(crc, 1);
      }
      round := round + 1;
    }
  }

  method RegisterOf(start: Word, data: seq<Byte>, rounds: nat) returns (crc: Word)
    ensures crc == RegisterIn(rounds, start, data)
  {
    crc := start;
    for i := 0 to |data|
      invariant crc == RegisterIn(rounds, start, data[..i])
    {
      assert data[..i + 1][..i] == data[..i];
      crc := ShiftRounds(Xor(crc, Widen(data[i])), rounds);
    }
    assert data[..|data|] == data;
  }

  method ComputeCrc32(data: seq<Byte>) returns (checksum: Word)
    ensures checksum == Checksum(data)
  {
    var crc := RegisterOf(SEED, data, ROUNDS);
    checksum := Not(crc);
  }

  // ---------------------------------------------------------------- injectivity

  lemma XorIsInjective(a: Word, b: Word, x: Word)
    requires Xor(a, x) == Xor(b, x)
    ensures a == b
  {
    forall i | 0 <= i < 32 ensures a[i] == b[i] {
      assert Xor(a, x)[i] == Xor(b, x)[i];
    }
  }

  lemma XorCommutes(a: Word, b: Word)
    ensures Xor(a, b) == Xor(b, a)
  {
  }

  /** The top bit of the polynomial is set, so the top bit of the result gives the lost bit back. */
  lemma ShiftIsInjective(a: Word, b: Word)
    requires Shift(a) == Shift(b)
    ensures a == b
  {
    assert Shift(a)[31] == a[0] && Shift(b)[31] == b[0];
    if a[0] {
      XorIsInjective(ShiftRight(a, 1), ShiftRight(b, 1), POLYNOMIAL);
    }
    assert a == [a[0]] + ShiftRight(a, 1)[..31] && b == [b[0]] + ShiftRight(b, 1)[..31];
  }

  lemma {:induction false} ShiftTimesIsInjective(a: Word, b: Word, n: nat)
    requires ShiftTimes(a, n) == ShiftTimes(b, n)
    ensures a == b
    decreases n
  {
    if n > 0 {
      ShiftTimesIsInjective(Shift(a), Shift(b), n - 1);
      ShiftIsInjective(a, b);
    }
  }

  lemma {:induction false} RegisterAppends(rounds: nat, crc: Word, a: seq<Byte>, b: seq<Byte>)
    ensures RegisterIn(rounds, crc, a + b) == RegisterIn(rounds, RegisterIn(rounds, crc, a), b)
    decreases |b|
  {
    if b == [] {
      assert a + b == a;
    } else {
      RegisterAppends(rounds, crc, a, b[..|b| - 1]);
      assert (a + b)[..|a + b| - 1] == a + b[..|b| - 1];
    }
  }

  lemma RegisterAppend(crc: Word, a: seq<Byte>, b: seq<Byte>)
    ensures Register(crc, a + b) == Register(Register(crc, a), b)
  {
    RegisterAppends(ROUNDS, crc, a, b);
  }

  lemma {:induction false} RegisterInIsInjective(rounds: nat, a: Word, b: Word, data: seq<Byte>)
    requires RegisterIn(rounds, a, data) == RegisterIn(rounds, b, data)
    ensures a == b
    decreases |data|
  {
    if data != [] {
      var n := |data| - 1;
      var x, y := RegisterIn(rounds, a, data[..n]), RegisterIn(rounds, b, data[..n]);
      ShiftTimesIsInjective(Xor(x, Widen(data[n])), Xor(y, Widen(data[n])), rounds);
      XorIsInjective(x, y, Widen(data[n]));
      RegisterInIsInjective(rounds, a, b, data[..n]);
    }
  }

  /** However long the message that follows, different registers stay different. */
  lemma RegisterIsInjective(a: Word, b: Word, data: seq<Byte>)
    requires Register(a, data) == Register(b, data)
    ensures a == b
  {
    RegisterInIsInjective(ROUNDS, a, b, data);
  }

  // ---------------------------------------------------------------- linearity

  lemma XorAssociates(a: Word, b: Word, c: Word)
    ensures Xor(Xor(a, b), c) == Xor(a, Xor(b, c))
  {
  }

  /** Bits that have not reached the low end pass through a round without feedback. */
  lemma ShiftPasses(u: Word, v: Word)
    requires !v[0]
    ensures Shift(Xor(u, v)) == Xor(Shift(u), ShiftRight(v, 1))
  {
    assert Xor(u, v)[0] == u[0];
  }

  lemma {:induction false} ShiftTimesPasses(u: Word, v: Word, n: nat)
    requires n <= 32 && forall i :: 0 <= i < n ==> !v[i]
    ensures ShiftTimes(Xor(u, v), n) == Xor(ShiftTimes(u, n), ShiftRight(v, n))
    decreases n
  {
    if n == 0 {
      assert ShiftRight(v, 0) == v;
    } else {
      ShiftPasses(u, v);
      ShiftTimesPasses(Shift(u), ShiftRight(v, 1), n - 1);
      assert ShiftRight(ShiftRight(v, 1), n - 1) == ShiftRight(v, n);
    }
  }

  lemma {:induction false} ShiftTimesAdds(crc: Word, m: nat, n: nat)
    ensures ShiftTimes(ShiftTimes(crc, m), n) == ShiftTimes(crc, m + n)
    decreases m
  {
    if m > 0 {
      ShiftTimesAdds(Shift(crc), m - 1, n);
    }
  }

  // ---------------------------------------------------------------- the table form

  function LowByte(a: Word): Word {
    a[..8] + Zeros(24)
  }

  /** Entry `n` of the table of section 8 of RFC 1952. */
  function CrcTable(n: Word): Word {
    ShiftTimes(n, ROUNDS)
  }

  /** The update of section 8 of RFC 1952: one lookup in `table` per byte. */
  function TableRegister(table: Word -> Word, crc: Word, data: seq<Byte>): Word
    decreases |data|
  {
    if data == [] then crc
    else
      var c := TableRegister(table, crc, data[..|data| - 1]);
      Xor(table(LowByte(Xor(c, Widen(data[|data| - 1])))), ShiftRight(c, 8))
  }

  lemma TableStep(table: Word -> Word, c: Word, byte: Byte, rounds: nat)
    requires rounds == ROUNDS && forall n :: table(n) == ShiftTimes(n, rounds)
    ensures Xor(table(LowByte(Xor(c, Widen(byte)))), ShiftRight(c, 8)) == ShiftTimes(Xor(c, Widen(byte)), rounds)
  {
    var x := Xor(c, Widen(byte));
    var high: Word := Zeros(8) + c[8..];
    assert Xor(LowByte(x), high) == x;
    ShiftTimesPasses(LowByte(x), high, rounds);
    assert ShiftRight(high, 8) == ShiftRight(c, 8);
  }

  lemma {:induction false} TableFormIn(table: Word -> Word, crc: Word, data: seq<Byte>, rounds: nat)
    requires rounds == ROUNDS && forall n :: table(n) == ShiftTimes(n, rounds)
    ensures TableRegister(table, crc, data) == RegisterIn(rounds, crc, data)
    decreases |data|
  {
    if data != [] {
      TableFormIn(table, crc, data[..|data| - 1], rounds);
      TableStep(table, RegisterIn(rounds, crc, data[..|data| - 1]), data[|data| - 1], rounds);
    }
  }

  /** The bitwise loop computes the same register as the table-driven update. */
  lemma TableFormAgrees(table: Word -> Word, crc: Word, data: seq<Byte>)
    requires forall n :: table(n) == CrcTable(n)
    ensures TableRegister(table, crc, data) == Register(crc, data)
  {
    TableFormIn(table, crc, data, ROUNDS);
  }

  // ---------------------------------------------------------------- bursts

  /** Up to four bytes as one word, the first byte lowest. */
  function WordOf(bytes: seq<Byte>): Word
    requires |bytes| <= 4
  {
    seq(32, i requires 0 <= i < 32 => i / 8 < |bytes| && bytes[i / 8][i % 8])
  }

  /** A byte placed `n` bytes up. */
  function Place(byte: Byte, n: nat): Word
    requires n <= 3
  {
    seq(32, i requires 0 <= i < 32 => 8 * n <= i < 8 * n + 8 && byte[i - 8 * n])
  }

  lemma PlaceFalls(byte: Byte, n: nat)
    requires n <= 3
    ensures ShiftRight(Place(byte, n), 8 * n) == Widen(byte)
  {
  }

  lemma WordGrows(bytes: seq<Byte>)
    requires 1 <= |bytes| <= 4
    ensures var n := |bytes| - 1; Xor(WordOf(bytes[..n]), Place(bytes[n], n)) == WordOf(bytes)
  {
    var n := |bytes| - 1;
    var left, right := Xor(WordOf(bytes[..n]), Place(bytes[n], n)), WordOf(bytes);
    forall i | 0 <= i < 32 ensures left[i] == right[i] {
      assert 8 * n <= i < 8 * n + 8 <==> i / 8 == n;
      assert i / 8 == n ==> i % 8 == i - 8 * n;
    }
  }

  lemma NoBytesNoWord(crc: Word)
    ensures Xor(crc, WordOf([])) == crc
  {
  }

  lemma ByteJoinsWord(crc: Word, word: Word, byte: Byte, n: nat, shift: nat, rounds: nat)
    requires n <= 3 && shift == 8 * n
    ensures ShiftTimes(Xor(ShiftTimes(Xor(crc, word), shift), Widen(byte)), rounds)
         == ShiftTimes(Xor(crc, Xor(word, Place(byte, n))), shift + rounds)
  {
    var placed := Place(byte, n);
    PlaceFalls(byte, n);
    ShiftTimesPasses(Xor(crc, word), placed, shift);
    ShiftTimesAdds(Xor(Xor(crc, word), placed), shift, rounds);
    XorAssociates(crc, word, placed);
  }

  lemma {:induction false} BytesEnterInRounds(crc: Word, bytes: seq<Byte>, rounds: nat, shift: nat)
    requires |bytes| <= 4 && rounds == ROUNDS && shift == 8 * |bytes|
    ensures RegisterIn(rounds, crc, bytes) == ShiftTimes(Xor(crc, WordOf(bytes)), shift)
    decreases |bytes|
  {
    if bytes == [] {
      NoBytesNoWord(crc);
    } else {
      var n := |bytes| - 1;
      BytesEnterInRounds(crc, bytes[..n], rounds, shift - rounds);
      ByteJoinsWord(crc, WordOf(bytes[..n]), bytes[n], n, shift - rounds, rounds);
      WordGrows(bytes);
    }
  }

  /** Up to four bytes enter the register as one word: their rounds can all come afterwards. */
  lemma BytesEnterAsAWord(crc: Word, bytes: seq<Byte>)
    requires |bytes| <= 4
    ensures Register(crc, bytes) == ShiftTimes(Xor(crc, WordOf(bytes)), 8 * |bytes|)
  {
    BytesEnterInRounds(crc, bytes, ROUNDS, 8 * |bytes|);
  }

  lemma WordOfIsInjective(a: seq<Byte>, b: seq<Byte>)
    requires |a| == |b| <= 4 && WordOf(a) == WordOf(b)
    ensures a == b
  {
    forall k | 0 <= k < |a| ensures a[k] == b[k] {
      forall j | 0 <= j < 8 ensures a[k][j] == b[k][j] {
        assert WordOf(a)[8 * k + j] == a[k][j] && WordOf(b)[8 * k + j] == b[k][j];
      }
    }
  }

  /**
   Messages of equal length that differ only inside a window of at most four bytes get
   different checksums; one changed byte is the window of size one.
   */
  lemma BurstIsDetected(head: seq<Byte>, a: seq<Byte>, b: seq<Byte>, tail: seq<Byte>)
    requires |a| == |b| <= 4 && a != b
    ensures Checksum(head + a + tail) != Checksum(head + b + tail)
  {
    if Checksum(head + a + tail) == Checksum(head + b + tail) {
      NotIsInjective(Register(SEED, head + a + tail), Register(SEED, head + b + tail));
      RegisterAppend(SEED, head + a, tail);
      RegisterAppend(SEED, head + b, tail);
      RegisterIsInjective(Register(SEED, head + a), Register(SEED, head + b), tail);
      RegisterAppend(SEED, head, a);
      RegisterAppend(SEED, head, b);
      SameWindow(Register(SEED, head), a, b);
    }
  }

  lemma SameWindow(crc: Word, a: seq<Byte>, b: seq<Byte>)
    requires |a| == |b| <= 4 && Register(crc, a) == Register(crc, b)
    ensures a == b
  {
    BytesEnterAsAWord(crc, a);
    BytesEnterAsAWord(crc, b);
    ShiftTimesIsInjective(Xor(crc, WordOf(a)), Xor(crc, WordOf(b)), 8 * |a|);
    XorCommutes(crc, WordOf(a));
    XorCommutes(crc, WordOf(b));
    XorIsInjective(WordOf(a), WordOf(b), crc);
    WordOfIsInjective(a, b);
  }

  lemma NotIsInjective(a: Word, b: Word)
    requires Not(a) == Not(b)
    ensures a == b
  {
    forall i | 0 <= i < 32 ensures a[i] == b[i] {
      assert Not(a)[i] == Not(b)[i];
    }
  }
}
