/**
 * The prototype register file of Simulador/Assembly.cpp: class Assembly
 * with a string pc and sp, eight int registers, the carry/sign/overflow
 * ints, and two mov forms whose operands arrive as std::bitset values.
 */
module Prototype {

  import opened Arithmetic

  /** The 32-bit C++ int. */
  type Int32 = x: int | -0x8000_0000 <= x < 0x8000_0000

  /**
   * A std::bitset as its bits: b[i] is bit i, what operator[](i) returns.
   * Bitset4 and Bitset8 stand for std::bitset<4> and std::bitset<8>.
   */
  type Bitset4 = b: seq<bool> | |b| == 4 witness [false, false, false, false]
  type Bitset8 = b: seq<bool> | |b| == 8 witness [false, false, false, false, false, false, false, false]

  /** The unsigned value a bitset denotes: the sum of 2^i over its set bits i. */
  function Value(b: seq<bool>): (v: nat)
    ensures v < Pow2(|b|)
  {
    if b == [] then 0 else (if b[0] then 1 else 0) + 2 * Value(b[1..])
  }

  /** The bitset constructed from an unsigned value: its low width bits. */
  function FromValue(n: nat, width: nat): (b: seq<bool>)
    ensures |b| == width
  {
    if width == 0 then [] else [n % 2 == 1] + FromValue(n / 2, width - 1)
  }

  function Digit(bit: bool): char { if bit then '1' else '0' }

  /** bitset::to_string: one '0' or '1' per bit, most significant bit first. */
  function ToString(b: seq<bool>): (s: string)
    ensures |s| == |b|
    ensures forall i :: 0 <= i < |s| ==> s[i] == Digit(b[|b| - 1 - i])
  {
    if b == [] then "" else ToString(b[1..]) + [Digit(b[0])]
  }

  predicate IsBinary(s: string)
  {
    forall i :: 0 <= i < |s| ==> s[i] == '0' || s[i] == '1'
  }

  /** std::stoi(s, nullptr, 2) on a string of binary digits: most significant digit first. */
  function ParseBinary(s: string): nat
    requires IsBinary(s)
  {
    if s == [] then 0
    else 2 * ParseBinary(s[..|s| - 1]) + (if s[|s| - 1] == '1' then 1 else 0)
  }

  /**
   * Both binToDecimal overloads: stoi base 2 of to_string.  The result is
   * the bitset's unsigned value, so 0..15 for a bitset<4> and 0..255 for a
   * bitset<8>; no string of at most 8 digits overflows stoi.
   */
  function BinToDecimal(b: seq<bool>): (r: nat)
    ensures r == Value(b) && r < Pow2(|b|)
  {
    ToStringParses(b);
    ParseBinary(ToString(b))
  }

  lemma {:induction false} ToStringParses(b: seq<bool>)
    ensures IsBinary(ToString(b)) && ParseBinary(ToString(b)) == Value(b)
  {
    if b != [] {
      ToStringParses(b[1..]);
      var s := ToString(b);
      assert s[..|s| - 1] == ToString(b[1..]);
    }
  }

  /** Constructing a bitset from n and reading it back yields n modulo 2^width. */
  lemma {:induction false} FromValueRoundTrip(n: nat, width: nat)
    ensures Value(FromValue(n, width)) == n % Pow2(width)
    decreases width
  {
    if width > 0 {
      FromValueRoundTrip(n / 2, width - 1);
      var b := FromValue(n, width);
      assert b[1..] == FromValue(n / 2, width - 1);
      DivideTwice(n, 2, Pow2(width - 1));
    }
  }

  class Assembly {
    var pc: string
    var sp: string
    var registers: array<Int32>
    var c: Int32
    var s: Int32
    var ov: Int32

    ghost predicate Valid()
      reads this
    {
      registers.Length == 8
    }

    /**
     * pc "0000", sp "8200", the three flags 0.  The register array is
     * new int[8], whose contents C++ leaves indeterminate, so nothing is
     * promised about them.
     */
    constructor ()
      ensures Valid() && fresh(registers)
      ensures pc == "0000" && sp == "8200"
      ensures c == 0 && s == 0 && ov == 0
    {
      pc := "0000";
      sp := "8200";
      c, s, ov := 0, 0, 0;
      registers := new Int32[8];
    }

    method SetPC(adress: string)
      modifies this`pc
      ensures pc == adress
    {
      pc := adress;
    }

    /** An index outside 0..7 is out of bounds in the source. */
    method GetRegister(index: int) returns (value: Int32)
      requires Valid() && 0 <= index < 8
      ensures value == registers[index]
    {
      value := registers[index];
    }

    /** Writes one register: a following GetRegister(index) returns valor, the others are unchanged. */
    method SetRegister(index: int, valor: Int32)
      requires Valid() && 0 <= index < 8
      modifies registers
      ensures registers[..] == old(registers[..])[index := valor]
    {
      registers[index] := valor;
    }

    /** mov(rD, rM): register rD takes the old value of register rM; both indices must name a register. */
    method MovRegister(rD: Bitset4, rM: Bitset4)
      requires Valid() && Value(rD) < 8 && Value(rM) < 8
      modifies registers
      ensures registers[..] == old(registers[..])[Value(rD) := old(registers[Value(rM)])]
    {
      var index1, index2 := BinToDecimal(rD), BinToDecimal(rM);
      registers[index1] := registers[index2];
    }

    /** mov(rD, iM): register rD takes the unsigned value of the 8-bit immediate. */
    method MovImmediate(rD: Bitset4, iM: Bitset8)
      requires Valid() && Value(rD) < 8
      modifies registers
      ensures registers[..] == old(registers[..])[Value(rD) := Value(iM)]
      ensures 0 <= registers[Value(rD)] < 0x100
    {
      var index1, imediato := BinToDecimal(rD), BinToDecimal(iM);
      assert Pow2(8) == 0x100;
      registers[index1] := imediato;
    }
  }
}
