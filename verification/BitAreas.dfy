/** The bit helpers, on words of any width: a word is its bits, least significant first. */
module BitAreas {

  type Word = seq<bool>

  // ---- Word operators ------------------------------------------------------------------

  function Not(a: Word): (r: Word)
    ensures |r| == |a|
  {
    seq(|a|, i requires 0 <= i < |a| => !a[i])
  }

  function And(a: Word, b: Word): (r: Word)
    requires |a| == |b|
    ensures |r| == |a|
  {
    seq(|a|, i requires 0 <= i < |a| => a[i] && b[i])
  }

  function Or(a: Word, b: Word): (r: Word)
    requires |a| == |b|
    ensures |r| == |a|
  {
    seq(|a|, i requires 0 <= i < |a| => a[i] || b[i])
  }

  function Shl(a: Word, n: nat): (r: Word)
    ensures |r| == |a|
  {
    seq(|a|, i requires 0 <= i < |a| => i >= n && a[i - n])
  }

  function Shr(a: Word, n: nat): (r: Word)
    ensures |r| == |a|
  {
    seq(|a|, i requires 0 <= i < |a| => i + n < |a| && a[i + n])
  }

  /** Conversion to another width: cut off, or filled with zeros. */
  function Resize(a: Word, width: nat): (r: Word)
    ensures |r| == width
  {
    seq(width, i requires 0 <= i < width => i < |a| && a[i])
  }

  function FromBool(b: bool, width: nat): (r: Word)
    ensures |r| == width
  {
    Resize([b], width)
  }

  // ---- The helpers ---------------------------------------------------------------------

  method IsSet(val: Word, pos: nat) returns (isSet: bool)
    requires pos < |val|
    ensures isSet == val[pos]
  {
    isSet := And(Shr(val, pos), FromBool(true, |val|))[0];
  }

  /** Clearing a bit under a mask and setting it again is an update of that bit. */
  lemma MaskedIsUpdate(target: Word, pos: nat, bit: bool)
    requires pos < |target|
    ensures Or(And(target, Not(Shl(FromBool(true, |target|), pos))), Shl(FromBool(bit, |target|), pos)) == target[pos := bit]
  {
  }

  method SetBit(target: Word, pos: nat, bit: bool) returns (target': Word)
    requires pos < |target|
    ensures target' == target[pos := bit]
  {
    var mask := Shl(FromBool(true, |target|), pos);
    var bitT := FromBool(bit, |target|);
    target' := Or(And(target, Not(mask)), Shl(bitT, pos));
    MaskedIsUpdate(target, pos, bit);
  }

  /** `target` with the low `bitCount` bits of `input` from `pos` on. */
  function WithArea(target: Word, input: Word, pos: nat, bitCount: nat): (r: Word)
    requires bitCount <= |input| && pos + bitCount <= |target|
    ensures |r| == |target|
  {
    target[..pos] + input[..bitCount] + target[pos + bitCount..]
  }

  method SetArea(target: Word, input: Word, startPos: nat, bitCount: nat) returns (target': Word)
    requires bitCount <= |input| && startPos + bitCount <= |target|
    ensures target' == WithArea(target, input, startPos, bitCount)
  {
    target' := target;
    for j := 0 to bitCount
      invariant |target'| == |target|
      invariant forall i :: 0 <= i < |target| ==>
                  target'[i] == if startPos <= i < startPos + j then input[i - startPos] else target[i]
    {
      var i := j + startPos;
      var bit := IsSet(input, j);
      var bitA := FromBool(bit, |target|);
      var maskA := Shl(FromBool(true, |target|), i);
      MaskedIsUpdate(target', i, bit);
      target' := Or(And(target', Not(maskA)), Shl(bitA, i));
    }
  }

  /** The low `bitCount` bits are the area of `input`.  Of the others, those from the width of
      `input` up are cleared as soon as one bit is converted.  */
  function Converted(output: Word, input: Word, pos: nat, bitCount: nat): (r: Word)
    requires pos + bitCount <= |input|
    ensures |r| == |output|
  {
    seq(|output|, k requires 0 <= k < |output| =>
      if k < bitCount then input[pos + k] else (k < |input| || bitCount == 0) && output[k])
  }

  /** The mask is made and inverted in the width of `input`, and then widened with zeros if
      `output` is wider.  */
  method ConvertArea(input: Word, output: Word, pos: nat, bitCount: nat) returns (output': Word)
    requires pos + bitCount <= |input|
    ensures output' == Converted(output, input, pos, bitCount)
  {
    output' := output;
    for i := 0 to bitCount
      invariant output' == Converted(output, input, pos, i)
    {
      var j := pos + i;
      var bit := And(Shr(input, j), FromBool(true, |input|));
      var mask := Shl(FromBool(true, |input|), i);
      assert bit == FromBool(input[j], |input|);
      var width := if |input| < |output| then |output| else |input|;
      output' := Resize(Or(And(Resize(output', width), Resize(Not(mask), width)), Resize(Shl(bit, i), width)), |output|);
    }
  }

  // ---- Laws ----------------------------------------------------------------------------

  /** Reading an area back gives the bits written; the bits of the target outside the area are
      those from before.  */
  lemma AreaRoundTrip(target: Word, input: Word, output: Word, pos: nat, bitCount: nat)
    requires bitCount <= |input| && pos + bitCount <= |target| && bitCount <= |output|
    ensures Converted(output, WithArea(target, input, pos, bitCount), pos, bitCount)[..bitCount] == input[..bitCount]
    ensures forall i :: 0 <= i < |target| && !(pos <= i < pos + bitCount) ==> WithArea(target, input, pos, bitCount)[i] == target[i]
  {
  }

  /** Just when converting leaves all bits outside the area as they were. */
  lemma KeepsOutside(output: Word, input: Word, pos: nat, bitCount: nat)
    requires pos + bitCount <= |input|
    ensures (forall k :: bitCount <= k < |output| ==> Converted(output, input, pos, bitCount)[k] == output[k]) <==>
            bitCount == 0 || forall k :: |input| <= k < |output| ==> !output[k]
  {
    var r := Converted(output, input, pos, bitCount);
    if k :| |input| <= k < |output| && bitCount > 0 && output[k] {
      assert !r[k];
    }
  }

  /** For one, a bit read from a 32-bit word clears the high half of a full 64-bit word. */
  lemma HighHalfCleared(output: Word, input: Word)
    requires |output| == 64 && |input| == 32 && forall k :: 0 <= k < 64 ==> output[k]
    ensures Converted(output, input, 0, 1) == [input[0]] + output[1..32] + seq(32, i => false)
  {
  }

  lemma AreasCommute(target: Word, a: Word, b: Word, posA: nat, posB: nat, countA: nat, countB: nat)
    requires countA <= |a| && countB <= |b| && posA + countA <= |target| && posB + countB <= |target|
    requires posA + countA <= posB || posB + countB <= posA
    ensures WithArea(WithArea(target, a, posA, countA), b, posB, countB) == WithArea(WithArea(target, b, posB, countB), a, posA, countA)
  {
  }
}
