/** Splitting a string at a delimiter. */
module StringUtil {

  predicate OccursAt(str: string, delim: string, i: int) {
    0 <= i && i + |delim| <= |str| && str[i..i + |delim|] == delim
  }

  ghost predicate Contains(str: string, delim: string) {
    exists i :: OccursAt(str, delim, i)
  }

  /** The first occurrence from `pos` on, or -1. */
  method Find(str: string, delim: string, pos: nat) returns (i: int)
    requires pos <= |str|
    ensures i == -1 || (pos <= i && OccursAt(str, delim, i))
    ensures forall k :: pos <= k && (i == -1 || k < i) ==> !OccursAt(str, delim, k)
  {
    i := pos;
    while i + |delim| <= |str|
      invariant pos <= i
      invariant forall k :: pos <= k < i ==> !OccursAt(str, delim, k)
    {
      if str[i..i + |delim|] == delim {
        return;
      }
      i := i + 1;
    }
    i := -1;
  }

  function Joined(pieces: seq<string>, delim: string): string {
    if pieces == [] then ""
    else if |pieces| == 1 then pieces[0]
    else pieces[0] + delim + Joined(pieces[1..], delim)
  }

  lemma {:induction false} JoinedLast(pieces: seq<string>, x: string, y: string, delim: string)
    ensures Joined(pieces + [x + delim + y], delim) == Joined(pieces + [x, y], delim)
  {
    var a, b := pieces + [x + delim + y], pieces + [x, y];
    if pieces == [] {
      assert b[1..] == [y];
    } else {
      assert a[1..] == pieces[1..] + [x + delim + y] && b[1..] == pieces[1..] + [x, y];
      JoinedLast(pieces[1..], x, y, delim);
    }
  }

  /** A piece ends at the first delimiter after its start. */
  ghost predicate Leftmost(piece: string, delim: string) {
    forall k :: 0 <= k < |piece| ==> !OccursAt(piece + delim, delim, k)
  }

  lemma LeftmostHasNone(piece: string, delim: string)
    requires Leftmost(piece, delim) && delim != ""
    ensures !Contains(piece, delim)
  {
    forall i | 0 <= i && i + |delim| <= |piece|
      ensures !OccursAt(piece, delim, i)
    {
      assert (piece + delim)[i..i + |delim|] == piece[i..i + |delim|];
      assert !OccursAt(piece + delim, delim, i);
    }
  }

  lemma SliceOfSlice(s: string, a: nat, b: nat, c: nat, d: nat)
    requires a <= b <= |s| && c <= d <= b - a
    ensures s[a..b][c..d] == s[a + c..a + d]
  {
    forall i | 0 <= i < d - c
      ensures s[a..b][c..d][i] == s[a + c..a + d][i]
    {
    }
  }

  lemma PieceIsLeftmost(str: string, delim: string, pos: nat, end: nat)
    requires pos <= end && OccursAt(str, delim, end)
    requires forall k :: pos <= k < end ==> !OccursAt(str, delim, k)
    ensures Leftmost(str[pos..end], delim)
  {
    var s := str[pos..end];
    forall k | 0 <= k < |s|
      ensures !OccursAt(s + delim, delim, k)
    {
      var t, n := str[pos..end + |delim|], k + |delim|;
      assert s + delim == t;
      assert !OccursAt(str, delim, pos + k);
      if n <= |t| {
        SliceOfSlice(str, pos, end + |delim|, k, n);
      }
    }
  }

  lemma RestHasNone(str: string, delim: string, pos: nat)
    requires pos <= |str| && forall k :: pos <= k ==> !OccursAt(str, delim, k)
    ensures !Contains(str[pos..], delim)
  {
    var rest := str[pos..];
    forall i | 0 <= i && i + |delim| <= |rest|
      ensures !OccursAt(rest, delim, i)
    {
      SliceOfSlice(str, pos, |str|, i, i + |delim|);
      assert !OccursAt(str, delim, pos + i);
    }
  }

  /** Splits at the delimiters found from left to right; `dropped` says that the last piece was
      empty and is left out.  */
  method Split(str: string, delim: string) returns (result: seq<string>, ghost dropped: bool)
    requires delim != ""
    ensures Joined(if dropped then result + [""] else result, delim) == str
    ensures !dropped ==> result != [] && result[|result| - 1] != ""
    ensures forall k :: 0 <= k < |result| ==> !Contains(result[k], delim)
    ensures forall k :: 0 <= k < |result| && (dropped || k < |result| - 1) ==> Leftmost(result[k], delim)
  {
    result := [];
    var pos := 0;
    var delimPos := Find(str, delim, pos);
    while delimPos != -1
      invariant 0 <= pos <= |str|
      invariant delimPos == -1 || (pos <= delimPos && OccursAt(str, delim, delimPos))
      invariant forall k :: pos <= k && (delimPos == -1 || k < delimPos) ==> !OccursAt(str, delim, k)
      invariant Joined(result + [str[pos..]], delim) == str
      invariant forall k :: 0 <= k < |result| ==> Leftmost(result[k], delim)
      decreases |str| - pos
    {
      var s := str[pos..delimPos];
      var rest := str[delimPos + |delim|..];
      assert str[pos..] == s + delim + rest;
      JoinedLast(result, s, rest, delim);
      assert result + [s] + [rest] == result + [s, rest];
      PieceIsLeftmost(str, delim, pos, delimPos);
      pos := delimPos + |delim|;
      result := result + [s];
      delimPos := Find(str, delim, pos);
    }
    var last := str[pos..];
    forall k | 0 <= k < |result|
      ensures !Contains(result[k], delim)
    {
      LeftmostHasNone(result[k], delim);
    }
    RestHasNone(str, delim, pos);
    dropped := last == "";
    if last != "" {
      result := result + [last];
    }
  }
}
