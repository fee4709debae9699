/** Checked string slices, against the syntax of UTF-8 in section 4 of RFC 3629. */
module Utf8Slice {
  import opened Completions

  type Bytes = seq<bv8>

  predicate Tail(b: bv8) {
    0x80 <= b <= 0xBF
  }

  predicate TailsFrom(s: Bytes, from: nat, to: nat) {
    to <= |s| && forall i :: from <= i < to ==> Tail(s[i])
  }

  /** Length of the character at the start of the text, or 0 if there is none. */
  function Width(s: Bytes): (w: nat)
    ensures w <= |s|
  {
    if s == [] then 0
    else if s[0] <= 0x7F then 1
    else if 0xC2 <= s[0] <= 0xDF && TailsFrom(s, 1, 2) then 2
    else if TailsFrom(s, 1, 3)
            && ((s[0] == 0xE0 && s[1] >= 0xA0) || 0xE1 <= s[0] <= 0xEC || (s[0] == 0xED && s[1] <= 0x9F) || 0xEE <= s[0] <= 0xEF) then 3
    else if TailsFrom(s, 1, 4)
            && ((s[0] == 0xF0 && s[1] >= 0x90) || 0xF1 <= s[0] <= 0xF3 || (s[0] == 0xF4 && s[1] <= 0x8F)) then 4
    else 0
  }

  /** UTF8-octets: a sequence of well-formed characters. */
  predicate Valid(s: Bytes) {
    s == [] || (Width(s) > 0 && Valid(s[Width(s)..]))
  }

  /** Offset `k` stands between two characters, or at an end. */
  predicate Boundary(s: Bytes, k: nat) {
    k == 0 || (Width(s) > 0 && Width(s) <= k && Boundary(s[Width(s)..], k - Width(s)))
  }

  /** The bits that the slice tests. */
  lemma TestedBits(b: bv8)
    ensures b & 0xC0 == 0x80 <==> Tail(b)
  {
  }

  /** Only the first byte of a character is not a tail. */
  lemma OneLeadByte(s: Bytes)
    requires Width(s) > 0
    ensures !Tail(s[0]) && forall i :: 1 <= i < Width(s) ==> Tail(s[i])
  {
  }

  /** In valid text the tested bits find exactly the boundaries. */
  lemma {:induction false} BoundaryTest(s: Bytes, k: nat)
    requires Valid(s) && k <= |s|
    ensures Boundary(s, k) <==> k == |s| || !Tail(s[k])
    decreases |s|
  {
    if s != [] {
      var w := Width(s);
      OneLeadByte(s);
      if k >= w { BoundaryTest(s[w..], k - w); }
    }
  }

  lemma {:induction false} ValidAfter(s: Bytes, k: nat)
    requires Valid(s) && k <= |s| && Boundary(s, k)
    ensures Valid(s[k..])
    decreases |s|
  {
    if k == 0 {
      assert s[0..] == s;
    } else {
      hide Width;
      var w := Width(s);
      assert s != [];
      ValidAfter(s[w..], k - w);
      assert s[w..][k - w..] == s[k..];
    }
  }

  lemma OneCharacter(s: Bytes, t: Bytes, k: nat)
    requires 0 < k <= |s| && t == s[..k] && 0 < Width(s) <= k
    ensures Width(t) == Width(s)
  {
  }

  lemma {:induction false} ValidBefore(s: Bytes, k: nat)
    requires Valid(s) && k <= |s| && Boundary(s, k)
    ensures Valid(s[..k])
    decreases |s|
  {
    if k > 0 {
      var w := Width(s);
      OneCharacter(s, s[..k], k);
      ValidBefore(s[w..], k - w);
      assert s[..k][w..] == s[w..][..k - w];
    }
  }

  /** Boundaries of a text at or before `k` are those of its first `k` bytes. */
  lemma {:induction false} BoundaryBefore(s: Bytes, j: nat, k: nat)
    requires Valid(s) && j <= k <= |s| && Boundary(s, j) && Boundary(s, k)
    ensures Boundary(s[..k], j)
    decreases |s|
  {
    if j > 0 {
      var w := Width(s);
      OneCharacter(s, s[..k], k);
      BoundaryBefore(s[w..], j - w, k - w);
      assert s[..k][w..] == s[w..][..k - w];
    }
  }

  /** Between two boundaries valid text is valid, and the tested bits find them. */
  lemma SliceIsValid(s: Bytes, low: nat, high: nat)
    requires low <= high <= |s|
    ensures Valid(s) ==> (Boundary(s, low) <==> low == |s| || !Tail(s[low])) && (Boundary(s, high) <==> high == |s| || !Tail(s[high]))
    ensures Valid(s) && Boundary(s, low) && Boundary(s, high) ==> Valid(s[low..high])
  {
    if Valid(s) {
      BoundaryTest(s, low);
      BoundaryTest(s, high);
      if Boundary(s, low) && Boundary(s, high) {
        ValidBefore(s, high);
        BoundaryBefore(s, low, high);
        ValidAfter(s[..high], low);
        assert s[..high][low..] == s[low..high];
      }
    }
  }

  datatype Slice = Sliced(value: Bytes) | OutOfRange | OffBoundary

  /** __kinmokuseiSliceUTF8. On valid text a slice is made exactly when its bounds are in range and
      both are boundaries, and what it yields is valid again. */
  method SliceUTF8(value: Bytes, low: nat, high0: nat, hasHigh: bool) returns (r: Slice)
    ensures var high := if hasHigh then high0 else |value|;
            && (r.OutOfRange? <==> !(low <= high <= |value|))
            && (r.Sliced? ==> low <= high <= |value| && r.value == value[low..high])
            && (Valid(value) ==> (r.Sliced? <==> low <= high <= |value| && Boundary(value, low) && Boundary(value, high)))
            && (Valid(value) && r.Sliced? ==> Valid(r.value))
  {
    var high := if hasHigh then high0 else |value|;
    if low > high || high > |value| { return OutOfRange; }
    if low < |value| { TestedBits(value[low]); }
    if high < |value| { TestedBits(value[high]); }
    SliceIsValid(value, low, high);
    if (low != |value| && value[low] & 0xC0 == 0x80) || (high != |value| && value[high] & 0xC0 == 0x80) { return OffBoundary; }
    return Sliced(value[low..high]);
  }
}
