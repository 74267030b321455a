/**
 * The two string operations of Python that the modelled code relies on:
 * the substring test `needle in haystack` and `sep.join(parts)`.
 */
module Text {

  const Newline := "\n"

  /** `needle in haystack`: some window of `haystack` spells `needle`. */
  predicate Contains(haystack: string, needle: string): (found: bool)
    ensures needle <= haystack ==> found
    ensures found ==> |needle| <= |haystack|
    decreases |haystack|
  {
    needle <= haystack || (|haystack| > 0 && Contains(haystack[1..], needle))
  }

  /** Whatever surrounds it, a string contains itself. */
  lemma {:induction false} ContainsInfix(prefix: string, needle: string, suffix: string)
    ensures Contains(prefix + needle + suffix, needle)
    decreases |prefix|
  {
    if prefix == [] {
      assert prefix + needle + suffix == needle + suffix;
    } else {
      assert (prefix + needle + suffix)[1..] == prefix[1..] + needle + suffix;
      ContainsInfix(prefix[1..], needle, suffix);
    }
  }

  /** `sep.join(parts)`. */
  function Join(sep: string, parts: seq<string>): string
    decreases |parts|
  {
    if |parts| == 0 then ""
    else if |parts| == 1 then parts[0]
    else parts[0] + sep + Join(sep, parts[1..])
  }

  /** The summed length of all parts. */
  function TotalLength(parts: seq<string>): nat
    decreases |parts|
  {
    if |parts| == 0 then 0 else |parts[0]| + TotalLength(parts[1..])
  }

  /**
   * Where part `i` should start in a join: after every earlier part, each
   * followed by one separator.
   */
  function Offset(sep: string, parts: seq<string>, i: nat): nat
    requires i <= |parts|
    decreases i
  {
    if i == 0 then 0 else |parts[0]| + |sep| + Offset(sep, parts[1..], i - 1)
  }

  /** A join of k > 0 parts holds their characters and exactly k - 1 separators. */
  lemma {:induction false} JoinLength(sep: string, parts: seq<string>)
    ensures |parts| == 0 ==> Join(sep, parts) == ""
    ensures |parts| > 0 ==> |Join(sep, parts)| == TotalLength(parts) + (|parts| - 1) * |sep|
    decreases |parts|
  {
    if |parts| > 1 {
      JoinLength(sep, parts[1..]);
      var k := |parts| - 1;
      assert (k - 1) * |sep| + |sep| == k * |sep|;
    }
  }

  /** A slice of the right operand, read inside a concatenation. */
  lemma SliceRight(left: string, right: string, lo: nat, hi: nat)
    requires lo <= hi <= |right|
    ensures (left + right)[|left| + lo .. |left| + hi] == right[lo .. hi]
  {
  }

  /** A piece found inside a part found inside a whole is found in the whole, at the summed offset. */
  lemma NestedSlice(whole: string, s: nat, part: string, t: nat, piece: string)
    requires s + |part| <= |whole| && whole[s .. s + |part|] == part
    requires t + |piece| <= |part| && part[t .. t + |piece|] == piece
    ensures s + t + |piece| <= |whole| && whole[s + t .. s + t + |piece|] == piece
  {
    forall k | 0 <= k < |piece|
      ensures whole[s + t + k] == piece[k]
    {
      assert piece[k] == part[t + k] == whole[s + t + k];
    }
  }

  /** Part i of a join sits at Offset(i), and the last part ends the string. */
  lemma {:induction false} JoinAt(sep: string, parts: seq<string>, i: nat)
    requires i < |parts|
    ensures Offset(sep, parts, i) + |parts[i]| <= |Join(sep, parts)|
    ensures Join(sep, parts)[Offset(sep, parts, i) .. Offset(sep, parts, i) + |parts[i]|] == parts[i]
    ensures i + 1 == |parts| ==> Offset(sep, parts, i) + |parts[i]| == |Join(sep, parts)|
    decreases |parts|
  {
    if |parts| > 1 {
      var rest := parts[1..];
      var head := parts[0] + sep;
      var tail := Join(sep, rest);
      assert Join(sep, parts) == head + tail;
      if i == 0 {
        assert (head + tail)[..|parts[0]|] == parts[0];
      } else {
        JoinAt(sep, rest, i - 1);
        assert rest[i - 1] == parts[i];
        var o := Offset(sep, rest, i - 1);
        assert Offset(sep, parts, i) == |head| + o;
        SliceRight(head, tail, o, o + |parts[i]|);
      }
    }
  }

  /** Between part i and part i + 1 of a join there is exactly one separator. */
  lemma {:induction false} JoinSeparatorAt(sep: string, parts: seq<string>, i: nat)
    requires i + 1 < |parts|
    ensures Offset(sep, parts, i) + |parts[i]| + |sep| == Offset(sep, parts, i + 1)
    ensures Offset(sep, parts, i + 1) <= |Join(sep, parts)|
    ensures Join(sep, parts)[Offset(sep, parts, i) + |parts[i]| .. Offset(sep, parts, i + 1)] == sep
    decreases |parts|
  {
    var rest := parts[1..];
    var head := parts[0] + sep;
    var tail := Join(sep, rest);
    assert Join(sep, parts) == head + tail;
    if i == 0 {
      assert (head + tail)[|parts[0]| .. |head|] == sep;
    } else {
      JoinSeparatorAt(sep, rest, i - 1);
      assert rest[i - 1] == parts[i];
      var o := Offset(sep, rest, i - 1);
      assert Offset(sep, parts, i) == |head| + o;
      assert Offset(sep, parts, i + 1) == |head| + Offset(sep, rest, i);
      SliceRight(head, tail, o + |parts[i]|, Offset(sep, rest, i));
    }
  }

  /** Appending one part to a non-empty join adds one separator and the part. */
  lemma {:induction false} JoinAppend(sep: string, parts: seq<string>, last: string)
    requires |parts| > 0
    ensures Join(sep, parts + [last]) == Join(sep, parts) + sep + last
    decreases |parts|
  {
    if |parts| == 1 {
      assert parts + [last] == [parts[0], last];
    } else {
      assert (parts + [last])[1..] == parts[1..] + [last];
      JoinAppend(sep, parts[1..], last);
    }
  }
}
