/**
 * Strings as the generators and the manifest handle them: concatenation,
 * `strings.Join`, and the byte-wise order that `sort.Strings` sorts by.
 */
module Text {

  /** The concatenation of all parts, in order. */
  function Concat(parts: seq<string>): string
  {
    if parts == [] then "" else parts[0] + Concat(parts[1..])
  }

  lemma {:induction false} ConcatAppend(a: seq<string>, b: seq<string>)
    ensures Concat(a + b) == Concat(a) + Concat(b)
  {
    if a == [] {
      assert a + b == b;
    } else {
      assert (a + b)[1..] == a[1..] + b;
      ConcatAppend(a[1..], b);
    }
  }

  /** Where the `i`-th part starts inside `Concat(parts)`. */
  function Offset(parts: seq<string>, i: nat): nat
    requires i <= |parts|
  {
    |Concat(parts[..i])|
  }

  /** Every part occurs in the concatenation at its own offset, and offsets grow with the index. */
  lemma ConcatAt(parts: seq<string>, i: nat)
    requires i < |parts|
    ensures Offset(parts, i) + |parts[i]| == Offset(parts, i + 1) <= |Concat(parts)|
    ensures Concat(parts)[Offset(parts, i)..Offset(parts, i + 1)] == parts[i]
  {
    assert parts[..i + 1] == parts[..i] + [parts[i]];
    ConcatAppend(parts[..i], [parts[i]]);
    assert Concat([parts[i]]) == parts[i] + Concat([]);
    assert parts == parts[..i + 1] + parts[i + 1..];
    ConcatAppend(parts[..i + 1], parts[i + 1..]);
  }

  /** `strings.Join`: the parts with `sep` between consecutive ones. */
  function Join(parts: seq<string>, sep: string): string
  {
    if |parts| == 0 then ""
    else if |parts| == 1 then parts[0]
    else parts[0] + sep + Join(parts[1..], sep)
  }

  /** Where the `i`-th part starts inside `Join(parts, sep)`. */
  function JoinOffset(parts: seq<string>, sep: string, i: nat): nat
    requires i <= |parts|
  {
    |Concat(parts[..i])| + i * |sep|
  }

  /**
   * Every part occurs in the joined text at its own offset; a separator
   * follows every part but the last, so the parts appear in order and apart.
   */
  lemma {:induction false} JoinAt(parts: seq<string>, sep: string, i: nat)
    requires i < |parts|
    ensures JoinOffset(parts, sep, i) + |parts[i]| <= |Join(parts, sep)|
    ensures Join(parts, sep)[JoinOffset(parts, sep, i)..JoinOffset(parts, sep, i) + |parts[i]|] == parts[i]
    ensures i + 1 < |parts| ==>
      JoinOffset(parts, sep, i + 1) == JoinOffset(parts, sep, i) + |parts[i]| + |sep|
  {
    var j := Join(parts, sep);
    assert parts[..i + 1] == parts[..i] + [parts[i]];
    ConcatAppend(parts[..i], [parts[i]]);
    assert Concat([parts[i]]) == parts[i] + Concat([]);
    if i == 0 {
      assert parts[..0] == [];
      assert parts[..1] == [parts[0]];
      assert Concat([parts[0]]) == parts[0] + Concat([]);
      if |parts| > 1 {
        assert j == parts[0] + sep + Join(parts[1..], sep);
        assert j[..|parts[0]|] == parts[0];
      }
    } else {
      var rest := parts[1..];
      JoinAt(rest, sep, i - 1);
      assert parts[..i] == [parts[0]] + rest[..i - 1];
      assert Concat(parts[..i]) == parts[0] + Concat(rest[..i - 1]);
      var head := parts[0] + sep;
      assert j == head + Join(rest, sep);
      assert JoinOffset(parts, sep, i) == |head| + JoinOffset(rest, sep, i - 1);
    }
  }

  /** `JoinAt` stated as an occurrence. */
  lemma JoinOccurs(parts: seq<string>, sep: string, i: nat)
    requires i < |parts|
    ensures OccursAt(parts[i], Join(parts, sep), JoinOffset(parts, sep, i))
    ensures i + 1 < |parts| ==>
      JoinOffset(parts, sep, i + 1) == JoinOffset(parts, sep, i) + |parts[i]| + |sep|
  {
    JoinAt(parts, sep, i);
  }

  /** `part` occurs in `text` starting at index `i`. */
  predicate OccursAt(part: string, text: string, i: int)
  {
    0 <= i && i + |part| <= |text| && text[i..i + |part|] == part
  }

  /** The middle of a three-way concatenation occurs right after the first piece. */
  lemma OccursInMiddle(a: string, b: string, c: string)
    ensures OccursAt(b, a + b + c, |a|)
  {
    assert (a + b + c)[|a|..|a| + |b|] == b;
  }

  /** An occurrence inside a piece is an occurrence inside any text that piece is embedded in. */
  lemma OccursShift(part: string, mid: string, i: int, a: string, c: string)
    requires OccursAt(part, mid, i)
    ensures OccursAt(part, a + mid + c, |a| + i)
  {
    OccursInMiddle(a, mid, c);
    assert (a + mid + c)[|a| + i..|a| + i + |part|] == mid[i..i + |part|];
  }

  /** An occurrence in a text stays where it is when the text is extended. */
  lemma OccursBefore(part: string, text: string, i: int, c: string)
    requires OccursAt(part, text, i)
    ensures OccursAt(part, text + c, i)
  {
    assert (text + c)[i..i + |part|] == text[i..i + |part|];
  }

  /** The last piece of a nested concatenation occurs at its very end. */
  lemma OccursLast(a: string, c: string, b: string)
    ensures OccursAt(b, a + (c + b), |a + (c + b)| - |b|)
  {
    assert (a + (c + b))[|a| + |c|..|a| + |c| + |b|] == b;
  }

  /** An occurrence in a text is an occurrence, shifted, in that text behind any prefix. */
  lemma OccursAfter(part: string, text: string, i: int, a: string)
    requires OccursAt(part, text, i)
    ensures OccursAt(part, a + text, |a| + i)
  {
    assert (a + text)[|a| + i..|a| + i + |part|] == text[i..i + |part|];
  }

  /** An occurrence inside a piece of a text is an occurrence in the text. */
  lemma OccursWithin(part: string, mid: string, i: int, text: string, off: nat)
    requires OccursAt(part, mid, i) && OccursAt(mid, text, off)
    ensures OccursAt(part, text, off + i)
  {
    forall k | 0 <= k < |part|
      ensures text[off + i + k] == part[k]
    {
      assert part[k] == mid[i..i + |part|][k] == mid[i + k];
      assert mid[i + k] == text[off..off + |mid|][i + k];
    }
  }

  /** `part` occurs nowhere in `text`. */
  ghost predicate Absent(part: string, text: string)
  {
    forall k :: !OccursAt(part, text, k)
  }

  /** No character of `text` is `c`. */
  predicate NoChar(text: string, c: char)
  {
    forall i :: 0 <= i < |text| ==> text[i] != c
  }

  lemma NoCharConcat(a: string, b: string, c: char)
    requires NoChar(a, c) && NoChar(b, c)
    ensures NoChar(a + b, c)
  {
    forall i | 0 <= i < |a + b|
      ensures (a + b)[i] != c
    {
      if i >= |a| {
        assert (a + b)[i] == b[i - |a|];
      }
    }
  }

  /** A text lacking one of the characters of `part` does not contain `part`. */
  lemma AbsentByChar(part: string, text: string, j: nat)
    requires j < |part| && NoChar(text, part[j])
    ensures Absent(part, text)
  {
    forall k | 0 <= k && k + |part| <= |text|
      ensures !OccursAt(part, text, k)
    {
      assert text[k..k + |part|][j] == text[k + j];
    }
  }

  /** A part absent from `text` occurs nowhere after `head` in `head + text`. */
  lemma AbsentAfter(part: string, head: string, text: string)
    requires Absent(part, text)
    ensures forall k :: k >= |head| ==> !OccursAt(part, head + text, k)
  {
    forall k | k >= |head| && k + |part| <= |head + text|
      ensures !OccursAt(part, head + text, k)
    {
      assert !OccursAt(part, text, k - |head|);
      assert (head + text)[k..k + |part|] == text[k - |head|..k - |head| + |part|];
    }
  }

  /**
   * A part absent from both halves of a concatenation is absent from it when
   * its last character does not open the second half: an occurrence across
   * the seam would put that character among the first `|part| - 1` of `b`.
   */
  lemma AbsentSplit(part: string, a: string, b: string)
    requires |part| > 0 && Absent(part, a) && Absent(part, b)
    requires forall j :: 0 <= j < |part| - 1 && j < |b| ==> b[j] != part[|part| - 1]
    ensures Absent(part, a + b)
  {
    var text := a + b;
    forall k | 0 <= k && k + |part| <= |text|
      ensures !OccursAt(part, text, k)
    {
      if k + |part| <= |a| {
        assert !OccursAt(part, a, k);
        assert text[k..k + |part|] == a[k..k + |part|];
      } else if k >= |a| {
        assert !OccursAt(part, b, k - |a|);
        assert text[k..k + |part|] == b[k - |a|..k - |a| + |part|];
      } else {
        assert text[k..k + |part|][|part| - 1] == b[k + |part| - 1 - |a|];
      }
    }
  }

  /** Byte-wise "less than" on strings, the order Go's string comparison uses. */
  predicate Less(a: string, b: string)
  {
    if a == [] then b != []
    else if b == [] then false
    else if a[0] != b[0] then a[0] < b[0]
    else Less(a[1..], b[1..])
  }

  lemma {:induction false} LessIrreflexive(a: string)
    ensures !Less(a, a)
  {
    if a != [] {
      LessIrreflexive(a[1..]);
    }
  }

  lemma {:induction false} LessTrichotomy(a: string, b: string)
    ensures Less(a, b) || a == b || Less(b, a)
  {
    if a != [] && b != [] && a[0] == b[0] {
      LessTrichotomy(a[1..], b[1..]);
      if a[1..] == b[1..] {
        assert a == [a[0]] + a[1..] && b == [b[0]] + b[1..];
      }
    }
  }

  lemma {:induction false} LessTransitive(a: string, b: string, c: string)
    requires Less(a, b) && Less(b, c)
    ensures Less(a, c)
  {
    if a != [] && a[0] == b[0] && b[0] == c[0] {
      LessTransitive(a[1..], b[1..], c[1..]);
    }
  }

  /** Non-decreasing in the byte-wise order. */
  predicate Sorted(s: seq<string>)
  {
    forall i, j :: 0 <= i < j < |s| ==> !Less(s[j], s[i])
  }

  /** Inserts `x` into a sorted list before the first element not below it. */
  function Insert(s: seq<string>, x: string): (r: seq<string>)
    requires Sorted(s)
    ensures Sorted(r)
    ensures multiset(r) == multiset(s) + multiset{x}
  {
    if s == [] then [x]
    else if !Less(s[0], x) then
      assert forall k :: 0 <= k < |s| ==> !Less(s[k], x) by {
        forall k | 0 <= k < |s| ensures !Less(s[k], x) {
          if k > 0 && Less(s[k], x) {
            LessTrichotomy(s[k], s[0]);
            if Less(s[0], s[k]) {
              LessTransitive(s[0], s[k], x);
            }
          }
        }
      }
      [x] + s
    else
      var t := Insert(s[1..], x);
      assert s == [s[0]] + s[1..];
      assert forall k :: 0 <= k < |t| ==> !Less(t[k], s[0]) by {
        forall k | 0 <= k < |t| ensures !Less(t[k], s[0]) {
          assert t[k] in multiset(s[1..]) + multiset{x};
          if t[k] == x {
            LessTrichotomy(x, s[0]);
            if Less(x, s[0]) { LessTransitive(x, s[0], x); LessIrreflexive(x); }
          } else {
            assert t[k] in s[1..];
            var m :| 0 <= m < |s[1..]| && s[1..][m] == t[k];
            assert s[m + 1] == t[k];
          }
        }
      }
      [s[0]] + t
  }

  /** `sort.Strings`: a sorted permutation of the input (an insertion sort). */
  function Sort(s: seq<string>): (r: seq<string>)
    ensures Sorted(r)
    ensures multiset(r) == multiset(s)
  {
    if s == [] then []
    else
      assert s == [s[0]] + s[1..];
      Insert(Sort(s[1..]), s[0])
  }

  /** The head of a sorted list is below no element. */
  lemma HeadIsMinimum(a: seq<string>, x: string)
    requires Sorted(a) && x in a
    ensures !Less(x, a[0])
  {
    var i :| 0 <= i < |a| && a[i] == x;
    if i == 0 {
      LessIrreflexive(x);
    }
  }

  /** Equal multisets with equal heads have equal tails. */
  lemma TailMultiset(a: seq<string>, b: seq<string>)
    requires a != [] && b != [] && a[0] == b[0] && multiset(a) == multiset(b)
    ensures multiset(a[1..]) == multiset(b[1..])
  {
    assert a == [a[0]] + a[1..];
    assert b == [b[0]] + b[1..];
    assert multiset(a[1..]) == multiset(a) - multiset{a[0]};
    assert multiset(b[1..]) == multiset(b) - multiset{b[0]};
  }

  /** A sorted list is determined by its elements. */
  lemma {:induction false} SortedUnique(a: seq<string>, b: seq<string>)
    requires Sorted(a) && Sorted(b) && multiset(a) == multiset(b)
    ensures a == b
  {
    if a != [] {
      assert a[0] in multiset(b);
      assert b[0] in multiset(a);
      HeadIsMinimum(b, a[0]);
      HeadIsMinimum(a, b[0]);
      LessTrichotomy(a[0], b[0]);
      TailMultiset(a, b);
      SortedUnique(a[1..], b[1..]);
      assert a == [a[0]] + a[1..] && b == [b[0]] + b[1..];
    }
  }
}
