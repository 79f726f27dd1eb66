/** The string primitives the operators rely on: Python's substring test
    `needle in haystack`, `s.split(' ')` and its inverse `' '.join(fields)`,
    and the code-point lexicographic order Python uses to compare strings. */
module Strings {

  /** `needle` starts at position `i` of `haystack`. */
  predicate OccursAt(haystack: string, needle: string, i: int) {
    0 <= i && i + |needle| <= |haystack| && haystack[i..i + |needle|] == needle
  }

  /** Python's `needle in haystack`. */
  predicate Contains(haystack: string, needle: string)
    ensures |needle| == 0 ==> Contains(haystack, needle)
    ensures Contains(haystack, needle) ==> |needle| <= |haystack|
    decreases |haystack|
  {
    needle <= haystack || (|haystack| > 0 && Contains(haystack[1..], needle))
  }

  /** `Contains` holds exactly when the needle occurs at some position. */
  lemma {:induction false} ContainsIffOccurs(haystack: string, needle: string)
    ensures Contains(haystack, needle) <==> exists i :: OccursAt(haystack, needle, i)
    decreases |haystack|
  {
    if needle <= haystack {
      assert OccursAt(haystack, needle, 0);
    } else if |haystack| > 0 {
      var tail := haystack[1..];
      ContainsIffOccurs(tail, needle);
      if Contains(tail, needle) {
        var i :| OccursAt(tail, needle, i);
        var j := i + 1;
        var inHaystack, inTail := haystack[j..j + |needle|], tail[i..i + |needle|];
        assert forall k | 0 <= k < |needle| :: inHaystack[k] == inTail[k];
        assert inHaystack == inTail;
        assert OccursAt(haystack, needle, j);
      }
      if exists i :: OccursAt(haystack, needle, i) {
        var i :| OccursAt(haystack, needle, i);
        assert i != 0;
        var j := i - 1;
        var inTail, inHaystack := tail[j..j + |needle|], haystack[i..i + |needle|];
        assert forall k | 0 <= k < |needle| :: inTail[k] == inHaystack[k];
        assert inTail == inHaystack;
        assert OccursAt(tail, needle, j);
      }
    }
  }

  /** A one-character needle is found exactly when the character occurs. */
  lemma {:induction false} ContainsCharacter(haystack: string, c: char)
    ensures Contains(haystack, [c]) <==> c in haystack
    decreases |haystack|
  {
    if |haystack| > 0 {
      ContainsCharacter(haystack[1..], c);
      assert haystack == [haystack[0]] + haystack[1..];
    }
  }

  /** The empty string occurs in every line. */
  lemma EmptyNeedleOccurs(haystack: string)
    ensures Contains(haystack, "")
  {
  }

  function CountSpaces(s: string): nat {
    if |s| == 0 then 0 else (if s[0] == ' ' then 1 else 0) + CountSpaces(s[1..])
  }

  /** Python's `s.split(' ')`: the text between consecutive single spaces.
      Adjacent spaces give empty fields, and there is always one field more
      than there are spaces. */
  function Split(s: string): (fields: seq<string>)
    ensures |fields| == CountSpaces(s) + 1
    ensures forall i | 0 <= i < |fields| :: ' ' !in fields[i]
  {
    if |s| == 0 then [""]
    else
      var rest := Split(s[1..]);
      if s[0] == ' ' then [""] + rest
      else [[s[0]] + rest[0]] + rest[1..]
  }

  /** Python's `' '.join(fields)`. */
  function Join(fields: seq<string>): string {
    if |fields| == 0 then ""
    else if |fields| == 1 then fields[0]
    else fields[0] + " " + Join(fields[1..])
  }

  /** Joining the fields of a line gives the line back. */
  lemma {:induction false} JoinSplit(s: string)
    ensures Join(Split(s)) == s
  {
    if |s| > 0 {
      var rest := Split(s[1..]);
      JoinSplit(s[1..]);
      if s[0] == ' ' {
        assert Split(s) == [""] + rest;
        assert ([""] + rest)[1..] == rest;
        assert s == [s[0]] + s[1..];
      } else {
        var fields := [[s[0]] + rest[0]] + rest[1..];
        assert Split(s) == fields;
        if |rest| == 1 {
          assert Join(fields) == [s[0]] + rest[0];
        } else {
          assert fields[1..] == rest[1..];
          assert Join(fields) == ([s[0]] + rest[0]) + " " + Join(rest[1..]);
          assert Join(rest) == rest[0] + " " + Join(rest[1..]);
        }
        assert s == [s[0]] + s[1..];
      }
    }
  }

  /** Splitting after a space-free prefix extends the first field only. */
  lemma {:induction false} SplitAfterWord(w: string, t: string)
    requires ' ' !in w
    ensures Split(w + t) == [w + Split(t)[0]] + Split(t)[1..]
  {
    if |w| > 0 {
      SplitAfterWord(w[1..], t);
      assert (w + t)[1..] == w[1..] + t;
      assert (w + t)[0] == w[0];
      assert [w[0]] + (w[1..] + Split(t)[0]) == w + Split(t)[0];
    } else {
      var fields := Split(t);
      assert w + t == t && w + fields[0] == fields[0];
      assert fields == [fields[0]] + fields[1..];
    }
  }

  /** Splitting space-free fields joined by single spaces gives them back. */
  lemma {:induction false} SplitJoin(fields: seq<string>)
    requires |fields| > 0
    requires forall i | 0 <= i < |fields| :: ' ' !in fields[i]
    ensures Split(Join(fields)) == fields
  {
    if |fields| == 1 {
      SplitAfterWord(fields[0], "");
      assert fields[0] + "" == fields[0];
    } else {
      var tail := Join(fields[1..]);
      SplitJoin(fields[1..]);
      assert Join(fields) == fields[0] + (" " + tail);
      SplitAfterWord(fields[0], " " + tail);
      assert (" " + tail)[1..] == tail;
      assert Split(" " + tail) == [""] + Split(tail);
      assert fields[0] + "" == fields[0];
      assert fields == [fields[0]] + fields[1..];
    }
  }

  /** Python's `a <= b` on strings: code point by code point, and a proper
      prefix comes first. */
  predicate LessEq(a: string, b: string)
    ensures a <= b ==> LessEq(a, b)
    ensures |b| == 0 ==> (LessEq(a, b) <==> |a| == 0)
    decreases |a|
  {
    |a| == 0 || (|b| > 0 && (a[0] < b[0] || (a[0] == b[0] && LessEq(a[1..], b[1..]))))
  }

  lemma {:induction false} LessEqReflexive(a: string)
    ensures LessEq(a, a)
  {
    if |a| > 0 {
      LessEqReflexive(a[1..]);
    }
  }

  lemma {:induction false} LessEqAntisymmetric(a: string, b: string)
    requires LessEq(a, b) && LessEq(b, a)
    ensures a == b
  {
    if |a| > 0 {
      LessEqAntisymmetric(a[1..], b[1..]);
      assert a == [a[0]] + a[1..] && b == [b[0]] + b[1..];
    }
  }

  lemma {:induction false} LessEqTransitive(a: string, b: string, c: string)
    requires LessEq(a, b) && LessEq(b, c)
    ensures LessEq(a, c)
  {
    if |a| > 0 && a[0] == b[0] && b[0] == c[0] {
      LessEqTransitive(a[1..], b[1..], c[1..]);
    }
  }

  lemma {:induction false} LessEqTotal(a: string, b: string)
    ensures LessEq(a, b) || LessEq(b, a)
  {
    if |a| > 0 && |b| > 0 && a[0] == b[0] {
      LessEqTotal(a[1..], b[1..]);
    }
  }
}
