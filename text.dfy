/** String operations the core borrows from Python: `needle in hay`,
    the last occurrence of a character (what `rsplit(c, 1)` splits on)
    and `lower()`, restricted to ASCII. */
module Text {
  import opened Wrappers

  /** `needle` occurs in `hay` starting at index `i`. */
  ghost predicate OccursAt(hay: string, needle: string, i: int)
  {
    0 <= i && i + |needle| <= |hay| && hay[i..i + |needle|] == needle
  }

  lemma ShiftOccurrence(hay: string, needle: string)
    requires |hay| > 0
    ensures forall i {:trigger OccursAt(hay, needle, i)} ::
      1 <= i ==> (OccursAt(hay, needle, i) <==> OccursAt(hay[1..], needle, i - 1))
  {
    forall i | 1 <= i
      ensures OccursAt(hay, needle, i) <==> OccursAt(hay[1..], needle, i - 1)
    {
      if i + |needle| <= |hay| {
        assert hay[1..][i - 1..i - 1 + |needle|] == hay[i..i + |needle|];
      }
    }
  }

  /** Python's substring test `needle in hay`. */
  function Contains(hay: string, needle: string): (b: bool)
    ensures b <==> exists i :: OccursAt(hay, needle, i)
    decreases |hay|
  {
    if |needle| > |hay| then false
    else if hay[..|needle|] == needle then
      assert OccursAt(hay, needle, 0);
      true
    else
      ShiftOccurrence(hay, needle);
      var rest := Contains(hay[1..], needle);
      assert rest ==> exists i :: OccursAt(hay[1..], needle, i);
      assert rest ==> exists i :: 1 <= i && OccursAt(hay, needle, i) by {
        if rest {
          var k :| OccursAt(hay[1..], needle, k);
          assert OccursAt(hay, needle, k + 1);
        }
      }
      rest
  }

  /** Every string contains itself. */
  lemma ContainsSelf(s: string)
    ensures Contains(s, s)
  {
    assert OccursAt(s, s, 0);
  }

  /** A string that contains `needle` also contains each prefix of `needle`. */
  lemma {:induction false} ContainsPrefix(hay: string, needle: string, prefix: string)
    requires Contains(hay, needle)
    requires |prefix| <= |needle| && needle[..|prefix|] == prefix
    ensures Contains(hay, prefix)
  {
    var i :| OccursAt(hay, needle, i);
    assert hay[i..i + |prefix|] == hay[i..i + |needle|][..|prefix|];
    assert OccursAt(hay, prefix, i);
  }

  /** `needle` occurs at a given position. */
  lemma ContainsAt(hay: string, needle: string, i: nat)
    requires i + |needle| <= |hay| && hay[i..i + |needle|] == needle
    ensures Contains(hay, needle)
  {
    assert OccursAt(hay, needle, i);
  }

  /** A non-empty needle whose first character is absent from `hay` does not occur in it. */
  lemma AbsentFirstChar(hay: string, needle: string)
    requires |needle| > 0 && needle[0] !in hay
    ensures !Contains(hay, needle)
  {
    forall i ensures !OccursAt(hay, needle, i) {
      if 0 <= i && i + |needle| <= |hay| {
        assert hay[i..i + |needle|][0] == hay[i];
      }
    }
  }

  /** The index of the last `c` in `s`, if any. */
  function LastIndexOf(s: string, c: char): (r: Option<nat>)
    ensures r.None? <==> forall j :: 0 <= j < |s| ==> s[j] != c
    ensures r.Some? ==> r.value < |s| && s[r.value] == c
    ensures r.Some? ==> forall j :: r.value < j < |s| ==> s[j] != c
  {
    if |s| == 0 then None
    else if s[|s| - 1] == c then Some(|s| - 1)
    else
      var r := LastIndexOf(s[..|s| - 1], c);
      assert forall j :: 0 <= j < |s| - 1 ==> s[..|s| - 1][j] == s[j];
      r
  }

  /** `lower()` on one character, over ASCII. */
  function LowerChar(c: char): char
  {
    if 'A' <= c <= 'Z' then (c as int + 32) as char else c
  }

  /** `lower()` on a string, over ASCII. */
  function ToLowerAscii(s: string): (r: string)
    ensures |r| == |s|
    ensures forall i :: 0 <= i < |s| ==> r[i] == LowerChar(s[i])
  {
    if s == [] then [] else [LowerChar(s[0])] + ToLowerAscii(s[1..])
  }

  /** Lower-casing commutes with taking a suffix. */
  lemma LowerSuffix(s: string, i: nat)
    requires i <= |s|
    ensures ToLowerAscii(s)[i..] == ToLowerAscii(s[i..])
  {
  }

  /** Lower-casing keeps and creates no `'.'`. */
  lemma LowerKeepsDot(c: char)
    ensures LowerChar(c) == '.' <==> c == '.'
  {
  }
}
