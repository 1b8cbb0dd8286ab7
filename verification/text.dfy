/**
 * Case-insensitive text matching as the search uses it. Case folding is ASCII only: the
 * upper-case letters A-Z are mapped to a-z and every other character is left alone.
 */
module Text {
  import Sequences

  function LowerChar(c: char): char {
    if 'A' <= c <= 'Z' then (c as int + 32) as char else c
  }

  /** `s.lowercased()`, restricted to ASCII letters. */
  function Lowercased(s: string): string {
    Sequences.Map(s, LowerChar)
  }

  /** Lower-casing twice is lower-casing once. */
  lemma LowercasedIdempotent(s: string)
    ensures Lowercased(Lowercased(s)) == Lowercased(s)
  {
    assert forall i :: 0 <= i < |s| ==> Lowercased(Lowercased(s))[i] == Lowercased(s)[i];
  }

  /** `needle` occurs in `hay` starting at index `i`. */
  predicate OccursAt(hay: string, needle: string, i: nat) {
    i + |needle| <= |hay| && hay[i..i + |needle|] == needle
  }

  /** Substring test: `needle` is a prefix of `hay` or of one of its suffixes. */
  predicate Contains(hay: string, needle: string)
    decreases |hay|
  {
    needle <= hay || (hay != [] && Contains(hay[1..], needle))
  }

  /** `Contains` holds exactly when `needle` occurs at some index of `hay`. */
  lemma {:induction false} ContainsIffOccurs(hay: string, needle: string)
    ensures Contains(hay, needle) <==> exists i: nat :: OccursAt(hay, needle, i)
  {
    if needle <= hay {
      assert OccursAt(hay, needle, 0);
    } else if hay != [] {
      ContainsIffOccurs(hay[1..], needle);
      if Contains(hay[1..], needle) {
        var i: nat :| OccursAt(hay[1..], needle, i);
        assert hay[i + 1..i + 1 + |needle|] == hay[1..][i..i + |needle|];
        assert OccursAt(hay, needle, i + 1);
      }
      if exists i: nat :: OccursAt(hay, needle, i) {
        var i: nat :| OccursAt(hay, needle, i);
        if i > 0 {
          assert hay[1..][i - 1..i - 1 + |needle|] == hay[i..i + |needle|];
          assert OccursAt(hay[1..], needle, i - 1);
        }
      }
    }
  }

  /** `hay.localizedCaseInsensitiveContains(needle)`, with ASCII case folding. */
  predicate ContainsIgnoringCase(hay: string, needle: string) {
    Contains(Lowercased(hay), Lowercased(needle))
  }

  /** Case-insensitive containment does not depend on the case of either argument. */
  lemma ContainsIgnoringCaseIsCaseBlind(hay: string, needle: string)
    ensures ContainsIgnoringCase(Lowercased(hay), needle) == ContainsIgnoringCase(hay, needle)
    ensures ContainsIgnoringCase(hay, Lowercased(needle)) == ContainsIgnoringCase(hay, needle)
  {
    LowercasedIdempotent(hay);
    LowercasedIdempotent(needle);
  }
}
