/**
 * Field-id normalisation in the validator:
 * `preg_replace('/\W/', '', strtolower($id))`. A `char` here is a whole
 * Unicode character, where PHP sees the bytes of its UTF-8 encoding. Only
 * ASCII letters are lowered and only ASCII letters, digits and `_` are
 * kept, so a non-ASCII character is dropped either way: PHP drops each of
 * its bytes, the model drops the character.
 */
module FieldIds {

  /** `strtolower` on one character: only `A`-`Z` change. */
  function LowerChar(c: char): char {
    if 'A' <= c <= 'Z' then (c as int - 'A' as int + 'a' as int) as char else c
  }

  /** A word character of `\w`: a letter, a digit or `_`. */
  predicate IsWordChar(c: char) {
    ('a' <= c <= 'z') || ('A' <= c <= 'Z') || ('0' <= c <= '9') || c == '_'
  }

  /** A character a normalised id may hold: lower-case letter, digit or `_`. */
  predicate IsIdChar(c: char) {
    ('a' <= c <= 'z') || ('0' <= c <= '9') || c == '_'
  }

  predicate IsNormalised(s: string) {
    forall i :: 0 <= i < |s| ==> IsIdChar(s[i])
  }

  function ToLower(s: string): (r: string)
    ensures |r| == |s|
    ensures forall i :: 0 <= i < |s| ==> r[i] == LowerChar(s[i])
  {
    if |s| == 0 then "" else [LowerChar(s[0])] + ToLower(s[1..])
  }

  /** `preg_replace('/\W/', '', $s)`: keep the word characters, in order. */
  function StripNonWord(s: string): (r: string)
    ensures |r| <= |s|
    ensures forall i :: 0 <= i < |r| ==> IsWordChar(r[i])
  {
    if |s| == 0 then ""
    else if IsWordChar(s[0]) then [s[0]] + StripNonWord(s[1..])
    else StripNonWord(s[1..])
  }

  /** A normalised id holds only `a`-`z`, `0`-`9` and `_`, and is no longer than the id. */
  function NormaliseId(id: string): (r: string)
    ensures IsNormalised(r)
    ensures |r| <= |id|
  {
    StripKeepsLower(ToLower(id));
    StripNonWord(ToLower(id))
  }

  /** A single character is kept exactly when it is a word character. */
  lemma StripNonWordChar(c: char)
    ensures StripNonWord([c]) == if IsWordChar(c) then [c] else []
  {
    assert [c][1..] == [];
  }

  /** Stripping works piece by piece: each part keeps its own word characters, in order. */
  lemma {:induction false} StripNonWordAppend(a: string, b: string)
    ensures StripNonWord(a + b) == StripNonWord(a) + StripNonWord(b)
    decreases |a|
  {
    if |a| == 0 {
      assert a + b == b;
    } else {
      assert (a + b)[0] == a[0];
      assert (a + b)[1..] == a[1..] + b;
      StripNonWordAppend(a[1..], b);
    }
  }

  /** Lowering works character by character. */
  lemma ToLowerAppend(a: string, b: string)
    ensures ToLower(a + b) == ToLower(a) + ToLower(b)
  {
  }

  /**
   * Normalisation works piece by piece, and a single character becomes
   * its lower-case form when it is a word character and nothing otherwise:
   * every word character of the id survives, in order.
   */
  lemma NormaliseIdPieces(a: string, b: string, c: char)
    ensures NormaliseId(a + b) == NormaliseId(a) + NormaliseId(b)
    ensures NormaliseId([c]) == if IsWordChar(c) then [LowerChar(c)] else []
  {
    ToLowerAppend(a, b);
    StripNonWordAppend(ToLower(a), ToLower(b));
    assert ToLower([c]) == [LowerChar(c)];
    StripNonWordChar(LowerChar(c));
  }

  /** Stripping a lower-case string keeps it lower-case. */
  lemma {:induction false} StripKeepsLower(s: string)
    requires forall i :: 0 <= i < |s| ==> !('A' <= s[i] <= 'Z')
    ensures forall i :: 0 <= i < |StripNonWord(s)| ==> !('A' <= StripNonWord(s)[i] <= 'Z')
  {
    if |s| > 0 {
      StripKeepsLower(s[1..]);
    }
  }

  /** Ids already made of `a`-`z`, `0`-`9` and `_` are left as they are. */
  lemma {:induction false} NormalisedIsFixed(id: string)
    requires IsNormalised(id)
    ensures NormaliseId(id) == id
  {
    if |id| > 0 {
      NormalisedIsFixed(id[1..]);
      assert ToLower(id) == [id[0]] + ToLower(id[1..]);
    }
  }

  /** Normalising twice gives the same id as normalising once. */
  lemma NormaliseIdIdempotent(id: string)
    ensures NormaliseId(NormaliseId(id)) == NormaliseId(id)
  {
    NormalisedIsFixed(NormaliseId(id));
  }
}
