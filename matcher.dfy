/**
 * The search matcher: case-insensitive substring containment (app.py lines
 * 178 and 185). Lower-casing is modelled on ASCII letters only.
 */
module SearchMatcher {

  function LowerChar(c: char): char
  {
    if 'A' <= c <= 'Z' then (c as int + 32) as char else c
  }

  /** `s.lower()`, character by character. */
  function Lower(s: string): (t: string)
    ensures |t| == |s|
    ensures forall i :: 0 <= i < |s| ==> t[i] == LowerChar(s[i])
  {
    if s == [] then [] else [LowerChar(s[0])] + Lower(s[1..])
  }

  /** Lower-casing twice is lower-casing once. */
  lemma LowerIdempotent(s: string)
    ensures Lower(Lower(s)) == Lower(s)
  {
  }

  /** A lower-cased text holds no upper-case ASCII letter. */
  lemma LowerHasNoUpper(s: string)
    ensures forall i :: 0 <= i < |Lower(s)| ==> !('A' <= Lower(s)[i] <= 'Z')
  {
  }

  /** `needle in hay` for two strings: the needle occurs at some position of the hay. */
  predicate Contains(hay: string, needle: string)
    decreases |hay|
  {
    if |needle| > |hay| then false
    else if hay[..|needle|] == needle then true
    else Contains(hay[1..], needle)
  }

  /** `needle` occurs in `hay` starting at offset `i`. */
  predicate OccursAt(hay: string, needle: string, i: int)
  {
    0 <= i <= |hay| - |needle| && hay[i..i + |needle|] == needle
  }

  /** `Contains` is exactly "occurs at some offset"; in particular the empty needle is in every text. */
  lemma {:induction false} ContainsIff(hay: string, needle: string)
    ensures Contains(hay, needle) <==> exists i :: OccursAt(hay, needle, i)
    decreases |hay|
  {
    if |needle| > |hay| {
    } else if hay[..|needle|] == needle {
      assert OccursAt(hay, needle, 0);
    } else {
      ContainsIff(hay[1..], needle);
      if Contains(hay, needle) {
        var i :| OccursAt(hay[1..], needle, i);
        assert hay[1..][i..i + |needle|] == hay[i + 1..i + 1 + |needle|];
        assert OccursAt(hay, needle, i + 1);
      } else {
        forall i | 0 <= i <= |hay| - |needle| ensures !OccursAt(hay, needle, i) {
          if i > 0 {
            assert hay[i..i + |needle|] == hay[1..][i - 1..i - 1 + |needle|];
            assert !OccursAt(hay[1..], needle, i - 1);
          }
        }
      }
    }
  }

  /** The test applied to one field: the lower-cased field contains the (already lower-cased) query. */
  predicate FieldMatches(loweredQuery: string, field: string)
  {
    Contains(Lower(field), loweredQuery)
  }

  /** `query` occurs in `field` at offset `i` when letters are compared without regard to case. */
  predicate OccursAtIgnoringCase(field: string, query: string, i: int)
  {
    0 <= i <= |field| - |query| &&
    forall j :: 0 <= j < |query| ==> LowerChar(field[i + j]) == LowerChar(query[j])
  }

  lemma OccursAtLower(field: string, query: string, i: int)
    ensures OccursAt(Lower(field), Lower(query), i) <==> OccursAtIgnoringCase(field, query, i)
  {
    var lf, lq := Lower(field), Lower(query);
    if 0 <= i <= |field| - |query| {
      if OccursAt(lf, lq, i) {
        forall j | 0 <= j < |query| ensures LowerChar(field[i + j]) == LowerChar(query[j]) {
          assert lf[i..i + |lq|][j] == lf[i + j];
        }
      }
      if OccursAtIgnoringCase(field, query, i) {
        assert lf[i..i + |lq|] == lq;
      }
    }
  }

  /**
   * A field matches exactly when the query occurs in it at some offset, every
   * character compared after lower-casing.
   */
  lemma FieldMatchesIff(query: string, field: string)
    ensures FieldMatches(Lower(query), field) <==> exists i :: OccursAtIgnoringCase(field, query, i)
  {
    ContainsIff(Lower(field), Lower(query));
    if FieldMatches(Lower(query), field) {
      var i :| OccursAt(Lower(field), Lower(query), i);
      OccursAtLower(field, query, i);
    }
    if exists i :: OccursAtIgnoringCase(field, query, i) {
      var i :| OccursAtIgnoringCase(field, query, i);
      OccursAtLower(field, query, i);
    }
  }

  /** Changing the case of the field's letters never changes whether it matches. */
  lemma FieldMatchesIgnoresCase(loweredQuery: string, field: string)
    ensures FieldMatches(loweredQuery, Lower(field)) == FieldMatches(loweredQuery, field)
  {
    LowerIdempotent(field);
  }
}
