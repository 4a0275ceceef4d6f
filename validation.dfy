/**
 * The validation rules applied to a request before the store is touched: the
 * rating check (app.py lines 127 and 155) and the review-text check (line 152).
 */
module Validation {
  import opened Optional
  import RatingAggregator

  /**
   * The `rating` field of a request body after JSON decoding: missing (or JSON
   * null), a finite number, the float NaN (Python's JSON decoder accepts the
   * token `NaN`), or any other JSON value (string, list, object).
   * Python's decoder also accepts `Infinity` and `-Infinity`; the source refuses
   * them through `rating > 5` and `rating < 1`, and a caller of the model passes
   * them as `Other`, which is refused as well.
   */
  datatype RatingInput = Absent | Num(v: real) | NaN | Other

  /** `not rating`: None and the number zero are falsy; NaN is truthy. */
  predicate Falsy(r: RatingInput)
  {
    r.Absent? || (r.Num? && r.v == 0.0)
  }

  /** `isinstance(rating, (int, float))`. */
  predicate Numeric(r: RatingInput)
  {
    r.Num? || r.NaN?
  }

  /** `rating < bound`; every ordered comparison with NaN is false. */
  predicate Below(r: RatingInput, bound: real)
    requires Numeric(r)
  {
    r.Num? && r.v < bound
  }

  predicate Above(r: RatingInput, bound: real)
    requires Numeric(r)
  {
    r.Num? && r.v > bound
  }

  /**
   * The condition of app.py line 127 (and line 155) as written: the request
   * passes when none of the four rejection tests fires.
   */
  predicate SourceRatingCheck(r: RatingInput)
  {
    !(Falsy(r) || !Numeric(r) || Below(r, 1.0) || Above(r, 5.0))
  }

  /** As written, the check lets NaN through, although NaN is not between 1 and 5. */
  lemma SourceCheckAcceptsNaN()
    ensures SourceRatingCheck(NaN)
    ensures !RatingAggregator.InRange(0.0) && !SourceRatingCheck(Num(0.0))
  {
  }

  /**
   * The rating check the model uses: present, a number, and in [1, 5].
   */
  predicate ValidRating(r: RatingInput)
  {
    r.Num? && RatingAggregator.InRange(r.v)
  }

  /**
   * The corrected check agrees with the source's test on every input except
   * NaN, and it accepts exactly the present, numeric values from 1 to 5.
   */
  lemma ValidRatingAgreesWithSource(r: RatingInput)
    ensures ValidRating(r) <==> SourceRatingCheck(r) && !r.NaN?
    ensures ValidRating(r) <==> r.Num? && 1.0 <= r.v <= 5.0
  {
  }

  /** The characters Python's `str.strip()` removes (those for which `str.isspace()` holds). */
  predicate IsSpace(c: char)
  {
    var n := c as int;
    (9 <= n <= 13) || (28 <= n <= 32) || n == 0x85 || n == 0xA0 || n == 0x1680
    || (0x2000 <= n <= 0x200A) || n == 0x2028 || n == 0x2029 || n == 0x202F
    || n == 0x205F || n == 0x3000
  }

  /** The length of the longest all-whitespace prefix of `s`. */
  function LeadingSpaces(s: string): (k: nat)
    ensures k <= |s|
    ensures forall i :: 0 <= i < k ==> IsSpace(s[i])
    ensures k < |s| ==> !IsSpace(s[k])
  {
    if s != [] && IsSpace(s[0]) then 1 + LeadingSpaces(s[1..]) else 0
  }

  /** The length of the longest all-whitespace suffix of `s`. */
  function TrailingSpaces(s: string): (k: nat)
    ensures k <= |s|
    ensures forall i :: |s| - k <= i < |s| ==> IsSpace(s[i])
    ensures k < |s| ==> !IsSpace(s[|s| - 1 - k])
  {
    if s != [] && IsSpace(s[|s| - 1]) then 1 + TrailingSpaces(s[..|s| - 1]) else 0
  }

  /** `s.strip()`: leading whitespace removed, then trailing whitespace. */
  function Strip(s: string): string
  {
    var t := s[LeadingSpaces(s)..];
    t[..|t| - TrailingSpaces(t)]
  }

  predicate Blank(s: string)
  {
    forall i :: 0 <= i < |s| ==> IsSpace(s[i])
  }

  /** Stripping leaves nothing exactly when the text is whitespace only. */
  lemma StripEmptyIffBlank(s: string)
    ensures |Strip(s)| == 0 <==> Blank(s)
  {
    var k := LeadingSpaces(s);
    var t := s[k..];
    if Blank(s) {
      assert k == |s|;
    } else {
      var i :| 0 <= i < |s| && !IsSpace(s[i]);
      assert k <= i;
      assert t[0] == s[k] && !IsSpace(t[0]);
      assert TrailingSpaces(t) < |t|;
    }
  }

  /** The stripped text keeps no whitespace at either end. */
  lemma StripTrimsBothEnds(s: string)
    ensures |Strip(s)| > 0 ==> !IsSpace(Strip(s)[0]) && !IsSpace(Strip(s)[|Strip(s)| - 1])
  {
    var k := LeadingSpaces(s);
    var t := s[k..];
    var u := Strip(s);
    if |u| > 0 {
      assert u[0] == t[0] == s[k];
      assert u[|u| - 1] == t[|t| - 1 - TrailingSpaces(t)];
    }
  }

  /** The condition of app.py line 152: review text is required and must not be blank. */
  predicate ValidReviewText(text: Option<string>)
  {
    !(text.None? || text.value == "" || |Strip(text.value)| == 0)
  }

  /** Review text passes exactly when it is present and holds a non-whitespace character. */
  lemma ValidReviewTextMeaning(text: Option<string>)
    ensures ValidReviewText(text) <==>
      text.Some? && exists i :: 0 <= i < |text.value| && !IsSpace(text.value[i])
  {
    if text.Some? {
      StripEmptyIffBlank(text.value);
    }
  }

  /** `data.get('name', 'Anonymous')`: only a missing name is replaced; an empty one is kept. */
  function ReviewerName(name: Option<string>): (r: string)
    ensures name.None? ==> r == "Anonymous"
    ensures name.Some? ==> r == name.value
  {
    name.GetOr("Anonymous")
  }
}
