/** The flexible boolean grammar used for autoActivate and injectProperties. */
module StringExtensions {
  import opened Wrappers
  import opened Text
  import opened Runtime

  /** Spellings of false and of true, compared after ASCII case folding. */
  const FalseWords: set<string> := {"false", "no", "n", "0"}
  const TrueWords: set<string> := {"true", "yes", "y", "1"}

  /** The grammar's words are already in lower case. */
  lemma WordsAreLowerCase()
    ensures Lower("false") == "false" && Lower("no") == "no" && Lower("n") == "n" && Lower("0") == "0"
    ensures Lower("true") == "true" && Lower("yes") == "yes" && Lower("y") == "y" && Lower("1") == "1"
  {
  }

  /** The two spellings sets share no word, so no input is both true and false. */
  lemma TrueAndFalseWordsDisjoint()
    ensures FalseWords !! TrueWords
  {
  }

  /** No word of the grammar starts with whitespace. */
  lemma WordStartsWithLetterOrDigit(w: string)
    requires w in FalseWords + TrueWords
    ensures w != [] && !IsWhiteSpace(w[0])
  {
  }

  /** No word of the grammar ends with whitespace. */
  lemma WordEndsWithLetterOrDigit(w: string)
    requires w in FalseWords + TrueWords
    ensures w != [] && !IsWhiteSpace(w[|w| - 1])
  {
  }

  /** Blank text is none of the words, whatever its case folding. */
  lemma {:induction false} BlankIsNoWord(v: string)
    requires IsBlank(v)
    ensures Lower(v) !in FalseWords + TrueWords
  {
    var w := Lower(v);
    if w in FalseWords + TrueWords {
      WordStartsWithLetterOrDigit(w);
      LowerCharKeepsWhiteSpace(v[0]);
      assert false;
    }
  }

  /** The false spellings of StringExtensions.cs:28-31, compared ignoring case. */
  predicate IsFalseWord(v: string)
    ensures IsFalseWord(v) <==> Lower(v) in FalseWords
  {
    WordsAreLowerCase();
    || EqualsIgnoreCase(v, "false")
    || EqualsIgnoreCase(v, "no")
    || EqualsIgnoreCase(v, "n")
    || EqualsIgnoreCase(v, "0")
  }

  /** The true spellings of StringExtensions.cs:35-38, compared ignoring case. */
  predicate IsTrueWord(v: string)
    ensures IsTrueWord(v) <==> Lower(v) in TrueWords
  {
    WordsAreLowerCase();
    || EqualsIgnoreCase(v, "true")
    || EqualsIgnoreCase(v, "yes")
    || EqualsIgnoreCase(v, "y")
    || EqualsIgnoreCase(v, "1")
  }

  /**
   * ToFlexibleBoolean: null, empty or whitespace and the false words mean
   * false, the true words mean true, in any letter case; the input is not
   * trimmed, and anything else is an InvalidOperationException naming it.
   */
  function ToFlexibleBoolean(value: Option<string>): (r: Result<bool, Error>)
    ensures r == Success(false) <==> IsNullOrWhiteSpace(value) || Lower(value.value) in FalseWords
    ensures r == Success(true) <==> !IsNullOrWhiteSpace(value) && Lower(value.value) in TrueWords
    ensures r.Failure? <==>
      !IsNullOrWhiteSpace(value) && Lower(value.value) !in FalseWords + TrueWords
    ensures r.Failure? ==> r.error == InvalidOperation(UnrecognisedBoolean(value.value))
  {
    TrueAndFalseWordsDisjoint();
    if value.Some? && IsBlank(value.value) then BlankIsNoWord(value.value); Success(false)
    else if IsNullOrWhiteSpace(value) || IsFalseWord(value.value) then Success(false)
    else if IsTrueWord(value.value) then Success(true)
    else Failure(InvalidOperation(UnrecognisedBoolean(value.value)))
  }

  /** The answer depends only on the case-folded text: inputs equal up to
      letter case give the same boolean or both fail. */
  lemma {:induction false} ToFlexibleBooleanIgnoresCase(a: string, b: string)
    requires EqualsIgnoreCase(a, b)
    ensures ToFlexibleBoolean(Some(a)).Success? == ToFlexibleBoolean(Some(b)).Success?
    ensures ToFlexibleBoolean(Some(a)).Success? ==> ToFlexibleBoolean(Some(a)) == ToFlexibleBoolean(Some(b))
  {
    SameLowerSameBlank(a, b);
  }

  /** Null and blank text mean false. */
  lemma ToFlexibleBooleanOfBlank()
    ensures ToFlexibleBoolean(None) == Success(false)
    ensures ToFlexibleBoolean(Some("  ")) == Success(false)
  {
  }

  /** Letter case does not matter: "No" is false and "YES" is true. */
  lemma ToFlexibleBooleanOfMixedCase()
    ensures ToFlexibleBoolean(Some("No")) == Success(false)
    ensures ToFlexibleBoolean(Some("YES")) == Success(true)
  {
    assert !IsWhiteSpace("No"[0]) && !IsWhiteSpace("YES"[0]);
    assert Lower("No") == "no";
    assert Lower("YES") == "yes";
  }

  /** The text is not trimmed: a word of the grammar with a space on either
      side is rejected, naming the padded text. */
  lemma ToFlexibleBooleanRejectsPadding(w: string)
    requires w in FalseWords + TrueWords
    ensures ToFlexibleBoolean(Some(" " + w)) == Failure(InvalidOperation(UnrecognisedBoolean(" " + w)))
    ensures ToFlexibleBoolean(Some(w + " ")) == Failure(InvalidOperation(UnrecognisedBoolean(w + " ")))
  {
    WordStartsWithLetterOrDigit(w);
    var v := " " + w;
    assert v[1] == w[0];
    assert !IsBlank(v);
    if Lower(v) in FalseWords + TrueWords {
      WordStartsWithLetterOrDigit(Lower(v));
      assert false;
    }
    var u := w + " ";
    assert u[0] == w[0];
    assert !IsBlank(u);
    if Lower(u) in FalseWords + TrueWords {
      WordEndsWithLetterOrDigit(Lower(u));
      assert false;
    }
  }
}
