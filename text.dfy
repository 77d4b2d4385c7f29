/** Character-level string operations the chatbots rely on: Python's
    `str.lower()`, `str.title()` on a single word, and the `in` operator on
    strings (substring containment). */
module Text {

  /** Upper-case letters that `str.lower()` maps: ASCII `A`..`Z` and the
      Latin-1 letters `À`..`Þ` except the multiplication sign. */
  predicate IsUpperLetter(c: char) {
    ('A' <= c <= 'Z') || ('\U{C0}' <= c <= '\U{DE}' && c != '\U{D7}')
  }

  /** Lower-case letters that `str.upper()` maps back (the inverse set). */
  predicate IsLowerLetter(c: char) {
    ('a' <= c <= 'z') || ('\U{E0}' <= c <= '\U{FE}' && c != '\U{F7}')
  }

  function LowerChar(c: char): (d: char)
    ensures !IsUpperLetter(d)
    ensures IsUpperLetter(c) ==> IsLowerLetter(d)
    ensures !IsUpperLetter(c) ==> d == c
  {
    if IsUpperLetter(c) then (c as int + 32) as char else c
  }

  function UpperChar(c: char): (d: char)
    ensures LowerChar(d) == LowerChar(c)
  {
    if IsLowerLetter(c) then (c as int - 32) as char else c
  }

  /** `s.lower()`: every character lower-cased, nothing else changed. */
  function Lower(s: string): (r: string)
    ensures |r| == |s|
    ensures forall i :: 0 <= i < |s| ==> r[i] == LowerChar(s[i])
  {
    if |s| == 0 then [] else Lower(s[..|s| - 1]) + [LowerChar(s[|s| - 1])]
  }

  /** `w.title()` for a single word: first character upper-cased, the rest
      lower-cased. The dictionary keys it is applied to are single words. */
  function TitleWord(w: string): (r: string)
    ensures |r| == |w|
  {
    if |w| == 0 then [] else [UpperChar(w[0])] + Lower(w[1..])
  }

  /** Python's `pat in text`: `pat` occurs as a contiguous run of `text`. */
  predicate Contains(text: string, pat: string)
    decreases |text|
  {
    pat <= text || (|text| > 0 && Contains(text[1..], pat))
  }

  /** Title-casing a word does not change it up to case: a case-insensitive
      comparison against `TitleWord(w)` is a comparison against `w`. */
  lemma {:induction false} LowerTitleWord(w: string)
    ensures Lower(TitleWord(w)) == Lower(w)
  {
    if |w| > 0 {
      var t := TitleWord(w);
      forall i | 0 <= i < |w| ensures Lower(t)[i] == Lower(w)[i] {
        if i > 0 {
          assert t[i] == Lower(w[1..])[i - 1] == LowerChar(w[i]);
        }
      }
    }
  }

  /** `pat` occurs in `text` starting at index `i`. */
  predicate OccursAt(text: string, pat: string, i: nat) {
    i <= |text| && pat <= text[i..]
  }

  /** The recursive containment test agrees with the positional reading:
      `pat` starts at some index of `text`. */
  lemma {:induction false} ContainsAt(text: string, pat: string)
    ensures Contains(text, pat) <==> exists i: nat :: OccursAt(text, pat, i)
    decreases |text|
  {
    if pat <= text {
      assert OccursAt(text, pat, 0);
    } else if |text| == 0 {
      forall i: nat ensures !OccursAt(text, pat, i) {
        if i == 0 { assert text[0..] == text; }
      }
    } else {
      ContainsAt(text[1..], pat);
      if Contains(text[1..], pat) {
        var i: nat :| OccursAt(text[1..], pat, i);
        assert text[1..][i..] == text[i + 1..];
        assert OccursAt(text, pat, i + 1);
      } else {
        forall i: nat ensures !OccursAt(text, pat, i) {
          if i == 0 {
            assert text[0..] == text;
          } else if i <= |text| {
            assert text[1..][i - 1..] == text[i..];
            assert !OccursAt(text[1..], pat, i - 1);
          }
        }
      }
    }
  }
}
