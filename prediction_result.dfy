/** The result view's one computation: the gender label with its first letter capitalised. */
module PredictionResult {

  predicate IsAsciiLower(c: char) {
    'a' <= c <= 'z'
  }

  predicate IsAscii(s: string) {
    forall i :: 0 <= i < |s| ==> s[i] as int < 128
  }

  /** `toUpperCase` on one character, for the ASCII range: a to z become A to Z, everything else stays. */
  function ToUpperAscii(c: char): (u: char)
    ensures !IsAsciiLower(u)
    ensures (u == c) <==> !IsAsciiLower(c)
    ensures IsAsciiLower(c) ==> 'A' <= u <= 'Z' && u as int - 'A' as int == c as int - 'a' as int
    ensures c as int < 128 ==> u as int < 128
  {
    if IsAsciiLower(c) then (c as int - 'a' as int + 'A' as int) as char else c
  }

  /** `gender.charAt(0).toUpperCase() + gender.slice(1)`. */
  function PrettyGender(gender: string): (r: string)
    ensures |r| == |gender|
    ensures |gender| > 0 ==> r[1..] == gender[1..]
  {
    if gender == [] then [] else [ToUpperAscii(gender[0])] + gender[1..]
  }

  lemma PrettyGenderEmpty()
    ensures PrettyGender("") == ""
  {
  }

  /** The first character is upper-cased, and an ASCII label stays ASCII. */
  lemma PrettyGenderFirst(gender: string)
    requires |gender| > 0
    ensures PrettyGender(gender)[0] == ToUpperAscii(gender[0])
    ensures !IsAsciiLower(PrettyGender(gender)[0])
    ensures IsAscii(gender) ==> IsAscii(PrettyGender(gender))
  {
  }

  /** A label that already starts with a capital, such as "Male" or "Female", is shown unchanged. */
  lemma PrettyGenderFixed(gender: string)
    requires |gender| > 0 ==> !IsAsciiLower(gender[0])
    ensures PrettyGender(gender) == gender
  {
  }

  /** The two labels the response check admits are shown as they are, and their lower-case forms are capitalised. */
  lemma PrettyGenderOfGenders()
    ensures PrettyGender("Male") == "Male"
    ensures PrettyGender("Female") == "Female"
    ensures PrettyGender("male") == "Male"
    ensures PrettyGender("female") == "Female"
  {
  }

  /** Capitalising twice is capitalising once. */
  lemma PrettyGenderIdempotent(gender: string)
    ensures PrettyGender(PrettyGender(gender)) == PrettyGender(gender)
  {
  }
}
