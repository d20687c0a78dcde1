/** The activation-code generator (src/organizations/activation_codes/utils.py):
    rejection sampling of 10-character codes over ASCII letters and digits until
    one has a lower-case letter, an upper-case letter and three digits.  The
    secure random source is an oracle: `samples` lists the successive candidates,
    each as the ten indices secrets.choice drew from the alphabet. */
module ActivationCodeUtils {
  import opened Common

  /** The n consecutive characters starting at `first`. */
  function CharRange(first: char, n: nat): (s: string)
    requires first as int + n <= 128
    ensures |s| == n && forall i :: 0 <= i < n ==> s[i] as int == first as int + i
  {
    if n == 0 then [] else CharRange(first, n - 1) + [(first as int + n - 1) as char]
  }

  /** string.ascii_lowercase, string.ascii_uppercase and string.digits. */
  const ASCII_LOWERCASE: string := CharRange('a', 26)
  const ASCII_UPPERCASE: string := CharRange('A', 26)
  const DIGITS: string := CharRange('0', 10)

  /** string.ascii_letters + string.digits (utils.py:18), 62 characters. */
  const ALPHABET: string := ASCII_LOWERCASE + ASCII_UPPERCASE + DIGITS

  /** otp_length (utils.py:19). */
  const CODE_LENGTH: nat := 10

  predicate IsLower(c: char) {
    'a' <= c <= 'z'
  }

  predicate IsUpper(c: char) {
    'A' <= c <= 'Z'
  }

  /** `sum(c.isdigit() for c in s)`. */
  function DigitCount(s: string): (n: nat)
    ensures n <= |s|
  {
    if s == [] then 0 else DigitCount(s[..|s| - 1]) + (if IsDigit(s[|s| - 1]) then 1 else 0)
  }

  /** The acceptance test of utils.py:24-28. */
  predicate Acceptable(code: string) {
    (exists i :: 0 <= i < |code| && IsLower(code[i]))
    && (exists i :: 0 <= i < |code| && IsUpper(code[i]))
    && DigitCount(code) >= 3
  }

  predicate IsAlphanumeric(c: char) {
    IsLower(c) || IsUpper(c) || IsDigit(c)
  }

  /** Every character of the alphabet is an ASCII letter or a digit. */
  lemma AlphabetIsAlphanumeric()
    ensures |ALPHABET| == 62
    ensures forall j :: 0 <= j < |ALPHABET| ==> IsAlphanumeric(ALPHABET[j])
  {
    forall j | 0 <= j < |ALPHABET| ensures IsAlphanumeric(ALPHABET[j]) {
      if j < 26 {
        assert ALPHABET[j] == ASCII_LOWERCASE[j];
      } else if j < 52 {
        assert ALPHABET[j] == ASCII_UPPERCASE[j - 26];
      } else {
        assert ALPHABET[j] == DIGITS[j - 52];
      }
    }
  }

  /** One candidate's draws: ten indices into the alphabet. */
  predicate ValidSample(sample: seq<int>) {
    |sample| == CODE_LENGTH && forall i :: 0 <= i < |sample| ==> 0 <= sample[i] < |ALPHABET|
  }

  predicate ValidSamples(samples: seq<seq<int>>) {
    forall j :: 0 <= j < |samples| ==> ValidSample(samples[j])
  }

  /** The candidate a sample spells (utils.py:23). */
  function Spell(sample: seq<int>): (code: string)
    requires ValidSample(sample)
    ensures |code| == CODE_LENGTH
    ensures forall i :: 0 <= i < |code| ==> code[i] == ALPHABET[sample[i]] && IsAlphanumeric(code[i])
  {
    AlphabetIsAlphanumeric();
    seq(|sample|, i requires 0 <= i < |sample| => ALPHABET[sample[i]])
  }

  /** The index of the first accepted candidate, if any. */
  function FirstAcceptable(samples: seq<seq<int>>): (k: Option<nat>)
    requires ValidSamples(samples)
    ensures k.Some? ==> k.value < |samples| && Acceptable(Spell(samples[k.value]))
                        && forall j :: 0 <= j < k.value ==> !Acceptable(Spell(samples[j]))
    ensures k.None? ==> forall j :: 0 <= j < |samples| ==> !Acceptable(Spell(samples[j]))
  {
    if samples == [] then None
    else if Acceptable(Spell(samples[0])) then Some(0)
    else
      match FirstAcceptable(samples[1..])
      case None => None
      case Some(k) => Some(k + 1)
  }

  /** generate_otp (utils.py:5-29).  The source loops with no bound; here the
      oracle must eventually offer an accepted candidate, and the code returned
      is the first one it offers. */
  method GenerateActivationCode(samples: seq<seq<int>>) returns (code: string)
    requires ValidSamples(samples) && FirstAcceptable(samples).Some?
    ensures code == Spell(samples[FirstAcceptable(samples).value])
    ensures |code| == CODE_LENGTH && forall i :: 0 <= i < |code| ==> IsAlphanumeric(code[i])
    ensures Acceptable(code)
  {
    ghost var first := FirstAcceptable(samples).value;
    var i := 0;
    while true
      invariant 0 <= i <= first
      invariant forall j :: 0 <= j < i ==> !Acceptable(Spell(samples[j]))
      decreases first - i
    {
      code := Spell(samples[i]);
      if Acceptable(code) {
        assert i == first;
        return;
      }
      assert i != first;
      i := i + 1;
    }
  }

  /** A string without digits counts none. */
  lemma {:induction false} NoDigitsCountZero(s: string)
    requires forall i :: 0 <= i < |s| ==> !IsDigit(s[i])
    ensures DigitCount(s) == 0
  {
    if s != [] {
      NoDigitsCountZero(s[..|s| - 1]);
    }
  }

  /** A candidate drawn from the letters alone is always rejected. */
  lemma LettersOnlyRejected(sample: seq<int>)
    requires ValidSample(sample)
    requires forall i :: 0 <= i < |sample| ==> sample[i] < 52
    ensures !Acceptable(Spell(sample))
  {
    var code := Spell(sample);
    forall i | 0 <= i < |code| ensures !IsDigit(code[i]) {
      assert code[i] == ALPHABET[sample[i]];
    }
    NoDigitsCountZero(code);
  }
}
