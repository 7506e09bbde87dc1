/**
 * Equal-tempered pitch arithmetic referenced to A0 = 27.5 Hz (so A4 = 440 Hz):
 * conversions between frequencies, pitches (note, octave, cents) and pitch
 * notation strings such as "A4", "C#3" or "A3-10".
 *
 * Frequencies are held in log space: a frequency f > 0 is represented by its
 * distance from A0 in octaves, log2(f / A0). The source's products of powers
 * of two become sums of exponents, and its `Math.log2` of a quotient becomes a
 * difference, so every conversion is exact real arithmetic.
 */
module MusicTheory {
  import opened Wrappers
  import opened Decimal

  /** Frequency in hertz of A0, the lowest note on a piano. */
  const A0Hz: real := 27.5

  /** The note names, in order of half steps above C. */
  const NoteOrder: seq<string> := ["C", "C#", "D", "D#", "E", "F", "F#", "G", "G#", "A", "A#", "B"]

  /** The frequency A0Hz * 2^octavesAboveA0. */
  datatype Frequency = Frequency(octavesAboveA0: real)

  /** The frequency `cents` hundredths of a half step above f (below, when negative). */
  function Transpose(f: Frequency, cents: real): Frequency {
    Frequency(f.octavesAboveA0 + cents / 1200.0)
  }

  /**
   * A pitch. The note is any name the notation admits, so "E#" and "B#" can
   * occur although they are not in NoteOrder; cents may be absent.
   */
  datatype Pitch = Pitch(note: string, octave: int, cents: Option<real>)

  datatype NotationError = InvalidNotation(notation: string)

  /** Which parts `pitchToString` renders; omitted options take DefaultOptions' values. */
  datatype StringOptions = StringOptions(note: bool, octave: bool, cents: bool)

  const DefaultOptions := StringOptions(true, true, false)

  /** The options `{ cents: true }`. */
  const WithCents := StringOptions(true, true, true)

  /** The options `{ octave: false }`. */
  const WithoutOctave := StringOptions(true, false, false)

  // ---------------------------------------------------------------------------
  // Hertz, where a finite decimal value exists

  /** 2^k for an integer k. */
  function Pow2(k: int): (r: real)
    ensures r > 0.0
    decreases if k < 0 then -k else k
  {
    if k == 0 then 1.0 else if k > 0 then 2.0 * Pow2(k - 1) else Pow2(k + 1) / 2.0
  }

  predicate IsWhole(r: real) {
    r.Floor as real == r
  }

  /** The frequency in hertz, for frequencies a whole number of octaves from A0. */
  function WholeOctaveHz(f: Frequency): (hz: Option<real>)
    ensures hz.Some? <==> IsWhole(f.octavesAboveA0)
    ensures hz.Some? ==> hz.value > 0.0
  {
    if IsWhole(f.octavesAboveA0) then Some(A0Hz * Pow2(f.octavesAboveA0.Floor)) else None
  }

  // ---------------------------------------------------------------------------
  // Note names

  /** `findIndex` on a list of names: the first index holding x, or -1. */
  function IndexOf(names: seq<string>, x: string): (i: int)
    ensures -1 <= i < |names|
    ensures i == -1 <==> x !in names
    ensures i >= 0 ==> names[i] == x && forall j | 0 <= j < i :: names[j] != x
  {
    IndexFrom(names, x, 0)
  }

  /** The scan behind IndexOf: the first index at or after `from` holding x, or -1. */
  function IndexFrom(names: seq<string>, x: string, from: nat): (i: int)
    requires from <= |names|
    ensures -1 <= i < |names|
    ensures i == -1 <==> forall j | from <= j < |names| :: names[j] != x
    ensures i >= 0 ==> from <= i && names[i] == x && forall j | from <= j < i :: names[j] != x
    decreases |names| - from
  {
    if from == |names| then -1
    else if names[from] == x then from
    else IndexFrom(names, x, from + 1)
  }

  /** Half steps of a note above C, or -1 for a name missing from NoteOrder. */
  function NoteIndex(note: string): int {
    IndexOf(NoteOrder, note)
  }

  predicate IsNoteLetter(c: char) {
    'A' <= c <= 'G'
  }

  /** A note name as the notation admits it: a letter A-G and an optional '#'. */
  predicate IsNoteName(note: string) {
    (|note| == 1 || |note| == 2) && IsNoteLetter(note[0]) && (|note| == 2 ==> note[1] == '#')
  }

  /** Half steps above C of a natural note letter. */
  function LetterHalfsteps(c: char): int {
    match c
    case 'C' => 0 case 'D' => 2 case 'E' => 4 case 'F' => 5
    case 'G' => 7 case 'A' => 9 case 'B' => 11 case _ => -1
  }

  /** The position of an admitted note name in the chromatic scale, read off its spelling. */
  function SpelledHalfsteps(note: string): int
    requires |note| >= 1
  {
    LetterHalfsteps(note[0]) + |note| - 1
  }

  lemma SpellingOfOrder(h: int)
    requires 0 <= h < 12
    ensures IsNoteName(NoteOrder[h]) && SpelledHalfsteps(NoteOrder[h]) == h
  {
    if h == 0 { assert NoteOrder[0] == "C"; }
    else if h == 1 { assert NoteOrder[1] == "C#"; }
    else if h == 2 { assert NoteOrder[2] == "D"; }
    else if h == 3 { assert NoteOrder[3] == "D#"; }
    else if h == 4 { assert NoteOrder[4] == "E"; }
    else if h == 5 { assert NoteOrder[5] == "F"; }
    else if h == 6 { assert NoteOrder[6] == "F#"; }
    else if h == 7 { assert NoteOrder[7] == "G"; }
    else if h == 8 { assert NoteOrder[8] == "G#"; }
    else if h == 9 { assert NoteOrder[9] == "A"; }
    else if h == 10 { assert NoteOrder[10] == "A#"; }
    else { assert NoteOrder[11] == "B"; }
  }

  /** `findIndex` finds each name of NoteOrder at its own position: the names are distinct. */
  lemma NoteIndexOfOrder(h: int)
    requires 0 <= h < 12
    ensures NoteIndex(NoteOrder[h]) == h
    ensures IsNoteName(NoteOrder[h])
  {
    var i := NoteIndex(NoteOrder[h]);
    SpellingOfOrder(h);
    SpellingOfOrder(i);
  }

  // ---------------------------------------------------------------------------
  // Parsing notation

  predicate IsSign(c: char) {
    c == '+' || c == '-'
  }

  /** Optional sign, then any digits: the tail `[+-]?[0-9]*` of the notation. */
  predicate IsCentsTail(s: string) {
    AllDigits(s) || (|s| >= 1 && IsSign(s[0]) && AllDigits(s[1..]))
  }

  /** Length of the note part at the start of s: 2 when a '#' follows the letter, else 1. */
  function NoteLength(s: string): (n: nat)
    ensures n == 1 || n == 2
  {
    if |s| >= 2 && s[1] == '#' then 2 else 1
  }

  /** The whole string matches `^[A-G]#?[0-9][+-]?[0-9]*$`. */
  predicate IsNotation(s: string) {
    var n := NoteLength(s);
    |s| > n && IsNoteLetter(s[0]) && IsDigit(s[n]) && IsCentsTail(s[n + 1..])
  }

  /** The match of `^[A-G]#?`. */
  function NoteMatch(s: string): (m: Option<string>)
    ensures m.Some? <==> |s| >= 1 && IsNoteLetter(s[0])
    ensures m.Some? ==> IsNoteName(m.value) && m.value == s[..NoteLength(s)]
  {
    if |s| >= 1 && IsNoteLetter(s[0]) then Some(s[..NoteLength(s)]) else None
  }

  /** Index of the first digit of s, if any. */
  function FirstDigit(s: string): (i: Option<nat>)
    ensures i.None? <==> forall j | 0 <= j < |s| :: !IsDigit(s[j])
    ensures i.Some? ==> i.value < |s| && IsDigit(s[i.value])
    ensures i.Some? ==> forall j | 0 <= j < i.value :: !IsDigit(s[j])
  {
    if s == [] then None
    else if IsDigit(s[0]) then Some(0)
    else
      var rest := FirstDigit(s[1..]);
      if rest.None? then None else Some(rest.value + 1)
  }

  /** `parseInt` of the first match of `[0-9][+-]?`: the value of the first digit. */
  function OctaveMatch(s: string): (m: Option<int>)
    ensures m.Some? ==> 0 <= m.value <= 9
  {
    match FirstDigit(s)
    case None => None
    case Some(i) => Some(DigitValue(s[i]))
  }

  /** Number of digits that end s. */
  function TrailingDigits(s: string): (t: nat)
    ensures t <= |s|
    ensures forall j | |s| - t <= j < |s| :: IsDigit(s[j])
    ensures t < |s| ==> !IsDigit(s[|s| - t - 1])
  {
    if s == [] || !IsDigit(s[|s| - 1]) then 0 else TrailingDigits(s[..|s| - 1]) + 1
  }

  /**
   * `parseFloat` of the match of `[+-][0-9]+$`: a sign and at least one digit
   * ending s. There is a match exactly when some sign is followed by nothing
   * but digits, and it reads that signed number.
   */
  function CentsMatch(s: string): (m: Option<int>)
    ensures m.None? <==> forall k | 0 <= k < |s| - 1 :: !(IsSign(s[k]) && AllDigits(s[k + 1..]))
    ensures forall k | 0 <= k < |s| - 1 && IsSign(s[k]) && AllDigits(s[k + 1..]) ::
      m == Some(if s[k] == '-' then -(DigitsValue(s[k + 1..]) as int) else DigitsValue(s[k + 1..]))
  {
    var t := TrailingDigits(s);
    if 0 < t < |s| && IsSign(s[|s| - t - 1]) then
      var magnitude: int := DigitsValue(s[|s| - t..]);
      Some(if s[|s| - t - 1] == '-' then -magnitude else magnitude)
    else None
  }

  /**
   * `stringToPitch`: rejects a string that does not match the notation, then
   * reads the note, the octave and the cents (0 when there are none).
   */
  function StringToPitch(s: string): (r: Result<Pitch, NotationError>)
    ensures r.Success? <==> IsNotation(s)
    ensures r.Failure? ==> r.error == InvalidNotation(s)
    ensures r.Success? ==> IsNoteName(r.value.note) && 0 <= r.value.octave <= 9 && r.value.cents.Some?
  {
    if !IsNotation(s) then Failure(InvalidNotation(s))
    else
      var noteMatch := NoteMatch(s);
      var octaveMatch := OctaveMatch(s);
      var cents := match CentsMatch(s) case Some(c) => c case None => 0;
      if noteMatch.None? || octaveMatch.None? then Failure(InvalidNotation(s))
      else Success(Pitch(noteMatch.value, octaveMatch.value, Some(cents as real)))
  }

  /** The cents value written after the octave digit: a sign and digits, or else 0. */
  function WrittenCents(tail: string): int
    requires IsCentsTail(tail)
  {
    if |tail| >= 2 && IsSign(tail[0]) then
      var magnitude: int := DigitsValue(tail[1..]);
      if tail[0] == '-' then -magnitude else magnitude
    else 0
  }

  /**
   * What `stringToPitch` reads from accepted notation: the note is the letter
   * with its optional '#', the octave is the single digit after it, and the
   * cents are the signed number at the end, or 0 when no sign followed by
   * digits is present ("A34" and "A3+" both give 0 cents).
   */
  lemma StringToPitchFields(s: string)
    requires IsNotation(s)
    ensures var n := NoteLength(s);
      StringToPitch(s) == Success(Pitch(s[..n], DigitValue(s[n]), Some(WrittenCents(s[n + 1..]) as real)))
  {
    var n := NoteLength(s);
    assert FirstDigit(s) == Some(n) by {
      assert !IsDigit(s[0]);
      assert n == 2 ==> !IsDigit(s[1]);
    }
    CentsOfNotation(s);
  }

  /** On accepted notation, the match of `[+-][0-9]+$` reads the cents written after the octave. */
  lemma CentsOfNotation(s: string)
    requires IsNotation(s)
    ensures var m := CentsMatch(s);
      (if m.Some? then m.value else 0) == WrittenCents(s[NoteLength(s) + 1..])
  {
    var n := NoteLength(s);
    var tail := s[n + 1..];
    if |tail| >= 2 && IsSign(tail[0]) {
      assert s[n + 1] == tail[0] && s[n + 2..] == tail[1..];
      assert IsSign(s[n + 1]) && AllDigits(s[n + 2..]);
    } else {
      forall k | 0 <= k < |s| - 1
        ensures !(IsSign(s[k]) && AllDigits(s[k + 1..]))
      {
        if k > n {
          assert s[k] == tail[k - n - 1];
        }
      }
    }
  }


  /** When s[k..] is all digits and s[k-1] is not a digit, exactly |s| - k digits end s. */
  lemma TrailingDigitsOfDigits(s: string, k: nat)
    requires 0 < k <= |s| && AllDigits(s[k..]) && !IsDigit(s[k - 1])
    ensures TrailingDigits(s) == |s| - k
  {
  }

  // ---------------------------------------------------------------------------
  // Rendering notation

  /** The cents suffix: '+' for cents >= 0, then the integer (with its own '-' when negative). */
  function CentsText(cents: real): (t: string)
    requires IsWhole(cents)
    ensures |t| >= 2 && IsSign(t[0]) && AllDigits(t[1..]) && (t[0] == '-' <==> cents < 0.0)
  {
    (if cents >= 0.0 then "+" else "") + IntToString(cents.Floor)
  }

  /**
   * `pitchToString`: the note, the octave and the cents, each when its option
   * is set; cents only when the pitch has them.
   */
  function PitchToString(p: Pitch, options: StringOptions): (s: string)
    requires options.cents && p.cents.Some? ==> IsWhole(p.cents.value)
    ensures options.note ==> |s| >= |p.note| && s[..|p.note|] == p.note
    ensures options.note && options.octave && !options.cents && IsNoteName(p.note) && 0 <= p.octave <= 9
      ==> IsNotation(s)
    ensures options.note && options.octave && options.cents && p.cents.Some? && IsNoteName(p.note) && 0 <= p.octave <= 9
      ==> IsNotation(s)
  {
    var centsPart := if options.cents && p.cents.Some? then CentsText(p.cents.value) else "";
    var text := (if options.note then p.note else "") + (if options.octave then IntToString(p.octave) else "") + centsPart;
    if options.note && options.octave && IsNoteName(p.note) && 0 <= p.octave <= 9 then
      assert IntToString(p.octave) == [DigitChar(p.octave)];
      NotationOfParts(text, p.note, DigitChar(p.octave), centsPart);
      text
    else text
  }

  /** A note name, an octave digit and a cents tail make accepted notation. */
  lemma NotationOfParts(s: string, note: string, octave: char, tail: string)
    requires IsNoteName(note) && IsDigit(octave) && IsCentsTail(tail)
    requires s == note + [octave] + tail
    ensures IsNotation(s)
  {
    assert NoteLength(s) == |note| by { assert s[0] == note[0]; assert |note| == 2 ==> s[1] == note[1]; }
    assert s[|note| + 1..] == tail;
  }

  /** Without the cents option the rendering does not depend on the cents; `octave: false` leaves the note alone. */
  lemma RenderingIgnoresCents(p: Pitch, c: Option<real>)
    ensures PitchToString(p, DefaultOptions) == PitchToString(p.(cents := c), DefaultOptions)
    ensures PitchToString(p, DefaultOptions) == p.note + PitchToString(p, StringOptions(false, true, false))
    ensures PitchToString(p, WithoutOctave) == p.note
    ensures p.cents.None? ==> PitchToString(p, WithCents) == PitchToString(p, DefaultOptions)
  {
  }

  /** The renderings the source's tests expect. */
  lemma RenderingExamples()
    ensures PitchToString(Pitch("A", 4, Some(10.0)), DefaultOptions) == "A4"
    ensures PitchToString(Pitch("A", 4, None), WithoutOctave) == "A"
  {
  }

  /** Renderings with cents: '+' before cents that are not negative, '-' from the number itself. */
  lemma PositiveCentsRendering()
    ensures PitchToString(Pitch("A", 4, Some(20.0)), WithCents) == "A4+20"
  {
    assert NatToString(20) == "20" by { assert NatToString(2) == "2"; }
  }

  lemma ZeroCentsRendering()
    ensures PitchToString(Pitch("B", 4, Some(0.0)), WithCents) == "B4+0"
  {
  }

  lemma NegativeCentsRendering()
    ensures PitchToString(Pitch("A", 3, Some(-20.0)), WithCents) == "A3-20"
  {
    assert NatToString(20) == "20" by { assert NatToString(2) == "2"; }
  }

  /**
   * Notation round trip: a pitch whose note name is admitted, whose octave is a
   * single digit and whose cents are an integer renders (with cents) to
   * notation that parses back to the same pitch.
   */
  lemma NotationRoundTrip(p: Pitch)
    requires IsNoteName(p.note) && 0 <= p.octave <= 9
    requires p.cents.Some? && IsWhole(p.cents.value)
    ensures StringToPitch(PitchToString(p, WithCents)) == Success(p)
  {
    var c := p.cents.value.Floor;
    var magnitude := if c < 0 then -c else c;
    var sign := if c < 0 then '-' else '+';
    var digits := NatToString(magnitude);
    var s := PitchToString(p, WithCents);
    RenderedWithCents(p);
    SignedNotationParts(s, p.note, DigitChar(p.octave), sign, digits);
    ReadNatToString(magnitude);
    ParseSignedNotation(s, p.note, DigitChar(p.octave), sign, digits, c);
  }

  /** With cents, a one-digit octave and whole cents render as note, digit, sign and digits. */
  lemma RenderedWithCents(p: Pitch)
    requires 0 <= p.octave <= 9
    requires p.cents.Some? && IsWhole(p.cents.value)
    ensures var c := p.cents.value.Floor;
      PitchToString(p, WithCents)
      == p.note + [DigitChar(p.octave)] + [if c < 0 then '-' else '+'] + NatToString(if c < 0 then -c else c)
  {
    assert IntToString(p.octave) == [DigitChar(p.octave)];
  }

  lemma SignedNotationParts(s: string, note: string, octave: char, sign: char, digits: string)
    requires s == note + [octave] + [sign] + digits
    ensures |s| == |note| + 2 + |digits|
    ensures s[..|note|] == note && s[|note|] == octave && s[|note| + 1] == sign && s[|note| + 2..] == digits
  {
  }

  /** Notation made of a note name, an octave digit, a sign and digits parses to its parts. */
  lemma ParseSignedNotation(s: string, note: string, octave: char, sign: char, digits: string, cents: int)
    requires IsNoteName(note) && IsDigit(octave) && IsSign(sign) && |digits| >= 1 && AllDigits(digits)
    requires |s| == |note| + 2 + |digits|
    requires s[..|note|] == note && s[|note|] == octave && s[|note| + 1] == sign && s[|note| + 2..] == digits
    requires cents == if sign == '-' then 0 - DigitsValue(digits) else DigitsValue(digits)
    ensures StringToPitch(s) == Success(Pitch(note, DigitValue(octave), Some(cents as real)))
  {
    var n := |note|;
    assert NoteLength(s) == n by { assert s[0] == note[0]; assert n == 2 ==> s[1] == note[1]; }
    var tail := s[n + 1..];
    assert tail[0] == sign && tail[1..] == digits;
    assert IsNotation(s);
    assert WrittenCents(tail) == cents;
    StringToPitchFields(s);
  }

  /**
   * String round trip: notation made of a note name, an octave digit, a sign
   * and the digits JavaScript writes for the magnitude (no leading zero, and
   * zero signed '+') parses to a pitch that renders, with cents, to the same
   * string.
   */
  lemma StringRoundTrip(s: string, note: string, octave: char, sign: char, digits: string)
    requires IsNoteName(note) && IsDigit(octave) && IsSign(sign) && IsCanonical(digits)
    requires sign == '-' ==> digits != "0"
    requires s == note + [octave] + [sign] + digits
    ensures StringToPitch(s).Success?
    ensures PitchToString(StringToPitch(s).value, WithCents) == s
  {
    var magnitude: int := DigitsValue(digits);
    var cents := if sign == '-' then 0 - magnitude else magnitude;
    SignedNotationParts(s, note, octave, sign, digits);
    ParseSignedNotation(s, note, octave, sign, digits, cents);
    RenderSigned(note, octave, sign, digits, cents);
  }

  /** A pitch read from such notation renders, with cents, as note, octave digit, sign and digits. */
  lemma RenderSigned(note: string, octave: char, sign: char, digits: string, cents: int)
    requires IsDigit(octave) && IsSign(sign) && IsCanonical(digits)
    requires sign == '-' ==> digits != "0"
    requires cents == if sign == '-' then 0 - DigitsValue(digits) else DigitsValue(digits)
    ensures PitchToString(Pitch(note, DigitValue(octave), Some(cents as real)), WithCents)
         == note + [octave] + [sign] + digits
  {
    var p := Pitch(note, DigitValue(octave), Some(cents as real));
    var magnitude: int := DigitsValue(digits);
    assert (cents as real).Floor == cents;
    if sign == '-' {
      assert digits[0] != '0' by {
        if |digits| == 1 {
          assert digits == [digits[0]];
        }
      }
      LeadingDigitPositive(digits);
      assert cents < 0 && -cents == magnitude;
    } else {
      assert cents >= 0 && cents == magnitude;
    }
    WriteDigitsValue(digits);
    ReadDigitChar(octave);
    RenderedWithCents(p);
  }


  /**
   * Notation outside that form does not survive the round trip: cents with a
   * leading zero lose it, missing cents come back as "+0", and "-0" comes back
   * as "+0".
   */
  lemma StringRoundTripCounterexamples()
    ensures StringToPitch("A3+05") == Success(Pitch("A", 3, Some(5.0)))
    ensures PitchToString(Pitch("A", 3, Some(5.0)), WithCents) == "A3+5"
    ensures StringToPitch("A3") == Success(Pitch("A", 3, Some(0.0)))
    ensures StringToPitch("A3-0") == Success(Pitch("A", 3, Some(0.0)))
    ensures PitchToString(Pitch("A", 3, Some(0.0)), WithCents) == "A3+0"
  {
    SignedParsingExample("A3+05", "A", '3', '+', "05", 5);
    ParseUnsignedNotation("A3", "A", '3');
    NegativeZeroExample();
    FiveCentsRendering();
    ZeroCentsOfA3Rendering();
  }

  lemma NegativeZeroExample()
    ensures StringToPitch("A3-0") == Success(Pitch("A", 3, Some(0.0)))
  {
    SignedNotationParts("A3-0", "A", '3', '-', "0");
    ParseSignedNotation("A3-0", "A", '3', '-', "0", 0);
  }

  lemma FiveCentsRendering()
    ensures PitchToString(Pitch("A", 3, Some(5.0)), WithCents) == "A3+5"
  {
  }

  lemma ZeroCentsOfA3Rendering()
    ensures PitchToString(Pitch("A", 3, Some(0.0)), WithCents) == "A3+0"
  {
  }

  /** Without the cents option the round trip keeps note and octave, and the cents read back as 0. */
  lemma DefaultNotationRoundTrip(p: Pitch)
    requires IsNoteName(p.note) && 0 <= p.octave <= 9
    ensures StringToPitch(PitchToString(p, DefaultOptions)) == Success(Pitch(p.note, p.octave, Some(0.0)))
  {
    var s := PitchToString(p, DefaultOptions);
    assert s == p.note + [DigitChar(p.octave)];
    assert s[..|p.note|] == p.note;
    ParseUnsignedNotation(s, p.note, DigitChar(p.octave));
  }

  /** Notation made of a note name and an octave digit parses to its parts, with 0 cents. */
  lemma ParseUnsignedNotation(s: string, note: string, octave: char)
    requires IsNoteName(note) && IsDigit(octave)
    requires |s| == |note| + 1 && s[..|note|] == note && s[|note|] == octave
    ensures StringToPitch(s) == Success(Pitch(note, DigitValue(octave), Some(0.0)))
  {
    var n := |note|;
    assert NoteLength(s) == n by { assert s[0] == note[0]; assert n == 2 ==> s[1] == note[1]; }
    assert s[n + 1..] == [];
    StringToPitchFields(s);
  }

  /** A two-digit octave does not survive the round trip: "A10" reads as A1. */
  lemma TwoDigitOctaveExample()
    ensures PitchToString(Pitch("A", 10, Some(0.0)), DefaultOptions) == "A10"
    ensures StringToPitch("A10") == Success(Pitch("A", 1, Some(0.0)))
  {
    assert NatToString(10) == "10" by { assert NatToString(1) == "1"; }
    StringToPitchFields("A10");
    assert "A10"[..1] == "A" && "A10"[2..] == "0";
  }

  /** The parses the source's tests expect, without cents. */
  lemma ParsingExamples()
    ensures StringToPitch("A4") == Success(Pitch("A", 4, Some(0.0)))
    ensures StringToPitch("C#3") == Success(Pitch("C#", 3, Some(0.0)))
  {
    ParseUnsignedNotation("A4", "A", '4');
    assert "C#3"[..2] == "C#";
    ParseUnsignedNotation("C#3", "C#", '3');
  }

  /** A '+' sign and digits after the octave give positive cents. */
  lemma SignedParsingExamples()
    ensures StringToPitch("A3+20") == Success(Pitch("A", 3, Some(20.0)))
  {
    SignedParsingExample("A3+20", "A", '3', '+', "20", 20);
  }

  /** A '-' sign makes the cents negative. */
  lemma NegativeParsingExample()
    ensures StringToPitch("A3-10") == Success(Pitch("A", 3, Some(-10.0)))
  {
    SignedParsingExample("A3-10", "A", '3', '-', "10", -10);
  }

  /** Notation with a sign and two digits of cents parses to its note, octave and signed cents. */
  lemma SignedParsingExample(s: string, note: string, octave: char, sign: char, digits: string, cents: int)
    requires IsNoteName(note) && IsDigit(octave) && IsSign(sign) && |digits| == 2 && AllDigits(digits)
    requires s == note + [octave] + [sign] + digits
    requires cents == (if sign == '-' then -1 else 1) * (10 * DigitValue(digits[0]) + DigitValue(digits[1]))
    ensures StringToPitch(s) == Success(Pitch(note, DigitValue(octave), Some(cents as real)))
  {
    assert DigitsValue(digits) == 10 * DigitValue(digits[0]) + DigitValue(digits[1]) by {
      var first := digits[..1];
      assert first[..0] == [] && first[0] == digits[0];
      assert DigitsValue(first) == DigitValue(digits[0]);
    }
    SignedNotationParts(s, note, octave, sign, digits);
    ParseSignedNotation(s, note, octave, sign, digits, cents);
  }

  /** Digits after the octave without a sign give 0 cents. */
  lemma DigitsAfterOctaveExample()
    ensures StringToPitch("A34") == Success(Pitch("A", 3, Some(0.0)))
  {
    StringToPitchFields("A34");
    assert "A34"[..1] == "A" && "A34"[2..] == "4";
  }

  /** A sign after the octave without digits gives 0 cents. */
  lemma SignAfterOctaveExample()
    ensures StringToPitch("A3+") == Success(Pitch("A", 3, Some(0.0)))
  {
    StringToPitchFields("A3+");
    assert "A3+"[..1] == "A" && "A3+"[2..] == "+";
  }

  /** "E#" is admitted by the notation although it is not in NoteOrder. */
  lemma SharpOfNaturalHalfstepExample()
    ensures StringToPitch("E#4") == Success(Pitch("E#", 4, Some(0.0)))
    ensures "E#" !in NoteOrder
  {
    assert "E#4"[..2] == "E#";
    ParseUnsignedNotation("E#4", "E#", '4');
    forall h | 0 <= h < 12 ensures NoteOrder[h] != "E#" {
      SpellingOfOrder(h);
    }
  }

  /** A negative-looking octave and a letter outside A-G are rejected. */
  lemma RejectionExamples()
    ensures StringToPitch("D-3") == Failure(InvalidNotation("D-3"))
    ensures StringToPitch("H3") == Failure(InvalidNotation("H3"))
  {
    assert !IsDigit("D-3"[NoteLength("D-3")]);
    assert !IsNoteLetter("H3"[0]);
  }

  // ---------------------------------------------------------------------------
  // Pitch and frequency

  /**
   * `pitchToFrequency`: A0 * 2^octave * 2^(halfstepsAboveA / 12) * 2^(cents / 1200),
   * in log space; absent (or zero) cents count as 0. A note of NoteOrder puts
   * the pitch, before its cents, between the C of its octave (900 cents below
   * that octave's A) and the next C (300 cents above it); in cents:
   */
  function PitchToFrequency(p: Pitch): (f: Frequency)
    ensures var cents := if p.cents.Some? then p.cents.value else 0.0;
      p.note in NoteOrder ==>
        1200.0 * p.octave as real - 900.0 + cents <= 1200.0 * f.octavesAboveA0 < 1200.0 * p.octave as real + 300.0 + cents
  {
    var halfstepsAboveA := NoteIndex(p.note) - 9;
    var cents := if p.cents.Some? then p.cents.value else 0.0;
    Frequency(p.octave as real + halfstepsAboveA as real / 12.0 + cents / 1200.0)
  }

  /** `C0`: the frequency of C0, computed from the notation "C0". */
  const C0: Frequency := PitchToFrequency(Pitch("C", 0, Some(0.0)))

  lemma C0FromNotation()
    ensures StringToPitch("C0") == Success(Pitch("C", 0, Some(0.0)))
    ensures C0 == Frequency(-0.75)
  {
    ParseUnsignedNotation("C0", "C", '0');
    NoteIndexOfOrder(0);
    assert NoteOrder[0] == "C";
  }

  /**
   * In log space, pitchToFrequency puts a pitch octave + halfsteps/12 + cents/1200
   * octaves above C0, where halfsteps is the note's index in NoteOrder.
   */
  lemma PitchToFrequencyAboveC0(h: int, octave: int, cents: real)
    requires 0 <= h < 12
    ensures PitchToFrequency(Pitch(NoteOrder[h], octave, Some(cents))).octavesAboveA0 - C0.octavesAboveA0
         == octave as real + h as real / 12.0 + cents / 1200.0
  {
    NoteIndexOfOrder(h);
    C0FromNotation();
  }

  /** The note A has index 9 in NoteOrder: A0 sits 0.75 octaves above C0. */
  lemma NoteIndexOfA()
    ensures NoteIndex("A") == 9 && IsNoteName("A")
  {
    NoteIndexOfOrder(9);
    assert NoteOrder[9] == "A";
  }

  /** A frequency a whole number k of octaves above A0 is A0Hz * 2^k hertz. */
  lemma WholeOctaveHzOf(f: Frequency, k: int)
    requires f.octavesAboveA0 == k as real
    ensures WholeOctaveHz(f) == Some(A0Hz * Pow2(k))
  {
    assert f.octavesAboveA0.Floor == k;
  }

  /** A0 is exactly 27.5 Hz; absent cents count as 0 cents. */
  lemma A0Hertz()
    ensures WholeOctaveHz(PitchToFrequency(Pitch("A", 0, None))) == Some(27.5)
  {
    NoteIndexOfA();
    WholeOctaveHzOf(PitchToFrequency(Pitch("A", 0, None)), 0);
  }

  /** A4, four octaves above A0, is exactly 440 Hz. */
  lemma A4Hertz()
    ensures WholeOctaveHz(PitchToFrequency(Pitch("A", 4, None))) == Some(440.0)
  {
    NoteIndexOfA();
    WholeOctaveHzOf(PitchToFrequency(Pitch("A", 4, None)), 4);
    assert Pow2(4) == 16.0 by {
      assert Pow2(1) == 2.0;
      assert Pow2(2) == 4.0;
      assert Pow2(3) == 8.0;
    }
  }

  /** The notation "A0" names the reference pitch A0 with 0 cents. */
  lemma ReferenceNotation()
    ensures StringToPitch("A0") == Success(Pitch("A", 0, Some(0.0)))
  {
    assert IsNoteName("A") by { NoteIndexOfA(); }
    assert "A0"[..1] == "A" && "A0"[1] == '0';
    ParseUnsignedNotation("A0", "A", '0');
  }

  /** One octave up doubles the frequency: its exponent grows by exactly one. */
  lemma OctaveDoubles(p: Pitch)
    ensures PitchToFrequency(p.(octave := p.octave + 1)).octavesAboveA0 == PitchToFrequency(p).octavesAboveA0 + 1.0
    ensures var hz := WholeOctaveHz(PitchToFrequency(p));
      hz.Some? ==> WholeOctaveHz(PitchToFrequency(p.(octave := p.octave + 1))) == Some(2.0 * hz.value)
  {
    WholeOctaveUp(PitchToFrequency(p), PitchToFrequency(p.(octave := p.octave + 1)));
  }

  /** A frequency one octave above a whole-octave frequency has twice as many hertz. */
  lemma WholeOctaveUp(f: Frequency, g: Frequency)
    requires g.octavesAboveA0 == f.octavesAboveA0 + 1.0
    ensures WholeOctaveHz(f).Some? ==> WholeOctaveHz(g) == Some(2.0 * WholeOctaveHz(f).value)
  {
    if IsWhole(f.octavesAboveA0) {
      var k := f.octavesAboveA0.Floor;
      WholeOctaveHzOf(f, k);
      WholeOctaveHzOf(g, k + 1);
      Pow2Succ(k);
      assert WholeOctaveHz(g).value == 2.0 * WholeOctaveHz(f).value;
    }
  }

  /** 2^(k+1) = 2 * 2^k for every integer k. */
  lemma Pow2Succ(k: int)
    ensures Pow2(k + 1) == 2.0 * Pow2(k)
  {
  }

  /** Absent cents count as 0 cents; each cent adds 1/1200 of an octave. */
  lemma CentsShiftFrequency(p: Pitch, c: real)
    ensures PitchToFrequency(p.(cents := None)) == PitchToFrequency(p.(cents := Some(0.0)))
    ensures PitchToFrequency(p.(cents := Some(c))).octavesAboveA0
         == PitchToFrequency(p.(cents := None)).octavesAboveA0 + c / 1200.0
  {
  }

  /**
   * A name missing from NoteOrder ("E#", "B#") has index -1, so it lands one
   * half step below C of its octave: on B of the octave below.
   */
  lemma UnorderedNoteIsBBelow(p: Pitch)
    requires p.note !in NoteOrder
    ensures NoteIndex(p.note) == -1
    ensures PitchToFrequency(p) == PitchToFrequency(p.(note := "B", octave := p.octave - 1))
  {
    var q := p.(note := "B", octave := p.octave - 1);
    assert NoteIndex(q.note) == 11 by {
      NoteIndexOfOrder(11);
      assert NoteOrder[11] == "B";
    }
    var cents := if p.cents.Some? then p.cents.value else 0.0;
    assert PitchToFrequency(p).octavesAboveA0 == p.octave as real - 10.0 / 12.0 + cents / 1200.0;
    assert PitchToFrequency(q).octavesAboveA0 == (p.octave - 1) as real + 2.0 / 12.0 + cents / 1200.0;
    assert PitchToFrequency(p).octavesAboveA0 == PitchToFrequency(q).octavesAboveA0;
  }

  /** `Math.round`: the nearest integer, halves rounded up. */
  function Round(x: real): (n: int)
    ensures n as real - 0.5 <= x < n as real + 0.5
  {
    (x + 0.5).Floor
  }

  /**
   * The octave above C0 and the half step above C of the note nearest to an
   * exponent (octaves above C0): the floor gives the octave, the fraction is
   * rounded to half steps, and a rounding up to 12 rolls over to C of the
   * next octave. What is left over is less than half a half step either way.
   */
  function NearestNote(exponent: real): (r: (int, int))
    ensures 0 <= r.1 < 12
    ensures -0.5 <= (exponent - r.0 as real) * 12.0 - r.1 as real < 0.5
  {
    var octave := exponent.Floor;
    var halfstepsAboveC := Round((exponent - octave as real) * 12.0);
    if halfstepsAboveC == 12 then (octave + 1, 0) else (octave, halfstepsAboveC)
  }

  /** Only one note lies within half a half step of an exponent. */
  lemma NearestNoteUnique(exponent: real, octave: int, h: int)
    requires 0 <= h < 12
    requires -0.5 <= (exponent - octave as real) * 12.0 - h as real < 0.5
    ensures NearestNote(exponent) == (octave, h)
  {
    var floor := exponent.Floor;
    var rounded := Round((exponent - floor as real) * 12.0);
    if h == 0 && exponent < octave as real {
      assert floor == octave - 1;
      assert rounded == 12;
    } else {
      assert floor == octave;
      assert rounded == h;
    }
  }

  /** How far, in cents, an exponent (octaves above C0) lies above a note of an octave. */
  function CentsAbove(exponent: real, octave: int, halfstepsAboveC: int): real {
    ((exponent - octave as real) - halfstepsAboveC as real / 12.0) * 1200.0
  }

  /**
   * `frequencyToPitch`: the nearest equal-tempered pitch and the cents left
   * over, which lie in [-50, 50). FrequencyToPitchInOrder and
   * FrequencyToPitchExact below show that the note is in NoteOrder and that
   * converting the pitch back gives exactly the input frequency.
   */
  function FrequencyToPitch(f: Frequency): (p: Pitch)
    ensures p.cents.Some? && -50.0 <= p.cents.value < 50.0
  {
    var exponent := f.octavesAboveA0 - C0.octavesAboveA0;
    var (octave, halfstepsAboveC) := NearestNote(exponent);
    var cents := CentsAbove(exponent, octave, halfstepsAboveC);
    Pitch(NoteOrder[halfstepsAboveC], octave, Some(cents))
  }

  /** The nearest pitch's note is one of NoteOrder, a name the notation admits. */
  lemma FrequencyToPitchInOrder(f: Frequency)
    ensures FrequencyToPitch(f).note in NoteOrder
    ensures IsNoteName(FrequencyToPitch(f).note)
  {
    var h := NearestNote(f.octavesAboveA0 - C0.octavesAboveA0).1;
    assert FrequencyToPitch(f).note == NoteOrder[h];
    NoteIndexOfOrder(h);
  }

  /** Converting the nearest pitch back gives exactly the input frequency. */
  lemma FrequencyToPitchExact(f: Frequency)
    ensures PitchToFrequency(FrequencyToPitch(f)) == f
  {
    var exponent := f.octavesAboveA0 - C0.octavesAboveA0;
    var (octave, h) := NearestNote(exponent);
    var cents := CentsAbove(exponent, octave, h);
    FrequencyToPitchOf(f, octave, h, cents);
    PitchToFrequencyAboveC0(h, octave, cents);
    assert PitchToFrequency(FrequencyToPitch(f)).octavesAboveA0 == f.octavesAboveA0;
  }

  /** FrequencyToPitch names the nearest note and the cents left over from it. */
  lemma FrequencyToPitchOf(f: Frequency, octave: int, h: int, cents: real)
    requires 0 <= h < 12
    requires NearestNote(f.octavesAboveA0 - C0.octavesAboveA0) == (octave, h)
    requires cents == CentsAbove(f.octavesAboveA0 - C0.octavesAboveA0, octave, h)
    ensures FrequencyToPitch(f) == Pitch(NoteOrder[h], octave, Some(cents))
  {
    var exponent := f.octavesAboveA0 - C0.octavesAboveA0;
    var nearest := NearestNote(exponent);
    assert nearest.0 == octave && nearest.1 == h;
  }

  /**
   * Converting a pitch of NoteOrder with cents in [-50, 50) to a frequency and
   * back gives the same pitch: frequencyToPitch picks the unique such pitch.
   */
  lemma PitchRoundTrip(h: int, octave: int, cents: real)
    requires 0 <= h < 12 && -50.0 <= cents < 50.0
    ensures FrequencyToPitch(PitchToFrequency(Pitch(NoteOrder[h], octave, Some(cents))))
         == Pitch(NoteOrder[h], octave, Some(cents))
  {
    var f := PitchToFrequency(Pitch(NoteOrder[h], octave, Some(cents)));
    PitchToFrequencyAboveC0(h, octave, cents);
    C0FromNotation();
    NearestPitchAboveC0(f, h, octave, cents);
  }


  /** Octave + h/12 + cents/1200 lies cents/100 half steps from note h, and CentsAbove reads back the cents. */
  lemma ExponentParts(exponent: real, octave: int, h: int, cents: real)
    requires exponent == octave as real + h as real / 12.0 + cents / 1200.0
    ensures (exponent - octave as real) * 12.0 - h as real == cents / 100.0
    ensures CentsAbove(exponent, octave, h) == cents
  {
  }

  /**
   * The frequency octave + h/12 + cents/1200 octaves above C0, with cents in
   * [-50, 50), is read as the pitch NoteOrder[h] of that octave with those cents.
   */
  lemma NearestPitchAboveC0(f: Frequency, h: int, octave: int, cents: real)
    requires 0 <= h < 12 && -50.0 <= cents < 50.0
    requires f.octavesAboveA0 + 0.75 == octave as real + h as real / 12.0 + cents / 1200.0
    ensures FrequencyToPitch(f) == Pitch(NoteOrder[h], octave, Some(cents))
  {
    C0FromNotation();
    var exponent := f.octavesAboveA0 - C0.octavesAboveA0;
    ExponentParts(exponent, octave, h, cents);
    assert -0.5 <= (exponent - octave as real) * 12.0 - h as real < 0.5 by {
      assert -0.5 <= cents / 100.0 < 0.5;
    }
    NearestNoteUnique(exponent, octave, h);
    FrequencyToPitchOf(f, octave, h, cents);
  }


  /** The roundings the source's tests expect around A3 (220 Hz). */
  lemma NearestNoteExamples()
    ensures FrequencyToPitch(Frequency(3.0)) == Pitch("A", 3, Some(0.0))
    ensures FrequencyToPitch(Frequency(3.0 - 51.0 / 1200.0)) == Pitch("G#", 3, Some(49.0))
    ensures FrequencyToPitch(Frequency(3.0 - 49.0 / 1200.0)) == Pitch("A", 3, Some(-49.0))
    ensures FrequencyToPitch(Frequency(3.0 + 49.0 / 1200.0)) == Pitch("A", 3, Some(49.0))
    ensures FrequencyToPitch(Frequency(3.0 + 51.0 / 1200.0)) == Pitch("A#", 3, Some(-49.0))
    ensures FrequencyToPitch(Frequency(3.0 + 50.0 / 1200.0)) == Pitch("A#", 3, Some(-50.0))
  {
    assert NoteOrder[8] == "G#" && NoteOrder[9] == "A" && NoteOrder[10] == "A#";
    NearestPitchAboveC0(Frequency(3.0), 9, 3, 0.0);
    NearestPitchAboveC0(Frequency(3.0 - 51.0 / 1200.0), 8, 3, 49.0);
    NearestPitchAboveC0(Frequency(3.0 - 49.0 / 1200.0), 9, 3, -49.0);
    NearestPitchAboveC0(Frequency(3.0 + 49.0 / 1200.0), 9, 3, 49.0);
    NearestPitchAboveC0(Frequency(3.0 + 51.0 / 1200.0), 10, 3, -49.0);
    NearestPitchAboveC0(Frequency(3.0 + 50.0 / 1200.0), 10, 3, -50.0);
  }

  /** 51 cents above B3 is read as 49 cents below C of the next octave. */
  lemma RolloverExample()
    ensures FrequencyToPitch(PitchToFrequency(Pitch("B", 3, Some(51.0)))) == Pitch("C", 4, Some(-49.0))
  {
    assert NoteOrder[11] == "B" && NoteOrder[0] == "C";
    PitchToFrequencyAboveC0(11, 3, 51.0);
    C0FromNotation();
    NearestPitchAboveC0(PitchToFrequency(Pitch("B", 3, Some(51.0))), 0, 4, -49.0);
  }

  // ---------------------------------------------------------------------------
  // Compositions

  /** `frequencyToString`: the note and octave of the nearest pitch. */
  function FrequencyToString(f: Frequency): (s: string)
    ensures var p := FrequencyToPitch(f);
      p.note in NoteOrder && s == p.note + IntToString(p.octave)
    ensures 0 <= FrequencyToPitch(f).octave <= 9 ==> IsNotation(s)
  {
    FrequencyToPitchInOrder(f);
    PitchToString(FrequencyToPitch(f), DefaultOptions)
  }

  /** `stringToFrequency`: parse, then convert; fails exactly on rejected notation. */
  function StringToFrequency(s: string): (r: Result<Frequency, NotationError>)
    ensures r.Success? <==> IsNotation(s)
    ensures r.Failure? ==> r.error == InvalidNotation(s)
  {
    match StringToPitch(s)
    case Success(p) => Success(PitchToFrequency(p))
    case Failure(e) => Failure(e)
  }

  /** Naming notation as a frequency converts the pitch it parses to. */
  lemma StringToFrequencyOf(s: string, p: Pitch)
    requires StringToPitch(s) == Success(p)
    ensures StringToFrequency(s) == Success(PitchToFrequency(p))
  {
  }

  /**
   * For frequencies whose nearest pitch has a one-digit octave, the label
   * parses back to that pitch's note and octave, with 0 cents.
   */
  lemma FrequencyToStringParses(f: Frequency)
    requires 0 <= FrequencyToPitch(f).octave <= 9
    ensures StringToPitch(FrequencyToString(f))
         == Success(Pitch(FrequencyToPitch(f).note, FrequencyToPitch(f).octave, Some(0.0)))
  {
    FrequencyToPitchInOrder(f);
    DefaultNotationRoundTrip(FrequencyToPitch(f));
  }

  /**
   * Naming the label of a frequency as a frequency gives the centre of its
   * nearest note: the input with its cents removed.
   */
  lemma FrequencyToStringCentre(f: Frequency)
    requires 0 <= FrequencyToPitch(f).octave <= 9
    ensures StringToFrequency(FrequencyToString(f))
         == Success(Transpose(f, -FrequencyToPitch(f).cents.value))
  {
    FrequencyToPitchInOrder(f);
    FrequencyToPitchExact(f);
    LabelCentre(FrequencyToPitch(f));
  }

  /** The default label of a pitch, named as a frequency, is the pitch without its cents. */
  lemma LabelCentre(p: Pitch)
    requires IsNoteName(p.note) && 0 <= p.octave <= 9 && p.cents.Some?
    ensures StringToFrequency(PitchToString(p, DefaultOptions))
         == Success(Transpose(PitchToFrequency(p), -p.cents.value))
  {
    var centre := Pitch(p.note, p.octave, Some(0.0));
    DefaultNotationRoundTrip(p);
    StringToFrequencyOf(PitchToString(p, DefaultOptions), centre);
    CentreFrequency(p);
  }

  /** Dropping the cents of a pitch moves its frequency back by those cents. */
  lemma CentreFrequency(p: Pitch)
    requires p.cents.Some?
    ensures PitchToFrequency(Pitch(p.note, p.octave, Some(0.0))) == Transpose(PitchToFrequency(p), -p.cents.value)
  {
  }

  /** With the default options a pitch of a one-digit octave is labelled by its note and that digit. */
  lemma DefaultLabel(p: Pitch)
    requires 0 <= p.octave <= 9
    ensures PitchToString(p, DefaultOptions) == p.note + [DigitChar(p.octave)]
  {
  }

  /** The label of a frequency octave + h/12 + cents/1200 octaves above C0, cents in [-50, 50). */
  lemma LabelAboveC0(f: Frequency, h: int, octave: int, cents: real)
    requires 0 <= h < 12 && -50.0 <= cents < 50.0 && 0 <= octave <= 9
    requires f.octavesAboveA0 + 0.75 == octave as real + h as real / 12.0 + cents / 1200.0
    ensures FrequencyToString(f) == NoteOrder[h] + [DigitChar(octave)]
  {
    NearestPitchAboveC0(f, h, octave, cents);
    DefaultLabel(FrequencyToPitch(f));
  }

  /** The label of A3 (220 Hz). */
  lemma FrequencyToStringExamples()
    ensures FrequencyToString(Frequency(3.0)) == "A3"
  {
    assert NoteOrder[9] == "A" && DigitChar(3) == '3';
    LabelAboveC0(Frequency(3.0), 9, 3, 0.0);
  }

  /** The label of A4 (440 Hz). */
  lemma A4LabelExample()
    ensures FrequencyToString(Frequency(4.0)) == "A4"
  {
    assert NoteOrder[9] == "A" && DigitChar(4) == '4';
    LabelAboveC0(Frequency(4.0), 9, 4, 0.0);
  }

  /** 51 cents below A3 the label is G#3. */
  lemma LabelBelowExample()
    ensures FrequencyToString(Frequency(3.0 - 51.0 / 1200.0)) == "G#3"
  {
    assert NoteOrder[8] == "G#" && DigitChar(3) == '3';
    LabelAboveC0(Frequency(3.0 - 51.0 / 1200.0), 8, 3, 49.0);
  }

  /** 51 cents above A3 the label is A#3. */
  lemma LabelAboveExample()
    ensures FrequencyToString(Frequency(3.0 + 51.0 / 1200.0)) == "A#3"
  {
    assert NoteOrder[10] == "A#" && DigitChar(3) == '3';
    LabelAboveC0(Frequency(3.0 + 51.0 / 1200.0), 10, 3, -49.0);
  }
}
