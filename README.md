# Pitch arithmetic and spectral decomposition of a guitar tuner

This project models the pitch engine of a browser guitar tuner:

- **Pitch arithmetic** (`src/utils/musicTheory.ts`). The code converts between frequencies, pitches and notation strings. A pitch is a note, an octave and cents. Notation looks like `A4`, `C#3` or `A3-10`. Everything is referenced to A0 = 27.5 Hz, so A4 = 440 Hz.
- **Spectral decomposition** (`src/utils/noteDecomposition.ts`). `analysePitches` turns a frequency-sorted spectrum into one bucket per note-and-octave label. Each bucket holds the peak intensity, the cents of that peak, and a log-frequency integral of the intensity above a per-octave floor.

Files:

- `wrappers.dfy` (module `Wrappers`): `Option` and `Result`.
- `decimal.dfy` (module `Decimal`): the decimal text JavaScript writes for an integer, and what `parseInt`/`parseFloat` read back from a run of digits. Both are exact: the model has no 2^53 precision limit and no exponent form from 10^21 on (see "## Left out").
- `music_theory.dfy` (module `MusicTheory`): the pure conversions, as functions and lemmas. Frequencies live in log space. A frequency f > 0 is held as log2(f / 27.5), its distance from A0 in octaves. The source's products `2^octave · 2^(halfsteps/12) · 2^(cents/1200)` become sums. Its `Math.log2` of a quotient becomes a difference. Every conversion is therefore exact real arithmetic. `Math.round(x)` is `floor(x + 1/2)`.
- `note_decomposition.dfy` (module `NoteDecomposition`): `analysePitches` as methods.
  - `FloorPass` is the first `forEach`. It builds the floor map `minValueForOctave`.
  - `BucketPass` is the second `forEach`. It keeps the bucket `map` and a `seq` of keys in insertion order.
  - `VisitPoint` is the second loop's callback on one point.
  - Each loop is proved against specification functions: `Floors`, `FirstKeys`, `PeakIndex`, `Integral` and `Analysis`, all defined over the first n points. The properties of the tuner are lemmas about those functions.

Before the passes, each point is labelled once (`Annotate`): its log-frequency, its key `pitchToString(frequencyToPitch(f))`, its octave and its cents. The source calls `frequencyToPitch` again in each pass. That function is pure, so both passes see the same values.

`frequencyToPitch` rounds half steps half up (`Math.round`), so a point exactly halfway between two notes goes to the upper note, and the cents lie in [-50, 50). `NearestNoteExamples` shows +50 cents above A3 read as A#3 -50.

## Model

| member | source | states |
|---|---|---|
| MusicTheory.WholeOctaveHz | src/utils/musicTheory.ts:84 | a frequency has a finite hertz value here exactly when it lies a whole number of octaves from A0, and that value is positive |
| MusicTheory.A0Hertz | src/utils/musicTheory.ts:9 | A0 is exactly 27.5 Hz, and absent cents count as 0 |
| MusicTheory.A4Hertz | src/utils/musicTheory.ts:78-85 | A4 is exactly 440 Hz |
| MusicTheory.OctaveDoubles | src/utils/musicTheory.ts:20-22 | one octave up adds exactly one octave to the log-frequency, which doubles the hertz |
| MusicTheory.CentsShiftFrequency | src/utils/musicTheory.ts:84 | absent cents equal 0 cents (`cents \|\| 0`), and each cent adds 1/1200 octave |
| MusicTheory.IndexOf | src/utils/musicTheory.ts:82 | `findIndex`: -1 exactly when the name is missing, otherwise the first position holding it |
| MusicTheory.NoteIndexOfOrder | src/utils/musicTheory.ts:11 | every name of `noteOrder` is found at its own position, so the names are distinct |
| MusicTheory.NoteIndexOfA | src/utils/musicTheory.ts:82 | A has index 9, so A lies 9 half steps above C |
| MusicTheory.UnorderedNoteIsBBelow | src/utils/musicTheory.ts:82 | a name missing from `noteOrder` ("E#", "B#") gets index -1 and lands on B of the octave below |
| MusicTheory.PitchToFrequencyAboveC0 | src/utils/musicTheory.ts:78-85 | in log space a pitch lies octave + index/12 + cents/1200 octaves above C0 |
| MusicTheory.PitchToFrequency | src/utils/musicTheory.ts:78-85 | a pitch of `noteOrder` lies, after its cents, at or above the C of its octave (900 cents below its A) and below the next C (300 cents above its A) |
| MusicTheory.WholeOctaveUp | src/utils/musicTheory.ts:20-22 | one octave up doubles a hertz value |
| MusicTheory.C0FromNotation | src/utils/musicTheory.ts:87 | "C0" parses to C, octave 0, 0 cents, and C0 lies 0.75 octaves below A0 |
| MusicTheory.NoteMatch | src/utils/musicTheory.ts:35 | `^[A-G]#?` matches exactly when the string starts with a note letter, and yields the letter with its optional '#' |
| MusicTheory.FirstDigit | src/utils/musicTheory.ts:36 | the first digit of a string is found, or none exists |
| MusicTheory.OctaveMatch | src/utils/musicTheory.ts:36 | the octave read by `[0-9][+-]?` with `parseInt` is one digit, 0 to 9 |
| MusicTheory.TrailingDigits | src/utils/musicTheory.ts:37 | the length of the run of digits ending the string, and the character before it is not a digit |
| MusicTheory.StringToPitch | src/utils/musicTheory.ts:32-44 | succeeds exactly on notation matching `^[A-G]#?[0-9][+-]?[0-9]*$` and otherwise fails with `Invalid Notation` on that string; a success has an admitted note name, a one-digit octave and cents present |
| MusicTheory.StringToPitchFields | src/utils/musicTheory.ts:35-43 | on accepted notation the note is the letter and optional '#', the octave is the digit after it, and the cents are the signed number at the end, or 0 |
| MusicTheory.CentsOfNotation | src/utils/musicTheory.ts:37-39 | `[+-][0-9]+$` read by `parseFloat` gives the cents written after the octave, and 0 when no sign is followed by digits |
| MusicTheory.CentsMatch | src/utils/musicTheory.ts:37-39 | `[+-][0-9]+$` has a match exactly when some sign is followed by nothing but digits to the end, and the match is that signed number |
| MusicTheory.SignedParsingExample | src/utils/musicTheory.ts:32-44 | note, octave digit, sign and two digits parse to that note and octave with the signed two-digit cents |
| MusicTheory.NegativeZeroExample | src/utils/musicTheory.ts:37-39 | "A3-0" parses with 0 cents |
| MusicTheory.ParseSignedNotation | src/utils/musicTheory.ts:32-44 | note, octave digit, sign and digits parse to that note, octave and signed cents |
| MusicTheory.ParseUnsignedNotation | src/utils/musicTheory.ts:32-44 | note and octave digit parse to that note and octave with 0 cents |
| MusicTheory.ParsingExamples | src/utils/musicTheory.ts:32-44 | "A4" and "C#3" parse to their pitches with 0 cents |
| MusicTheory.SignedParsingExamples | src/utils/musicTheory.ts:37-39 | "A3+20" parses with +20 cents |
| MusicTheory.NegativeParsingExample | src/utils/musicTheory.ts:37-39 | "A3-10" parses with -10 cents |
| MusicTheory.DigitsAfterOctaveExample | src/utils/musicTheory.ts:36-39 | "A34" parses as A3 with 0 cents: digits after the octave without a sign are not cents |
| MusicTheory.SignAfterOctaveExample | src/utils/musicTheory.ts:36-39 | "A3+" parses as A3 with 0 cents: a sign without digits is not cents |
| MusicTheory.SharpOfNaturalHalfstepExample | src/utils/musicTheory.ts:33 | "E#4" passes the pattern although "E#" is not in `noteOrder` |
| MusicTheory.RejectionExamples | src/utils/musicTheory.ts:33 | "D-3" and "H3" are rejected |
| MusicTheory.ReferenceNotation | src/utils/musicTheory.ts:32-44 | "A0" names A0 with 0 cents |
| MusicTheory.PitchToString | src/utils/musicTheory.ts:58-69 | with the note option the text starts with the note; an admitted note and a one-digit octave render to notation the parser accepts, without cents or with present cents |
| MusicTheory.CentsText | src/utils/musicTheory.ts:63-66 | whole cents render as a sign and at least one digit, the sign being '-' exactly when the cents are negative (0 gets '+') |
| MusicTheory.NotationOfParts | src/utils/musicTheory.ts:33 | an admitted note, an octave digit and a sign with digits (or nothing) pass the notation pattern |
| MusicTheory.RenderingIgnoresCents | src/utils/musicTheory.ts:58-69 | default options render note then octave and never cents; `octave: false` renders the note alone; without cents the cents option changes nothing |
| MusicTheory.RenderingExamples | src/utils/musicTheory.ts:58-69 | A4 with 10 cents renders "A4"; A4 without octave renders "A" |
| MusicTheory.PositiveCentsRendering | src/utils/musicTheory.ts:63-66 | A4 with 20 cents renders "A4+20" |
| MusicTheory.ZeroCentsRendering | src/utils/musicTheory.ts:64 | B4 with 0 cents renders "B4+0": 0 takes a '+' |
| MusicTheory.NegativeCentsRendering | src/utils/musicTheory.ts:63-66 | A3 with -20 cents renders "A3-20" |
| MusicTheory.FiveCentsRendering | src/utils/musicTheory.ts:63-66 | A3 with 5 cents renders "A3+5" |
| MusicTheory.ZeroCentsOfA3Rendering | src/utils/musicTheory.ts:63-66 | A3 with 0 cents renders "A3+0" |
| MusicTheory.RenderedWithCents | src/utils/musicTheory.ts:58-69 | with cents, a one-digit octave and whole cents render as note, digit, sign and digits |
| MusicTheory.RenderSigned | src/utils/musicTheory.ts:58-69 | a one-digit octave and cents written as a sign and canonical digits (never "-0") render back to exactly note, digit, sign and digits |
| MusicTheory.DefaultLabel | src/utils/musicTheory.ts:58-62 | the default label of a pitch with a one-digit octave is its note followed by that digit |
| MusicTheory.NotationRoundTrip | src/utils/musicTheory.ts:58-69 | a pitch with an admitted name, a one-digit octave and whole cents renders with cents to notation that parses back to the same pitch |
| MusicTheory.DefaultNotationRoundTrip | src/utils/musicTheory.ts:58-69 | without cents, the round trip keeps note and octave and reads the cents back as 0 |
| MusicTheory.StringRoundTrip | src/utils/musicTheory.ts:32-69 | notation with a sign and canonical digits (no leading zero, not "-0") parses, and rendering the result with cents gives back the same string |
| MusicTheory.StringRoundTripCounterexamples | src/utils/musicTheory.ts:32-69 | off that form the string round trip fails: "A3+05" comes back as "A3+5", and "A3" and "A3-0" read 0 cents and come back as "A3+0" |
| MusicTheory.TwoDigitOctaveExample | src/utils/musicTheory.ts:62 | octave 10 renders "A10", which parses back as A1 |
| MusicTheory.Round | src/utils/musicTheory.ts:93 | `Math.round`: the integer within half of x, halves rounded up |
| MusicTheory.NearestNote | src/utils/musicTheory.ts:92-98 | floor octave and rounded half step, rolled over from 12 to C of the next octave; the half step is 0..11 and lies within half a half step of the exponent |
| MusicTheory.NearestNoteUnique | src/utils/musicTheory.ts:92-98 | the only note within half a half step (from below, inclusive) is the one chosen |
| MusicTheory.FrequencyToPitch | src/utils/musicTheory.ts:89-109 | the cents of the nearest pitch are present and lie in [-50, 50) |
| MusicTheory.FrequencyToPitchInOrder | src/utils/musicTheory.ts:102 | the note of the nearest pitch is in `noteOrder` |
| MusicTheory.FrequencyToPitchExact | src/utils/musicTheory.ts:100 | converting the nearest pitch back gives exactly the input frequency |
| MusicTheory.PitchRoundTrip | src/utils/musicTheory.ts:89-109 | a pitch of `noteOrder` with cents in [-50, 50), converted to a frequency and back, is the same pitch |
| MusicTheory.NearestPitchAboveC0 | src/utils/musicTheory.ts:89-109 | a frequency octave + h/12 + cents/1200 above C0, cents in [-50, 50), is read as note h of that octave with those cents |
| MusicTheory.NearestNoteExamples | src/utils/musicTheory.ts:93-98 | around A3: ±49 cents stays A3, -51 is G#3 +49, +51 is A#3 -49, +50 is A#3 -50 |
| MusicTheory.RolloverExample | src/utils/musicTheory.ts:95-98 | 51 cents above B3 rolls over to C4 -49 |
| MusicTheory.StringToFrequency | src/utils/musicTheory.ts:115-117 | parse then convert: fails exactly on rejected notation, with its error |
| MusicTheory.FrequencyToStringParses | src/utils/musicTheory.ts:111-113 | the label of a frequency (one-digit octave) parses to the nearest pitch's note and octave with 0 cents |
| MusicTheory.FrequencyToString | src/utils/musicTheory.ts:111-113 | the label of a frequency is the nearest pitch's note, a name of `noteOrder`, followed by its octave in decimal; with a one-digit octave it is notation the parser accepts |
| MusicTheory.FrequencyToStringCentre | src/utils/musicTheory.ts:111-117 | naming a frequency's label as a frequency gives the centre of its nearest note, the input minus its cents |
| MusicTheory.LabelCentre | src/utils/musicTheory.ts:115-117 | the default label of a pitch, named as a frequency, is the pitch without its cents |
| MusicTheory.LabelAboveC0 | src/utils/musicTheory.ts:111-113 | the label of a frequency octave + h/12 + cents/1200 above C0 is note h followed by the octave digit |
| MusicTheory.FrequencyToStringExamples | src/utils/musicTheory.ts:111-113 | 220 Hz is labelled "A3" |
| MusicTheory.A4LabelExample | src/utils/musicTheory.ts:111-113 | 440 Hz is labelled "A4" |
| MusicTheory.LabelBelowExample | src/utils/musicTheory.ts:111-113 | 51 cents below A3 is labelled "G#3" |
| MusicTheory.LabelAboveExample | src/utils/musicTheory.ts:111-113 | 51 cents above A3 is labelled "A#3" |
| Decimal.DigitChar | src/utils/musicTheory.ts:62 | the digit character of d reads back as d |
| Decimal.DigitValue | src/utils/musicTheory.ts:43 | `parseInt` of one digit character is a number from 0 to 9 |
| Decimal.ReadDigitChar | src/utils/musicTheory.ts:43 | a digit character written back from its value is the same character |
| Decimal.NatToString | src/utils/musicTheory.ts:66 | the decimal text of a natural number is canonical: digits with no leading zero |
| Decimal.IntToString | src/utils/musicTheory.ts:62 | the decimal text of an integer is non-empty and canonical, after a '-' when negative |
| Decimal.ReadNatToString | src/utils/musicTheory.ts:39 | reading the written digits of n gives n back |
| Decimal.LeadingDigitPositive | src/utils/musicTheory.ts:64 | digits without a leading zero read as a number of at least 1, so a '-' before them gives negative cents, which render with '-' again |
| Decimal.WriteDigitsValue | src/utils/musicTheory.ts:66 | writing the value of canonical digits gives the same digits back |
| NoteDecomposition.AnnotateNearest | src/utils/noteDecomposition.ts:30-31 | a point octave + h/12 + cents/1200 above C0 is keyed note h plus the octave digit, in that octave, with those cents |
| NoteDecomposition.AnnotatePitch | src/utils/noteDecomposition.ts:30-31 | a point at a pitch's own frequency is keyed by that pitch's label |
| NoteDecomposition.AnnotatePitches | src/utils/noteDecomposition.ts:30-31 | points at the frequencies of given pitches get those pitches' keys, octaves and cents, and their log-frequencies |
| NoteDecomposition.Annotate | src/utils/noteDecomposition.ts:30-31 | a point is labelled with `frequencyToString` of its frequency and the octave and cents of its nearest pitch (cents in [-50, 50)), and keeps its intensity and log-frequency |
| NoteDecomposition.Floors | src/utils/noteDecomposition.ts:22-26 | every octave seen among the first n points has a floor |
| NoteDecomposition.FloorStep | src/utils/noteDecomposition.ts:24-25 | one point adds its octave to the floor map and no other octave changes; a missing or zero floor becomes the intensity, any other floor becomes the smaller of floor and intensity |
| NoteDecomposition.FloorPass | src/utils/noteDecomposition.ts:22-26 | the first loop builds exactly the floor map `Floors` of all points |
| NoteDecomposition.FloorsDomain | src/utils/noteDecomposition.ts:22-26 | the floor map has an entry for exactly the octaves of the points seen |
| NoteDecomposition.FloorAttained | src/utils/noteDecomposition.ts:24-25 | every floor is the intensity of one of its octave's points |
| NoteDecomposition.FloorIsMinimum | src/utils/noteDecomposition.ts:24-25 | when no point of an octave has intensity 0, its floor is at most every intensity of that octave (with `FloorAttained`: the minimum) |
| NoteDecomposition.ZeroFloorRestarts | src/utils/noteDecomposition.ts:24 | `\|\|= Infinity` restarts a floor of 0: intensities 0 then 5 give floor 5 |
| NoteDecomposition.FirstKeys | src/utils/noteDecomposition.ts:28-32 | the keys created are exactly the keys of the points seen |
| NoteDecomposition.FirstIndex | src/utils/noteDecomposition.ts:32 | the first point with a key, or -1 exactly when the key does not occur |
| NoteDecomposition.FirstKeysInOrder | src/utils/noteDecomposition.ts:32 | keys come in order of first occurrence, so they are distinct |
| NoteDecomposition.FirstKeysOrderStep | src/utils/noteDecomposition.ts:32 | creating a bucket for a new key at the end keeps the keys in order of first occurrence |
| NoteDecomposition.KeysStep | src/utils/noteDecomposition.ts:32 | a point appends its key exactly when the key is new, after which the keys are those seen before plus this one |
| NoteDecomposition.RunAddsNoKey | src/utils/noteDecomposition.ts:32 | a run of points with a key already seen creates no bucket |
| NoteDecomposition.PeakIndex | src/utils/noteDecomposition.ts:34-37 | the tracked peak point is -1 exactly when the key has not occurred |
| NoteDecomposition.PeakIsFirstMaximum | src/utils/noteDecomposition.ts:34-37 | the peak has the key and the largest intensity among its points, and every earlier point of the key is strictly lower (`>` keeps the first of a tie) |
| NoteDecomposition.Analysis | src/utils/noteDecomposition.ts:18-49 | the analysis has a bucket for exactly the keys that occur, and lists exactly those keys |
| NoteDecomposition.BucketContents | src/utils/noteDecomposition.ts:32-45 | each bucket holds its key, its integral, and as `max` and `accuracy` the intensity and cents of the first point of largest intensity |
| NoteDecomposition.AnalysePitches | src/utils/noteDecomposition.ts:18-49 | `analysePitches` returns `Analysis` of the labelled points, and an empty spectrum gives an empty analysis |
| NoteDecomposition.BucketPass | src/utils/noteDecomposition.ts:28-46 | given the first pass's floors, the second loop builds exactly `Analysis` |
| NoteDecomposition.VisitPoint | src/utils/noteDecomposition.ts:29-45 | one point creates its key's bucket if new (appending the key) and brings that bucket to its value after the point; every other bucket is unchanged |
| NoteDecomposition.TrackedStep | src/utils/noteDecomposition.ts:28-46 | one step of the second loop keeps the keys, the bucket map and each bucket equal to their specification for the points seen |
| NoteDecomposition.TrackedAll | src/utils/noteDecomposition.ts:48 | at the end of the second loop the keys and buckets are `Analysis` |
| NoteDecomposition.OwnBucketStep | src/utils/noteDecomposition.ts:32-45 | the max/accuracy update and the integral step bring a point's own bucket to its value after the point |
| NoteDecomposition.OtherBucketsStep | src/utils/noteDecomposition.ts:30-45 | a point does not change the bucket of any other key |
| NoteDecomposition.Integral | src/utils/noteDecomposition.ts:32-45 | a key with no points so far has integral 0, as a new bucket starts |
| NoteDecomposition.ExpectedBucket | src/utils/noteDecomposition.ts:32-45 | a bucket holds its key and its integral; its `max` is -Infinity exactly when the key has no points yet, and its accuracy is then 0 |
| NoteDecomposition.Contribution | src/utils/noteDecomposition.ts:39-44 | the last point contributes 0; a point not below its floor whose successor is not lower in frequency contributes at least 0 |
| NoteDecomposition.SinglePoint | src/utils/noteDecomposition.ts:39-45 | one point gives one bucket with integral 0: the last point has no successor |
| NoteDecomposition.IntegralNonNegative | src/utils/noteDecomposition.ts:39-45 | with no point below its floor and ascending frequencies, every integral is at least 0 |
| NoteDecomposition.AnalysisIntegralsNonNegative | src/utils/noteDecomposition.ts:43-44 | with positive intensities and ascending frequencies, every bucket's integral is at least 0 |
| NoteDecomposition.Shape | src/utils/noteDecomposition.ts:41-43 | the shape of a run of points has one entry per point |
| NoteDecomposition.IntegralOfBlock | src/utils/noteDecomposition.ts:39-45 | a key whose points are consecutive has as integral the sum of their contributions |
| NoteDecomposition.EqualBlocks | src/utils/noteDecomposition.ts:41-44 | two runs with the same intensities, floors and log-frequency steps have the same sum |
| NoteDecomposition.EqualNotesEqualIntegrals | src/utils/noteDecomposition.ts:41-44 | two notes with the same relative offsets (including the step to the next point), intensities and floors get equal integrals |
| NoteDecomposition.ShapeAt | src/utils/noteDecomposition.ts:41-43 | entry d of a shape is point d's intensity, floor and step to the next point |
| NoteDecomposition.TwoNotesNamed | src/utils/noteDecomposition.test.ts:7-16 | the first test's points are at the frequencies `stringToFrequency` gives for its notation, from "A4-30" to "A#4+20" |
| NoteDecomposition.TwoNoteNotationParses | src/utils/noteDecomposition.test.ts:8-15 | each notation string of the first test parses to the note, octave 4 and cents its point is built from |
| NoteDecomposition.TwoNotesLabels | src/utils/noteDecomposition.test.ts:7-16 | the first test's points are keyed A4 (four) and A#4 (three) and keep their cents and intensities |
| NoteDecomposition.PeaksOfTwoNotes | src/utils/noteDecomposition.test.ts:20-26 | such points give keys A4, A#4 with max 120 at -10 cents and max 80 at 0 cents |
| NoteDecomposition.PeaksOfTwoNotesData | src/utils/noteDecomposition.test.ts:6-27 | the first test's spectrum gives keys A4, A#4 with max 120 at -10 cents and max 80 at 0 cents |
| NoteDecomposition.FourNotesLabels | src/utils/noteDecomposition.test.ts:30-51 | the second test's points are keyed A4, A#4, B4, C5 and keep their octaves, intensities and log-frequencies |
| NoteDecomposition.FourNotesNamed | src/utils/noteDecomposition.test.ts:30-52 | the second test's points are at the frequencies `stringToFrequency` gives for its notation, from "A4-30" to "C5-49" |
| NoteDecomposition.FourNoteNotationParses | src/utils/noteDecomposition.test.ts:31-51 | each notation string of the second test parses to the note, octave and cents its point is built from |
| NoteDecomposition.FourNotesRun | src/utils/noteDecomposition.test.ts:31-51 | a run of the second test's points built on one note and octave is keyed by that note and octave digit |
| NoteDecomposition.FourNotesPlacedLabels | src/utils/noteDecomposition.test.ts:31-51 | the second test's points keep their octaves, intensities and log-frequencies when labelled |
| NoteDecomposition.FourNotesFirstKeys | src/utils/noteDecomposition.test.ts:56 | the first thirteen such points give keys A4, A#4, B4 |
| NoteDecomposition.FourNotesKeys | src/utils/noteDecomposition.test.ts:56 | such points give keys A4, A#4, B4, C5 in that order |
| NoteDecomposition.FourNotesShapes | src/utils/noteDecomposition.test.ts:30-50 | in such points A4 and B4 have the same shape |
| NoteDecomposition.EqualIntegralsOfFourNotes | src/utils/noteDecomposition.test.ts:53-57 | such points give four keys in order and equal integrals to A4 and B4 |
| NoteDecomposition.EqualIntegralsOfFourNotesData | src/utils/noteDecomposition.test.ts:29-58 | the second test's spectrum gives keys A4, A#4, B4, C5 and equal integrals to A4 and B4 |

## Left out

- Floating point: `Math.pow`, `Math.log2` and the division by C0 are exact real arithmetic in log space. IEEE-754 rounding and the `toBeCloseTo` tolerance of the tests are not modelled. The tests compared against exact expressions hold exactly here: the octave and cents frequencies of `musicTheory.test.ts` (lines 57-60, 72-76, 81-82), the cents read back at lines 107-109, and the accuracies and equal integrals of `noteDecomposition.test.ts` (lines 25-26, 58). The tests against rounded constants are not modelled: 16.35 Hz for C0 (exactly 27.5 · 2^(-3/4) ≈ 16.3516 here), 73.42 Hz for D2, 1975.53 Hz for B6, and the inputs 16.35, 261.62 and 523.24 Hz. JavaScript's negative zero is not modelled either: `parseFloat("-0")` gives -0 for "A3-0", which the model reads as 0 (`NegativeZeroExample`).
- Frequencies of 0 Hz or below cannot be expressed in log space. `frequencyToPitch` has no guard for them: JavaScript would compute with `-Infinity` or `NaN`, and that is not modelled.
- MusicTheory.PitchToString: requires whole cents when the cents part is rendered. JavaScript's `Number.toString` of a fractional number is not modelled.
- Decimal.IntToString: writes every integer in plain digits. JavaScript writes magnitudes of 10^21 and above in exponent form ("1e+21"), which is not modelled.
- Decimal.ReadNatToString: reads any run of digits as an exact natural number. `parseFloat` and `parseInt` round runs above 2^53 to the nearest double, which is not modelled.
- MusicTheory.CentsOfNotation: the cents are the exact value of the digits written, with no rounding to a double above 2^53.
- MusicTheory.RenderSigned: holds for digits of any length. In JavaScript it holds only below 10^21, where `str += pitch.cents` stops writing plain digits.
- MusicTheory.StringRoundTrip: holds for digits of any length. In JavaScript it holds only for cents below 2^53 in magnitude: "A3+9007199254740993" reads as 9007199254740992 and renders "A3+9007199254740992", and "A3+1000000000000000000000" renders "A3+1e+21".
- MusicTheory.NotationRoundTrip: holds for whole cents of any size. In JavaScript it holds only for cents below 2^53 in magnitude, where the text written reads back as the same double.
- Hertz are given as numbers (`WholeOctaveHz`) only for frequencies a whole number of octaves from A0. Other values of `2^x` have no finite decimal form.
- The `Note` type of the source is a cast: `stringToPitch` returns "E#" or "B#" as notes. The model keeps the note as a string so that this stays visible.
- `pitchToFrequency` also accepts notation strings (`pitchToObject`). The model composes `StringToPitch` and `PitchToFrequency` explicitly (`StringToFrequency`).
- NoteDecomposition.AnalysePitches: the result keeps its keys in a sequence next to the map. JavaScript objects list integer-like keys first, but no key `pitchToString` produces is integer-like, so insertion order is the order.
- NoteDecomposition.AnalysePitches: each point's pitch is computed once before the two passes, not inside each pass. `frequencyToPitch` is pure, so the passes see the same values.
- `minValueForOctave` is a map from octave to floor, and an octave's entry exists once a point of it has been seen. JavaScript's `Infinity` start value is never observable, because `Math.min` replaces it at once. The model therefore writes the point's intensity straight into a missing or zero entry.
- The `Bucket.max` field may be `-Infinity`, modelled as an extended real. Every bucket the passes return has seen a point, so its `max` is finite.
- `src/utils/recording.ts` is not part of this model. It holds audio capture, polling timers, React state, the amplitude gate and the band filter; these are I/O and timing.
- The components, the Redux store and the third-party peak finder are not part of this model. They are UI, persistence and foreign code. No fundamental-frequency detection exists in the modelled code.
