# Braille transcoder model

This project models the text-to-Braille transcoder of a real-time
voice-to-Braille translator (`braille_conerter.py`) and proves properties of
it in Dafny. Speech recognition turns audio into text. The transcoder then
turns that text into Unicode Braille. It has two parts:

- **The symbol table** (`BRAILLE_MAP`) maps single characters to one or two
  Braille cells. The keys are the 26 small Latin letters (Grade 1), nine
  punctuation marks and the space (which maps to itself), and Malayalam
  characters: 13 independent vowels, 12 vowel signs (matras), 36 consonants,
  virama, anuswara and visarga. In the model it is `BrailleCells`, one
  `match` per group of the source, and `BrailleMap` gives the values as
  strings. A key gives `Some(value)`; any other character gives `None`.
  Every entry is copied as the source has it, including the shared values:
  `a` and `അ` share a value, and so do `ട` and `ഠ`.
- **The conversion** (`text_to_braille(text, lang)`) makes one pass over the
  characters:
  - "en" lower-cases the text, then looks each character up. A character
    that is not a key passes through unchanged.
  - "ml" looks each character up and drops any character that is not a key.
    It does no case folding.
  - Any other tag yields the empty string.

`Convert` is the specification function. It is defined per character
through `Unit`, `Get` and `Transcribe`. `TextToBraille` is the source's
imperative version of the same conversion: it builds a list of units with
appends inside the loops, then joins the list. It is proved equal to
`Convert`. The lemmas in `BrailleProperties` state what `Convert` promises:
- the concatenation homomorphism
- case-insensitivity of "en"
- length bounds
- the output alphabet of each tag
- "ml" as filter-then-translate, and when "ml" yields nothing
- single-character behaviour and concrete examples

A tag other than "en" and "ml" returns `""`: the `if`/`elif` at
braille_conerter.py:47/54 has no `else`, so neither loop runs and the empty
list is joined. `Convert` states this in its second `ensures`.

## Model

| member | source | states |
|---|---|---|
| BrailleConverter.TextToBraille | braille_conerter.py:41-62 | for every text and tag, the list-and-join loops return exactly `Convert(text, lang)`; the "ml" list never holds an empty unit (loop invariant) |
| BrailleConverter.Convert | braille_conerter.py:45-62 | empty text gives `""` for every tag; a tag other than "en" and "ml" gives `""` whatever the text |
| BrailleConverter.LowerChar | braille_conerter.py:49 | the folded character is never an ASCII capital; it is the input, or an ASCII capital moved 32 code points up |
| BrailleConverter.Lower | braille_conerter.py:49 | lower-casing keeps the length of the text |
| BrailleConverter.BrailleCells | braille_conerter.py:4-39 | definition, no contract: the symbol table, dispatched by character range to one `match` per group of the source |
| BrailleConverter.Letters | braille_conerter.py:5-10 | definition, no contract: the 26 small Latin letters and their Grade 1 cells |
| BrailleConverter.Punctuation | braille_conerter.py:12-14 | definition, no contract: the space and nine punctuation marks |
| BrailleConverter.Vowels | braille_conerter.py:16-20 | definition, no contract: the 13 Malayalam independent vowels |
| BrailleConverter.VowelSigns | braille_conerter.py:22-23 | definition, no contract: the 12 Malayalam vowel signs |
| BrailleConverter.Consonants | braille_conerter.py:25-33 | definition, no contract: the 36 Malayalam consonants |
| BrailleConverter.Signs | braille_conerter.py:35-38 | definition, no contract: virama, anuswara and visarga |
| BrailleConverter.BrailleMap | braille_conerter.py:4-39 | definition, no contract: the table's values as strings; its properties are `TableValues`, `TableKeys` and `TableNotInjective` |
| BrailleConverter.Get | braille_conerter.py:52-57 | definition, no contract: `dict.get` with a default; its properties are in `UnitFacts` |
| BrailleConverter.Unit | braille_conerter.py:52-59 | definition, no contract: what one character contributes to the joined output under "en" (the value or the character) and "ml" (the value or nothing); its properties are in `UnitFacts` |
| BrailleConverter.Transcribe | braille_conerter.py:50-59 | definition, no contract: the per-character loop as a recursive concatenation of units; its properties are `TranscribeConcat` and `TranscribeLength` |
| BrailleConverter.Join | braille_conerter.py:62 | definition, no contract: `"".join` of the output list; its property is `JoinAppend` |
| BrailleConverter.JoinAppend | braille_conerter.py:52-62 | joining a list after an append is the old join followed by the new unit |
| BrailleConverter.TranscribeConcat | braille_conerter.py:50-59 | the per-character transcription of `s + t` is that of `s` followed by that of `t` |
| BrailleConverter.PassThroughStep | braille_conerter.py:50-52 | one turn of the "en" loop: appending `get(ch, ch)` extends the joined output to the transcription of one more character |
| BrailleConverter.DropStep | braille_conerter.py:55-59 | one turn of the "ml" loop: appending a non-empty `get(ch, '')`, or skipping an empty one, extends the joined output to the transcription of one more character |
| BrailleProperties.TableValues | braille_conerter.py:4-39 | every table value has one or two characters, and is either the space alone or made only of Braille Patterns cells (U+2800 to U+28FF) |
| BrailleProperties.TableKeys | braille_conerter.py:4-39 | every key is a small Latin letter, one of the listed punctuation marks or the space, or a character of the Malayalam block U+0D00 to U+0D7F |
| BrailleProperties.NoCapitalOrDigitKeys | braille_conerter.py:5-14 | no ASCII capital and no digit is a key |
| BrailleProperties.TableNotInjective | braille_conerter.py:6 | `a` and `അ` share a value, and so do `ട` and `ഠ` (line 28), so the conversion has no inverse |
| BrailleProperties.UnitFacts | braille_conerter.py:52-59 | "en" emits 1 or 2 characters per input character and passes a non-key through; "ml" emits at most 2 characters, all cells or spaces, and emits nothing exactly when the character is not a key, so `if braille_char` is the same test as key membership |
| BrailleProperties.UpperChar | braille_conerter.py:49 | helper for stating case-insensitivity (the source never upper-cases): a small ASCII letter moves 32 code points down to its capital, every other character is unchanged |
| BrailleProperties.Upper | braille_conerter.py:49 | helper for stating case-insensitivity (the source never upper-cases): upper-casing keeps the length of the text |
| BrailleProperties.LowerAt | braille_conerter.py:49 | lower-casing a text folds each character on its own, in place |
| BrailleProperties.LowerConcat | braille_conerter.py:49 | lower-casing distributes over concatenation |
| BrailleProperties.LowerUpper | braille_conerter.py:49 | lower-casing an upper-cased text gives the lower-cased original |
| BrailleProperties.LowerIdempotent | braille_conerter.py:49 | lower-casing twice is lower-casing once |
| BrailleProperties.EnglishCaseInsensitive | braille_conerter.py:47-52 | under "en", upper-casing or lower-casing the text first does not change the result |
| BrailleProperties.ConvertConcat | braille_conerter.py:45-62 | for every tag, converting `s + t` gives the conversion of `s` followed by that of `t` |
| BrailleProperties.TranscribeLength | braille_conerter.py:50-59 | a transcription is at most twice the text's length; with pass-through it is at least the text's length |
| BrailleProperties.ConvertLength | braille_conerter.py:45-62 | for every tag the result is at most twice the text's length; under "en" it is at least the text's length |
| BrailleProperties.DropAlphabet | braille_conerter.py:55-59 | a transcription that drops non-keys holds only Braille cells and spaces |
| BrailleProperties.MalayalamAlphabet | braille_conerter.py:54-59 | every character of an "ml" result is a Braille cell or a space; no source character leaks through |
| BrailleProperties.PassThroughAlphabet | braille_conerter.py:50-52 | each character of a pass-through transcription is a cell or a space, or is a non-key character of the input |
| BrailleProperties.EnglishAlphabet | braille_conerter.py:47-52 | each character of an "en" result is a cell or a space, or is a non-key character of the lower-cased text, passed through |
| BrailleProperties.Keys | braille_conerter.py:57-59 | the characters of a text that are keys: no longer than the text, all keys, and every key of the text among them |
| BrailleProperties.KeysFromText | braille_conerter.py:57-59 | filtering only removes characters: each kept character occurs in the text, and the kept characters form a sub-multiset of the text's |
| BrailleProperties.MalayalamFiltersThenTranslates | braille_conerter.py:54-59 | "ml" equals keeping the keys of the text in order and concatenating their table values |
| BrailleProperties.MalayalamEmptyIff | braille_conerter.py:54-59 | an "ml" result is empty if and only if no character of the text is a key |
| BrailleProperties.MalayalamDropsCapitalsAndDigits | braille_conerter.py:54-59 | "ml" does no case folding: a text made only of ASCII capitals and digits converts to `""` |
| BrailleProperties.PassThroughAllKeys | braille_conerter.py:50-52 | when every character is a key, pass-through transcription is the concatenation of table values |
| BrailleProperties.PassThroughNoKeys | braille_conerter.py:50-52 | when no character is a key, pass-through transcription returns the text unchanged |
| BrailleProperties.KeysOfKeys | braille_conerter.py:57-59 | a text made only of keys keeps every character when filtered |
| BrailleProperties.EnglishBetweenTranslateAndIdentity | braille_conerter.py:47-59 | if every lower-cased character is a key, "en" equals "ml" on the lower-cased text; if none is, "en" returns the lower-cased text |
| BrailleProperties.SingleCharacterEnglish | braille_conerter.py:49-52 | a one-character text under "en" gives the table value of the folded character, or the folded character itself when it is not a key; a character gives the same as its folded form |
| BrailleProperties.SingleCharacterMalayalam | braille_conerter.py:57-59 | a one-character text under "ml" gives the character's table value, or `""` when it is not a key |
| BrailleProperties.ExampleEnglish | braille_conerter.py:47-52 | "a1b" under "en" gives ⠁1⠃: the digit passes through |
| BrailleProperties.ExampleCapital | braille_conerter.py:49-52 | "A" and "a" under "en" both give ⠁ |
| BrailleProperties.ExampleMalayalamLatin | braille_conerter.py:54-59 | "a1b" under "ml" gives ⠁⠃: the digit is dropped, the Latin keys convert |
| BrailleProperties.ExampleMalayalamSpace | braille_conerter.py:13 | the space maps to itself, so "a b" under "ml" gives "⠁ ⠃" |
| BrailleProperties.ExampleMalayalam | braille_conerter.py:17-26 | "കഉ" under "ml" gives ⠅⠥ |

## Left out

- app.py is not part of this model. It holds the web routes, loading of the
  speech-recognition model, device selection, the ffmpeg check, temporary
  audio files and the placeholder text for empty results. All of it is I/O
  or calls into libraries whose code is not visible here.
- Lower: Python's `str.lower()` folds all of Unicode. Some of its results
  are more than one character, and Greek final sigma depends on context.
  The model folds ASCII capitals only, one character at a time. So the
  "en" results are exact for ASCII and Malayalam text, but not for other
  scripts that have case.
- The table is modelled as a total lookup function (`BrailleCells` and
  `BrailleMap`) rather than a hash map. Every key and value is the same as
  the source's. The dictionary's hashing and memory layout are not modelled.
- There is no decoding from Braille back to text, because the code has none.
  `TableNotInjective` shows that no decoding could be exact.
- Determinism needs no lemma: `Convert` is a function.
