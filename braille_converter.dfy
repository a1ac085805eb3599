/** A model of the text-to-Braille transcoder of a voice-to-Braille translator
    (braille_conerter.py): a fixed table from single characters to Braille
    cells, and a single-pass conversion with one fallback policy per
    language tag. */
module BrailleConverter {

  datatype Option<T> = None | Some(value: T)

  /** A table value: one character, or two (only the parentheses use two). */
  datatype Cells = One(first: char) | Two(first: char, second: char)

  function Text(x: Cells): string
  {
    match x
    case One(a) => [a]
    case Two(a, b) => [a, b]
  }

  /** The symbol table, entry for entry as the source lists it, split into
      the source's own groups: a key maps to `Some` of its value, every other
      character to `None`. Every value is one or two cells of the Unicode
      Braille Patterns block (U+2800 to U+28FF), or the space itself.
      Several keys share a value, so the table has no inverse. */
  function BrailleCells(c: char): Option<Cells>
  {
    if 'a' <= c <= 'z' then Letters(c)
    else if c < '\U{0080}' then Punctuation(c)
    else if '\U{0D05}' <= c <= '\U{0D14}' then Vowels(c)
    else if '\U{0D15}' <= c <= '\U{0D39}' then Consonants(c)
    else if '\U{0D3E}' <= c <= '\U{0D4C}' then VowelSigns(c)
    else Signs(c)
  }

  /** The English letters (Grade 1). */
  function Letters(c: char): Option<Cells>
  {
    match c
    case 'a' => Some(One('\U{2801}'))
    case 'b' => Some(One('\U{2803}'))
    case 'c' => Some(One('\U{2809}'))
    case 'd' => Some(One('\U{2819}'))
    case 'e' => Some(One('\U{2811}'))
    case 'f' => Some(One('\U{280B}'))
    case 'g' => Some(One('\U{281B}'))
    case 'h' => Some(One('\U{2813}'))
    case 'i' => Some(One('\U{280A}'))
    case 'j' => Some(One('\U{281A}'))
    case 'k' => Some(One('\U{2805}'))
    case 'l' => Some(One('\U{2807}'))
    case 'm' => Some(One('\U{280D}'))
    case 'n' => Some(One('\U{281D}'))
    case 'o' => Some(One('\U{2815}'))
    case 'p' => Some(One('\U{280F}'))
    case 'q' => Some(One('\U{281F}'))
    case 'r' => Some(One('\U{2817}'))
    case 's' => Some(One('\U{280E}'))
    case 't' => Some(One('\U{281E}'))
    case 'u' => Some(One('\U{2825}'))
    case 'v' => Some(One('\U{2827}'))
    case 'w' => Some(One('\U{283A}'))
    case 'x' => Some(One('\U{282D}'))
    case 'y' => Some(One('\U{283D}'))
    case 'z' => Some(One('\U{2835}'))
    case _ => None
  }

  /** The punctuation marks and the space. */
  function Punctuation(c: char): Option<Cells>
  {
    match c
    case ' ' => Some(One(' '))
    case '.' => Some(One('\U{2832}'))
    case ',' => Some(One('\U{2802}'))
    case '?' => Some(One('\U{2826}'))
    case '!' => Some(One('\U{2816}'))
    case '"' => Some(One('\U{2836}'))
    case '\'' => Some(One('\U{2804}'))
    case '-' => Some(One('\U{2824}'))
    case '(' => Some(Two('\U{2810}', '\U{2823}'))
    case ')' => Some(Two('\U{2810}', '\U{281C}'))
    case _ => None
  }

  /** The Malayalam independent vowels, U+0D05 to U+0D14. */
  function Vowels(c: char): Option<Cells>
  {
    match c
    case '\U{0D05}' => Some(One('\U{2801}'))  // letter a
    case '\U{0D06}' => Some(One('\U{281C}'))  // letter aa
    case '\U{0D07}' => Some(One('\U{280A}'))  // letter i
    case '\U{0D08}' => Some(One('\U{2814}'))  // letter ii
    case '\U{0D09}' => Some(One('\U{2825}'))  // letter u
    case '\U{0D0A}' => Some(One('\U{2833}'))  // letter uu
    case '\U{0D0B}' => Some(One('\U{2831}'))  // letter vocalic r
    case '\U{0D0E}' => Some(One('\U{2811}'))  // letter e
    case '\U{0D0F}' => Some(One('\U{2823}'))  // letter ee
    case '\U{0D10}' => Some(One('\U{280C}'))  // letter ai
    case '\U{0D12}' => Some(One('\U{2815}'))  // letter o
    case '\U{0D13}' => Some(One('\U{2839}'))  // letter oo
    case '\U{0D14}' => Some(One('\U{282A}'))  // letter au
    case _ => None
  }

  /** The Malayalam vowel signs (matras), U+0D3E to U+0D4C; each shares
      the value of its independent vowel. */
  function VowelSigns(c: char): Option<Cells>
  {
    match c
    case '\U{0D3E}' => Some(One('\U{281C}'))  // vowel sign aa
    case '\U{0D3F}' => Some(One('\U{280A}'))  // vowel sign i
    case '\U{0D40}' => Some(One('\U{2814}'))  // vowel sign ii
    case '\U{0D41}' => Some(One('\U{2825}'))  // vowel sign u
    case '\U{0D42}' => Some(One('\U{2833}'))  // vowel sign uu
    case '\U{0D43}' => Some(One('\U{2831}'))  // vowel sign vocalic r
    case '\U{0D46}' => Some(One('\U{2811}'))  // vowel sign e
    case '\U{0D47}' => Some(One('\U{2823}'))  // vowel sign ee
    case '\U{0D48}' => Some(One('\U{280C}'))  // vowel sign ai
    case '\U{0D4A}' => Some(One('\U{2815}'))  // vowel sign o
    case '\U{0D4B}' => Some(One('\U{2839}'))  // vowel sign oo
    case '\U{0D4C}' => Some(One('\U{282A}'))  // vowel sign au
    case _ => None
  }

  /** The Malayalam consonants, U+0D15 to U+0D39. */
  function Consonants(c: char): Option<Cells>
  {
    match c
    case '\U{0D15}' => Some(One('\U{2805}'))  // letter ka
    case '\U{0D16}' => Some(One('\U{281F}'))  // letter kha
    case '\U{0D17}' => Some(One('\U{281B}'))  // letter ga
    case '\U{0D18}' => Some(One('\U{2823}'))  // letter gha
    case '\U{0D19}' => Some(One('\U{283B}'))  // letter nga
    case '\U{0D1A}' => Some(One('\U{2809}'))  // letter ca
    case '\U{0D1B}' => Some(One('\U{2821}'))  // letter cha
    case '\U{0D1C}' => Some(One('\U{281A}'))  // letter ja
    case '\U{0D1D}' => Some(One('\U{282A}'))  // letter jha
    case '\U{0D1E}' => Some(One('\U{2834}'))  // letter nya
    case '\U{0D1F}' => Some(One('\U{283E}'))  // letter tta
    case '\U{0D20}' => Some(One('\U{283E}'))  // letter ttha
    case '\U{0D21}' => Some(One('\U{2819}'))  // letter dda
    case '\U{0D22}' => Some(One('\U{2839}'))  // letter ddha
    case '\U{0D23}' => Some(One('\U{281D}'))  // letter nna
    case '\U{0D24}' => Some(One('\U{281E}'))  // letter ta
    case '\U{0D25}' => Some(One('\U{2839}'))  // letter tha
    case '\U{0D26}' => Some(One('\U{2819}'))  // letter da
    case '\U{0D27}' => Some(One('\U{2839}'))  // letter dha
    case '\U{0D28}' => Some(One('\U{281D}'))  // letter na
    case '\U{0D2A}' => Some(One('\U{280F}'))  // letter pa
    case '\U{0D2B}' => Some(One('\U{280B}'))  // letter pha
    case '\U{0D2C}' => Some(One('\U{2803}'))  // letter ba
    case '\U{0D2D}' => Some(One('\U{2803}'))  // letter bha
    case '\U{0D2E}' => Some(One('\U{280D}'))  // letter ma
    case '\U{0D2F}' => Some(One('\U{283D}'))  // letter ya
    case '\U{0D30}' => Some(One('\U{2817}'))  // letter ra
    case '\U{0D32}' => Some(One('\U{2807}'))  // letter la
    case '\U{0D35}' => Some(One('\U{2827}'))  // letter va
    case '\U{0D36}' => Some(One('\U{2829}'))  // letter sha
    case '\U{0D37}' => Some(One('\U{2831}'))  // letter ssa
    case '\U{0D38}' => Some(One('\U{280E}'))  // letter sa
    case '\U{0D39}' => Some(One('\U{2813}'))  // letter ha
    case '\U{0D33}' => Some(One('\U{2838}'))  // letter lla
    case '\U{0D34}' => Some(One('\U{282E}'))  // letter llla
    case '\U{0D31}' => Some(One('\U{2837}'))  // letter rra
    case _ => None
  }

  /** Virama, anuswara and visarga. */
  function Signs(c: char): Option<Cells>
  {
    match c
    case '\U{0D4D}' => Some(One('\U{2808}'))  // sign virama
    case '\U{0D02}' => Some(One('\U{2830}'))  // sign anusvara
    case '\U{0D03}' => Some(One('\U{2806}'))  // sign visarga
    case _ => None
  }

  /** The table with its values as strings, as the dictionary holds them. */
  function BrailleMap(c: char): Option<string>
  {
    match BrailleCells(c)
    case Some(x) => Some(Text(x))
    case None => None
  }

  /** The lookup with a default, as the dictionary's `get` performs it. */
  function Get(c: char, default: string): string
  {
    match BrailleMap(c)
    case Some(unit) => unit
    case None => default
  }

  /** Lower-casing of one character: ASCII capitals fold to the small
      letter 32 code points above; every other character is left alone. */
  function LowerChar(c: char): (d: char)
    ensures !('A' <= d <= 'Z')
    ensures d == c || ('A' <= c <= 'Z' && d as int == c as int + 32)
  {
    if 'A' <= c <= 'Z' then (c as int + 32) as char else c
  }

  /** Lower-casing of a whole text, character by character. */
  function Lower(s: string): (r: string)
    ensures |r| == |s|
  {
    if s == [] then [] else [LowerChar(s[0])] + Lower(s[1..])
  }

  /** What becomes of a character the table does not hold: the "en" branch
      passes it through, the "ml" branch drops it. */
  datatype Fallback = PassThrough | Drop

  /** The output unit of one character under a fallback policy. */
  function Unit(c: char, fallback: Fallback): string
  {
    match fallback
    case PassThrough => Get(c, [c])
    case Drop => Get(c, "")
  }

  /** The units of all characters of `s`, in order, with no separator. */
  function Transcribe(s: string, fallback: Fallback): string
  {
    if s == [] then "" else Unit(s[0], fallback) + Transcribe(s[1..], fallback)
  }

  /** The conversion as a whole: "en" lower-cases the text and passes
      unmapped characters through, "ml" drops unmapped characters, and
      every other language tag yields the empty string. */
  function Convert(text: string, lang: string): (r: string)
    ensures text == [] ==> r == ""
    ensures lang != "en" && lang != "ml" ==> r == ""
  {
    if lang == "en" then Transcribe(Lower(text), PassThrough)
    else if lang == "ml" then Transcribe(text, Drop)
    else ""
  }

  /** Concatenation of a list of strings with no separator. */
  function Join(parts: seq<string>): string
  {
    if parts == [] then "" else parts[0] + Join(parts[1..])
  }

  lemma {:induction false} JoinAppend(parts: seq<string>, last: string)
    ensures Join(parts + [last]) == Join(parts) + last
  {
    if parts != [] {
      assert (parts + [last])[1..] == parts[1..] + [last];
      JoinAppend(parts[1..], last);
    }
  }

  /** Transcription distributes over concatenation: it maps each character
      independently of its neighbours. */
  lemma {:induction false} TranscribeConcat(s: string, t: string, fallback: Fallback)
    ensures Transcribe(s + t, fallback) == Transcribe(s, fallback) + Transcribe(t, fallback)
  {
    if s == [] {
      assert s + t == t;
    } else {
      assert (s + t)[0] == s[0];
      assert (s + t)[1..] == s[1..] + t;
      TranscribeConcat(s[1..], t, fallback);
    }
  }

  /** One turn of the "en" loop: appending the lookup of `s[i]` with
      pass-through extends the transcription of the prefix by one character. */
  lemma PassThroughStep(output: seq<string>, s: string, i: nat)
    requires i < |s|
    requires Join(output) == Transcribe(s[..i], PassThrough)
    ensures Join(output + [Get(s[i], [s[i]])]) == Transcribe(s[..i + 1], PassThrough)
  {
    var c := s[i];
    JoinAppend(output, Get(c, [c]));
    assert s[..i + 1] == s[..i] + [c];
    TranscribeConcat(s[..i], [c], PassThrough);
    assert Transcribe([c], PassThrough) == Unit(c, PassThrough) + Transcribe([], PassThrough);
  }

  /** One turn of the "ml" loop: a non-empty lookup of `s[i]` is appended
      and an empty one skipped; either way the transcription of the prefix
      grows by one character. */
  lemma DropStep(output: seq<string>, s: string, i: nat)
    requires i < |s|
    requires Join(output) == Transcribe(s[..i], Drop)
    ensures |Get(s[i], "")| > 0 ==> Join(output + [Get(s[i], "")]) == Transcribe(s[..i + 1], Drop)
    ensures |Get(s[i], "")| == 0 ==> Join(output) == Transcribe(s[..i + 1], Drop)
  {
    var c := s[i];
    JoinAppend(output, Get(c, ""));
    assert s[..i + 1] == s[..i] + [c];
    TranscribeConcat(s[..i], [c], Drop);
    assert Transcribe([c], Drop) == Unit(c, Drop) + Transcribe([], Drop);
  }

  /** The converter as written: a list of units built by appending inside
      a loop over the characters and joined at the end. "en" lower-cases the
      text first and appends every lookup, falling back to the character
      itself; "ml" looks up with an empty default and appends only non-empty
      results, so its list never holds an empty unit; any other tag skips
      both loops and joins the empty list. */
  method TextToBraille(text: string, lang: string) returns (r: string)
    ensures r == Convert(text, lang)
  {
    var output: seq<string> := [];
    if lang == "en" {
      var lowered := Lower(text);
      var i := 0;
      while i < |lowered|
        invariant 0 <= i <= |lowered|
        invariant Join(output) == Transcribe(lowered[..i], PassThrough)
      {
        var ch := lowered[i];
        PassThroughStep(output, lowered, i);
        output := output + [Get(ch, [ch])];
        i := i + 1;
      }
      assert lowered[..i] == lowered;
    } else if lang == "ml" {
      var i := 0;
      while i < |text|
        invariant 0 <= i <= |text|
        invariant forall k :: 0 <= k < |output| ==> |output[k]| > 0
        invariant Join(output) == Transcribe(text[..i], Drop)
      {
        var ch := text[i];
        var brailleChar := Get(ch, "");
        DropStep(output, text, i);
        if |brailleChar| > 0 {
          output := output + [brailleChar];
        }
        i := i + 1;
      }
      assert text[..i] == text;
    }
    r := Join(output);
  }
}
