/** Properties of the Braille transcoder model: the shape of the symbol
    table, and what `Convert` promises for each language tag. */
module BrailleProperties {
  import opened BrailleConverter

  /** A cell of the Unicode Braille Patterns block. */
  predicate IsCell(c: char)
  {
    '\U{2800}' <= c <= '\U{28FF}'
  }

  predicate IsCellOrSpace(c: char)
  {
    c == ' ' || IsCell(c)
  }

  predicate CellsOrSpaces(s: string)
  {
    forall j :: 0 <= j < |s| ==> IsCellOrSpace(s[j])
  }

  /** The character is a key of the symbol table. */
  predicate IsKey(c: char)
  {
    BrailleMap(c).Some?
  }

  predicate IsMalayalam(c: char)
  {
    '\U{0D00}' <= c <= '\U{0D7F}'
  }

  /** Upper-casing of ASCII small letters, the inverse direction of `LowerChar`. */
  function UpperChar(c: char): (d: char)
    ensures 'a' <= c <= 'z' ==> 'A' <= d <= 'Z'
    ensures d == c || ('a' <= c <= 'z' && d as int == c as int - 32)
  {
    if 'a' <= c <= 'z' then (c as int - 32) as char else c
  }

  function Upper(s: string): (r: string)
    ensures |r| == |s|
  {
    if s == [] then [] else [UpperChar(s[0])] + Upper(s[1..])
  }

  // ---------------------------------------------------------------------
  // The symbol table

  /** Every value is one or two characters: either the space alone, or
      Braille cells only. */
  lemma TableValues(c: char)
    ensures IsKey(c) ==> 1 <= |BrailleMap(c).value| <= 2
    ensures IsKey(c) ==>
      (BrailleMap(c).value == " " ||
       forall j :: 0 <= j < |BrailleMap(c).value| ==> IsCell(BrailleMap(c).value[j]))
  {
  }

  /** The punctuation marks the table holds, and the space. */
  predicate IsListedPunctuation(c: char)
  {
    c == ' ' || c == '.' || c == ',' || c == '?' || c == '!' ||
    c == '"' || c == '\'' || c == '-' || c == '(' || c == ')'
  }

  /** Every key is a small Latin letter, one of the listed punctuation marks
      or the space, or a character of the Malayalam block. */
  lemma TableKeys(c: char)
    ensures IsKey(c) ==> 'a' <= c <= 'z' || IsListedPunctuation(c) || IsMalayalam(c)
  {
  }

  /** In particular no capital letter and no digit is a key. */
  lemma NoCapitalOrDigitKeys(c: char)
    ensures 'A' <= c <= 'Z' || '0' <= c <= '9' ==> !IsKey(c)
  {
    TableKeys(c);
  }

  /** The table is many-to-one, so no decoder can recover the text. */
  lemma TableNotInjective()
    ensures BrailleMap('a') == BrailleMap('\U{0D05}') == Some("\U{2801}")
    ensures BrailleMap('\U{0D1F}') == BrailleMap('\U{0D20}') == Some("\U{283E}")
  {
  }

  /** What one character contributes under each fallback policy. */
  lemma UnitFacts(c: char)
    ensures 1 <= |Unit(c, PassThrough)| <= 2
    ensures !IsKey(c) ==> Unit(c, PassThrough) == [c]
    ensures IsKey(c) ==> CellsOrSpaces(Unit(c, PassThrough))
    ensures |Unit(c, Drop)| <= 2
    ensures |Unit(c, Drop)| == 0 <==> !IsKey(c)
    ensures CellsOrSpaces(Unit(c, Drop))
    ensures IsKey(c) ==> Unit(c, Drop) == Unit(c, PassThrough) == BrailleMap(c).value
  {
    TableValues(c);
  }

  // ---------------------------------------------------------------------
  // Case folding

  lemma {:induction false} LowerAt(s: string, i: nat)
    requires i < |s|
    ensures Lower(s)[i] == LowerChar(s[i])
  {
    if i > 0 {
      LowerAt(s[1..], i - 1);
    }
  }

  lemma {:induction false} LowerConcat(s: string, t: string)
    ensures Lower(s + t) == Lower(s) + Lower(t)
  {
    if s == [] {
      assert s + t == t;
    } else {
      assert (s + t)[0] == s[0];
      assert (s + t)[1..] == s[1..] + t;
      LowerConcat(s[1..], t);
    }
  }

  /** Folding an upper-cased text gives the same as folding the original. */
  lemma {:induction false} LowerUpper(s: string)
    ensures Lower(Upper(s)) == Lower(s)
  {
    if s != [] {
      LowerUpper(s[1..]);
    }
  }

  lemma {:induction false} LowerIdempotent(s: string)
    ensures Lower(Lower(s)) == Lower(s)
  {
    if s != [] {
      LowerIdempotent(s[1..]);
    }
  }

  /** "en" is case-insensitive: upper-casing or lower-casing the text first
      changes nothing. */
  lemma EnglishCaseInsensitive(s: string)
    ensures Convert(Upper(s), "en") == Convert(s, "en")
    ensures Convert(Lower(s), "en") == Convert(s, "en")
  {
    LowerUpper(s);
    LowerIdempotent(s);
  }

  // ---------------------------------------------------------------------
  // Concatenation

  /** Converting a concatenation is concatenating the conversions, for every
      language tag. */
  lemma ConvertConcat(s: string, t: string, lang: string)
    ensures Convert(s + t, lang) == Convert(s, lang) + Convert(t, lang)
  {
    if lang == "en" {
      LowerConcat(s, t);
      TranscribeConcat(Lower(s), Lower(t), PassThrough);
    } else if lang == "ml" {
      TranscribeConcat(s, t, Drop);
    }
  }

  // ---------------------------------------------------------------------
  // Length

  lemma {:induction false} TranscribeLength(s: string, fallback: Fallback)
    ensures |Transcribe(s, fallback)| <= 2 * |s|
    ensures fallback == PassThrough ==> |s| <= |Transcribe(s, fallback)|
  {
    if s != [] {
      UnitFacts(s[0]);
      TranscribeLength(s[1..], fallback);
    }
  }

  /** No tag more than doubles the text; "en" never shortens it, since
      every character yields at least one. */
  lemma ConvertLength(s: string, lang: string)
    ensures |Convert(s, lang)| <= 2 * |s|
    ensures lang == "en" ==> |s| <= |Convert(s, lang)|
  {
    if lang == "en" {
      TranscribeLength(Lower(s), PassThrough);
    } else if lang == "ml" {
      TranscribeLength(s, Drop);
    }
  }

  // ---------------------------------------------------------------------
  // Output alphabet

  lemma {:induction false} DropAlphabet(s: string)
    ensures CellsOrSpaces(Transcribe(s, Drop))
  {
    if s != [] {
      UnitFacts(s[0]);
      DropAlphabet(s[1..]);
    }
  }

  /** "ml" output holds only Braille cells and spaces: no character of the
      text leaks through. */
  lemma MalayalamAlphabet(s: string)
    ensures CellsOrSpaces(Convert(s, "ml"))
  {
    DropAlphabet(s);
  }

  lemma {:induction false} PassThroughAlphabet(s: string)
    ensures forall j :: 0 <= j < |Transcribe(s, PassThrough)| ==>
      IsCellOrSpace(Transcribe(s, PassThrough)[j]) ||
      (Transcribe(s, PassThrough)[j] in s && !IsKey(Transcribe(s, PassThrough)[j]))
  {
    if s != [] {
      UnitFacts(s[0]);
      PassThroughAlphabet(s[1..]);
      var u, rest := Unit(s[0], PassThrough), Transcribe(s[1..], PassThrough);
      forall j | 0 <= j < |u + rest|
        ensures IsCellOrSpace((u + rest)[j]) || ((u + rest)[j] in s && !IsKey((u + rest)[j]))
      {
        if j >= |u| {
          assert (u + rest)[j] == rest[j - |u|];
          assert rest[j - |u|] in s[1..] ==> rest[j - |u|] in s;
        }
      }
    }
  }

  /** "en" output holds Braille cells and spaces, plus the characters of the
      lower-cased text that the table does not hold, passed through. */
  lemma EnglishAlphabet(s: string)
    ensures forall j :: 0 <= j < |Convert(s, "en")| ==>
      IsCellOrSpace(Convert(s, "en")[j]) ||
      (Convert(s, "en")[j] in Lower(s) && !IsKey(Convert(s, "en")[j]))
  {
    PassThroughAlphabet(Lower(s));
  }

  // ---------------------------------------------------------------------
  // Dropping and passing through

  /** The keys of the table among the characters of `s`, in order. */
  function Keys(s: string): (r: string)
    ensures |r| <= |s|
    ensures forall i :: 0 <= i < |r| ==> IsKey(r[i])
    ensures forall i :: 0 <= i < |s| && IsKey(s[i]) ==> s[i] in r
  {
    if s == [] then []
    else if IsKey(s[0]) then [s[0]] + Keys(s[1..])
    else Keys(s[1..])
  }

  /** Filtering only removes characters: every character it keeps comes
      from the text, and none is kept more often than the text holds it. */
  lemma {:induction false} KeysFromText(s: string)
    ensures forall i :: 0 <= i < |Keys(s)| ==> Keys(s)[i] in s
    ensures multiset(Keys(s)) <= multiset(s)
  {
    if s != [] {
      KeysFromText(s[1..]);
      assert s == [s[0]] + s[1..];
      if IsKey(s[0]) {
        assert Keys(s) == [s[0]] + Keys(s[1..]);
        forall i | 0 < i < |Keys(s)| ensures Keys(s)[i] in s {
          assert Keys(s)[i] == Keys(s[1..])[i - 1];
        }
      }
    }
  }

  /** The values of a text made of keys only, concatenated in order: an
      independent statement of what a lookup-only conversion produces. */
  function Translate(s: string): string
    requires forall i :: 0 <= i < |s| ==> IsKey(s[i])
  {
    if s == [] then []
    else
      assert IsKey(s[0]);
      BrailleMap(s[0]).value + Translate(s[1..])
  }

  /** "ml" keeps the keys of the text in order and translates them; all
      other characters are dropped. */
  lemma {:induction false} MalayalamFiltersThenTranslates(s: string)
    ensures Convert(s, "ml") == Translate(Keys(s))
  {
    if s != [] {
      UnitFacts(s[0]);
      MalayalamFiltersThenTranslates(s[1..]);
      if IsKey(s[0]) {
        assert Keys(s) == [s[0]] + Keys(s[1..]);
        assert Keys(s)[1..] == Keys(s[1..]);
      }
    }
  }

  /** "ml" yields the empty string exactly when no character is a key. */
  lemma {:induction false} MalayalamEmptyIff(s: string)
    ensures Convert(s, "ml") == "" <==> forall i :: 0 <= i < |s| ==> !IsKey(s[i])
  {
    if s != [] {
      UnitFacts(s[0]);
      MalayalamEmptyIff(s[1..]);
      assert forall i :: 0 < i < |s| ==> s[i] == s[1..][i - 1];
    }
  }

  /** "ml" does no case folding: capitals and digits vanish. */
  lemma MalayalamDropsCapitalsAndDigits(s: string)
    requires forall i :: 0 <= i < |s| ==> 'A' <= s[i] <= 'Z' || '0' <= s[i] <= '9'
    ensures Convert(s, "ml") == ""
  {
    forall i | 0 <= i < |s| ensures !IsKey(s[i]) {
      NoCapitalOrDigitKeys(s[i]);
    }
    MalayalamEmptyIff(s);
  }

  lemma {:induction false} PassThroughAllKeys(s: string)
    requires forall i :: 0 <= i < |s| ==> IsKey(s[i])
    ensures Transcribe(s, PassThrough) == Translate(s)
  {
    if s != [] {
      UnitFacts(s[0]);
      PassThroughAllKeys(s[1..]);
    }
  }

  lemma {:induction false} PassThroughNoKeys(s: string)
    requires forall i :: 0 <= i < |s| ==> !IsKey(s[i])
    ensures Transcribe(s, PassThrough) == s
  {
    if s != [] {
      UnitFacts(s[0]);
      PassThroughNoKeys(s[1..]);
    }
  }

  /** When every character of the lower-cased text is a key, "en" agrees
      with "ml" on the lower-cased text; when none is, "en" returns the
      lower-cased text itself. */
  lemma EnglishBetweenTranslateAndIdentity(s: string)
    ensures (forall i :: 0 <= i < |s| ==> IsKey(Lower(s)[i])) ==>
      Convert(s, "en") == Translate(Lower(s)) == Convert(Lower(s), "ml")
    ensures (forall i :: 0 <= i < |s| ==> !IsKey(Lower(s)[i])) ==>
      Convert(s, "en") == Lower(s)
  {
    if forall i :: 0 <= i < |s| ==> IsKey(Lower(s)[i]) {
      PassThroughAllKeys(Lower(s));
      MalayalamFiltersThenTranslates(Lower(s));
      KeysOfKeys(Lower(s));
    }
    if forall i :: 0 <= i < |s| ==> !IsKey(Lower(s)[i]) {
      PassThroughNoKeys(Lower(s));
    }
  }

  lemma {:induction false} KeysOfKeys(s: string)
    requires forall i :: 0 <= i < |s| ==> IsKey(s[i])
    ensures Keys(s) == s
  {
    if s != [] {
      KeysOfKeys(s[1..]);
    }
  }

  // ---------------------------------------------------------------------
  // Single characters and examples

  /** One character under "en": the table value of the folded character,
      or the folded character itself when it is not a key; a capital gives
      what its small letter gives. */
  lemma SingleCharacterEnglish(c: char)
    ensures Convert([c], "en") == Get(LowerChar(c), [LowerChar(c)])
    ensures Convert([c], "en") == Convert([LowerChar(c)], "en")
  {
    assert Lower([c]) == [LowerChar(c)];
    assert Lower([LowerChar(c)]) == [LowerChar(c)];
    assert Transcribe([LowerChar(c)], PassThrough) == Unit(LowerChar(c), PassThrough) + Transcribe([], PassThrough);
  }

  /** One character under "ml": its table value, or nothing. */
  lemma SingleCharacterMalayalam(c: char)
    ensures IsKey(c) ==> Convert([c], "ml") == BrailleMap(c).value
    ensures !IsKey(c) ==> Convert([c], "ml") == ""
  {
    assert Transcribe([c], Drop) == Unit(c, Drop) + Transcribe([], Drop);
  }

  lemma ExampleEnglish()
    ensures Convert("a1b", "en") == "\U{2801}1\U{2803}"
  {
  }

  lemma ExampleCapital()
    ensures Convert("A", "en") == Convert("a", "en") == "\U{2801}"
  {
  }

  lemma ExampleMalayalamLatin()
    ensures Convert("a1b", "ml") == "\U{2801}\U{2803}"
  {
  }

  /** The space is a key mapped to itself, so "ml" keeps word boundaries. */
  lemma ExampleMalayalamSpace()
    ensures Convert("a b", "ml") == "\U{2801} \U{2803}"
  {
  }

  lemma ExampleMalayalam()
    ensures Convert("\U{0D15}\U{0D09}", "ml") == "\U{2805}\U{2825}"
  {
  }
}
