/** Which texts the service takes for a slug, letter by letter, and what it stores for them. */
module SlugTexts {
  import opened Text
  import opened Slugs

  /** The Kelvin sign and the dotted capital I, the two letters outside ASCII with a lower case in ASCII. */
  const KELVIN := '\U{212A}'
  const DOTTED := '\U{130}'

  predicate IsAscii(c: char) {
    c < '\U{80}'
  }

  /** Lower-casing takes each capital to the small letter at its place in the alphabet, and leaves every other ASCII
      character alone. */
  lemma LowerCaseAlphabet(c: char, k: nat)
    ensures k < 26 ==> LowerChar(CAPITALS[k]) == SMALL[k]
    ensures IsAscii(c) && c !in CAPITALS ==> LowerChar(c) == c
  {
    Rows();
    InRow(CAPITALS, 'A', c);
  }

  predicate SlugLetter(c: char) {
    c in CAPITALS || c in SMALL || c in DIGITS || c == KELVIN || c == DOTTED
  }

  predicate SlugPart(p: string) {
    p != "" && forall c | c in p :: SlugLetter(c)
  }

  /** Letters of either case and digits, in non-empty parts with hyphens between them. */
  predicate SlugText(s: string) {
    forall p | p in Split(s, '-') :: SlugPart(p)
  }

  lemma LetterIffAlnum(c: char)
    ensures SlugLetter(c) <==> IsAlnum(LowerChar(c))
  {
    Rows();
    InRow(CAPITALS, 'A', c);
    InRow(SMALL, 'a', c);
    InRow(DIGITS, '0', c);
  }

  lemma PartValidIff(p: string)
    ensures Segment(ToLower(p)) <==> SlugPart(p)
  {
    forall i | 0 <= i < |p| ensures SlugLetter(p[i]) <==> IsAlnum(ToLower(p)[i]) {
      LetterIffAlnum(p[i]);
    }
    hide SlugLetter, LowerChar, IsAlnum;
    assert forall i | 0 <= i < |p| :: p[i] in p && ToLower(p)[i] in ToLower(p);
  }

  function Lowered(parts: seq<string>): seq<string> {
    if parts == [] then [] else [ToLower(parts[0])] + Lowered(parts[1..])
  }

  lemma LoweredFirst(c: char, p: string, more: seq<string>)
    ensures Lowered([[c] + p] + more) == [[LowerChar(c)] + ToLower(p)] + Lowered(more)
    ensures Lowered([""] + more) == [""] + Lowered(more)
  {
    assert ToLower([c] + p) == [LowerChar(c)] + ToLower(p);
    assert ([[c] + p] + more)[1..] == more && ([""] + more)[1..] == more;
  }

  lemma LowerCons(s: string)
    requires s != ""
    ensures ToLower(s) == [LowerChar(s[0])] + ToLower(s[1..]) && (LowerChar(s[0]) == '-' <==> s[0] == '-')
  {
  }

  /** Lower-casing before or after splitting at the hyphens makes no difference. */
  lemma {:induction false} SplitLower(s: string)
    ensures Split(ToLower(s), '-') == Lowered(Split(s, '-'))
  {
    if s != "" {
      SplitLower(s[1..]);
      LowerCons(s);
      var low, parts := ToLower(s), Split(s[1..], '-');
      assert low[1..] == ToLower(s[1..]);
      LoweredFirst(s[0], parts[0], parts[1..]);
      LoweredFirst(s[0], "", parts);
      assert parts == [parts[0]] + parts[1..];
      assert Lowered(parts) == [ToLower(parts[0])] + Lowered(parts[1..]);
    }
    hide ToLower, LowerChar;
  }

  lemma {:induction false} LoweredValid(parts: seq<string>)
    ensures (forall p | p in Lowered(parts) :: Segment(p)) <==> (forall p | p in parts :: SlugPart(p))
  {
    if parts != [] {
      LoweredValid(parts[1..]);
      PartValidIff(parts[0]);
      var low := Lowered(parts[1..]);
      assert Lowered(parts) == [ToLower(parts[0])] + low;
      assert parts == [parts[0]] + parts[1..];
      assert ToLower(parts[0]) in Lowered(parts) && parts[0] in parts;
      assert forall p | p in low :: p in Lowered(parts);
    }
    hide Segment, SlugPart, ToLower;
  }

  lemma SlugTextLowered(s: string)
    ensures ValidSlug(ToLower(s)) <==> SlugText(s)
  {
    SplitLower(s);
    LoweredValid(Split(s, '-'));
    hide Segment, SlugPart, Split, ToLower;
  }

  /** The letter itself, or its small form. */
  predicate SmallLetter(low: char, c: char) {
    || (low == c && c !in CAPITALS && c != KELVIN && c != DOTTED)
    || (exists k: nat | k < 26 :: c == CAPITALS[k] && low == SMALL[k])
    || (c == KELVIN && low == 'k') || (c == DOTTED && low == 'i')
  }

  lemma LowerIsSmall(c: char)
    ensures SmallLetter(LowerChar(c), c)
  {
    Rows();
    InRow(CAPITALS, 'A', c);
    if 'A' <= c <= 'Z' {
      var k: nat := c as int - 65;
      assert c == CAPITALS[k] && LowerChar(c) == SMALL[k];
    }
  }

  /** One text is the other with its capitals made small. */
  predicate SmallOf(low: string, s: string) {
    |low| == |s| && forall i | 0 <= i < |s| :: SmallLetter(low[i], s[i])
  }

  /** A text makes a slug exactly if, trimmed, it consists of letters and digits in non-empty parts with hyphens
      between them; what is stored is that text with its capitals made small. */
  lemma SlugTextMeaning(text: string)
    ensures ValidSlug(NormalSlug(text)) <==> SlugText(TrimSpace(text))
    ensures SmallOf(NormalSlug(text), TrimSpace(text))
  {
    var s := TrimSpace(text);
    SlugTextLowered(s);
    forall i | 0 <= i < |s| ensures SmallLetter(ToLower(s)[i], s[i]) {
      LowerIsSmall(s[i]);
    }
    hide SlugText, ValidSlug, TrimSpace, SmallLetter;
  }
}
