/** The string functions of the Go standard library that the handlers use. */
module Text {

  /** White space as `strings.TrimSpace` understands it: the Unicode property White_Space. */
  predicate IsSpace(c: char) {
    || '\t' <= c <= '\r'
    || c == ' ' || c == '\U{85}' || c == '\U{A0}' || c == '\U{1680}' || c == '\U{2028}' || c == '\U{2029}'
    || c == '\U{202F}' || c == '\U{205F}' || c == '\U{3000}'
    || '\U{2000}' <= c <= '\U{200A}'
  }

  /** The code points of White_Space, one by one. */
  const WHITE_SPACE := [0x9, 0xA, 0xB, 0xC, 0xD, 0x20, 0x85, 0xA0, 0x1680, 0x2000, 0x2001, 0x2002, 0x2003, 0x2004,
                        0x2005, 0x2006, 0x2007, 0x2008, 0x2009, 0x200A, 0x2028, 0x2029, 0x202F, 0x205F, 0x3000]

  lemma SpaceIsWhiteSpace(c: char)
    ensures IsSpace(c) <==> c as int in WHITE_SPACE
  {
  }

  function TrimLeft(s: string): string {
    if s != "" && IsSpace(s[0]) then TrimLeft(s[1..]) else s
  }

  function TrimRight(s: string): string {
    if s != "" && IsSpace(s[|s| - 1]) then TrimRight(s[..|s| - 1]) else s
  }

  function TrimSpace(s: string): string {
    TrimRight(TrimLeft(s))
  }

  lemma {:induction false} TrimLeftFacts(s: string)
    ensures var r := TrimLeft(s); (r == "" || !IsSpace(r[0])) && |r| <= |s| && r == s[|s| - |r|..]
  {
    if s != "" && IsSpace(s[0]) { TrimLeftFacts(s[1..]); }
  }

  lemma {:induction false} TrimRightFacts(s: string)
    ensures var r := TrimRight(s); (r == "" || !IsSpace(r[|r| - 1])) && r <= s
  {
    if s != "" && IsSpace(s[|s| - 1]) { TrimRightFacts(s[..|s| - 1]); }
  }

  predicate Trimmed(s: string) {
    s == "" || (!IsSpace(s[0]) && !IsSpace(s[|s| - 1]))
  }

  lemma TrimSpaceTrims(s: string)
    ensures Trimmed(TrimSpace(s))
    ensures Trimmed(s) <==> TrimSpace(s) == s
  {
    var l := TrimLeft(s);
    TrimLeftFacts(s);
    TrimRightFacts(l);
    assert TrimRight(l) != "" ==> TrimRight(l)[0] == l[0];
    if TrimSpace(s) == s {
      assert |l| == |s|;
    }
  }

  predicate AllSpace(s: string) {
    forall c | c in s :: IsSpace(c)
  }

  lemma {:induction false} TrimLeftRemoves(s: string)
    ensures |TrimLeft(s)| <= |s| && AllSpace(s[..|s| - |TrimLeft(s)|])
  {
    if s != "" && IsSpace(s[0]) {
      TrimLeftRemoves(s[1..]);
      var k := |s| - |TrimLeft(s)|;
      assert s[..k] == [s[0]] + s[1..][..k - 1];
    }
  }

  lemma {:induction false} TrimRightRemoves(s: string)
    ensures |TrimRight(s)| <= |s| && AllSpace(s[|TrimRight(s)|..])
  {
    if s != "" && IsSpace(s[|s| - 1]) {
      var t := s[..|s| - 1];
      TrimRightRemoves(t);
      TrimRightFacts(t);
      assert s[|TrimRight(t)|..] == t[|TrimRight(t)|..] + [s[|s| - 1]];
    }
  }

  /** Trimming takes away white space on both sides and nothing else. */
  lemma TrimSpaceKeepsTheRest(s: string) returns (before: string, after: string)
    ensures s == before + TrimSpace(s) + after && AllSpace(before) && AllSpace(after)
  {
    var l := TrimLeft(s);
    TrimLeftFacts(s);
    TrimLeftRemoves(s);
    TrimRightFacts(l);
    TrimRightRemoves(l);
    before, after := s[..|s| - |l|], l[|TrimRight(l)|..];
  }

  /** `strings.ToLower` on the letters whose lower case is an ASCII letter: `A` to `Z`, the Kelvin
      sign and the dotted capital I. Every other letter stays outside ASCII under lower-casing. */
  function LowerChar(c: char): char {
    if 'A' <= c <= 'Z' then (c as int + 32) as char
    else if c == '\U{212A}' then 'k'
    else if c == '\U{130}' then 'i'
    else c
  }

  function ToLower(s: string): (r: string)
    ensures |r| == |s| && forall i | 0 <= i < |s| :: r[i] == LowerChar(s[i])
  {
    seq(|s|, i requires 0 <= i < |s| => LowerChar(s[i]))
  }

  /** The normal form of a slug: trimmed, then lower-cased. */
  function NormalSlug(s: string): string {
    ToLower(TrimSpace(s))
  }

  lemma LowerCharFacts(c: char)
    ensures LowerChar(LowerChar(c)) == LowerChar(c)
    ensures IsSpace(LowerChar(c)) ==> IsSpace(c)
  {
  }

  lemma LowerKeepsTrimmed(t: string)
    requires Trimmed(t)
    ensures Trimmed(ToLower(t))
  {
    if t != "" {
      LowerCharFacts(t[0]);
      LowerCharFacts(t[|t| - 1]);
    }
  }

  lemma LowerTwice(t: string)
    ensures ToLower(ToLower(t)) == ToLower(t)
  {
    forall i | 0 <= i < |t| ensures ToLower(ToLower(t))[i] == ToLower(t)[i] {
      LowerCharFacts(t[i]);
    }
  }

  lemma NormalSlugIdempotent(s: string)
    ensures NormalSlug(NormalSlug(s)) == NormalSlug(s)
    ensures forall c | c in NormalSlug(s) :: !('A' <= c <= 'Z')
  {
    TrimSpaceTrims(s);
    LowerKeepsTrimmed(TrimSpace(s));
    TrimSpaceTrims(NormalSlug(s));
    LowerTwice(TrimSpace(s));
  }

  /** `strings.Split` with a one-character separator. */
  function Split(s: string, sep: char): (parts: seq<string>)
    ensures |parts| >= 1
  {
    if s == "" then [""]
    else
      var rest := Split(s[1..], sep);
      if s[0] == sep then [""] + rest else [[s[0]] + rest[0]] + rest[1..]
  }

  /** `strings.Join` with a one-character separator. */
  function Join(parts: seq<string>, sep: char): string {
    if |parts| == 0 then "" else if |parts| == 1 then parts[0] else parts[0] + [sep] + Join(parts[1..], sep)
  }

  lemma {:induction false} JoinSplit(s: string, sep: char)
    ensures Join(Split(s, sep), sep) == s
    ensures forall p | p in Split(s, sep) :: sep !in p
  {
    if s != "" {
      JoinSplit(s[1..], sep);
      var rest := Split(s[1..], sep);
      if s[0] == sep {
        assert ([""] + rest)[1..] == rest;
        assert s == [sep] + s[1..];
      } else {
        var all := [[s[0]] + rest[0]] + rest[1..];
        assert all[1..] == rest[1..];
        assert s == [s[0]] + s[1..];
        assert |rest| > 1 ==> Join(all, sep) == [s[0]] + (rest[0] + [sep] + Join(rest[1..], sep));
      }
    }
  }

  /** Splitting undoes joining, for parts that do not contain the separator. */
  lemma {:induction false} SplitJoin(parts: seq<string>, sep: char)
    requires |parts| >= 1 && forall p | p in parts :: sep !in p
    ensures Split(Join(parts, sep), sep) == parts
    decreases |parts|, |parts[0]|
  {
    var j := Join(parts, sep);
    if parts[0] == "" {
      if |parts| > 1 {
        SplitJoin(parts[1..], sep);
        assert j == [sep] + Join(parts[1..], sep) && j[1..] == Join(parts[1..], sep);
        assert parts == [""] + parts[1..];
      } else {
        assert parts == [""];
      }
    } else {
      var shorter := [parts[0][1..]] + parts[1..];
      forall p | p in shorter ensures sep !in p {
        if p == parts[0][1..] { assert parts[0] in parts; }
      }
      SplitJoin(shorter, sep);
      assert shorter[1..] == parts[1..];
      assert j[0] == parts[0][0] && j[0] in parts[0] && parts[0] in parts;
      assert j[1..] == Join(shorter, sep);
      assert parts[0] == [parts[0][0]] + parts[0][1..];
      assert parts == [parts[0]] + parts[1..];
    }
  }

  // ---- The letters and digits of ASCII ----

  const CAPITALS := "ABCDEFGHIJKLMNOPQRSTUVWXYZ"
  const SMALL := "abcdefghijklmnopqrstuvwxyz"
  const DIGITS := "0123456789"

  /** The letters follow one another from `first` on. */
  predicate Row(letters: string, first: char) {
    first as int + |letters| <= 128 && forall i | 0 <= i < |letters| :: letters[i] as int == first as int + i
  }

  lemma InRow(letters: string, first: char, c: char)
    requires Row(letters, first)
    ensures c in letters <==> first as int <= c as int < first as int + |letters|
  {
    if first as int <= c as int < first as int + |letters| {
      assert letters[c as int - first as int] == c;
    }
  }

  lemma Rows()
    ensures Row(CAPITALS, 'A') && Row(SMALL, 'a') && Row(DIGITS, '0')
    ensures |CAPITALS| == 26 && |SMALL| == 26 && |DIGITS| == 10
  {
  }
}
