/** The slug grammar: what `^[a-z0-9]+(?:-[a-z0-9]+)*$` accepts, and the recogniser that splits. */
module Slugs {
  import opened Text

  datatype Regex = Alnum | Char(c: char) | Cat(first: Regex, second: Regex) | Star(body: Regex)

  predicate IsAlnum(c: char) {
    'a' <= c <= 'z' || '0' <= c <= '9'
  }

  /** The language of a regular expression. */
  ghost predicate Lang(r: Regex, s: string)
    decreases r, |s|
  {
    match r
    case Alnum => |s| == 1 && IsAlnum(s[0])
    case Char(c) => s == [c]
    case Cat(a, b) => exists i {:trigger s[..i]} | 0 <= i <= |s| :: Lang(a, s[..i]) && Lang(b, s[i..])
    case Star(a) => s == "" || exists i {:trigger s[..i]} | 0 < i <= |s| :: Lang(a, s[..i]) && Lang(r, s[i..])
  }

  const SEGMENT := Cat(Alnum, Star(Alnum))
  const TAIL := Cat(Char('-'), SEGMENT)
  const SLUG := Cat(SEGMENT, Star(TAIL))

  predicate Segment(p: string) {
    p != "" && forall c | c in p :: IsAlnum(c)
  }

  predicate ValidSlug(s: string) {
    forall p | p in Split(s, '-') :: Segment(p)
  }

  lemma {:induction false} StarAlnum(s: string)
    ensures Lang(Star(Alnum), s) <==> forall c | c in s :: IsAlnum(c)
  {
    if s != "" {
      StarAlnum(s[1..]);
      assert s == s[..1] + s[1..] && s[..1] == [s[0]];
      assert Lang(Alnum, s[..1]) <==> IsAlnum(s[0]);
    }
  }

  lemma SegmentLanguage(s: string)
    ensures Lang(SEGMENT, s) <==> Segment(s)
  {
    if Lang(SEGMENT, s) {
      var i :| 0 <= i <= |s| && Lang(Alnum, s[..i]) && Lang(Star(Alnum), s[i..]);
      StarAlnum(s[i..]);
      assert s == s[..i] + s[i..];
    }
    if Segment(s) {
      StarAlnum(s[1..]);
      assert Lang(Alnum, s[..1]);
    }
  }

  /** Splitting after a part that does not contain the separator. */
  lemma {:induction false} SplitFirst(p: string, rest: string)
    requires '-' !in p
    ensures Split(p, '-') == [p]
    ensures Split(p + "-" + rest, '-') == [p] + Split(rest, '-')
  {
    var s := p + "-" + rest;
    if p == "" {
      assert s[0] == '-' && s[1..] == rest;
    } else {
      SplitFirst(p[1..], rest);
      assert s[0] == p[0] && s[1..] == p[1..] + "-" + rest;
      assert p == [p[0]] + p[1..];
    }
  }

  /** A first segment ending at `i`, and then nothing or a hyphen and another slug. */
  predicate FirstEndsAt(s: string, i: int) {
    && 0 <= i <= |s| && Segment(s[..i])
    && (i == |s| || (s[i] == '-' && ValidSlug(s[i + 1..])))
  }

  lemma FirstSegment(s: string)
    ensures ValidSlug(s) <==> exists i :: FirstEndsAt(s, i)
  {
    if i :| FirstEndsAt(s, i) {
      if i < |s| {
        SplitFirst(s[..i], s[i + 1..]);
        assert s == s[..i] + "-" + s[i + 1..];
      } else {
        SplitFirst(s[..i], "");
        assert s == s[..i];
      }
    }
    if ValidSlug(s) {
      var parts := Split(s, '-');
      JoinSplit(s, '-');
      var i := |parts[0]|;
      assert parts[0] in parts;
      if |parts| == 1 {
        assert s[..i] == s == parts[0];
      } else {
        SplitJoin(parts[1..], '-');
        assert s == parts[0] + ['-'] + Join(parts[1..], '-');
        assert s[..i] == parts[0] && s[i] == '-' && s[i + 1..] == Join(parts[1..], '-');
      }
      assert FirstEndsAt(s, i);
    }
  }

  lemma {:induction false} TailLanguage(s: string)
    ensures Lang(Star(TAIL), s) <==> s == "" || (s[0] == '-' && ValidSlug(s[1..]))
    decreases |s|
  {
    if s != "" {
      forall i | 0 < i <= |s|
        ensures Lang(TAIL, s[..i]) && Lang(Star(TAIL), s[i..]) <==> s[0] == '-' && FirstEndsAt(s[1..], i - 1)
      {
        TailLanguage(s[i..]);
        HyphenSegment(s[..i]);
        assert s[1..][..i - 1] == s[..i][1..];
        assert i < |s| ==> s[1..][i - 1] == s[i] && s[1..][i..] == s[i..][1..];
      }
      if Lang(Star(TAIL), s) {
        var i :| 0 < i <= |s| && Lang(TAIL, s[..i]) && Lang(Star(TAIL), s[i..]);
        assert FirstEndsAt(s[1..], i - 1);
        FirstSegment(s[1..]);
      }
      if s[0] == '-' && ValidSlug(s[1..]) {
        FirstSegment(s[1..]);
        var j :| FirstEndsAt(s[1..], j);
        var i := j + 1;
        assert FirstEndsAt(s[1..], i - 1);
        assert Lang(TAIL, s[..i]) && Lang(Star(TAIL), s[i..]);
      }
    }
  }

  lemma HyphenSegment(s: string)
    requires s != ""
    ensures Lang(TAIL, s) <==> s[0] == '-' && Segment(s[1..])
  {
    SegmentLanguage(s[1..]);
    if Lang(TAIL, s) {
      var i :| 0 <= i <= |s| && Lang(Char('-'), s[..i]) && Lang(SEGMENT, s[i..]);
      assert i == 1;
    }
    if s[0] == '-' && Segment(s[1..]) {
      assert s[..1] == ['-'];
    }
  }

  /** The recogniser decides exactly the regular expression's language, and the segments it finds
      join back to the string. */
  lemma SlugLanguage(s: string)
    ensures Lang(SLUG, s) <==> ValidSlug(s)
    ensures Join(Split(s, '-'), '-') == s
  {
    JoinSplit(s, '-');
    FirstSegment(s);
    forall i | 0 <= i <= |s|
      ensures Lang(SEGMENT, s[..i]) && Lang(Star(TAIL), s[i..]) <==> FirstEndsAt(s, i)
    {
      SegmentLanguage(s[..i]);
      TailLanguage(s[i..]);
      assert i < |s| ==> s[i..][1..] == s[i + 1..];
    }
  }
}
