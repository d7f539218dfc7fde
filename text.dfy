/** The string operations the program applies to headers, item numbers and report
    cells: Python's `str.strip()`, `str.lower()`, `str.upper()`, the `<` order on
    strings and `str.join`. */
module Text {

  /** Python's `str.isspace()`: the characters `str.strip()` removes by default. */
  predicate IsSpace(c: char) {
    var n := c as int;
    || 9 <= n <= 13 || 28 <= n <= 32 || n == 0x85 || n == 0xA0 || n == 0x1680
    || 0x2000 <= n <= 0x200A || n == 0x2028 || n == 0x2029 || n == 0x202F
    || n == 0x205F || n == 0x3000
  }

  function LowerChar(c: char): char {
    if 'A' <= c <= 'Z' then (c as int + 32) as char else c
  }

  function UpperChar(c: char): char {
    if 'a' <= c <= 'z' then (c as int - 32) as char else c
  }

  /** `s.lower()`, on the ASCII letters. */
  function Lower(s: string): string {
    if s == [] then [] else [LowerChar(s[0])] + Lower(s[1..])
  }

  /** `s.upper()`, on the ASCII letters. */
  function Upper(s: string): string {
    if s == [] then [] else [UpperChar(s[0])] + Upper(s[1..])
  }

  /** `s.lstrip()`: drops the leading whitespace. */
  function StripLeft(s: string): string {
    if s != [] && IsSpace(s[0]) then StripLeft(s[1..]) else s
  }

  /** `s.rstrip()`: drops the trailing whitespace. */
  function StripRight(s: string): string {
    if s != [] && IsSpace(s[|s| - 1]) then StripRight(s[..|s| - 1]) else s
  }

  /** `s.strip()`. */
  function Strip(s: string): string {
    StripRight(StripLeft(s))
  }

  lemma {:induction false} LowerAt(s: string)
    ensures |Lower(s)| == |s|
    ensures forall i :: 0 <= i < |s| ==> Lower(s)[i] == LowerChar(s[i])
  {
    if s != [] {
      LowerAt(s[1..]);
    }
  }

  lemma {:induction false} UpperAt(s: string)
    ensures |Upper(s)| == |s|
    ensures forall i :: 0 <= i < |s| ==> Upper(s)[i] == UpperChar(s[i])
  {
    if s != [] {
      UpperAt(s[1..]);
    }
  }

  /** `s.lstrip()` removes a run of whitespace at the front and nothing else. */
  lemma {:induction false} StripLeftSpec(s: string)
    ensures |StripLeft(s)| <= |s| && StripLeft(s) == s[|s| - |StripLeft(s)|..]
    ensures forall i :: 0 <= i < |s| - |StripLeft(s)| ==> IsSpace(s[i])
    ensures StripLeft(s) != [] ==> !IsSpace(StripLeft(s)[0])
  {
    if s != [] && IsSpace(s[0]) {
      var rest := s[1..];
      StripLeftSpec(rest);
      var k := |s| - |StripLeft(s)|;
      assert StripLeft(s) == StripLeft(rest);
      assert s[k..] == rest[k - 1..];
      forall i | 0 <= i < k ensures IsSpace(s[i]) {
        if i > 0 {
          assert s[i] == rest[i - 1];
        }
      }
    }
  }

  /** `s.rstrip()` removes a run of whitespace at the end and nothing else. */
  lemma {:induction false} StripRightSpec(s: string)
    ensures |StripRight(s)| <= |s| && StripRight(s) == s[..|StripRight(s)|]
    ensures forall i :: |StripRight(s)| <= i < |s| ==> IsSpace(s[i])
    ensures StripRight(s) != [] ==> !IsSpace(StripRight(s)[|StripRight(s)| - 1])
  {
    if s != [] && IsSpace(s[|s| - 1]) {
      StripRightSpec(s[..|s| - 1]);
    }
  }

  /** Python's `a < b` on strings: lexicographic by code point, a proper prefix first. */
  predicate Less(a: string, b: string) {
    if a == [] then b != []
    else if b == [] then false
    else if a[0] != b[0] then a[0] < b[0]
    else Less(a[1..], b[1..])
  }

  lemma {:induction false} LessIrreflexive(a: string)
    ensures !Less(a, a)
  {
    if a != [] {
      LessIrreflexive(a[1..]);
    }
  }

  lemma {:induction false} LessTransitive(a: string, b: string, c: string)
    requires Less(a, b) && Less(b, c)
    ensures Less(a, c)
  {
    if a != [] && b != [] && c != [] && a[0] == b[0] && b[0] == c[0] {
      LessTransitive(a[1..], b[1..], c[1..]);
    }
  }

  lemma {:induction false} LessTrichotomy(a: string, b: string)
    ensures Less(a, b) || a == b || Less(b, a)
  {
    if a != [] && b != [] && a[0] == b[0] {
      LessTrichotomy(a[1..], b[1..]);
      if a[1..] == b[1..] {
        assert a == [a[0]] + a[1..] && b == [b[0]] + b[1..];
      }
    }
  }

  lemma LessAsymmetric(a: string, b: string)
    requires Less(a, b)
    ensures !Less(b, a) && a != b
  {
    LessIrreflexive(a);
    if Less(b, a) {
      LessTransitive(a, b, a);
    }
  }

  /** `sep.join(xs)`. */
  function Join(xs: seq<string>, sep: string): (r: string)
    ensures xs == [] ==> r == []
    ensures |xs| == 1 ==> r == xs[0]
  {
    if xs == [] then []
    else if |xs| == 1 then xs[0]
    else xs[0] + sep + Join(xs[1..], sep)
  }

  /** One more element is joined after the separator. */
  lemma {:induction false} JoinAppend(xs: seq<string>, x: string, sep: string)
    requires xs != []
    ensures Join(xs + [x], sep) == Join(xs, sep) + sep + x
  {
    assert (xs + [x])[0] == xs[0] && (xs + [x])[1..] == xs[1..] + [x];
    if |xs| > 1 {
      JoinAppend(xs[1..], x, sep);
    }
  }

  /** The characters `str.title()` changes, as far as this model goes: the ASCII letters. */
  predicate IsLetter(c: char) {
    'a' <= c <= 'z' || 'A' <= c <= 'Z'
  }

  /** One character of `str.title()` on the ASCII letters: a letter is upper-cased when
      it starts the string or follows a non-letter and lower-cased when it follows a
      letter; any other character is kept. */
  function TitleChar(c: char, afterLetter: bool): char {
    if !IsLetter(c) then c else if afterLetter then LowerChar(c) else UpperChar(c)
  }

  function TitleFrom(s: string, afterLetter: bool): string {
    if s == [] then [] else [TitleChar(s[0], afterLetter)] + TitleFrom(s[1..], IsLetter(s[0]))
  }

  /** `s.title()`, on the ASCII letters. */
  function Title(s: string): string {
    TitleFrom(s, false)
  }

  /** `str.title()` character by character: each character is title-cased according to
      whether the character before it is a letter. */
  lemma {:induction false} TitleFromAt(s: string, afterLetter: bool)
    ensures |TitleFrom(s, afterLetter)| == |s|
    ensures forall i :: 0 <= i < |s| ==>
      TitleFrom(s, afterLetter)[i] == TitleChar(s[i], if i == 0 then afterLetter else IsLetter(s[i - 1]))
  {
    if s != [] {
      var rest := s[1..];
      TitleFromAt(rest, IsLetter(s[0]));
      forall i | 0 <= i < |s|
        ensures TitleFrom(s, afterLetter)[i] == TitleChar(s[i], if i == 0 then afterLetter else IsLetter(s[i - 1]))
      {
        if i > 0 {
          assert TitleFrom(s, afterLetter)[i] == TitleFrom(rest, IsLetter(s[0]))[i - 1];
          assert rest[i - 1] == s[i];
          if i > 1 {
            assert rest[i - 2] == s[i - 1];
          }
        }
      }
    }
  }
}
