/** Normalisation of gateway error codes: strip surrounding blanks, then upper-case the ASCII letters. */
module ErrorCodes {

  /** The characters that Python's strip removes. */
  predicate IsBlank(c: char) {
    || c == ' ' || '\t' <= c <= '\r' || '\U{1c}' <= c <= '\U{1f}' || c == '\U{85}' || c == '\U{a0}'
    || c == '\U{1680}' || '\U{2000}' <= c <= '\U{200a}' || c == '\U{2028}' || c == '\U{2029}'
    || c == '\U{202f}' || c == '\U{205f}' || c == '\U{3000}'
  }

  function UpperChar(c: char): char {
    if 'a' <= c <= 'z' then 'A' + (c - 'a') else c
  }

  function Upper(s: string): (r: string)
    ensures |r| == |s|
    ensures forall i :: 0 <= i < |s| ==> r[i] == UpperChar(s[i])
  {
    if s == "" then "" else [UpperChar(s[0])] + Upper(s[1..])
  }

  function StripLeft(s: string): string {
    if s != "" && IsBlank(s[0]) then StripLeft(s[1..]) else s
  }

  function StripRight(s: string): string {
    if s != "" && IsBlank(s[|s| - 1]) then StripRight(s[..|s| - 1]) else s
  }

  function Normalize(code: string): string {
    Upper(StripRight(StripLeft(code)))
  }

  /** Tab to carriage return, the four separators, the space, and the Unicode spaces. */
  lemma WhichAreBlank(c: char)
    ensures IsBlank(c) <==> c in {
      '\t', '\n', '\U{b}', '\U{c}', '\r', '\U{1c}', '\U{1d}', '\U{1e}', '\U{1f}', ' ', '\U{85}', '\U{a0}',
      '\U{1680}', '\U{2000}', '\U{2001}', '\U{2002}', '\U{2003}', '\U{2004}', '\U{2005}', '\U{2006}',
      '\U{2007}', '\U{2008}', '\U{2009}', '\U{200a}', '\U{2028}', '\U{2029}', '\U{202f}', '\U{205f}',
      '\U{3000}'}
  {
    assert '\t' <= c <= '\r' <==> c in {'\t', '\n', '\U{b}', '\U{c}', '\r'};
    assert '\U{1c}' <= c <= '\U{1f}' <==> c in {'\U{1c}', '\U{1d}', '\U{1e}', '\U{1f}'};
    assert '\U{2000}' <= c <= '\U{200a}' <==>
           c in {'\U{2000}', '\U{2001}', '\U{2002}', '\U{2003}', '\U{2004}', '\U{2005}', '\U{2006}',
                 '\U{2007}', '\U{2008}', '\U{2009}', '\U{200a}'};
  }

  lemma EmptyIsNormal()
    ensures Normalize("") == ""
  {
  }

  predicate AllBlank(s: string) {
    forall i :: 0 <= i < |s| ==> IsBlank(s[i])
  }

  /** What normalising does: it cuts blanks off both ends, all of them, and turns the small letters that are left into
      capitals, and nothing else. */
  lemma {:induction false} NormalizeMeans(code: string) returns (left: string, core: string, right: string)
    ensures code == left + core + right && AllBlank(left) && AllBlank(right)
    ensures core != "" ==> !IsBlank(core[0]) && !IsBlank(core[|core| - 1])
    ensures var r := Normalize(code);
            && |r| == |core|
            && forall i :: 0 <= i < |core| ==>
                 r[i] == if 'a' <= core[i] <= 'z' then 'A' + (core[i] - 'a') else core[i]
  {
    var rest: string;
    left, rest := CutLeft(code);
    core, right := CutRight(rest);
    if core != "" {
      FirstSurvives(rest, core, right);
    }
  }

  lemma {:induction false} CutLeft(s: string) returns (left: string, rest: string)
    ensures s == left + rest && AllBlank(left) && rest == StripLeft(s) && (rest != "" ==> !IsBlank(rest[0]))
  {
    if s != "" && IsBlank(s[0]) {
      left, rest := CutLeft(s[1..]);
      left := [s[0]] + left;
    } else {
      left, rest := "", s;
    }
  }

  lemma {:induction false} CutRight(s: string) returns (rest: string, right: string)
    ensures s == rest + right && AllBlank(right) && rest == StripRight(s) && (rest != "" ==> !IsBlank(rest[|rest| - 1]))
  {
    if s != "" && IsBlank(s[|s| - 1]) {
      rest, right := CutRight(s[..|s| - 1]);
      right := right + [s[|s| - 1]];
    } else {
      rest, right := s, "";
    }
  }

  lemma FirstSurvives(s: string, core: string, right: string)
    requires s == core + right && core != "" && !IsBlank(s[0])
    ensures !IsBlank(core[0])
  {
    assert s[0] == core[0];
  }

  /** Blanks around a code do not change what it normalises to. */
  lemma {:induction false} PaddingIsIgnored(left: string, code: string, right: string)
    requires forall i :: 0 <= i < |left| ==> IsBlank(left[i])
    requires forall i :: 0 <= i < |right| ==> IsBlank(right[i])
    ensures Normalize(left + code + right) == Normalize(code)
  {
    StripLeftPadding(left, code + right);
    assert left + code + right == left + (code + right);
    StripBothEnds(code, right);
  }

  lemma {:induction false} StripLeftPadding(left: string, rest: string)
    requires forall i :: 0 <= i < |left| ==> IsBlank(left[i])
    ensures StripLeft(left + rest) == StripLeft(rest)
  {
    if left == "" {
      assert left + rest == rest;
    } else {
      assert (left + rest)[1..] == left[1..] + rest;
      StripLeftPadding(left[1..], rest);
    }
  }

  lemma {:induction false} StripRightPadding(rest: string, right: string)
    requires forall i :: 0 <= i < |right| ==> IsBlank(right[i])
    ensures StripRight(rest + right) == StripRight(rest)
  {
    if right == "" {
      assert rest + right == rest;
    } else {
      assert (rest + right)[..|rest + right| - 1] == rest + right[..|right| - 1];
      StripRightPadding(rest, right[..|right| - 1]);
    }
  }

  lemma {:induction false} StripBothEnds(code: string, right: string)
    requires forall i :: 0 <= i < |right| ==> IsBlank(right[i])
    ensures StripRight(StripLeft(code + right)) == StripRight(StripLeft(code))
  {
    if code == "" {
      StripLeftPadding(right, "");
      assert right + "" == right && code + right == right;
    } else if IsBlank(code[0]) {
      assert (code + right)[1..] == code[1..] + right;
      StripBothEnds(code[1..], right);
    } else {
      StripRightPadding(code, right);
    }
  }

  /** Neither does the case of its letters. */
  lemma {:induction false} CaseIsIgnored(a: string, b: string)
    requires Upper(a) == Upper(b)
    ensures Normalize(a) == Normalize(b)
  {
    SameBlanks(a, b);
    StripLeftUpper(a);
    StripLeftUpper(b);
    StripRightUpper(StripLeft(a));
    StripRightUpper(StripLeft(b));
  }

  lemma SameBlanks(a: string, b: string)
    requires Upper(a) == Upper(b)
    ensures |a| == |b| && forall i :: 0 <= i < |a| ==> IsBlank(a[i]) == IsBlank(b[i])
  {
    assert |a| == |Upper(a)| == |Upper(b)| == |b|;
    var u := Upper(a);
    forall i | 0 <= i < |a| ensures IsBlank(a[i]) == IsBlank(b[i]) {
      assert u[i] == UpperChar(a[i]) == UpperChar(b[i]);
      BlankSurvivesUpper(a[i]);
      BlankSurvivesUpper(b[i]);
    }
  }

  lemma BlankSurvivesUpper(c: char)
    ensures IsBlank(UpperChar(c)) == IsBlank(c)
  {
  }

  lemma UpperPrefix(s: string, n: nat)
    requires n <= |s|
    ensures Upper(s)[..n] == Upper(s[..n])
  {
    var u, v := Upper(s)[..n], Upper(s[..n]);
    forall i | 0 <= i < n ensures u[i] == v[i] {
      assert s[..n][i] == s[i];
    }
  }

  lemma UpperParts(s: string)
    requires s != ""
    ensures Upper(s)[1..] == Upper(s[1..])
    ensures Upper(s)[..|s| - 1] == Upper(s[..|s| - 1])
    ensures IsBlank(Upper(s)[0]) == IsBlank(s[0]) && IsBlank(Upper(s)[|s| - 1]) == IsBlank(s[|s| - 1])
  {
    UpperPrefix(s, |s| - 1);
    BlankSurvivesUpper(s[0]);
    BlankSurvivesUpper(s[|s| - 1]);
  }

  lemma {:induction false} StripLeftUpper(s: string)
    ensures Upper(StripLeft(s)) == StripLeft(Upper(s))
  {
    if s != "" {
      UpperParts(s);
      if IsBlank(s[0]) {
        StripLeftUpper(s[1..]);
      }
    }
  }

  lemma {:induction false} StripRightUpper(s: string)
    ensures Upper(StripRight(s)) == StripRight(Upper(s))
  {
    if s != "" {
      UpperParts(s);
      if IsBlank(s[|s| - 1]) {
        StripRightUpper(s[..|s| - 1]);
      }
    }
  }
}
