/** String operations the scraper applies to extracted text: `trim()`, the
    `toLowerCase().replace(/\s+/g, "")` normalisation of a job description,
    and `includes` (substring containment). */
module Text {

  /** The characters of the JavaScript `\s` class; `trim()` removes the same set. */
  predicate IsSpace(c: char) {
    c == ' ' || c == '\t' || c == '\n' || c == '\r' || c == '\U{000B}' || c == '\U{000C}'
    || c == '\U{00A0}' || c == '\U{1680}' || ('\U{2000}' <= c <= '\U{200A}')
    || c == '\U{2028}' || c == '\U{2029}' || c == '\U{202F}' || c == '\U{205F}'
    || c == '\U{3000}' || c == '\U{FEFF}'
  }

  /** The letters `toLowerCase` maps in this model: the ASCII capitals. */
  predicate IsUpper(c: char) {
    'A' <= c <= 'Z'
  }

  /** Lower-casing of one character (ASCII letters only). */
  function LowerChar(c: char): (r: char)
    ensures !IsUpper(r)
    ensures IsSpace(r) <==> IsSpace(c)
    ensures !IsUpper(c) ==> r == c
    ensures IsUpper(c) ==> 'a' <= r <= 'z' && r as int - 'a' as int == c as int - 'A' as int
  {
    if IsUpper(c) then (c as int + 32) as char else c
  }

  /** `s.toLowerCase()`: every character lower-cased in place. */
  function Lower(s: string): (r: string)
    ensures |r| == |s|
    ensures forall i :: 0 <= i < |s| ==> r[i] == LowerChar(s[i])
  {
    if s == [] then [] else [LowerChar(s[0])] + Lower(s[1..])
  }

  /** `s.replace(/\s+/g, "")`: every whitespace character dropped, the others kept in
      order (`StripSpaceChar` and `StripSpaceAppend` fix the value). */
  function StripSpace(s: string): (r: string)
    ensures |r| <= |s|
    ensures forall c :: c in r ==> c in s && !IsSpace(c)
    ensures forall c :: c in s && !IsSpace(c) ==> c in r
  {
    if s == [] then []
    else if IsSpace(s[0]) then StripSpace(s[1..])
    else [s[0]] + StripSpace(s[1..])
  }

  /** The form of a job description that keywords are looked up in. */
  function Normalise(s: string): (r: string)
    ensures forall i :: 0 <= i < |r| ==> !IsUpper(r[i]) && !IsSpace(r[i])
  {
    var l := Lower(s);
    assert forall c :: c in l ==> !IsUpper(c);
    StripSpace(l)
  }

  /** `s.trimStart()` */
  function TrimStart(s: string): (r: string)
    ensures r == [] || !IsSpace(r[0])
    ensures |r| <= |s|
  {
    if s != [] && IsSpace(s[0]) then TrimStart(s[1..]) else s
  }

  /** `s.trimEnd()` */
  function TrimEnd(s: string): (r: string)
    ensures r == [] || !IsSpace(r[|r| - 1])
    ensures |r| <= |s|
  {
    if s != [] && IsSpace(s[|s| - 1]) then TrimEnd(s[..|s| - 1]) else s
  }

  /** `s.trim()` */
  function Trim(s: string): (r: string) {
    TrimEnd(TrimStart(s))
  }

  /** `trimStart` keeps a suffix of `s` and drops only whitespace before it. */
  lemma {:induction false} TrimStartDrops(s: string)
    ensures var r := TrimStart(s);
              r == s[|s| - |r|..] && forall i :: 0 <= i < |s| - |r| ==> IsSpace(s[i])
  {
    if s != [] && IsSpace(s[0]) {
      TrimStartDrops(s[1..]);
    }
  }

  /** `trimEnd` keeps a prefix of `s` and drops only whitespace after it. */
  lemma {:induction false} TrimEndDrops(s: string)
    ensures var r := TrimEnd(s);
              r == s[..|r|] && forall i :: |r| <= i < |s| ==> IsSpace(s[i])
  {
    if s != [] && IsSpace(s[|s| - 1]) {
      var p := s[..|s| - 1];
      TrimEndDrops(p);
      var r := TrimEnd(p);
      assert r == s[..|r|];
    }
  }

  /** `s.trim()` is the piece of `s` left once its leading and trailing whitespace is
      cut away: it starts and ends with a non-whitespace character unless empty, and
      everything cut away is whitespace. */
  lemma TrimCharacterised(s: string)
    ensures var r, o := Trim(s), |s| - |TrimStart(s)|;
              (r == [] || (!IsSpace(r[0]) && !IsSpace(r[|r| - 1])))
              && o + |r| <= |s| && r == s[o..o + |r|]
              && (forall i :: 0 <= i < o ==> IsSpace(s[i]))
              && (forall i :: o + |r| <= i < |s| ==> IsSpace(s[i]))
  {
    var t := TrimStart(s);
    TrimStartDrops(s);
    TrimEndDrops(t);
    var r, o := Trim(s), |s| - |t|;
    assert t == s[o..];
    assert r == t[..|r|];
    assert r == s[o..o + |r|];
    assert r != [] ==> r[0] == t[0];
    forall i | o + |r| <= i < |s| ensures IsSpace(s[i]) {
      assert s[i] == t[i - o];
    }
  }

  /** `k` occurs in `s` starting at position `i`. */
  predicate OccursAt(s: string, k: string, i: nat) {
    i + |k| <= |s| && s[i..i + |k|] == k
  }

  /** `s.includes(k)`: the empty string occurs in every string, and nothing longer
      than `s` occurs in it. */
  predicate Contains(s: string, k: string)
    ensures k == [] ==> Contains(s, k)
    ensures Contains(s, k) ==> |k| <= |s|
  {
    assert k == [] ==> OccursAt(s, k, 0);
    exists i: nat :: i <= |s| - |k| && OccursAt(s, k, i)
  }

  lemma {:induction false} LowerAppend(a: string, b: string)
    ensures Lower(a + b) == Lower(a) + Lower(b)
  {
    var l, r := Lower(a + b), Lower(a) + Lower(b);
    assert |l| == |r|;
    forall i | 0 <= i < |l| ensures l[i] == r[i] {
      if i < |a| { assert (a + b)[i] == a[i]; } else { assert (a + b)[i] == b[i - |a|]; }
    }
  }

  lemma {:induction false} StripSpaceAppend(a: string, b: string)
    ensures StripSpace(a + b) == StripSpace(a) + StripSpace(b)
  {
    if a != [] {
      assert (a + b)[0] == a[0];
      assert (a + b)[1..] == a[1..] + b;
      StripSpaceAppend(a[1..], b);
    } else {
      assert a + b == b;
    }
  }

  /** On one character, whitespace is dropped and anything else is kept. */
  lemma StripSpaceChar(c: char)
    ensures StripSpace([c]) == if IsSpace(c) then [] else [c]
  {
    assert [c][1..] == [];
  }

  /** Normalisation distributes over concatenation. */
  lemma NormaliseAppend(a: string, b: string)
    ensures Normalise(a + b) == Normalise(a) + Normalise(b)
  {
    LowerAppend(a, b);
    StripSpaceAppend(Lower(a), Lower(b));
  }

  /** A whitespace character contributes nothing to the normalised form. */
  lemma NormaliseSpace(c: char)
    requires IsSpace(c)
    ensures Normalise([c]) == []
  {
    assert Lower([c]) == [LowerChar(c)];
  }

  /** Whitespace insensitivity: deleting one whitespace character anywhere leaves the
      normalised form unchanged (so "Java Script" and "JavaScript" normalise alike). */
  lemma NormaliseIgnoresSpace(a: string, c: char, b: string)
    requires IsSpace(c)
    ensures Normalise(a + [c] + b) == Normalise(a + b)
  {
    NormaliseAppend(a + [c], b);
    NormaliseAppend(a, [c]);
    NormaliseSpace(c);
    NormaliseAppend(a, b);
  }

  lemma {:induction false} LowerIdempotent(s: string)
    ensures Lower(Lower(s)) == Lower(s)
  {
    var l := Lower(s);
    assert forall i :: 0 <= i < |l| ==> Lower(l)[i] == LowerChar(l[i]) == l[i];
  }

  /** Case insensitivity: lower-casing before normalising changes nothing. */
  lemma NormaliseIgnoresCase(s: string)
    ensures Normalise(Lower(s)) == Normalise(s)
  {
    LowerIdempotent(s);
  }

  lemma {:induction false} LowerOfLower(s: string)
    requires forall i :: 0 <= i < |s| ==> !IsUpper(s[i])
    ensures Lower(s) == s
  {
  }

  lemma {:induction false} StripSpaceOfClean(s: string)
    requires forall i :: 0 <= i < |s| ==> !IsSpace(s[i])
    ensures StripSpace(s) == s
  {
    if s != [] {
      StripSpaceOfClean(s[1..]);
    }
  }

  /** Normalising twice is normalising once. */
  lemma NormaliseIdempotent(s: string)
    ensures Normalise(Normalise(s)) == Normalise(s)
  {
    var n := Normalise(s);
    LowerOfLower(n);
    StripSpaceOfClean(n);
  }

  lemma {:induction false} NormaliseTrimStart(s: string)
    ensures Normalise(TrimStart(s)) == Normalise(s)
  {
    if s != [] && IsSpace(s[0]) {
      NormaliseTrimStart(s[1..]);
      assert s == [] + [s[0]] + s[1..];
      NormaliseIgnoresSpace([], s[0], s[1..]);
    }
  }

  lemma {:induction false} NormaliseTrimEnd(s: string)
    ensures Normalise(TrimEnd(s)) == Normalise(s)
  {
    if s != [] && IsSpace(s[|s| - 1]) {
      var p, c := s[..|s| - 1], s[|s| - 1];
      NormaliseTrimEnd(p);
      assert s == p + [c];
      NormaliseAppend(p, [c]);
      NormaliseSpace(c);
    }
  }

  /** The description is trimmed before it is normalised; trimming makes no difference. */
  lemma NormaliseTrim(s: string)
    ensures Normalise(Trim(s)) == Normalise(s)
  {
    NormaliseTrimEnd(TrimStart(s));
    NormaliseTrimStart(s);
  }

  /** A string containing `k1 + k2` contains `k1`. */
  lemma ContainsPrefix(s: string, k1: string, k2: string)
    requires Contains(s, k1 + k2)
    ensures Contains(s, k1)
  {
    var k := k1 + k2;
    var i: nat :| i <= |s| - |k| && OccursAt(s, k, i);
    assert s[i..i + |k1|] == s[i..i + |k|][..|k1|] == k1;
    assert OccursAt(s, k1, i);
  }
}
