/** The two string normalisations the store applies to messages: Python's
    argument-less `str.strip()` and `str.lower()`. */
module Text {

  /** The characters Python's `str.isspace` accepts, which are exactly the
      characters `str.strip()` removes: U+0009..U+000D, U+001C..U+0020, U+0085,
      U+00A0, U+1680, U+2000..U+200A, U+2028, U+2029, U+202F, U+205F, U+3000. */
  predicate IsSpace(c: char) {
    || ('\t' <= c <= '\r')
    || ('\U{1C}' <= c <= ' ')
    || c == '\U{85}' || c == '\U{A0}' || c == '\U{1680}'
    || ('\U{2000}' <= c <= '\U{200A}')
    || c == '\U{2028}' || c == '\U{2029}' || c == '\U{202F}'
    || c == '\U{205F}' || c == '\U{3000}'
  }

  predicate AllSpace(s: string) {
    forall i :: 0 <= i < |s| ==> IsSpace(s[i])
  }

  /** Neither end of `s` is whitespace: `s` is a fixpoint of strip. */
  predicate Stripped(s: string) {
    s == [] || (!IsSpace(s[0]) && !IsSpace(s[|s| - 1]))
  }

  /** Drops the leading whitespace: what remains does not start with
      whitespace, and nothing remains exactly when `s` is all whitespace. */
  function TrimStart(s: string): (r: string)
    ensures |r| <= |s|
    ensures r == [] || !IsSpace(r[0])
    ensures r == [] <==> AllSpace(s)
  {
    if s != [] && IsSpace(s[0]) then
      var r := TrimStart(s[1..]);
      assert AllSpace(s[1..]) ==> AllSpace(s) by {
        if AllSpace(s[1..]) {
          forall i | 0 < i < |s| ensures IsSpace(s[i]) {
            assert s[i] == s[1..][i - 1];
          }
        }
      }
      r
    else
      s
  }

  /** Drops the trailing whitespace: what remains does not end with
      whitespace and starts where `s` starts, and nothing remains exactly when
      `s` is all whitespace. */
  function TrimEnd(s: string): (r: string)
    ensures |r| <= |s|
    ensures r == [] || (!IsSpace(r[|r| - 1]) && r[0] == s[0])
    ensures r == [] <==> AllSpace(s)
  {
    if s != [] && IsSpace(s[|s| - 1]) then
      var t := s[..|s| - 1];
      var r := TrimEnd(t);
      assert AllSpace(t) ==> AllSpace(s) by {
        if AllSpace(t) {
          forall i | 0 <= i < |s| - 1 ensures IsSpace(s[i]) {
            assert s[i] == t[i];
          }
        }
      }
      r
    else
      s
  }

  /** Python's `s.strip()`: the result has no whitespace at either end, and
      it is empty exactly when `s` is all whitespace. */
  function Strip(s: string): (r: string)
    ensures |r| <= |s|
    ensures Stripped(r)
    ensures r == [] <==> AllSpace(s)
  {
    var t := TrimStart(s);
    assert AllSpace(t) ==> t == [];
    TrimEnd(t)
  }

  /** Python's `not s.strip()`: the string is empty or all whitespace, which
      is exactly when `Strip(s)` is empty (see `Strip`). */
  predicate IsBlank(s: string) {
    AllSpace(s)
  }

  /** `TrimStart(s)` is a suffix of `s`, and everything before it is
      whitespace. */
  lemma {:induction false} TrimStartDrops(s: string)
    ensures s[|s| - |TrimStart(s)|..] == TrimStart(s)
    ensures AllSpace(s[..|s| - |TrimStart(s)|])
    decreases |s|
  {
    if s != [] && IsSpace(s[0]) {
      var r := TrimStart(s[1..]);
      var k := |s| - |r|;
      TrimStartDrops(s[1..]);
      assert s[k..] == s[1..][k - 1..];
      forall i | 0 <= i < k ensures IsSpace(s[..k][i]) {
        if i > 0 {
          assert s[..k][i] == s[1..][..k - 1][i - 1];
        }
      }
    }
  }

  /** `TrimEnd(s)` is a prefix of `s`, and everything after it is
      whitespace. */
  lemma {:induction false} TrimEndDrops(s: string)
    ensures s[..|TrimEnd(s)|] == TrimEnd(s)
    ensures AllSpace(s[|TrimEnd(s)|..])
    decreases |s|
  {
    if s != [] && IsSpace(s[|s| - 1]) {
      var t := s[..|s| - 1];
      var r := TrimEnd(t);
      TrimEndDrops(t);
      assert s[..|r|] == t[..|r|];
      forall i | 0 <= i < |s| - |r| ensures IsSpace(s[|r|..][i]) {
        if i < |s| - 1 - |r| {
          assert s[|r|..][i] == t[|r|..][i];
        }
      }
    }
  }

  /** Cutting a prefix off a suffix of `s` is slicing `s`. */
  lemma SliceOfSuffix(s: string, lead: nat, t: string, r: string)
    requires lead <= |s| && s[lead..] == t
    requires |r| <= |t| && t[..|r|] == r && AllSpace(t[|r|..])
    ensures s[lead..lead + |r|] == r
    ensures AllSpace(s[lead + |r|..])
  {
    assert s[lead..lead + |r|] == t[..|r|];
    var tail := s[lead + |r|..];
    forall i | 0 <= i < |tail| ensures IsSpace(tail[i]) {
      assert tail[i] == t[|r|..][i];
    }
  }

  /** `Strip(s)` is the slice of `s` left after removing a whitespace prefix
      of length `lead` and a whitespace suffix. */
  lemma StripDecomposes(s: string) returns (lead: nat)
    ensures lead + |Strip(s)| <= |s|
    ensures s[lead..lead + |Strip(s)|] == Strip(s)
    ensures AllSpace(s[..lead]) && AllSpace(s[lead + |Strip(s)|..])
  {
    var t := TrimStart(s);
    var r := TrimEnd(t);
    TrimStartDrops(s);
    TrimEndDrops(t);
    lead := |s| - |t|;
    SliceOfSuffix(s, lead, t, r);
  }

  /** A string with no whitespace at either end is left alone by strip. */
  lemma StripOfStripped(s: string)
    requires Stripped(s)
    ensures Strip(s) == s
  {
  }

  /** Stripping twice is stripping once. */
  lemma StripIdempotent(s: string)
    ensures Strip(Strip(s)) == Strip(s)
  {
    StripOfStripped(Strip(s));
  }

  predicate IsUpper(c: char) {
    'A' <= c <= 'Z'
  }

  predicate NoUpper(s: string) {
    forall i :: 0 <= i < |s| ==> !IsUpper(s[i])
  }

  function LowerChar(c: char): char {
    if IsUpper(c) then (c as int - 'A' as int + 'a' as int) as char else c
  }

  /** Python's `s.lower()` on ASCII letters: every upper-case letter becomes
      its lower-case letter, every other character is kept, and so whitespace
      stays exactly where it was. */
  function Lower(s: string): (r: string)
    ensures |r| == |s| && NoUpper(r)
    ensures forall i :: 0 <= i < |s| && !IsUpper(s[i]) ==> r[i] == s[i]
    ensures forall i :: 0 <= i < |s| && IsUpper(s[i]) ==>
      'a' <= r[i] <= 'z' && r[i] as int - 'a' as int == s[i] as int - 'A' as int
    ensures forall i :: 0 <= i < |s| ==> (IsSpace(r[i]) <==> IsSpace(s[i]))
  {
    seq(|s|, i requires 0 <= i < |s| => LowerChar(s[i]))
  }

  /** A string with no upper-case letters is left alone by lower. */
  lemma LowerOfNoUpper(s: string)
    requires NoUpper(s)
    ensures Lower(s) == s
  {
  }

  /** The role normalisation `role.strip().lower()`. */
  function NormalizeRole(role: string): (r: string)
    ensures Stripped(r) && NoUpper(r)
    ensures |r| <= |role|
  {
    Lower(Strip(role))
  }

  /** `NormalizeRole(role)` is the lower-cased slice of `role` left after
      removing a whitespace prefix of length `lead` and a whitespace suffix,
      and it is empty exactly when `role` is all whitespace. */
  lemma NormalizeRoleDecomposes(role: string) returns (lead: nat)
    ensures lead + |NormalizeRole(role)| <= |role|
    ensures AllSpace(role[..lead]) && AllSpace(role[lead + |NormalizeRole(role)|..])
    ensures forall i :: 0 <= i < |NormalizeRole(role)| ==> NormalizeRole(role)[i] == LowerChar(role[lead + i])
    ensures NormalizeRole(role) == [] <==> AllSpace(role)
  {
    var t := Strip(role);
    lead := StripDecomposes(role);
    var r := Lower(t);
    assert NormalizeRole(role) == r;
    forall i | 0 <= i < |r| ensures r[i] == LowerChar(role[lead + i]) {
      assert t[i] == role[lead..lead + |t|][i] == role[lead + i];
    }
  }

  /** Normalising an already normalised role changes nothing. */
  lemma NormalizeRoleIdempotent(role: string)
    ensures NormalizeRole(NormalizeRole(role)) == NormalizeRole(role)
  {
    var n := NormalizeRole(role);
    StripOfStripped(n);
    LowerOfNoUpper(n);
  }
}
