/**
 * The string handling the handlers apply to user input before storing or
 * comparing it: `toLowerCase`, `toUpperCase`, `trim`, and the e-mail format
 * test of the squad route.
 */
module Text {

  /** The characters JavaScript's `trim` removes and `\s` matches. */
  predicate IsSpace(c: char) {
    c in {' ', '\t', '\n', '\r', '\U{000B}', '\U{000C}', '\U{00A0}', '\U{1680}',
          '\U{2028}', '\U{2029}', '\U{202F}', '\U{205F}', '\U{3000}', '\U{FEFF}'}
    || '\U{2000}' <= c <= '\U{200A}'
  }

  function LowerChar(c: char): char {
    if 'A' <= c <= 'Z' then (c as int + 32) as char else c
  }

  function UpperChar(c: char): char {
    if 'a' <= c <= 'z' then (c as int - 32) as char else c
  }

  function Lower(s: string): (r: string)
    ensures |r| == |s| && forall i | 0 <= i < |s| :: r[i] == LowerChar(s[i])
  {
    seq(|s|, i requires 0 <= i < |s| => LowerChar(s[i]))
  }

  function Upper(s: string): (r: string)
    ensures |r| == |s| && forall i | 0 <= i < |s| :: r[i] == UpperChar(s[i])
  {
    seq(|s|, i requires 0 <= i < |s| => UpperChar(s[i]))
  }

  /** How many spaces `s` starts with. */
  function LeadingSpaces(s: string): (n: nat)
    ensures n <= |s|
    ensures forall i | 0 <= i < n :: IsSpace(s[i])
    ensures n < |s| ==> !IsSpace(s[n])
  {
    if s != [] && IsSpace(s[0]) then 1 + LeadingSpaces(s[1..]) else 0
  }

  /** Where the trailing run of spaces of `s` begins. */
  function TrailingStart(s: string): (n: nat)
    ensures n <= |s|
    ensures forall i | n <= i < |s| :: IsSpace(s[i])
    ensures 0 < n ==> !IsSpace(s[n - 1])
  {
    if s != [] && IsSpace(s[|s| - 1]) then TrailingStart(s[..|s| - 1]) else |s|
  }

  /**
   * `s.trim()`: the slice of `s` left after its leading and trailing spaces;
   * neither end of the result is a space.
   */
  function Trim(s: string): (r: string)
    ensures r == [] || (!IsSpace(r[0]) && !IsSpace(r[|r| - 1]))
    ensures var lo := LeadingSpaces(s); lo + |r| <= |s| && r == s[lo..lo + |r|]
    ensures forall i | LeadingSpaces(s) + |r| <= i < |s| :: IsSpace(s[i])
  {
    var lo := LeadingSpaces(s);
    var t := s[lo..];
    var n := TrailingStart(t);
    SpacesAfter(s, lo, n);
    t[..n]
  }

  /** The trailing spaces of the tail `s[lo..]` are trailing spaces of `s`. */
  lemma SpacesAfter(s: string, lo: nat, n: nat)
    requires lo <= |s| && forall i | n <= i < |s| - lo :: IsSpace(s[lo..][i])
    ensures forall i | lo + n <= i < |s| :: IsSpace(s[i])
  {
    forall i | lo + n <= i < |s| ensures IsSpace(s[i]) {
      assert s[i] == s[lo..][i - lo];
    }
  }

  /** How the squad route normalises an address: lower-cased, then trimmed. */
  function NormalizeEmail(email: string): string {
    Trim(Lower(email))
  }

  /** How the watch route normalises a code: upper-cased, then trimmed. */
  function NormalizeCode(code: string): string {
    Trim(Upper(code))
  }

  /**
   * Normalising twice changes nothing; a stored (normalised) address is
   * therefore its own normal form and the duplicate test compares
   * normal forms on both sides.
   */
  lemma NormalizeEmailIdempotent(email: string)
    ensures NormalizeEmail(NormalizeEmail(email)) == NormalizeEmail(email)
  {
    var r := NormalizeEmail(email);
    var low := Lower(email);
    var lo := LeadingSpaces(low);
    forall i | 0 <= i < |r| ensures LowerChar(r[i]) == r[i] {
      assert r[i] == low[lo + i];
    }
    assert Lower(r) == r;
  }

  /**
   * The `length` JavaScript reports for `s`: the number of UTF-16 code
   * units, two for each character outside the Basic Multilingual Plane.
   */
  function Utf16Length(s: string): (n: nat)
    ensures |s| <= n <= 2 * |s|
    ensures n == |s| <==> forall i | 0 <= i < |s| :: s[i] as int < 0x1_0000
  {
    if s == [] then 0
    else
      var rest := Utf16Length(s[1..]);
      assert forall i | 1 <= i < |s| :: s[i] == s[1..][i - 1];
      rest + if s[0] as int < 0x1_0000 then 1 else 2
  }

  /**
   * The length is additive over concatenation, and a single character
   * counts 1 inside the Basic Multilingual Plane and 2 outside it; together
   * these fix the length of every string.
   */
  lemma {:induction false} Utf16LengthAppend(a: string, b: string)
    ensures Utf16Length(a + b) == Utf16Length(a) + Utf16Length(b)
    ensures |a| == 1 ==> Utf16Length(a) == if a[0] as int < 0x1_0000 then 1 else 2
  {
    if a != [] {
      assert (a + b)[1..] == a[1..] + b;
      assert (a + b)[0] == a[0];
      Utf16LengthAppend(a[1..], b);
      if |a| == 1 {
        assert a[1..] == [];
      }
    } else {
      assert a + b == b;
    }
  }

  /** Four capitals and an emoji are five characters but six code units. */
  lemma EmojiCodeIsSix()
    ensures |"ABCD\U{1F600}"| == 5 && Utf16Length("ABCD\U{1F600}") == 6
  {
  }

  /** A character the address pattern `[^\s@]` accepts. */
  predicate Plain(c: char) {
    !IsSpace(c) && c != '@'
  }

  /** No character of `s` is a space or an `@`. */
  predicate AllPlain(s: string) {
    s == [] || (Plain(s[0]) && AllPlain(s[1..]))
  }

  predicate HasDot(s: string) {
    s != [] && (s[0] == '.' || HasDot(s[1..]))
  }

  /** Where the first `@` of `s` is, or `|s|` when there is none. */
  function FirstAt(s: string): (i: nat)
    ensures i <= |s|
    ensures i < |s| ==> s[i] == '@'
    ensures forall j | 0 <= j < i :: s[j] != '@'
  {
    if s == [] || s[0] == '@' then 0 else 1 + FirstAt(s[1..])
  }

  /**
   * The squad route's format test `^[^\s@]+@[^\s@]+\.[^\s@]+$`: a
   * non-empty part before the only `@`, no spaces, and a `.` after the `@`
   * with at least one character between them and at least one after it.
   */
  predicate ValidEmail(s: string) {
    var at := FirstAt(s);
    && 0 < at && at + 2 < |s|
    && AllPlain(s[..at]) && AllPlain(s[at + 1..])
    && HasDot(s[at + 2..|s| - 1])
  }
}
