/** Small shared vocabulary: an optional value and the whitespace rules of
    JavaScript's String.prototype.trim, which several pages use to refuse
    blank input. */
module Common {

  datatype Option<T> = None | Some(value: T)

  /** The characters `trim` removes: the WhiteSpace and LineTerminator
      productions of ECMAScript (tab, vertical tab, form feed, space,
      no-break space, byte-order mark, the Unicode space separators, and
      LF, CR, LS, PS). */
  predicate IsWhitespace(c: char)
  {
    c == '\t' || c == '\U{000B}' || c == '\U{000C}' || c == ' ' || c == '\U{00A0}' || c == '\U{FEFF}'
    || c == '\U{1680}' || ('\U{2000}' <= c <= '\U{200A}') || c == '\U{202F}' || c == '\U{205F}' || c == '\U{3000}'
    || c == '\n' || c == '\r' || c == '\U{2028}' || c == '\U{2029}'
  }

  predicate IsBlank(s: string)
  {
    forall i :: 0 <= i < |s| ==> IsWhitespace(s[i])
  }

  /** Number of whitespace characters at the start of `s`. */
  function LeadingBlank(s: string): (k: nat)
    ensures k <= |s|
    ensures IsBlank(s[..k])
    ensures k < |s| ==> !IsWhitespace(s[k])
  {
    if |s| == 0 || !IsWhitespace(s[0]) then 0
    else
      var k' := LeadingBlank(s[1..]);
      assert s[1..][..k'] == s[1..k' + 1];
      1 + k'
  }

  /** Number of whitespace characters at the end of `s`. */
  function TrailingBlank(s: string): (k: nat)
    ensures k <= |s|
    ensures IsBlank(s[|s| - k..])
    ensures k < |s| ==> !IsWhitespace(s[|s| - 1 - k])
  {
    if |s| == 0 || !IsWhitespace(s[|s| - 1]) then 0
    else
      var k' := TrailingBlank(s[..|s| - 1]);
      assert s[..|s| - 1][|s| - 1 - k'..] == s[|s| - 1 - k'..|s| - 1];
      1 + k'
  }

  /** `s.trim()`: `s` without its leading and trailing whitespace. */
  function Trim(s: string): (r: string)
    ensures |r| <= |s|
    ensures r != [] ==> !IsWhitespace(r[0]) && !IsWhitespace(r[|r| - 1])
  {
    var t := s[LeadingBlank(s)..];
    t[..|t| - TrailingBlank(t)]
  }

  /** `!s.trim()` holds exactly for the strings made only of whitespace
      (the empty string included). */
  lemma TrimEmptyIffBlank(s: string)
    ensures Trim(s) == [] <==> IsBlank(s)
  {
    var k := LeadingBlank(s);
    var t := s[k..];
    if !IsBlank(s) {
      var i :| 0 <= i < |s| && !IsWhitespace(s[i]);
      assert t[i - k] == s[i];
    }
  }

  /** `s.includes(sub)`: `sub` occurs in `s` at some position. */
  predicate Contains(s: string, sub: string)
    decreases |s|
  {
    |sub| <= |s| && (s[..|sub|] == sub || Contains(s[1..], sub))
  }

  /** `den > 0 ? num / den : 0`. */
  function Guarded(num: real, den: real): (r: real)
    ensures den > 0.0 ==> r * den == num
    ensures den <= 0.0 ==> r == 0.0
    ensures num >= 0.0 ==> r >= 0.0
  {
    if den > 0.0 then num / den else 0.0
  }

  /** `Math.ceil`. */
  function Ceil(x: real): (n: int)
    ensures n as real >= x
    ensures (n - 1) as real < x
  {
    -((-x).Floor)
  }

  /** Multiplying both sides by a positive number keeps the order. */
  lemma ScaleLess(a: real, b: real, p: real)
    requires p > 0.0
    ensures a <= b ==> a * p <= b * p
    ensures a < b ==> a * p < b * p
  {
    if a <= b {
      assert (b - a) * p >= 0.0;
    }
  }

  /** `list.filter(x => idOf(x) !== id)`: drops the elements carrying `id`. */
  function WithoutId<T(==,!new)>(list: seq<T>, idOf: T -> int, id: int): (r: seq<T>)
    ensures forall x :: x in r <==> x in list && idOf(x) != id
    ensures |r| <= |list|
  {
    if list == [] then []
    else if idOf(list[0]) == id then WithoutId(list[1..], idOf, id)
    else [list[0]] + WithoutId(list[1..], idOf, id)
  }

  /** Filtering distributes over concatenation: the kept elements stay in
      their order. */
  lemma {:induction false} WithoutIdAppend<T(!new)>(a: seq<T>, b: seq<T>, idOf: T -> int, id: int)
    ensures WithoutId(a + b, idOf, id) == WithoutId(a, idOf, id) + WithoutId(b, idOf, id)
  {
    if a == [] {
      assert a + b == b;
    } else {
      assert (a + b)[1..] == a[1..] + b;
      WithoutIdAppend(a[1..], b, idOf, id);
    }
  }

  /** Filtering out an id no element carries changes nothing. */
  lemma {:induction false} WithoutAbsentId<T(!new)>(list: seq<T>, idOf: T -> int, id: int)
    requires forall i :: 0 <= i < |list| ==> idOf(list[i]) != id
    ensures WithoutId(list, idOf, id) == list
  {
    if list != [] {
      WithoutAbsentId(list[1..], idOf, id);
    }
  }
}
