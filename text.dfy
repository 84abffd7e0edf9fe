/**
 * The few Python string primitives the engine relies on: `str.isspace`,
 * `str.strip`, `str.lower`, `str.join` and `str(int)`.
 */
module Text {

  /** Python's `str.isspace` on one code point (the Unicode white-space set Python strips). */
  predicate IsSpace(c: char) {
    var n := c as int;
    n == 0x20 || 0x09 <= n <= 0x0D || 0x1C <= n <= 0x1F || n == 0x85 || n == 0xA0
    || n == 0x1680 || 0x2000 <= n <= 0x200A || n == 0x2028 || n == 0x2029
    || n == 0x202F || n == 0x205F || n == 0x3000
  }

  /** Every character is white space (the empty string included). */
  predicate IsBlank(s: string) {
    forall i | 0 <= i < |s| :: IsSpace(s[i])
  }

  /** `s.lstrip()`: drops the leading white space. */
  function StripLeft(s: string): string {
    if s != [] && IsSpace(s[0]) then StripLeft(s[1..]) else s
  }

  /** `s.rstrip()`: drops the trailing white space. */
  function StripRight(s: string): string {
    if s != [] && IsSpace(s[|s| - 1]) then StripRight(s[..|s| - 1]) else s
  }

  /** `s.strip()`. */
  function Strip(s: string): string {
    StripRight(StripLeft(s))
  }

  lemma {:induction false} StripLeftEmptyIffBlank(s: string)
    ensures StripLeft(s) == [] <==> IsBlank(s)
    ensures StripLeft(s) != [] ==> !IsSpace(StripLeft(s)[0])
  {
    if s != [] && IsSpace(s[0]) {
      StripLeftEmptyIffBlank(s[1..]);
      assert IsBlank(s) <==> IsBlank(s[1..]) by {
        assert forall i | 1 <= i < |s| :: s[i] == s[1..][i - 1];
      }
    }
  }

  lemma {:induction false} StripRightKeepsHead(s: string)
    requires s != [] && !IsSpace(s[0])
    ensures StripRight(s) != []
  {
    if IsSpace(s[|s| - 1]) {
      StripRightKeepsHead(s[..|s| - 1]);
    }
  }

  /** `len(s.strip()) == 0` is exactly "s is all white space". */
  lemma StripEmptyIffBlank(s: string)
    ensures |Strip(s)| == 0 <==> IsBlank(s)
  {
    StripLeftEmptyIffBlank(s);
    if StripLeft(s) != [] {
      StripRightKeepsHead(StripLeft(s));
    }
  }

  /** A string whose first character is not white space does not strip to nothing. */
  lemma NonSpaceHeadNotBlank(s: string)
    requires s != [] && !IsSpace(s[0])
    ensures |Strip(s)| != 0 && !IsBlank(s)
  {
    StripEmptyIffBlank(s);
  }

  /** ASCII case folding. */
  function LowerChar(c: char): char {
    if 'A' <= c <= 'Z' then (c as int + 32) as char else c
  }

  /** `s.lower()`, restricted to ASCII letters. */
  function ToLower(s: string): string {
    if s == [] then [] else [LowerChar(s[0])] + ToLower(s[1..])
  }

  lemma ToLowerAt(s: string, i: int)
    requires 0 <= i < |s|
    ensures |ToLower(s)| == |s| && ToLower(s)[i] == LowerChar(s[i])
  {
    if i > 0 {
      ToLowerAt(s[1..], i - 1);
    }
  }

  lemma ToLowerLength(s: string)
    ensures |ToLower(s)| == |s|
  {
  }

  /** `s.lower() == t` exactly when `s` has `t`'s length and lowers to it character by character. */
  lemma LowerMatches(s: string, t: string)
    ensures ToLower(s) == t <==> |s| == |t| && forall i | 0 <= i < |s| :: LowerChar(s[i]) == t[i]
  {
    ToLowerLength(s);
    if |s| == |t| && forall i | 0 <= i < |s| :: LowerChar(s[i]) == t[i] {
      forall i | 0 <= i < |s| ensures ToLower(s)[i] == t[i] {
        ToLowerAt(s, i);
      }
    }
    if ToLower(s) == t {
      forall i | 0 <= i < |s| ensures LowerChar(s[i]) == t[i] {
        ToLowerAt(s, i);
      }
    }
  }

  /** `sep.join(parts)`. */
  function Join(sep: string, parts: seq<string>): string
  {
    if |parts| == 0 then ""
    else if |parts| == 1 then parts[0]
    else Join(sep, parts[..|parts| - 1]) + sep + parts[|parts| - 1]
  }

  /** Joining one more part appends the separator and that part. */
  lemma JoinSnoc(sep: string, parts: seq<string>, x: string)
    requires parts != []
    ensures Join(sep, parts + [x]) == Join(sep, parts) + sep + x
  {
    assert (parts + [x])[..|parts|] == parts;
  }

  /** A non-empty join starts with its first part and ends with its last. */
  lemma {:induction false} JoinEnds(sep: string, parts: seq<string>)
    requires parts != []
    ensures parts[0] <= Join(sep, parts) && EndsWith(Join(sep, parts), parts[|parts| - 1])
  {
    if |parts| > 1 {
      var init := parts[..|parts| - 1];
      JoinEnds(sep, init);
      Concat3Ends(Join(sep, init), sep, parts[|parts| - 1]);
    }
  }

  function DigitChar(d: nat): char
    requires d < 10
  {
    "0123456789"[d]
  }

  function NatToString(n: nat): string {
    if n < 10 then [DigitChar(n)] else NatToString(n / 10) + [DigitChar(n % 10)]
  }

  /** `str(i)` / `f"{i}"` for an int. */
  function IntToString(i: int): string {
    if i < 0 then "-" + NatToString(-i) else NatToString(i)
  }

  predicate EndsWith(s: string, suffix: string) {
    |suffix| <= |s| && s[|s| - |suffix|..] == suffix
  }

  lemma ConcatEnds(x: string, y: string)
    ensures x <= x + y && EndsWith(x + y, y)
    ensures (x + y)[..|x|] == x
  {
    assert (x + y)[|x|..] == y;
  }

  lemma Concat3Ends(x: string, y: string, z: string)
    ensures x <= x + y + z && EndsWith(x + y + z, z)
    ensures (x + y + z)[|x|..|x| + |y|] == y
  {
    assert (x + y + z)[|x|..|x| + |y|] == y;
    ConcatEnds(x + y, z);
    ConcatEnds(x, y + z);
    assert x + y + z == x + (y + z);
  }
}
