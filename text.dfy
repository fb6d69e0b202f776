/**
 Text normalisation used on every piece of user input: Python's `str.strip()`,
 `str.lower()` and `str.isalpha()`, restricted to the Latin-1 range
 (code points below 256), where their behaviour is written out exactly.
 */
module Text {

  type String = seq<char>

  /** `str.isspace()` on a character below U+0100. */
  predicate IsSpace(c: char)
  {
    var n := c as int;
    n == 0x20 || 0x09 <= n <= 0x0D || 0x1C <= n <= 0x1F || n == 0x85 || n == 0xA0
  }

  /**
   `str.isalpha()` on a character below U+0100 (ASCII letters, ª, µ, º and
   the Latin-1 letters); no letter is whitespace, and every cased letter is
   alphabetic.
   */
  predicate IsAlpha(c: char)
    ensures IsAlpha(c) ==> !IsSpace(c)
    ensures IsUpper(c) ==> IsAlpha(c)
  {
    var n := c as int;
    0x41 <= n <= 0x5A || 0x61 <= n <= 0x7A || n == 0xAA || n == 0xB5 || n == 0xBA
    || 0xC0 <= n <= 0xD6 || 0xD8 <= n <= 0xF6 || 0xF8 <= n <= 0xFF
  }

  /** Upper-case letters whose lower-case form lies 32 code points higher. */
  predicate IsUpper(c: char)
  {
    var n := c as int;
    0x41 <= n <= 0x5A || (0xC0 <= n <= 0xDE && n != 0xD7)
  }

  /**
   `str.lower()` on one character below U+0100: the result has no upper-case
   form left, and it is alphabetic or whitespace exactly when `c` is.
   */
  function Lower(c: char): (r: char)
    ensures !IsUpper(r)
    ensures IsAlpha(r) == IsAlpha(c) && IsSpace(r) == IsSpace(c)
    ensures !IsUpper(c) ==> r == c
  {
    if IsUpper(c) then (c as int + 32) as char else c
  }

  /** `str.lower()`: character by character, keeping the length and each character's class. */
  function LowerStr(s: String): (r: String)
    ensures |r| == |s|
    ensures forall i :: 0 <= i < |s| ==> IsAlpha(r[i]) == IsAlpha(s[i]) && IsSpace(r[i]) == IsSpace(s[i])
    ensures forall i :: 0 <= i < |r| ==> !IsUpper(r[i])
  {
    seq(|s|, i requires 0 <= i < |s| => Lower(s[i]))
  }

  /** Drops leading whitespace. */
  function TrimStart(s: String): (r: String)
    ensures |r| <= |s| && r == s[|s| - |r|..]
    ensures forall i :: 0 <= i < |s| - |r| ==> IsSpace(s[i])
    ensures r == [] || !IsSpace(r[0])
  {
    if s != [] && IsSpace(s[0]) then TrimStart(s[1..]) else s
  }

  /** Drops trailing whitespace. */
  function TrimEnd(s: String): (r: String)
    ensures |r| <= |s| && r == s[..|r|]
    ensures forall i :: |r| <= i < |s| ==> IsSpace(s[i])
    ensures r == [] || !IsSpace(r[|r| - 1])
  {
    if s != [] && IsSpace(s[|s| - 1]) then TrimEnd(s[..|s| - 1]) else s
  }

  /**
   `str.strip()`: the longest slice of `s` that neither starts nor ends with
   whitespace, everything cut away being whitespace.
   */
  function Strip(s: String): (r: String)
    ensures r == [] <==> forall i :: 0 <= i < |s| ==> IsSpace(s[i])
    ensures r == [] || (!IsSpace(r[0]) && !IsSpace(r[|r| - 1]))
  {
    var t := TrimStart(s);
    var r := TrimEnd(t);
    assert r == [] ==> t == [];
    r
  }

  /** What `Strip` keeps is one slice of the input, and all it cuts away is whitespace. */
  lemma StripIsSlice(s: String)
    ensures exists k :: StripsAt(s, k)
  {
    var k := |s| - |TrimStart(s)|;
    var t := TrimStart(s);
    var r := TrimEnd(t);
    assert s[k..k + |r|] == t[..|r|];
    forall i | k + |r| <= i < |s| ensures IsSpace(s[i]) {
      assert s[i] == t[i - k];
    }
    assert StripsAt(s, k);
  }

  /** `Strip(s)` is the slice of `s` starting at `k`, with only whitespace around it. */
  ghost predicate StripsAt(s: String, k: int)
  {
    var r := Strip(s);
    && 0 <= k && k + |r| <= |s|
    && r == s[k..k + |r|]
    && (forall i :: 0 <= i < k ==> IsSpace(s[i]))
    && (forall i :: k + |r| <= i < |s| ==> IsSpace(s[i]))
  }

  /** `s.strip().lower()`, the normalisation applied to names, plates and words. */
  function Normalize(s: String): (r: String)
    ensures |r| == |Strip(s)|
    ensures r == [] <==> forall i :: 0 <= i < |s| ==> IsSpace(s[i])
  {
    LowerStr(Strip(s))
  }

  /**
   A plate as the game accepts it: non-empty, exactly three characters, all
   alphabetic. Such a plate has no whitespace at either end, so `strip()`
   leaves it as it is (`StripNoEdges`).
   */
  predicate ValidPlate(letras: String)
    ensures ValidPlate(letras) ==> |letras| == 3 && !IsSpace(letras[0]) && !IsSpace(letras[2])
  {
    letras != [] && |letras| == 3 && forall i :: 0 <= i < |letras| ==> IsAlpha(letras[i])
  }

  /** Lower-casing twice is lower-casing once. */
  lemma LowerIdempotent(c: char)
    ensures Lower(Lower(c)) == Lower(c)
  {
  }

  /** Normalising twice is normalising once. */
  lemma NormalizeIdempotent(s: String)
    ensures Normalize(Normalize(s)) == Normalize(s)
  {
    var n := Normalize(s);
    StripNoEdges(n);
    LowerStrIdempotent(Strip(s));
  }

  /** Lower-casing a string twice is lower-casing it once. */
  lemma LowerStrIdempotent(s: String)
    ensures LowerStr(LowerStr(s)) == LowerStr(s)
  {
    var l := LowerStr(s);
    assert forall i :: 0 <= i < |l| ==> LowerStr(l)[i] == l[i];
  }



  /** A string with no whitespace at either end is its own strip. */
  lemma StripNoEdges(s: String)
    requires s == [] || (!IsSpace(s[0]) && !IsSpace(s[|s| - 1]))
    ensures Strip(s) == s
  {
  }
}
