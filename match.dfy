/**
 The two letter-match predicates of the game: plate letters in order
 (`contiene_en_orden`, app.py) and plate letters in any order
 (`contiene_letras`, modes/mode_multiplayer.py, inlined again in
 modes/mode_individual.py).
 */
module Match {
  import opened Text
  import opened Seqs

  /**
   The meaning of `contiene_en_orden(palabra, letras)`: the plate is
   non-empty and is a subsequence of the word. (An empty plate is a
   subsequence of everything, yet the scan never answers true for it.)
   */
  predicate EnOrden(palabra: String, letras: String)
    ensures EnOrden(palabra, letras) ==> 0 < |letras| <= |palabra|
  {
    |letras| > 0 && IsSubsequence(letras, palabra)
  }

  /**
   The one-pass scan of `contiene_en_orden`: a pointer `i` into the plate
   advances on every matching character of the word, and the scan answers
   true the moment the pointer reaches the end of the plate.
   The Python code reads `letras[i]` for every character of the word, so an
   empty plate with a non-empty word raises IndexError; the precondition
   excludes exactly that case.
   */
  method ContieneEnOrden(palabra: String, letras: String) returns (r: bool)
    requires |letras| > 0 || palabra == []
    ensures r <==> EnOrden(palabra, letras)
    ensures r <==> |letras| > 0 && exists idx :: IsEmbedding(idx, letras, palabra)
    ensures palabra == [] ==> !r
  {
    SubsequenceIffEmbedding(letras, palabra);
    var i := 0;
    for j := 0 to |palabra|
      invariant |letras| > 0 ==> i < |letras|
      invariant |letras| > 0 ==> IsSubsequence(letras, palabra) == IsSubsequence(letras[i..], palabra[j..])
    {
      assert palabra[j..][1..] == palabra[j + 1..];
      if palabra[j] == letras[i] {
        assert letras[i..][1..] == letras[i + 1..];
        i := i + 1;
        if i == |letras| {
          return true;
        }
      }
    }
    return false;
  }

  /**
   `contiene_letras(palabra, letras)`, i.e. `all(l in palabra for l in letras)`:
   every plate character occurs somewhere in the word.
   */
  predicate ContieneLetras(palabra: String, letras: String)
    ensures ContieneLetras(palabra, letras) <==> forall i :: 0 <= i < |letras| ==> letras[i] in palabra
    decreases |letras|
  {
    letras == [] || (letras[0] in palabra && ContieneLetras(palabra, letras[1..]))
  }

  /** The set of characters of a string. */
  ghost function Chars(s: String): set<char>
  {
    set c | c in s
  }

  /** The any-order match is inclusion of character sets: `set(letras) <= set(palabra)`. */
  lemma {:induction false} ContieneLetrasIffSubset(palabra: String, letras: String)
    ensures ContieneLetras(palabra, letras) <==> Chars(letras) <= Chars(palabra)
    decreases |letras|
  {
    if letras != [] {
      ContieneLetrasIffSubset(palabra, letras[1..]);
      assert letras == [letras[0]] + letras[1..];
      assert Chars(letras) == {letras[0]} + Chars(letras[1..]);
    }
  }

  /** Permuting the plate never changes the any-order match. */
  lemma ContieneLetrasPermutation(palabra: String, l1: String, l2: String)
    requires multiset(l1) == multiset(l2)
    ensures ContieneLetras(palabra, l1) == ContieneLetras(palabra, l2)
  {
    forall c ensures c in Chars(l1) <==> c in Chars(l2) {
      assert c in l1 <==> c in multiset(l1);
      assert c in l2 <==> c in multiset(l2);
    }
    ContieneLetrasIffSubset(palabra, l1);
    ContieneLetrasIffSubset(palabra, l2);
  }

  /** A repeated plate letter asks for nothing more: one occurrence in the word suffices. */
  lemma RepeatedLetterIsRedundant(palabra: String, letras: String, c: char)
    requires c in letras
    ensures ContieneLetras(palabra, letras + [c]) == ContieneLetras(palabra, letras)
  {
    assert Chars(letras + [c]) == Chars(letras);
    ContieneLetrasIffSubset(palabra, letras + [c]);
    ContieneLetrasIffSubset(palabra, letras);
  }

  /** A word that holds the plate in order holds it in any order. */
  lemma EnOrdenImpliesContieneLetras(palabra: String, letras: String)
    requires EnOrden(palabra, letras)
    ensures ContieneLetras(palabra, letras)
  {
    var idx := Witness(letras, palabra);
    forall c | c in Chars(letras) ensures c in Chars(palabra) {
      var k :| 0 <= k < |letras| && letras[k] == c;
      assert palabra[idx[k]] == c;
    }
    ContieneLetrasIffSubset(palabra, letras);
  }

  /**
   The worked example of the game's instructions: for the plate C-S-A the
   words "casa", "costa" and "cosecha" hold the letters in order, while
   "saco" holds them out of order.
   */
  lemma Examples()
    ensures EnOrden("casa", "csa") && EnOrden("costa", "csa") && EnOrden("cosecha", "csa")
    ensures !EnOrden("saco", "csa")
  {
  }

  /** The any-order test on the same words: "saco" now passes, and "bote" lacks the "a" of "acs". */
  lemma AnyOrderExamples()
    ensures ContieneLetras("casa", "acs") && ContieneLetras("saco", "csa")
    ensures !ContieneLetras("bote", "acs")
  {
  }
}
