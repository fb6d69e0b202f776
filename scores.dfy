/**
 Pieces shared by the two turn-based games (app.py and
 modes/mode_multiplayer.py): the roster built from the entered names, the
 outcome of a word submission, and the total of a score table.
 The individual mode's per-round word total lives here too.
 */
module Scores {
  import opened Text

  /** What `ultimo_resultado` reports after "Comprobar palabra"; the message text itself is not modelled. */
  datatype Resultado =
    | SinResultado
    | PalabraVacia
    | YaUsada(palabra: String)
    | Valida(palabra: String, jugador: String)
    | NoValida(palabra: String)

  /** `{n: 0 for n in nombres if n}`: every non-empty name, each with score 0. */
  function Roster(nombres: seq<String>): (r: map<String, nat>)
    ensures forall n :: n in r <==> n in nombres && n != []
    ensures forall n :: n in r ==> r[n] == 0
    ensures |r| <= |nombres|
  {
    if nombres == [] then map[]
    else
      var init := nombres[..|nombres| - 1];
      var n := nombres[|nombres| - 1];
      assert nombres == init + [n];
      var r0 := Roster(init);
      if n == [] then r0 else r0[n := 0]
  }

  /** The sum of the scores the table gives the names in `ks`. */
  ghost function SumOver(m: map<String, nat>, ks: set<String>): nat
    requires ks <= m.Keys
    decreases ks
  {
    if ks == {} then 0 else var k :| k in ks; m[k] + SumOver(m, ks - {k})
  }

  /** The sum of all scores in the table. */
  ghost function Total(m: map<String, nat>): nat
  {
    SumOver(m, m.Keys)
  }

  /** Any name can be taken out of the sum first. */
  lemma {:induction false} SumOverRemove(m: map<String, nat>, ks: set<String>, k: String)
    requires ks <= m.Keys && k in ks
    ensures SumOver(m, ks) == m[k] + SumOver(m, ks - {k})
    decreases ks
  {
    var j :| j in ks && SumOver(m, ks) == m[j] + SumOver(m, ks - {j});
    if j != k {
      SumOverRemove(m, ks - {j}, k);
      SumOverRemove(m, ks - {k}, j);
      assert ks - {j} - {k} == ks - {k} - {j};
    }
  }

  /** Two tables that agree on `ks` have the same sum over `ks`. */
  lemma {:induction false} SumOverAgree(m1: map<String, nat>, m2: map<String, nat>, ks: set<String>)
    requires ks <= m1.Keys && ks <= m2.Keys
    requires forall k :: k in ks ==> m1[k] == m2[k]
    ensures SumOver(m1, ks) == SumOver(m2, ks)
    decreases ks
  {
    if ks != {} {
      var j :| j in ks;
      SumOverRemove(m1, ks, j);
      SumOverRemove(m2, ks, j);
      SumOverAgree(m1, m2, ks - {j});
    }
  }

  /** Awarding one point to one player raises the total by exactly one. */
  lemma TotalIncrement(m: map<String, nat>, k: String)
    requires k in m
    ensures Total(m[k := m[k] + 1]) == Total(m) + 1
  {
    var m' := m[k := m[k] + 1];
    assert m'.Keys == m.Keys;
    SumOverRemove(m, m.Keys, k);
    SumOverRemove(m', m'.Keys, k);
    SumOverAgree(m, m', m.Keys - {k});
  }

  /** A table of zeros sums to zero. */
  lemma {:induction false} SumOverZero(m: map<String, nat>, ks: set<String>)
    requires ks <= m.Keys && forall k :: k in ks ==> m[k] == 0
    ensures SumOver(m, ks) == 0
    decreases ks
  {
    if ks != {} {
      var j :| j in ks;
      SumOverRemove(m, ks, j);
      SumOverZero(m, ks - {j});
    }
  }

  /** A fresh roster has no points yet. */
  lemma RosterTotalZero(nombres: seq<String>)
    ensures Total(Roster(nombres)) == 0
  {
    SumOverZero(Roster(nombres), Roster(nombres).Keys);
  }

  /** The sum of the lengths of a set of words: what a round of the individual mode has scored. */
  ghost function SumLen(s: set<String>): nat
    decreases s
  {
    if s == {} then 0 else var w :| w in s; |w| + SumLen(s - {w})
  }

  /** Any word can be taken out of the sum first. */
  lemma {:induction false} SumLenRemove(s: set<String>, w: String)
    requires w in s
    ensures SumLen(s) == |w| + SumLen(s - {w})
    decreases s
  {
    var v :| v in s && SumLen(s) == |v| + SumLen(s - {v});
    if v != w {
      SumLenRemove(s - {v}, w);
      SumLenRemove(s - {w}, v);
      assert s - {v} - {w} == s - {w} - {v};
    }
  }

  /** A non-empty set of non-empty words has a positive total length. */
  lemma SumLenPositive(s: set<String>)
    requires s != {} && forall w :: w in s ==> w != []
    ensures SumLen(s) > 0
  {
    var w :| w in s;
    SumLenRemove(s, w);
  }

  /** Finding a new word adds exactly its length. */
  lemma SumLenAdd(s: set<String>, w: String)
    requires w !in s
    ensures SumLen(s + {w}) == SumLen(s) + |w|
  {
    SumLenRemove(s + {w}, w);
    assert s + {w} - {w} == s;
  }
}
