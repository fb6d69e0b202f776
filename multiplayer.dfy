/**
 The multiplayer mode of modes/mode_multiplayer.py: the same turn-based
 game as app.py, entered directly at the roster screen, where a word must
 contain the three plate letters in any order.
 */
module Multiplayer {
  import opened Text
  import opened Seqs
  import opened Match
  import opened Scores

  /** The value of `fase` in this mode. */
  datatype Fase = Config | Juego

  /** What the plate box did with its contents. */
  datatype Placa = SinPlaca | PlacaActiva | AvisoPlaca

  /** The listing `[p for p in palabras if contiene_letras(p, letras)]`. */
  function PosiblesLetras(palabras: seq<String>, letras: String): (r: seq<String>)
    ensures forall w :: w in r ==> w in palabras && ContieneLetras(w, letras)
    ensures forall w :: w in palabras && ContieneLetras(w, letras) ==> w in r && multiset(r)[w] == multiset(palabras)[w]
    ensures IsSubsequence(r, palabras)
  {
    Filter(palabras, p => ContieneLetras(p, letras))
  }

  /** Every word of the in-order listing also appears in the any-order listing. */
  lemma InOrderListingIncluded(palabras: seq<String>, letras: String, w: String)
    requires w in Filter(palabras, p => EnOrden(p, letras))
    ensures w in PosiblesLetras(palabras, letras)
  {
    EnOrdenImpliesContieneLetras(w, letras);
  }

  class Partida {
    /** The dictionary, loaded once and never changed. */
    const palabras: seq<String>
    var fase: Fase
    var jugadores: map<String, nat>
    var letras: String
    var palabrasUsadas: set<String>
    var ultimoResultado: Resultado
    var ultimaAccion: bool
    /**
     Whether the plate box, on the latest run, held a valid plate; only then
     are the player box, the word box and "Comprobar palabra" on screen.
     */
    var placaActiva: bool
    /** The session key `screen`, owned by the menu that launched this mode. */
    var screen: String
    /** The words that scored; each scored exactly one point, once. */
    ghost var aceptadas: set<String>

    /**
     The game's invariant: one point per accepted word, every accepted word a
     dictionary word marked used, nothing in play before the roster exists.
     */
    ghost predicate Valid()
      reads this
    {
      && aceptadas <= palabrasUsadas
      && (forall w :: w in aceptadas ==> w in palabras)
      && Total(jugadores) == |aceptadas|
      && (fase == Juego ==> jugadores != map[])
      && (fase == Config ==> jugadores == map[] && palabrasUsadas == {})
      && (letras == [] || ValidPlate(letras))
      && (placaActiva ==> fase == Juego && ValidPlate(letras))
      && (fase == Config ==> !ultimaAccion)
    }

    /** The defaults `run_mode` installs for every missing session key. */
    constructor (palabras: seq<String>, screen: String)
      ensures Valid() && this.palabras == palabras && this.screen == screen
      ensures fase == Config && jugadores == map[] && letras == [] && palabrasUsadas == {}
      ensures ultimoResultado == SinResultado && !ultimaAccion && !placaActiva
    {
      this.palabras := palabras;
      this.screen := screen;
      fase := Config;
      jugadores := map[];
      letras := [];
      palabrasUsadas := {};
      ultimoResultado := SinResultado;
      ultimaAccion := false;
      placaActiva := false;
      aceptadas := {};
    }

    /**
     "Confirmar jugadores" with the names typed into the boxes (between one
     and ten of them), each already passed through `.strip()`: the roster is
     the non-empty names, all at 0; play starts iff there is at least one,
     otherwise a warning.
     */
    method ConfirmPlayers(nombres: seq<String>) returns (aviso: bool)
      requires Valid() && 1 <= |nombres| <= 10
      modifies this`fase, this`jugadores
      ensures Valid()
      ensures old(fase) != Config ==> fase == old(fase) && jugadores == old(jugadores) && !aviso
      ensures old(fase) == Config ==>
        && jugadores == Roster(nombres)
        && fase == (if jugadores != map[] then Juego else Config)
        && aviso == (jugadores == map[])
    {
      aviso := false;
      if fase == Config {
        jugadores := Roster(nombres);
        RosterTotalZero(nombres);
        if jugadores != map[] {
          fase := Juego;
        } else {
          aviso := true;
        }
      }
    }

    /** The plate box during play: stored only when it holds three alphabetic characters. */
    method EnterPlate(entrada: String) returns (res: Placa)
      requires Valid()
      modifies this`letras, this`placaActiva
      ensures Valid()
      ensures placaActiva == (res == PlacaActiva)
      ensures var l := Normalize(entrada);
        && letras == (if old(fase) == Juego && ValidPlate(l) then l else old(letras))
        && res == (if old(fase) != Juego || l == [] then SinPlaca
                   else if ValidPlate(l) then PlacaActiva
                   else AvisoPlaca)
    {
      res := SinPlaca;
      if fase == Juego {
        var l := Normalize(entrada);
        if l != [] && |l| == 3 && forall i :: 0 <= i < |l| ==> IsAlpha(l[i]) {
          letras := l;
          res := PlacaActiva;
        } else if l != [] {
          res := AvisoPlaca;
        }
        placaActiva := res == PlacaActiva;
      }
    }

    /**
     "Comprobar palabra"; `palabra` is the word box after `.strip().lower()`.
     The outcomes in order: empty or already used changes nothing; a
     dictionary word containing every plate letter is marked used and earns
     its player one point; any other word is marked used with no point.
     */
    method CheckWord(jugador: String, palabra: String) returns (res: Resultado)
      requires Valid() && placaActiva && jugador in jugadores
      modifies this`palabrasUsadas, this`jugadores, this`ultimoResultado, this`ultimaAccion, this`aceptadas
      ensures Valid()
      ensures palabra == [] ==>
        res == PalabraVacia && palabrasUsadas == old(palabrasUsadas) && jugadores == old(jugadores)
      ensures palabra != [] && palabra in old(palabrasUsadas) ==>
        res == YaUsada(palabra) && palabrasUsadas == old(palabrasUsadas) && jugadores == old(jugadores)
      ensures palabra != [] && palabra !in old(palabrasUsadas) && palabra in palabras && ContieneLetras(palabra, letras) ==>
        && res == Valida(palabra, jugador)
        && palabrasUsadas == old(palabrasUsadas) + {palabra}
        && jugadores == old(jugadores)[jugador := old(jugadores)[jugador] + 1]
      ensures palabra != [] && palabra !in old(palabrasUsadas) && !(palabra in palabras && ContieneLetras(palabra, letras)) ==>
        res == NoValida(palabra) && palabrasUsadas == old(palabrasUsadas) + {palabra} && jugadores == old(jugadores)
      ensures ultimoResultado == res && ultimaAccion
      ensures old(palabrasUsadas) <= palabrasUsadas
    {
      if palabra == [] {
        res := PalabraVacia;
      } else if palabra in palabrasUsadas {
        res := YaUsada(palabra);
      } else if palabra in palabras && ContieneLetras(palabra, letras) {
        Award(jugador, palabra);
        res := Valida(palabra, jugador);
      } else {
        palabrasUsadas := palabrasUsadas + {palabra};
        res := NoValida(palabra);
      }
      ultimoResultado := res;
      ultimaAccion := true;
    }

    /** Accepting a fresh dictionary word: it is marked used and its player gains one point. */
    method Award(jugador: String, palabra: String)
      requires Valid() && jugador in jugadores && palabra !in palabrasUsadas && palabra in palabras
      modifies this`palabrasUsadas, this`jugadores, this`aceptadas
      ensures Valid()
      ensures palabrasUsadas == old(palabrasUsadas) + {palabra}
      ensures jugadores == old(jugadores)[jugador := old(jugadores)[jugador] + 1]
    {
      TotalIncrement(jugadores, jugador);
      palabrasUsadas := palabrasUsadas + {palabra};
      aceptadas := aceptadas + {palabra};
      jugadores := jugadores[jugador := jugadores[jugador] + 1];
    }

    /**
     The "Marcador" block: shown after a check or once anybody has scored;
     showing it clears the redraw flag.
     */
    method RedrawScoreboard() returns (shown: bool)
      requires Valid()
      modifies this`ultimaAccion
      ensures Valid()
      ensures shown == (old(ultimaAccion) || exists n :: n in jugadores && jugadores[n] != 0)
      ensures ultimaAccion == (old(ultimaAccion) && !shown)
    {
      shown := ultimaAccion || exists n :: n in jugadores && jugadores[n] != 0;
      if shown {
        ultimaAccion := false;
      }
    }

    /**
     "Reiniciar partida" during play: the mode's keys are dropped, so its next
     run starts again from their defaults at the roster screen, and the menu
     is told to show its start screen.
     */
    method Restart()
      requires Valid()
      modifies this
      ensures Valid()
      ensures old(fase) == Juego ==>
        && fase == Config && jugadores == map[] && letras == [] && palabrasUsadas == {}
        && ultimoResultado == SinResultado && !ultimaAccion && !placaActiva && screen == "start"
      ensures old(fase) != Juego ==> unchanged(this)
    {
      if fase == Juego {
        jugadores := map[];
        letras := [];
        palabrasUsadas := {};
        ultimoResultado := SinResultado;
        ultimaAccion := false;
        placaActiva := false;
        aceptadas := {};
        fase := Config;
        screen := "start";
      }
    }
  }
}
