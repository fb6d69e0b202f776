/**
 The licence-plate game of app.py: players take turns proposing dictionary
 words that hold the three plate letters in order. The Streamlit session
 state is the class `Partida`; each widget event is one method.
 */
module App {
  import opened Text
  import opened Seqs
  import opened Match
  import opened Scores

  /** The value of `fase`. */
  datatype Fase = Inicio | Instrucciones | Config | Juego

  /** What the plate box did with its contents. */
  datatype Placa =
    | SinPlaca     // empty box: nothing happens, no warning
    | PlacaActiva  // three letters accepted and stored
    | AvisoPlaca   // "Introduce exactamente 3 letras válidas."

  /** The listing `[p for p in palabras if contiene_en_orden(p, letras)]`. */
  function PosiblesEnOrden(palabras: seq<String>, letras: String): (r: seq<String>)
    ensures forall w :: w in r ==> w in palabras && EnOrden(w, letras)
    ensures forall w :: w in palabras && EnOrden(w, letras) ==> w in r && multiset(r)[w] == multiset(palabras)[w]
    ensures IsSubsequence(r, palabras)
  {
    Filter(palabras, p => EnOrden(p, letras))
  }

  class Partida {
    /** The dictionary, loaded once and never changed. */
    const palabras: seq<String>
    var fase: Fase
    var jugadores: map<String, nat>
    var letras: String
    var palabrasUsadas: set<String>
    var ultimoResultado: Resultado
    var ultimaAccion: bool
    /**
     Whether the plate box, on the latest run, held a valid plate; only then
     are the player box, the word box and "Comprobar palabra" on screen.
     */
    var placaActiva: bool
    /** The words that scored; each scored exactly one point, once. */
    ghost var aceptadas: set<String>

    /**
     The game's invariant: the points handed out are exactly one per accepted
     word, every accepted word is a dictionary word that is marked used, and
     nothing is in play before the roster is confirmed.
     */
    ghost predicate Valid()
      reads this
    {
      && aceptadas <= palabrasUsadas
      && (forall w :: w in aceptadas ==> w in palabras)
      && Total(jugadores) == |aceptadas|
      && (fase == Juego ==> jugadores != map[])
      && (fase != Juego ==> jugadores == map[] && palabrasUsadas == {})
      && (letras == [] || ValidPlate(letras))
      && (placaActiva ==> fase == Juego && ValidPlate(letras))
      && (fase != Juego ==> !ultimaAccion)
    }

    /** The session's initial values. */
    constructor (palabras: seq<String>)
      ensures Valid() && this.palabras == palabras
      ensures fase == Inicio && jugadores == map[] && letras == [] && palabrasUsadas == {}
      ensures ultimoResultado == SinResultado && !ultimaAccion && !placaActiva
    {
      this.palabras := palabras;
      fase := Inicio;
      jugadores := map[];
      letras := [];
      palabrasUsadas := {};
      ultimoResultado := SinResultado;
      ultimaAccion := false;
      placaActiva := false;
      aceptadas := {};
    }

    /** The "Start" button of the opening screen. */
    method PressStart()
      requires Valid()
      modifies this`fase
      ensures Valid()
      ensures fase == if old(fase) == Inicio then Instrucciones else old(fase)
    {
      if fase == Inicio {
        fase := Instrucciones;
      }
    }

    /** The "Continuar" button of the instructions screen. */
    method PressContinue()
      requires Valid()
      modifies this`fase
      ensures Valid()
      ensures fase == if old(fase) == Instrucciones then Config else old(fase)
    {
      if fase == Instrucciones {
        fase := Config;
      }
    }

    /**
     "Confirmar jugadores" with the names typed into the boxes (between one
     and ten of them), each already passed through `.strip()`. The roster
     becomes the non-empty names, all at 0; the game starts iff there is at
     least one, otherwise a warning.
     */
    method ConfirmPlayers(nombres: seq<String>) returns (aviso: bool)
      requires Valid() && 1 <= |nombres| <= 10
      modifies this`fase, this`jugadores
      ensures Valid()
      ensures old(fase) != Config ==> fase == old(fase) && jugadores == old(jugadores) && !aviso
      ensures old(fase) == Config ==>
        && jugadores == Roster(nombres)
        && fase == (if jugadores != map[] then Juego else Config)
        && aviso == (jugadores == map[])
    {
      aviso := false;
      if fase == Config {
        jugadores := Roster(nombres);
        RosterTotalZero(nombres);
        if jugadores != map[] {
          fase := Juego;
        } else {
          aviso := true;
        }
      }
    }

    /**
     The plate box during play: its contents are stripped and lower-cased and
     stored only when they are three alphabetic characters.
     */
    method EnterPlate(entrada: String) returns (res: Placa)
      requires Valid()
      modifies this`letras, this`placaActiva
      ensures Valid()
      ensures placaActiva == (res == PlacaActiva)
      ensures var l := Normalize(entrada);
        && letras == (if old(fase) == Juego && ValidPlate(l) then l else old(letras))
        && res == (if old(fase) != Juego || l == [] then SinPlaca
                   else if ValidPlate(l) then PlacaActiva
                   else AvisoPlaca)
    {
      res := SinPlaca;
      if fase == Juego {
        var l := Normalize(entrada);
        if l != [] && |l| == 3 && forall i :: 0 <= i < |l| ==> IsAlpha(l[i]) {
          letras := l;
          res := PlacaActiva;
        } else if l != [] {
          res := AvisoPlaca;
        }
        placaActiva := res == PlacaActiva;
      }
    }

    /**
     "Comprobar palabra" for the player picked in the select box; `palabra` is
     the word box after `.strip().lower()`, i.e. `Normalize` of its contents.
     The four outcomes, checked in this order: an empty word and an already
     used word change nothing; a dictionary word holding the plate in order
     is marked used and earns its player exactly one point; any other word is
     marked used as well, and nobody scores.
     */
    method CheckWord(jugador: String, palabra: String) returns (res: Resultado)
      requires Valid() && placaActiva && jugador in jugadores
      modifies this`palabrasUsadas, this`jugadores, this`ultimoResultado, this`ultimaAccion, this`aceptadas
      ensures Valid()
      ensures palabra == [] ==>
        res == PalabraVacia && palabrasUsadas == old(palabrasUsadas) && jugadores == old(jugadores)
      ensures palabra != [] && palabra in old(palabrasUsadas) ==>
        res == YaUsada(palabra) && palabrasUsadas == old(palabrasUsadas) && jugadores == old(jugadores)
      ensures palabra != [] && palabra !in old(palabrasUsadas) && palabra in palabras && EnOrden(palabra, letras) ==>
        && res == Valida(palabra, jugador)
        && palabrasUsadas == old(palabrasUsadas) + {palabra}
        && jugadores == old(jugadores)[jugador := old(jugadores)[jugador] + 1]
      ensures palabra != [] && palabra !in old(palabrasUsadas) && !(palabra in palabras && EnOrden(palabra, letras)) ==>
        res == NoValida(palabra) && palabrasUsadas == old(palabrasUsadas) + {palabra} && jugadores == old(jugadores)
      ensures ultimoResultado == res && ultimaAccion
      ensures old(palabrasUsadas) <= palabrasUsadas
    {
      if palabra == [] {
        res := PalabraVacia;
      } else if palabra in palabrasUsadas {
        res := YaUsada(palabra);
      } else {
        var enOrden := false;
        if palabra in palabras {
          enOrden := ContieneEnOrden(palabra, letras);
        }
        if palabra in palabras && enOrden {
          Award(jugador, palabra);
          res := Valida(palabra, jugador);
        } else {
          palabrasUsadas := palabrasUsadas + {palabra};
          res := NoValida(palabra);
        }
      }
      ultimoResultado := res;
      ultimaAccion := true;
    }

    /** Accepting a fresh dictionary word: it is marked used and its player gains one point. */
    method Award(jugador: String, palabra: String)
      requires Valid() && jugador in jugadores && palabra !in palabrasUsadas && palabra in palabras
      modifies this`palabrasUsadas, this`jugadores, this`aceptadas
      ensures Valid()
      ensures palabrasUsadas == old(palabrasUsadas) + {palabra}
      ensures jugadores == old(jugadores)[jugador := old(jugadores)[jugador] + 1]
    {
      TotalIncrement(jugadores, jugador);
      palabrasUsadas := palabrasUsadas + {palabra};
      aceptadas := aceptadas + {palabra};
      jugadores := jugadores[jugador := jugadores[jugador] + 1];
    }

    /** The "Marcador actualizado" block: shown once after a check, which clears the flag. */
    method RedrawScoreboard() returns (shown: bool)
      requires Valid()
      modifies this`ultimaAccion
      ensures Valid()
      ensures shown == old(ultimaAccion) && !ultimaAccion
    {
      shown := ultimaAccion;
      if ultimaAccion {
        ultimaAccion := false;
      }
    }

    /**
     "Reiniciar partida" during play: players, plate, used words and the last
     result are dropped (back to their initial values) and the game returns
     to the opening screen.
     */
    method Restart()
      requires Valid()
      modifies this
      ensures Valid()
      ensures old(fase) == Juego ==>
        && fase == Inicio && jugadores == map[] && letras == [] && palabrasUsadas == {}
        && ultimoResultado == SinResultado && !ultimaAccion && !placaActiva
      ensures old(fase) != Juego ==> unchanged(this)
    {
      if fase == Juego {
        jugadores := map[];
        letras := [];
        palabrasUsadas := {};
        ultimoResultado := SinResultado;
        ultimaAccion := false;
        placaActiva := false;
        aceptadas := {};
        fase := Inicio;
      }
    }
  }
}
