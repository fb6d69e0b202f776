/**
 The timed single-player mode of modes/mode_individual.py. A round lasts 60
 seconds; every dictionary word found that contains all three round letters
 (in any order) scores its length, both in the round and in the running
 total. The clock (`time.time()`) and the random letter draws
 (`random.sample`) are inputs: a clock reading in whole milliseconds, and a
 sequence of draws the random generator would have produced.
 */
module Individual {
  import opened Text
  import opened Seqs
  import opened Match
  import opened Scores

  datatype Option<T> = None | Some(value: T)

  /** Length of a round, in seconds. */
  const RoundSeconds: int := 60
  /** Number of random draws tried before falling back. */
  const Attempts: int := 3000
  /** How many dictionary words a draw must match to be used. */
  const MinMatches: int := 100
  /** The letters used when no draw qualifies. */
  const Fallback: String := "CAS"

  /** What `last_message` reports after a word is checked; the text itself is not modelled. */
  datatype Message =
    | NoMessage
    | AlreadyUsed(word: String)
    | Accepted(word: String, points: nat)
    | Invalid(word: String)

  /**
   One result of `"".join(random.sample(all_letters, 3))` over the alphabet
   `A`..`Z`: three distinct capital letters.
   */
  predicate IsDraw(combo: String)
  {
    && |combo| == 3
    && (forall i :: 0 <= i < 3 ==> 'A' <= combo[i] <= 'Z')
    && combo[0] != combo[1] && combo[0] != combo[2] && combo[1] != combo[2]
  }

  /**
   `sum(1 for w in words if all(l.lower() in w for l in combo.lower()))`;
   lower-casing a second time changes nothing (`LowerIdempotent`).
   */
  function Matches(words: seq<String>, combo: String): (n: nat)
    ensures n == |PossibleWords(words, combo)|
  {
    var letters := LowerStr(combo);
    CountIsFilterLength(words, w => ContieneLetras(w, letters));
    Count(words, w => ContieneLetras(w, letters))
  }

  /** A draw is good enough when at least `MinMatches` dictionary words contain its letters. */
  predicate Qualifies(words: seq<String>, combo: String)
  {
    Matches(words, combo) >= MinMatches
  }

  /** Draw `k` is the first one that qualifies. */
  ghost predicate FirstQualifying(words: seq<String>, draws: seq<String>, k: int)
  {
    0 <= k < |draws| && Qualifies(words, draws[k]) && forall j :: 0 <= j < k ==> !Qualifies(words, draws[j])
  }

  /**
   What `choose_letters` returns for a given sequence of draws: the first of
   the first `Attempts` draws that qualifies, or `Fallback` when none does.
   */
  ghost predicate Chosen(words: seq<String>, draws: seq<String>, combo: String)
    requires |draws| >= Attempts
  {
    || (exists k :: 0 <= k < Attempts && FirstQualifying(words, draws, k) && combo == draws[k])
    || ((forall j :: 0 <= j < Attempts ==> !Qualifies(words, draws[j])) && combo == Fallback)
  }

  /** `choose_letters`: up to `Attempts` draws, stopping at the first that qualifies. */
  method ChooseLetters(words: seq<String>, draws: seq<String>) returns (combo: String)
    requires |draws| >= Attempts && forall i :: 0 <= i < |draws| ==> IsDraw(draws[i])
    ensures Chosen(words, draws, combo)
    ensures combo == Fallback || (IsDraw(combo) && Qualifies(words, combo))
  {
    for t := 0 to Attempts
      invariant forall j :: 0 <= j < t ==> !Qualifies(words, draws[j])
    {
      if Qualifies(words, draws[t]) {
        combo := draws[t];
        assert FirstQualifying(words, draws, t);
        return;
      }
    }
    combo := Fallback;
  }

  /** The specification of `choose_letters` leaves no choice: it determines the letters. */
  lemma ChosenIsUnique(words: seq<String>, draws: seq<String>, c1: String, c2: String)
    requires |draws| >= Attempts
    requires Chosen(words, draws, c1) && Chosen(words, draws, c2)
    ensures c1 == c2
  {
  }

  /** The round-end listing `[w for w in words if all(l in w for l in letters.lower())]`. */
  function PossibleWords(words: seq<String>, letters: String): (r: seq<String>)
    ensures forall w :: w in r ==> w in words && ContieneLetras(w, LowerStr(letters))
    ensures forall w :: w in words && ContieneLetras(w, LowerStr(letters)) ==>
      w in r && multiset(r)[w] == multiset(words)[w]
    ensures IsSubsequence(r, words)
  {
    var ls := LowerStr(letters);
    Filter(words, w => ContieneLetras(w, ls))
  }

  /** `int(x)` of a number of seconds given in milliseconds: truncation toward zero. */
  function TruncSeconds(ms: int): (s: int)
    ensures ms >= 0 ==> 0 <= s * 1000 <= ms < s * 1000 + 1000
    ensures ms < 0 ==> ms <= s * 1000 <= 0 && s * 1000 < ms + 1000
  {
    if ms >= 0 then ms / 1000 else -((-ms) / 1000)
  }

  /** `60 - int(time.time() - start_time)`, the timer value before clamping. */
  function Remaining(startMs: int, nowMs: int): (r: int)
    ensures nowMs >= startMs ==> r <= RoundSeconds
    ensures nowMs >= startMs ==> (r <= 0 <==> nowMs - startMs >= RoundSeconds * 1000)
    ensures nowMs >= startMs ==> (r == RoundSeconds <==> nowMs - startMs < 1000)
  {
    RoundSeconds - TruncSeconds(nowMs - startMs)
  }

  /**
   The verdict on a non-empty word, always about that word: already found;
   new, in the dictionary and holding every lower-cased letter, and then
   worth its length; or else invalid.
   */
  function Judgement(word: String, found: set<String>, words: seq<String>, letters: String): (m: Message)
    ensures !m.NoMessage? && m.word == word
    ensures m.AlreadyUsed? <==> word in found
    ensures m.Accepted? <==> word !in found && word in words && ContieneLetras(word, LowerStr(letters))
    ensures m.Accepted? ==> m.points == |word|
  {
    if word in found then AlreadyUsed(word)
    else if word in words && ContieneLetras(word, LowerStr(letters)) then Accepted(word, |word|)
    else Invalid(word)
  }

  /** The session state of the mode. */
  class Session {
    /** The dictionary, loaded once and never changed. */
    const words: seq<String>
    var letters: String
    var foundWords: set<String>
    var score: nat
    var totalScore: nat
    /** `time.time()` at round start, in milliseconds; `None` before the first round. */
    var startTime: Option<int>
    var timeLeft: nat
    var gameActive: bool
    var roundFinished: bool
    var wordChecked: bool
    var currentWord: String
    var lastMessage: Message
    /** The session key `screen`, owned by the menu that launched this mode. */
    var screen: String

    /**
     The round's invariant: the round score is the total length of the words
     found, the running total never falls below it, every found word is a
     non-empty dictionary word holding the round letters, and a running round has a
     start time and is not over.
     */
    ghost predicate Valid()
      reads this
    {
      && score == SumLen(foundWords)
      && score <= totalScore
      && (forall w :: w in foundWords ==> w != [] && w in words && ContieneLetras(w, LowerStr(letters)))
      && (gameActive ==> startTime.Some? && !roundFinished)
    }

    /** The defaults installed for every missing session key. */
    constructor (words: seq<String>, screen: String)
      ensures Valid() && this.words == words && this.screen == screen
      ensures letters == [] && foundWords == {} && score == 0 && totalScore == 0
      ensures startTime == None && timeLeft == RoundSeconds
      ensures !gameActive && !roundFinished && !wordChecked && currentWord == [] && lastMessage == NoMessage
    {
      this.words := words;
      this.screen := screen;
      letters := [];
      foundWords := {};
      score := 0;
      totalScore := 0;
      startTime := None;
      timeLeft := RoundSeconds;
      gameActive := false;
      roundFinished := false;
      wordChecked := false;
      currentWord := [];
      lastMessage := NoMessage;
    }

    /** The state every fresh round starts from, whichever way it was started. */
    ghost predicate FreshRound(draws: seq<String>, now: int)
      reads this
      requires |draws| >= Attempts
    {
      && Chosen(words, draws, letters)
      && foundWords == {} && score == 0
      && startTime == Some(now) && timeLeft == RoundSeconds
      && gameActive && !roundFinished && !wordChecked && currentWord == []
    }

    /** `start_game(reset_score)`: new letters and a fresh round; the total is zeroed only on request. */
    method StartGame(resetScore: bool, now: int, draws: seq<String>)
      requires Valid()
      requires |draws| >= Attempts && forall i :: 0 <= i < |draws| ==> IsDraw(draws[i])
      modifies this`totalScore, this`letters, this`foundWords, this`score, this`startTime, this`timeLeft,
        this`gameActive, this`roundFinished, this`wordChecked, this`currentWord
      ensures Valid() && FreshRound(draws, now)
      ensures totalScore == if resetScore then 0 else old(totalScore)
    {
      if resetScore {
        totalScore := 0;
      }
      var combo := ChooseLetters(words, draws);
      letters := combo;
      foundWords := {};
      score := 0;
      startTime := Some(now);
      timeLeft := RoundSeconds;
      gameActive := true;
      roundFinished := false;
      wordChecked := false;
      currentWord := [];
    }

    /** `full_clean_for_new_round`: a fresh round with new letters, keeping the total. */
    method FullCleanForNewRound(now: int, draws: seq<String>)
      requires Valid()
      requires |draws| >= Attempts && forall i :: 0 <= i < |draws| ==> IsDraw(draws[i])
      modifies this`totalScore, this`letters, this`foundWords, this`score, this`startTime, this`timeLeft,
        this`gameActive, this`roundFinished, this`wordChecked, this`currentWord
      ensures Valid() && FreshRound(draws, now)
      ensures totalScore == old(totalScore)
    {
      var combo := ChooseLetters(words, draws);
      foundWords := {};
      score := 0;
      roundFinished := false;
      wordChecked := false;
      currentWord := [];
      gameActive := true;
      startTime := Some(now);
      timeLeft := RoundSeconds;
      letters := combo;
    }

    /** The first round starts by itself when no round is running or finished. */
    method BeginIfIdle(now: int, draws: seq<String>)
      requires Valid()
      requires |draws| >= Attempts && forall i :: 0 <= i < |draws| ==> IsDraw(draws[i])
      modifies this`totalScore, this`letters, this`foundWords, this`score, this`startTime, this`timeLeft,
        this`gameActive, this`roundFinished, this`wordChecked, this`currentWord
      ensures Valid()
      ensures !old(gameActive) && !old(roundFinished) ==> FreshRound(draws, now) && totalScore == old(totalScore)
      ensures old(gameActive) || old(roundFinished) ==> unchanged(this)
    {
      if !gameActive && !roundFinished {
        StartGame(false, now, draws);
      }
    }

    /** Typing into the word box (its key is `current_word`). */
    method SetCurrentWord(w: String)
      requires Valid()
      modifies this`currentWord
      ensures Valid() && currentWord == w
    {
      currentWord := w;
    }

    /**
     `check_word`, the word box's change handler. It does nothing while a
     check is already under way, for an empty word or outside a running
     round; otherwise the normalised word is judged and the box is cleared.
     */
    method CheckWord()
      requires Valid()
      modifies this`wordChecked, this`currentWord, this`foundWords, this`score, this`totalScore, this`lastMessage
      ensures Valid()
      ensures wordChecked == old(wordChecked)
      ensures old(wordChecked) ==> unchanged(this)
      ensures !old(wordChecked) ==> Submitted(Normalize(old(currentWord)))
    {
      if wordChecked {
        return;
      }
      var word := Normalize(currentWord);
      Submit(word);
    }

    /**
     The effect of checking the normalised word `word`: nothing for an empty
     word or outside a running round; otherwise the verdict of `Judgement`
     is reported, an accepted word is added to the found words and its
     length to both scores, and the word box is cleared.
     */
    twostate predicate Submitted(word: String)
      reads this
    {
      if word == [] || !gameActive then
        currentWord == old(currentWord) && foundWords == old(foundWords) && score == old(score)
        && totalScore == old(totalScore) && lastMessage == old(lastMessage)
      else
        && lastMessage == Judgement(word, old(foundWords), words, letters)
        && foundWords == old(foundWords) + (if lastMessage.Accepted? then {word} else {})
        && score == old(score) + (if lastMessage.Accepted? then |word| else 0)
        && totalScore == old(totalScore) + (if lastMessage.Accepted? then |word| else 0)
        && currentWord == []
    }

    /** The body of `check_word` once the box contents are normalised and no other check is under way. */
    method Submit(word: String)
      requires Valid() && !wordChecked
      modifies this`wordChecked, this`currentWord, this`foundWords, this`score, this`totalScore, this`lastMessage
      ensures Valid() && !wordChecked
      ensures Submitted(word)
    {
      wordChecked := true;
      if word == [] || !gameActive {
        wordChecked := false;
        return;
      }
      Judge(word);
      currentWord := [];
      wordChecked := false;
    }

    /**
     The verdict on a non-empty word during a round: a word already found
     only gets a warning; a new dictionary word containing every letter
     scores its length in both the round and the total and joins the found
     words; anything else is rejected and, unlike in the turn-based games,
     not remembered.
     */
    method Judge(word: String)
      requires Valid() && word != [] && gameActive
      modifies this`foundWords, this`score, this`totalScore, this`lastMessage
      ensures Valid()
      ensures lastMessage == Judgement(word, old(foundWords), words, letters)
      ensures foundWords == old(foundWords) + (if lastMessage.Accepted? then {word} else {})
      ensures score == old(score) + (if lastMessage.Accepted? then |word| else 0)
      ensures totalScore == old(totalScore) + (if lastMessage.Accepted? then |word| else 0)
    {
      var ls := LowerStr(letters);
      if word in foundWords {
        lastMessage := AlreadyUsed(word);
      } else if word in words && ContieneLetras(word, ls) {
        var points := |word|;
        SumLenAdd(foundWords, word);
        score := score + points;
        totalScore := totalScore + points;
        foundWords := foundWords + {word};
        lastMessage := Accepted(word, points);
      } else {
        lastMessage := Invalid(word);
      }
    }

    /**
     The message block of a running round: the last verdict is shown once
     and then cleared.
     */
    method ShowMessage() returns (shown: Message)
      requires Valid()
      modifies this`lastMessage
      ensures Valid()
      ensures shown == if old(gameActive) then old(lastMessage) else NoMessage
      ensures lastMessage == if old(gameActive) then NoMessage else old(lastMessage)
    {
      shown := NoMessage;
      if gameActive && lastMessage != NoMessage {
        shown := lastMessage;
        lastMessage := NoMessage;
      }
    }

    /**
     `update_timer` at clock reading `now`: outside a running round nothing
     happens; otherwise the seconds left are recomputed and, once none are
     left, the round ends.
     */
    method UpdateTimer(now: int)
      requires Valid()
      modifies this`timeLeft, this`gameActive, this`roundFinished
      ensures Valid()
      ensures !old(gameActive) ==> unchanged(this)
      ensures old(gameActive) ==>
        var rem := Remaining(old(startTime).value, now);
        if rem <= 0 then timeLeft == 0 && !gameActive && roundFinished
        else timeLeft == rem && gameActive && !roundFinished
      ensures old(gameActive) && now >= old(startTime).value ==> timeLeft <= RoundSeconds
    {
      if !gameActive {
        return;
      }
      var remaining := Remaining(startTime.value, now);
      if remaining <= 0 {
        timeLeft := 0;
        gameActive := false;
        roundFinished := true;
      } else {
        timeLeft := remaining;
      }
    }

    /**
     "Siguiente ronda" is on screen only at round end and only if some word
     was found; so whenever it is offered, no round is running and the round
     scored.
     */
    predicate NextRoundOffered()
      reads this
      requires Valid()
      ensures NextRoundOffered() ==> !gameActive && score > 0
    {
      if roundFinished && |foundWords| > 0 then
        SumLenPositive(foundWords);
        true
      else
        false
    }

    /** "Siguiente ronda": a fresh round with new letters, the total kept. */
    method NextRound(now: int, draws: seq<String>)
      requires Valid()
      requires |draws| >= Attempts && forall i :: 0 <= i < |draws| ==> IsDraw(draws[i])
      modifies this`totalScore, this`letters, this`foundWords, this`score, this`startTime, this`timeLeft,
        this`gameActive, this`roundFinished, this`wordChecked, this`currentWord
      ensures Valid()
      ensures old(NextRoundOffered()) ==> FreshRound(draws, now) && totalScore == old(totalScore)
      ensures !old(NextRoundOffered()) ==> unchanged(this)
    {
      if NextRoundOffered() {
        FullCleanForNewRound(now, draws);
      }
    }

    /**
     "Volver al inicio", offered at every round end: every session key is
     dropped (so the next visit starts from the defaults, total included) and
     the menu is told to show its start screen.
     */
    method ReturnToStart()
      requires Valid()
      modifies this
      ensures Valid()
      ensures old(roundFinished) ==>
        && letters == [] && foundWords == {} && score == 0 && totalScore == 0
        && startTime == None && timeLeft == RoundSeconds
        && !gameActive && !roundFinished && !wordChecked && currentWord == [] && lastMessage == NoMessage
        && screen == "start"
      ensures !old(roundFinished) ==> unchanged(this)
    {
      if roundFinished {
        letters := [];
        foundWords := {};
        score := 0;
        totalScore := 0;
        startTime := None;
        timeLeft := RoundSeconds;
        gameActive := false;
        roundFinished := false;
        wordChecked := false;
        currentWord := [];
        lastMessage := NoMessage;
        screen := "start";
      }
    }
  }
}
