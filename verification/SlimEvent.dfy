/** slimevent: spin loops that exchange values in a borrowed word. */
module SlimEvent {
  import opened Machine

  class Event {
    var state: Dword
    const initial: Dword

    constructor (state: Dword)
      ensures this.state == initial == state
    {
      this.state, initial := state, state;
    }

    /** One turn of `wait`: does it leave the loop? */
    method WaitOnce() returns (done: bool)
      modifies this`state
      ensures state == initial && (done <==> old(state) != initial)
      ensures (state, done) == After(initial, old(state), Wait)
    {
      var seen := state;
      state := initial;
      done := seen != initial;
    }

    /** One turn of `notify`: does it leave the loop? */
    method NotifyOnce() returns (done: bool)
      modifies this`state
      ensures state == Not32(initial) && (done <==> old(state) == initial)
      ensures (state, done) == After(initial, old(state), Notify)
    {
      var seen := state;
      state := Not32(initial);
      done := seen == initial;
    }
  }

  datatype Turn = Wait | Notify

  /** One turn of either loop by any thread: the word after it, and whether that loop is left. */
  function After(initial: Dword, word: Dword, turn: Turn): (Dword, bool) {
    match turn
    case Wait => (initial, word != initial)
    case Notify => (Not32(initial), word == initial)
  }

  /** The word after any interleaving of turns, and how many loops of `kind` were left. */
  function WordAfter(initial: Dword, word: Dword, turns: seq<Turn>): Dword
    decreases |turns|
  {
    if turns == [] then word else WordAfter(initial, After(initial, word, turns[0]).0, turns[1..])
  }

  function Completed(initial: Dword, word: Dword, turns: seq<Turn>, kind: Turn): nat
    decreases |turns|
  {
    if turns == [] then 0
    else (if turns[0] == kind && After(initial, word, turns[0]).1 then 1 else 0)
         + Completed(initial, After(initial, word, turns[0]).0, turns[1..], kind)
  }

  function Level(initial: Dword, word: Dword): int {
    if word == initial then 0 else 1
  }

  /** However many threads wait and notify, and however their turns interleave: the word is the
      initial value or its complement, and the completed notifies outnumber the completed waits by
      one exactly when it is the complement. */
  lemma {:induction false} EventConserved(initial: Dword, word: Dword, turns: seq<Turn>)
    requires word == initial || word == Not32(initial)
    ensures WordAfter(initial, word, turns) in {initial, Not32(initial)}
    ensures Completed(initial, word, turns, Notify) - Completed(initial, word, turns, Wait)
            == Level(initial, WordAfter(initial, word, turns)) - Level(initial, word)
    decreases |turns|
  {
    if turns != [] {
      EventConserved(initial, After(initial, word, turns[0]).0, turns[1..]);
    }
  }

  /** Does turn `i` leave its loop? */
  function Leaves(initial: Dword, word: Dword, turns: seq<Turn>, i: nat): bool
    requires i < |turns|
  {
    After(initial, WordAfter(initial, word, turns[..i]), turns[i]).1
  }

  /** The last turn alone decides the word: a wait restores the initial value, a notify complements it. */
  lemma {:induction false} LastTurnDecides(initial: Dword, word: Dword, turns: seq<Turn>)
    requires turns != []
    ensures WordAfter(initial, word, turns)
            == if turns[|turns| - 1].Wait? then initial else Not32(initial)
    decreases |turns|
  {
    if |turns| > 1 {
      LastTurnDecides(initial, After(initial, word, turns[0]).0, turns[1..]);
    } else {
      assert turns[1..] == [];
    }
  }

  /** A turn leaves its loop exactly if the turn before it was of the other kind; the first one does if
      it is a wait on a complemented word or a notify on an initial one. */
  lemma LeavesExactlyIf(initial: Dword, word: Dword, turns: seq<Turn>, i: nat)
    requires (word == initial || word == Not32(initial)) && i < |turns|
    ensures Leaves(initial, word, turns, i) <==>
              if i == 0 then (if turns[0].Wait? then word == Not32(initial) else word == initial)
              else turns[i] != turns[i - 1]
  {
    if i > 0 {
      LastTurnDecides(initial, word, turns[..i]);
      assert turns[..i][i - 1] == turns[i - 1];
    }
  }
}
