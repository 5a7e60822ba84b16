/**
 * The client-side history store (stores/history.ts): the list of saved games,
 * the game being replayed and the replay cursor. Requests to the history API
 * are not made here: each action that awaits one takes what the request
 * delivered as a parameter.
 */
module HistoryStore {
  import opened Wrappers
  import opened Schema

  /**
   * How an awaited request ended: with data, with a response that was not ok,
   * or with a thrown value (an `Error` carrying its message, or anything else).
   */
  datatype Outcome<T> = Delivered(data: T) | NotOk | Threw(message: Option<string>)

  /**
   * The text the catch block stores in `error`: the thrown `Error`'s message
   * ('Unknown error' for any other thrown value), where a response that was not
   * ok throws an `Error` whose message is `notOkMessage`.
   */
  function FailureMessage<T>(outcome: Outcome<T>, notOkMessage: string): (m: string)
    requires !outcome.Delivered?
    ensures outcome.NotOk? ==> m == notOkMessage
    ensures outcome.Threw? && outcome.message.Some? ==> m == outcome.message.value
    ensures outcome == Threw(None) ==> m == "Unknown error"
  {
    match outcome
    case NotOk => notOkMessage
    case Threw(Some(message)) => message
    case Threw(None) => "Unknown error"
  }

  class Store {
    var histories: seq<History>
    var currentReplay: Option<History>
    var replayStep: int
    var isReplaying: bool
    var loading: bool
    var error: Option<string>

    /**
     * The replay cursor never leaves the loaded ledger: with a game loaded it
     * lies in [0, number of moves]; with none it is 0. A replay is in progress
     * exactly when a game is loaded.
     */
    ghost predicate Valid(): (valid: bool)
      reads this
      ensures valid ==> replayStep >= 0 && (isReplaying <==> currentReplay.Some?)
    {
      (currentReplay.None? ==> replayStep == 0 && !isReplaying) &&
      (currentReplay.Some? ==> 0 <= replayStep <= |currentReplay.value.moves| && isReplaying)
    }

    /** The store's initial state. */
    constructor ()
      ensures Valid()
      ensures histories == [] && currentReplay == None && replayStep == 0
      ensures !isReplaying && !loading && error == None
    {
      histories := [];
      currentReplay := None;
      replayStep := 0;
      isReplaying := false;
      loading := false;
      error := None;
    }

    /**
     * `fetchHistories`: on success the list is replaced by the fetched records
     * and `error` stays cleared; on failure the list is kept and `error` holds
     * the message. Either way `loading` ends false and the replay is untouched.
     */
    method FetchHistories(outcome: Outcome<seq<History>>)
      requires Valid()
      modifies this
      ensures Valid() && !loading
      ensures outcome.Delivered? ==> histories == outcome.data && error == None
      ensures !outcome.Delivered? ==>
        histories == old(histories) && error == Some(FailureMessage(outcome, "Failed to fetch histories"))
      ensures currentReplay == old(currentReplay) && replayStep == old(replayStep)
      ensures isReplaying == old(isReplaying)
    {
      loading, error := true, None;
      if outcome.Delivered? {
        histories, loading := outcome.data, false;
      } else {
        error, loading := Some(FailureMessage(outcome, "Failed to fetch histories")), false;
      }
    }

    /**
     * `saveGame`: on success the stored record is put in front of the list and
     * the older records keep their order; on failure the list is unchanged and
     * `error` holds the message. Either way `loading` ends false.
     */
    method SaveGame(outcome: Outcome<History>)
      requires Valid()
      modifies this
      ensures Valid() && !loading
      ensures outcome.Delivered? ==> histories == [outcome.data] + old(histories) && error == None
      ensures !outcome.Delivered? ==>
        histories == old(histories) && error == Some(FailureMessage(outcome, "Failed to save game"))
      ensures currentReplay == old(currentReplay) && replayStep == old(replayStep)
      ensures isReplaying == old(isReplaying)
    {
      loading, error := true, None;
      if outcome.Delivered? {
        histories, loading := [outcome.data] + histories, false;
      } else {
        error, loading := Some(FailureMessage(outcome, "Failed to save game")), false;
      }
    }

    /** `startReplay`: load a game with the cursor before its first move. */
    method StartReplay(h: History)
      modifies this
      ensures Valid()
      ensures currentReplay == Some(h) && replayStep == 0 && isReplaying
      ensures histories == old(histories) && loading == old(loading) && error == old(error)
    {
      currentReplay, replayStep, isReplaying := Some(h), 0, true;
    }

    /** `nextReplayStep`: advance by one move only while a game is loaded and moves remain. */
    method NextReplayStep()
      requires Valid()
      modifies this`replayStep
      ensures Valid()
      ensures replayStep ==
        if currentReplay.Some? && old(replayStep) < |currentReplay.value.moves| then old(replayStep) + 1
        else old(replayStep)
    {
      if currentReplay.Some? && replayStep < |currentReplay.value.moves| {
        replayStep := replayStep + 1;
      }
    }

    /** `prevReplayStep`: go back by one move unless at the start. */
    method PrevReplayStep()
      requires Valid()
      modifies this`replayStep
      ensures Valid()
      ensures replayStep == if old(replayStep) > 0 then old(replayStep) - 1 else old(replayStep)
    {
      if replayStep > 0 {
        replayStep := replayStep - 1;
      }
    }

    /** `setReplayStep`: jump to `step` only when a game is loaded and `step` lies in [0, number of moves]. */
    method SetReplayStep(step: int)
      requires Valid()
      modifies this`replayStep
      ensures Valid()
      ensures replayStep ==
        if currentReplay.Some? && 0 <= step <= |currentReplay.value.moves| then step else old(replayStep)
    {
      if currentReplay.Some? && 0 <= step <= |currentReplay.value.moves| {
        replayStep := step;
      }
    }

    /** `stopReplay`: unload the game and reset the cursor; stopping twice is the same as once. */
    method StopReplay()
      modifies this
      ensures Valid()
      ensures currentReplay == None && replayStep == 0 && !isReplaying
      ensures histories == old(histories) && loading == old(loading) && error == old(error)
    {
      currentReplay, replayStep, isReplaying := None, 0, false;
    }

    /** `clearError`: forget the last error and nothing else. */
    method ClearError()
      modifies this`error
      ensures error == None
    {
      error := None;
    }
  }
}
