/**
 * `StorageManager`: the test history, kept newest-first as one JSON array
 * under a single key of the browser's local storage. JSON encoding and
 * decoding are taken to be inverse, so the storage holds the array itself.
 */
module Storage {
  import opened Wrappers
  import opened Types

  /** The local-storage key under which the history is kept. */
  const StorageKey: string := "speaklevel_ai_history"

  /**
   * `history.find(a => a.id === id)`: the first, that is newest, attempt
   * whose id matches. Ids are not checked for uniqueness, so "first" matters.
   */
  function FindById(history: seq<TestAttempt>, id: string): (r: Option<TestAttempt>)
    ensures r.None? <==> forall k :: 0 <= k < |history| ==> history[k].id != id
    ensures forall k :: FirstWithId(history, id, k) ==> r == Some(history[k])
    ensures r.Some? ==> r.value in history && r.value.id == id
  {
    if history == [] then None
    else if history[0].id == id then Some(history[0])
    else FindById(history[1..], id)
  }

  /** Position `k` holds the first attempt with this id. */
  ghost predicate FirstWithId(history: seq<TestAttempt>, id: string, k: int)
  {
    0 <= k < |history| && history[k].id == id && forall j :: 0 <= j < k ==> history[j].id != id
  }

  /** Prepending moves every earlier entry one place back and changes nothing else. */
  lemma SaveShifts(attempt: TestAttempt, history: seq<TestAttempt>)
    ensures |[attempt] + history| == |history| + 1 && ([attempt] + history)[0] == attempt
    ensures forall k :: 0 <= k < |history| ==> ([attempt] + history)[k + 1] == history[k]
  {
  }

  /** Right after a save, looking up the saved id finds the saved attempt. */
  lemma FindSaved(attempt: TestAttempt, history: seq<TestAttempt>)
    ensures FindById([attempt] + history, attempt.id) == Some(attempt)
  {
  }

  /** A save leaves the lookup of every other id as it was. */
  lemma FindOthersAfterSave(attempt: TestAttempt, history: seq<TestAttempt>)
    ensures forall id :: id != attempt.id ==> FindById([attempt] + history, id) == FindById(history, id)
  {
    assert ([attempt] + history)[1..] == history;
  }

  /** The browser's local storage, restricted to what this application keeps in it. */
  class HistoryStore {
    /** Every stored key with the value its JSON text decodes to. */
    var local: map<string, seq<TestAttempt>>

    constructor (initial: map<string, seq<TestAttempt>>)
      ensures local == initial
    {
      local := initial;
    }

    /** `getHistory`: the stored array, or the empty list when the key is absent. */
    function History(): (h: seq<TestAttempt>)
      reads this
      ensures StorageKey !in local ==> h == []
      ensures StorageKey in local ==> h == local[StorageKey]
    {
      if StorageKey in local then local[StorageKey] else []
    }

    /** `getAttemptById`: the newest stored attempt with this id, if any. */
    function AttemptById(id: string): (r: Option<TestAttempt>)
      reads this
      ensures r.None? <==> forall k :: 0 <= k < |History()| ==> History()[k].id != id
      ensures forall k :: FirstWithId(History(), id, k) ==> r == Some(History()[k])
    {
      FindById(History(), id)
    }

    /** `saveAttempt`: prepend to the loaded history and write the whole array back. */
    method SaveAttempt(attempt: TestAttempt)
      modifies this
      ensures History() == [attempt] + old(History())
      ensures local == old(local)[StorageKey := History()]
      ensures |History()| == |old(History())| + 1
      ensures forall k :: 0 <= k < |old(History())| ==> History()[k + 1] == old(History())[k]
      ensures AttemptById(attempt.id) == Some(attempt)
      ensures forall id :: id != attempt.id ==> AttemptById(id) == old(AttemptById(id))
    {
      ghost var before := History();
      var history := History();
      history := [attempt] + history;
      local := local[StorageKey := history];
      assert History() == [attempt] + before;
      SaveShifts(attempt, before);
      FindSaved(attempt, before);
      FindOthersAfterSave(attempt, before);
    }

    /** `clearHistory`: remove the key; every other key is kept. */
    method ClearHistory()
      modifies this
      ensures History() == []
      ensures local == old(local) - {StorageKey}
      ensures forall id :: AttemptById(id) == None
    {
      local := local - {StorageKey};
    }
  }
}
