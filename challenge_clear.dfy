/**
 * `POST /api/challenge/clear`: record that a user cleared a challenge. The
 * `gameProgress` table holds at most one record per (user, folder, mode),
 * which the route upserts: a known key counts one more clear, a new key
 * gets its first record. The session and the clock are inputs.
 */
module ChallengeClear {
  import opened Wrappers

  /** The unique key of a progress record. */
  datatype Key = Key(userId: string, folderId: int, mode: string)

  /** A progress record. */
  datatype Progress = Progress(totalQuestions: int, clearCount: int, lastClearedAt: int)

  /** The request body; a field the JSON leaves out is `None`. */
  datatype Body = Body(folderId: Option<int>, mode: Option<string>, questionCount: Option<int>)

  datatype Status = Forbidden | BadRequest | Saved

  /** Every field is truthy: present, and not 0 or the empty string. */
  predicate Complete(body: Body) {
    && body.folderId.Some? && body.folderId.value != 0
    && body.mode.Some? && body.mode.value != []
    && body.questionCount.Some? && body.questionCount.value != 0
  }

  /**
   * The upsert: a present key gets one more clear and the new time, its
   * question count kept; an absent key gets a record with one clear.
   */
  function Upsert(table: map<Key, Progress>, key: Key, questionCount: int, now: int): (r: map<Key, Progress>)
    ensures r.Keys == table.Keys + {key}
    ensures forall k :: k in table && k != key ==> r[k] == table[k]
    ensures key in table ==> r[key] == table[key].(clearCount := table[key].clearCount + 1, lastClearedAt := now)
    ensures key !in table ==> r[key] == Progress(questionCount, 1, now)
  {
    if key in table then table[key := table[key].(clearCount := table[key].clearCount + 1, lastClearedAt := now)]
    else table[key := Progress(questionCount, 1, now)]
  }

  /** Several clears of one key, in order. */
  function UpsertAll(table: map<Key, Progress>, key: Key, counts: seq<int>, times: seq<int>): (r: map<Key, Progress>)
    requires |counts| == |times|
    ensures r.Keys == if counts == [] then table.Keys else table.Keys + {key}
    decreases |counts|
  {
    if counts == [] then table
    else Upsert(UpsertAll(table, key, counts[..|counts| - 1], times[..|times| - 1]), key, counts[|counts| - 1], times[|times| - 1])
  }

  /**
   * Clearing the same challenge `n` times from no record leaves `n` clears,
   * the question count of the first clear and the time of the last.
   */
  lemma {:induction false} RepeatedClears(table: map<Key, Progress>, key: Key, counts: seq<int>, times: seq<int>)
    requires key !in table && |counts| == |times| > 0
    ensures var r := UpsertAll(table, key, counts, times);
      key in r && r[key] == Progress(counts[0], |counts|, times[|times| - 1])
    decreases |counts|
  {
    if |counts| > 1 {
      RepeatedClears(table, key, counts[..|counts| - 1], times[..|times| - 1]);
    }
  }

  /** The `gameProgress` table. */
  class ProgressTable {
    var records: map<Key, Progress>

    /** Every record has been cleared at least once. */
    ghost predicate Valid()
      reads this
    {
      forall k :: k in records ==> records[k].clearCount >= 1
    }

    /** An empty table. */
    constructor()
      ensures Valid() && records == map[]
    {
      records := map[];
    }

    /**
     * The route: 403 without a session and 400 when a field is missing or
     * falsy, both leaving the table as it was; otherwise the upsert.
     */
    method Clear(session: Option<string>, body: Body, now: int) returns (status: Status)
      requires Valid()
      modifies this
      ensures Valid()
      ensures session.None? ==> status == Forbidden
      ensures session.Some? && !Complete(body) ==> status == BadRequest
      ensures status != Saved ==> records == old(records)
      ensures status == Saved <==> session.Some? && Complete(body)
      ensures status == Saved ==>
        records == Upsert(old(records), Key(session.value, body.folderId.value, body.mode.value),
                          body.questionCount.value, now)
    {
      if session.None? {
        return Forbidden;
      }
      if !Complete(body) {
        return BadRequest;
      }
      var key := Key(session.value, body.folderId.value, body.mode.value);
      records := Upsert(records, key, body.questionCount.value, now);
      return Saved;
    }
  }
}
