/**
 * The completion set and how server replies update it: a successful reply
 * replaces the set with the server's list, a failed submit adds the item
 * locally (src/components/Universe.jsx).
 */
module Progress {
  import opened Nullable

  /** Outcome of a progress request (`GET /api/progress/{user}` or
      `POST /api/progress/complete`): an OK body whose `completed` list may be
      absent, a non-OK status, or a thrown error (network failure or
      malformed JSON). */
  datatype Reply = Ok(completed: Option<seq<int>>) | NotOk | Threw

  /** `data.completed || []`. */
  function CompletedList(completed: Option<seq<int>>): (list: seq<int>)
    ensures completed.Some? ==> list == completed.value
    ensures list == [] <==> completed.None? || completed.value == []
  {
    match completed
    case Some(list) => list
    case None => []
  }

  /** `new Set(list)`: the ids of `list`, duplicates collapsed. */
  function ToSet(list: seq<int>): (r: set<int>)
    ensures forall x :: x in r <==> x in list
    ensures |r| <= |list|
  {
    if list == [] then {} else {list[0]} + ToSet(list[1..])
  }

  /** The completion set after a submit for item `id` that got `reply`: the
      server's list on success, the previous set plus `id` otherwise. */
  function AfterSubmit(prev: set<int>, id: int, reply: Reply): (r: set<int>)
    ensures reply.Ok? ==> forall x :: x in r <==> x in CompletedList(reply.completed)
    ensures reply.Ok? && reply.completed.None? ==> r == {}
    ensures !reply.Ok? ==> prev <= r && id in r && r - {id} <= prev
  {
    match reply
    case Ok(completed) => ToSet(CompletedList(completed))
    case NotOk => prev + {id}
    case Threw => prev + {id}
  }

  /** The completion set after the progress fetch of the initial load: the
      server's list on success; a failure leaves the set as it was. */
  function AfterLoad(prev: set<int>, reply: Reply): (r: set<int>)
    ensures reply.Ok? ==> forall x :: x in r <==> x in CompletedList(reply.completed)
    ensures !reply.Ok? ==> r == prev
  {
    match reply
    case Ok(completed) => ToSet(CompletedList(completed))
    case NotOk => prev
    case Threw => prev
  }

  /** Submitting the same item again and getting the same reply changes
      nothing: the update is idempotent. */
  lemma AfterSubmitIdempotent(prev: set<int>, id: int, reply: Reply)
    ensures AfterSubmit(AfterSubmit(prev, id, reply), id, reply) == AfterSubmit(prev, id, reply)
  {
  }

  /** A successful reply makes the result independent of the previous set:
      the server is the source of truth. */
  lemma SuccessIgnoresLocalState(prev1: set<int>, prev2: set<int>, id: int, list: Option<seq<int>>)
    ensures AfterSubmit(prev1, id, Ok(list)) == AfterSubmit(prev2, id, Ok(list))
    ensures AfterSubmit(prev1, id, Ok(list)) == AfterLoad(prev2, Ok(list))
  {
  }

  /** A failed submit never drops a completion, and adds exactly one at most. */
  lemma FailedSubmitGrowsByOne(prev: set<int>, id: int, reply: Reply)
    requires !reply.Ok?
    ensures prev <= AfterSubmit(prev, id, reply)
    ensures |AfterSubmit(prev, id, reply)| == if id in prev then |prev| else |prev| + 1
  {
    if id in prev {
      assert AfterSubmit(prev, id, reply) == prev;
    } else {
      assert AfterSubmit(prev, id, reply) - {id} == prev;
    }
  }
}
