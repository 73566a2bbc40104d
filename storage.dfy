/** The workflow record and the in-memory store that owns every record, keyed by its id. */
module Storage {
  import opened Base

  /** The values `WorkflowState.Status` takes. */
  const STATUS_PROCESSING := "processing"
  const STATUS_AWAITING_REVIEW := "awaiting_review"
  const STATUS_APPROVED := "approved"
  const STATUS_GENERATING := "generating"
  const STATUS_COMPLETED := "completed"
  const STATUS_REJECTED := "rejected"
  const STATUS_FAILED := "failed"

  /** The generation settings inferred from the brief (a nil pointer in Go becomes `None`). */
  datatype SunoProperties = SunoProperties(
    style: string,
    vocalType: string,
    lyricsMode: string,
    weirdness: Float64,
    styleInfluence: string)

  /** The two premium-only fields. */
  datatype PersonaInspo = PersonaInspo(persona: string, inspo: string)

  /** One song workflow: its input, what the pipeline generated, the reviewer's edits and
      what the generation service reported. */
  datatype WorkflowState = WorkflowState(
    id: string,
    createdAt: Time,
    updatedAt: Time,
    status: string,
    // input
    taskDescription: string,
    isPremium: bool,
    audioFilePath: string,
    audioFileName: string,
    // generated content
    lyrics: string,
    lyricsWithBrackets: string,
    sunoProperties: Option<SunoProperties>,
    personaInspo: Option<PersonaInspo>,
    // human-in-the-loop edits
    editedLyrics: string,
    editedProperties: Option<SunoProperties>,
    // generation service outcome
    sunoJobId: string,
    sunoResult: string,
    errorMsg: string)

  /** A second save under the same id leaves only the second record. */
  lemma UpdateTwice<K, V>(m: map<K, V>, k: K, a: V, b: V)
    ensures m[k := a][k := b] == m[k := b]
  {
  }

  /** The store: a map from workflow id to record. The Go store guards it with a
      reader-writer lock; here every operation is one sequential step. */
  class Store {
    var workflows: map<string, WorkflowState>

    /** Every record is filed under its own id. */
    ghost predicate Valid()
      reads this
    {
      forall id :: id in workflows ==> workflows[id].id == id
    }

    constructor ()
      ensures Valid() && workflows == map[]
    {
      workflows := map[];
    }

    /** Insert or replace: stamps `updatedAt` with `now` and files the record under its id.
        The stamped record is returned because Go stamps the caller's own record in place. */
    method Save(state: WorkflowState, now: Time) returns (saved: WorkflowState)
      requires Valid()
      modifies this
      ensures Valid()
      ensures saved == state.(updatedAt := now)
      ensures workflows == old(workflows)[state.id := saved]
    {
      saved := state.(updatedAt := now);
      workflows := workflows[state.id := saved];
    }

    /** The record filed under `id`, if any. */
    method Get(id: string) returns (r: Option<WorkflowState>)
      requires Valid()
      ensures r.Some? <==> id in workflows
      ensures r.Some? ==> r.value == workflows[id] && r.value.id == id
    {
      if id in workflows {
        r := Some(workflows[id]);
      } else {
        r := None;
      }
    }

    /** Removes the entry for `id` (nothing happens if there is none). */
    method Delete(id: string)
      requires Valid()
      modifies this
      ensures Valid()
      ensures workflows == old(workflows) - {id}
    {
      workflows := workflows - {id};
    }

    /** Every stored record once, in some order; `ids` is the order of their keys. */
    method List() returns (result: seq<WorkflowState>, ghost ids: seq<string>)
      requires Valid()
      ensures |result| == |ids| == |workflows|
      ensures forall w :: w in result <==> w in workflows.Values
      ensures forall i, j :: 0 <= i < j < |ids| ==> ids[i] != ids[j]
      ensures forall id :: id in ids <==> id in workflows
      ensures forall i :: 0 <= i < |ids| ==> ids[i] in workflows && result[i] == workflows[ids[i]]
    {
      var rest := workflows.Keys;
      result, ids := [], [];
      while rest != {}
        invariant rest <= workflows.Keys
        invariant |result| == |ids| && |ids| + |rest| == |workflows.Keys|
        invariant forall i, j :: 0 <= i < j < |ids| ==> ids[i] != ids[j]
        invariant forall id :: id in ids <==> id in workflows && id !in rest
        invariant forall i :: 0 <= i < |ids| ==> ids[i] in workflows && result[i] == workflows[ids[i]]
        decreases |rest|
      {
        var id :| id in rest;
        result := result + [workflows[id]];
        ids := ids + [id];
        rest := rest - {id};
      }
    }

    /** Exactly the stored records whose status is `status`, each once; `ids` are their keys. */
    method ListByStatus(status: string) returns (result: seq<WorkflowState>, ghost ids: seq<string>)
      requires Valid()
      ensures |result| == |ids|
      ensures forall i, j :: 0 <= i < j < |ids| ==> ids[i] != ids[j]
      ensures forall id :: id in ids <==> id in workflows && workflows[id].status == status
      ensures forall i :: 0 <= i < |ids| ==> ids[i] in workflows && result[i] == workflows[ids[i]]
      ensures forall w :: w in result <==> w in workflows.Values && w.status == status
    {
      var rest := workflows.Keys;
      result, ids := [], [];
      while rest != {}
        invariant rest <= workflows.Keys
        invariant |result| == |ids|
        invariant forall i, j :: 0 <= i < j < |ids| ==> ids[i] != ids[j]
        invariant forall id :: id in ids <==> id in workflows && id !in rest && workflows[id].status == status
        invariant forall i :: 0 <= i < |ids| ==> ids[i] in workflows && result[i] == workflows[ids[i]]
        decreases |rest|
      {
        var id :| id in rest;
        if workflows[id].status == status {
          result := result + [workflows[id]];
          ids := ids + [id];
        }
        rest := rest - {id};
      }
    }
  }
}
