/**
 * The `Universe` component as a state machine over its five pieces of state
 * (src/components/Universe.jsx): the catalog `items`, the completion set
 * `completed`, the open item `zoomItem`, the reflection draft `activityText`
 * and the in-flight flag `loading`. Each handler runs as one atomic step;
 * network replies and the user id are inputs.
 */
module UniversePage {
  import opened Nullable
  import opened Catalog
  import Reflection
  import Progress
  import Identity
  import Orbit

  /** The body of `POST /api/progress/complete`. */
  datatype CompleteRequest = CompleteRequest(userId: string, satelliteId: int, completed: bool)

  class Universe {
    var items: seq<Satellite>
    var completed: set<int>
    var zoomItem: Option<Satellite>
    var activityText: string
    var loading: bool

    /** The catalog is never empty: it starts as the fallback and is replaced
        only by a non-empty list. This is what keeps the angle step
        `2 * Math.PI / items.length` finite; the angles themselves are not
        modelled, but `Radii` relies on it to place at least one item. */
    ghost predicate Valid()
      reads this
    {
      |items| > 0
    }

    /** The initial state: the fallback catalog, nothing completed, no item
        open, an empty draft, no request in flight. */
    constructor ()
      ensures Valid()
      ensures items == FallbackSatellites && completed == {}
      ensures zoomItem == None && activityText == "" && !loading
    {
      items := FallbackSatellites;
      completed := {};
      zoomItem := None;
      activityText := "";
      loading := false;
    }

    /** Whether the submit button is enabled: exactly when no submit is in
        flight and `HandleComplete` would accept the draft. */
    function SubmitEnabled(): (enabled: bool)
      reads this
      ensures enabled <==> !loading && Reflection.IsValidReflection(activityText)
    {
      Reflection.SubmitEnabledIffValid(loading, activityText);
      Reflection.SubmitEnabled(loading, activityText)
    }

    /** The ring radius of each satellite, in catalog order: inner ring at
        even positions, outer ring at odd ones, neighbours never on the same
        ring. */
    function Radii(): (radii: seq<int>)
      reads this
      requires Valid()
      ensures |radii| == |items| && |radii| > 0
      ensures forall i :: 0 <= i < |items| ==> radii[i] == Orbit.RingRadius(i)
      ensures forall i :: 0 <= i < |items| ==> radii[i] == (if i % 2 == 0 then 160 else 240)
      ensures forall i :: 0 <= i < |items| - 1 ==> radii[i] != radii[i + 1]
    {
      Orbit.RingRadii(|items|)
    }

    /** The visited badge of each satellite, in catalog order: shown exactly
        when the satellite's id is in the completion set. */
    function Badges(): (badges: seq<bool>)
      reads this
      ensures |badges| == |items|
      ensures forall i :: 0 <= i < |items| ==> (badges[i] <==> items[i].id in completed)
    {
      Orbit.VisitedFlags(Ids(items), completed)
    }

    /** The initial load: fetch the catalog and, when a user id exists, the
        user's progress. A throw anywhere in the catalog fetch is swallowed and
        also skips the progress fetch; `progressRequested` tells whether the
        progress fetch was issued. */
    method LoadData(userId: string, catalog: CatalogReply, progress: Progress.Reply)
      returns (progressRequested: bool)
      requires Valid()
      modifies this
      ensures Valid()
      ensures items == NextItems(old(items), catalog)
      ensures progressRequested <==> !catalog.CatalogThrew? && userId != ""
      ensures completed == if progressRequested then Progress.AfterLoad(old(completed), progress)
                           else old(completed)
      ensures zoomItem == old(zoomItem) && activityText == old(activityText) && loading == old(loading)
    {
      progressRequested := false;
      match catalog {
        case CatalogThrew =>
          return;
        case CatalogNotOk =>
        case CatalogOk(body) =>
          var enriched := Enrich(ItemsOrEmpty(body));
          if |enriched| > 0 {
            items := enriched;
          }
      }
      if userId != "" {
        progressRequested := true;
        match progress {
          case Ok(body) =>
            completed := Progress.ToSet(Progress.CompletedList(body));
          case NotOk =>
          case Threw =>
        }
      }
    }

    /** `handleOpen`: open `item` with an empty draft. */
    method HandleOpen(item: Satellite)
      requires Valid()
      modifies this
      ensures Valid()
      ensures zoomItem == Some(item) && activityText == ""
      ensures items == old(items) && completed == old(completed) && loading == old(loading)
    {
      zoomItem := Some(item);
      activityText := "";
    }

    /** The textarea's `onChange`: replace the draft. */
    method EditDraft(text: string)
      requires Valid()
      modifies this
      ensures Valid()
      ensures activityText == text
      ensures items == old(items) && completed == old(completed) && zoomItem == old(zoomItem)
      ensures loading == old(loading)
    {
      activityText := text;
    }

    /** The close button: no item open; nothing else changes (the draft is
        kept until the next open). */
    method Close()
      requires Valid()
      modifies this
      ensures Valid()
      ensures zoomItem == None
      ensures items == old(items) && completed == old(completed) && activityText == old(activityText)
      ensures loading == old(loading)
    {
      zoomItem := None;
    }

    /** `handleComplete`: with no item open, nothing happens. A draft that
        fails validation sends no request and changes nothing but leaves
        `loading` false. Otherwise the completion request is sent
        (`request`), the completion set is updated by the reply (replaced on
        success, extended with the item on failure), the modal closes and
        `loading` ends false. The draft itself is not cleared. */
    method HandleComplete(userId: string, reply: Progress.Reply)
      returns (request: Option<CompleteRequest>)
      requires Valid()
      modifies this
      ensures Valid()
      ensures items == old(items) && activityText == old(activityText)
      ensures old(zoomItem).None? ==>
                request == None && completed == old(completed) && zoomItem == None && loading == old(loading)
      ensures old(zoomItem).Some? ==> !loading
      ensures old(zoomItem).Some? && !Reflection.IsValidReflection(old(activityText)) ==>
                request == None && completed == old(completed) && zoomItem == old(zoomItem)
      ensures old(zoomItem).Some? && Reflection.IsValidReflection(old(activityText)) ==>
                && request == Some(CompleteRequest(userId, old(zoomItem).value.id, true))
                && completed == Progress.AfterSubmit(old(completed), old(zoomItem).value.id, reply)
                && zoomItem == None
    {
      if zoomItem.None? {
        return None;
      }
      var item := zoomItem.value;
      loading := true;
      if !Reflection.IsValidReflection(activityText) {
        loading := false;
        return None;
      }
      request := Some(CompleteRequest(userId, item.id, true));
      match reply {
        case Ok(body) =>
          completed := Progress.ToSet(Progress.CompletedList(body));
          zoomItem := None;
        case NotOk =>
          completed := completed + {item.id};
          zoomItem := None;
        case Threw =>
          completed := completed + {item.id};
          zoomItem := None;
      }
      loading := false;
    }
  }

  /** The 20-character reflection of the sample offline session. */
  const SampleReflection: string := "Esta es mi reflexión"

  /** The sample reflection passes the 12-code-unit check. */
  lemma SampleReflectionAccepted()
    ensures Reflection.IsValidReflection(SampleReflection)
  {
    var text := SampleReflection;
    assert |text| == 20 && text[0] == 'E' && text[19] == 'n';
    Reflection.TrimOfUntrimmed(text);
  }

  /** A whole session with the backend unreachable: the storage is empty, so
      an id is generated; the catalog fetch throws, so the six fallback items
      are shown; the user opens item 3, writes an accepted reflection (such as
      `SampleReflection`) and submits; the submit throws, so the modal closes
      and item 3 is shown as completed, and it is still shown so when
      reopened. */
  method OfflineSession(generated: string, text: string)
    returns (catalog: seq<Satellite>, visitedAfterSubmit: bool, visitedAfterReopen: bool, request: Option<CompleteRequest>)
    requires Reflection.IsValidReflection(text)
    ensures catalog == FallbackSatellites
    ensures request == Some(CompleteRequest(generated, 3, true))
    ensures visitedAfterSubmit && visitedAfterReopen
  {
    var identity := Identity.GetOrCreateUserId(map[], generated);
    var u := new Universe();
    // The load effect runs first with the hook's initial empty id, then again
    // once the id is read from storage.
    var firstRun := u.LoadData("", CatalogThrew, Progress.Threw);
    var secondRun := u.LoadData(identity.userId, CatalogThrew, Progress.Threw);
    catalog := u.items;
    FallbackIdsInOrder();
    var third := u.items[2];
    u.HandleOpen(third);
    u.EditDraft(text);
    request := u.HandleComplete(identity.userId, Progress.Threw);
    visitedAfterSubmit := u.Badges()[2] && u.zoomItem == None;
    u.HandleOpen(third);
    visitedAfterReopen := u.Badges()[2];
  }
}
