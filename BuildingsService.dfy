/** The building list store (features/RunningRoom/hooks/useBuildingsService.ts):
    it holds the buildings, a loading flag, an error and a success message;
    create and update refetch the list, delete filters it locally. */
module BuildingsService {
  import opened Common
  import opened Seqs

  datatype Building = Building(id: string, buildingName: string, address: string, floors: string, description: string)

  /** A building as the forms submit it, without its id. */
  datatype BuildingDraft = BuildingDraft(buildingName: string, address: string, floors: string, description: string)

  /** The test `b.id !== id`. */
  function NotWithId(id: string): Building -> bool
  {
    (b: Building) => b.id != id
  }

  /** `buildings.filter(b => b.id !== id)`. */
  function WithoutId(buildings: seq<Building>, id: string): (r: seq<Building>)
    ensures |r| <= |buildings|
  {
    Filter(buildings, NotWithId(id))
  }

  /** Removing an id leaves no building with it and keeps every other
      building, as often as it occurs and in its order. */
  lemma WithoutIdRemovesOnlyThatId(buildings: seq<Building>, id: string)
    ensures forall i :: 0 <= i < |WithoutId(buildings, id)| ==> WithoutId(buildings, id)[i].id != id
    ensures IsSubsequence(WithoutId(buildings, id), buildings)
    ensures forall b: Building :: b.id != id ==> multiset(WithoutId(buildings, id))[b] == multiset(buildings)[b]
    ensures (forall i :: 0 <= i < |buildings| ==> buildings[i].id != id) ==> WithoutId(buildings, id) == buildings
  {
    FilterIsSubsequence(buildings, NotWithId(id));
    FilterMultiplicity(buildings, NotWithId(id));
    if forall i :: 0 <= i < |buildings| ==> buildings[i].id != id {
      FilterKeepsAll(buildings, NotWithId(id));
    }
  }

  /** The API call an operation makes. */
  datatype BuildingCall =
    | PostBuilding(building: BuildingDraft)
    | PutBuilding(id: string, building: BuildingDraft)
    | DeleteBuilding(id: string)

  class BuildingsStore {
    var buildings: seq<Building>
    var loading: bool
    var error: string
    var successMessage: string

    /** The first render and the mount effect's `fetchBuildings`, answered by
        `reply`. */
    constructor (reply: ApiOutcome<seq<Building>>)
      ensures !loading && successMessage == ""
      ensures reply.Ok? ==> buildings == reply.value && error == ""
      ensures reply.Failed? ==>
        buildings == [] && error == ErrorText(reply.message, "Failed to load buildings")
    {
      buildings, loading, error, successMessage := [], false, "", "";
      new;
      FetchBuildings(reply);
    }

    /** `fetchBuildings`: the reply replaces the list and clears the error,
        or the list is kept and the error set to the server's message or
        "Failed to load buildings"; loading ends either way. */
    method FetchBuildings(reply: ApiOutcome<seq<Building>>)
      modifies this
      ensures !loading && successMessage == old(successMessage)
      ensures reply.Ok? ==> buildings == reply.value && error == ""
      ensures reply.Failed? ==>
        buildings == old(buildings) && error == ErrorText(reply.message, "Failed to load buildings")
    {
      loading := true;
      match reply {
        case Ok(data) =>
          buildings := data;
          error := "";
        case Failed(message) =>
          error := ErrorText(message, "Failed to load buildings");
      }
      loading := false;
    }

    /** `createBuilding`: post, refetch, then the success message. A failed
        post rejects before anything is set; a failed refetch is caught by
        the fetch and the message is still set. */
    method CreateBuilding(building: BuildingDraft, callSucceeds: bool, refetch: ApiOutcome<seq<Building>>)
      returns (call: BuildingCall)
      modifies this
      ensures call == PostBuilding(building)
      ensures !callSucceeds ==>
        buildings == old(buildings) && loading == old(loading) && error == old(error)
        && successMessage == old(successMessage)
      ensures callSucceeds ==>
        successMessage == "Building created successfully" && !loading
        && (refetch.Ok? ==> buildings == refetch.value && error == "")
        && (refetch.Failed? ==> buildings == old(buildings) && error == ErrorText(refetch.message, "Failed to load buildings"))
    {
      call := PostBuilding(building);
      if !callSucceeds {
        return;
      }
      FetchBuildings(refetch);
      successMessage := "Building created successfully";
    }

    /** `updateBuilding`: put, refetch, then the success message. */
    method UpdateBuilding(id: string, building: BuildingDraft, callSucceeds: bool, refetch: ApiOutcome<seq<Building>>)
      returns (call: BuildingCall)
      modifies this
      ensures call == PutBuilding(id, building)
      ensures !callSucceeds ==>
        buildings == old(buildings) && loading == old(loading) && error == old(error)
        && successMessage == old(successMessage)
      ensures callSucceeds ==>
        successMessage == "Building updated successfully" && !loading
        && (refetch.Ok? ==> buildings == refetch.value && error == "")
        && (refetch.Failed? ==> buildings == old(buildings) && error == ErrorText(refetch.message, "Failed to load buildings"))
    {
      call := PutBuilding(id, building);
      if !callSucceeds {
        return;
      }
      FetchBuildings(refetch);
      successMessage := "Building updated successfully";
    }

    /** `deleteBuilding`: delete, then drop the building from the local list
        without a refetch, then the success message. */
    method DeleteBuildingById(id: string, callSucceeds: bool) returns (call: BuildingCall)
      modifies this
      ensures call == DeleteBuilding(id)
      ensures loading == old(loading) && error == old(error)
      ensures !callSucceeds ==> buildings == old(buildings) && successMessage == old(successMessage)
      ensures callSucceeds ==>
        buildings == WithoutId(old(buildings), id) && successMessage == "Building deleted successfully"
    {
      call := DeleteBuilding(id);
      if !callSucceeds {
        return;
      }
      buildings := WithoutId(buildings, id);
      successMessage := "Building deleted successfully";
    }
  }
}
