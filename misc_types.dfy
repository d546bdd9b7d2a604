/** The record and enumeration shared by shapes and entities (misc_types.go). */
module MiscTypes {
  import opened Wrappers

  /** An in-game location: integer coordinates and the name of a world. */
  datatype Location = Location(x: int, y: int, z: int, world: string)

  /** NewLocation builds the record and hands out its address, which is
      never nil. */
  function NewLocation(x: int, y: int, z: int, world: string): (l: Option<Location>)
    ensures l.Some?
    ensures l.value.x == x && l.value.y == y && l.value.z == z
    ensures l.value.world == world
  {
    Some(Location(x, y, z, world))
  }

  /** ResourceStatus is a Go string type: the server may send any string;
      four values are named. */
  type ResourceStatus = string

  const ResourceStatusInitializing: ResourceStatus := "initializing"
  const ResourceStatusReady: ResourceStatus := "ready"
  const ResourceStatusDeleting: ResourceStatus := "deleting"
  const ResourceStatusUpdating: ResourceStatus := "updating"

  /** The named statuses, in declaration order. */
  const NamedStatuses: seq<ResourceStatus> :=
    [ResourceStatusInitializing, ResourceStatusReady, ResourceStatusDeleting, ResourceStatusUpdating]

  /** The four named statuses are pairwise distinct, so a status observed
      on a resource identifies at most one of them. */
  lemma NamedStatusesDistinct()
    ensures |NamedStatuses| == 4
    ensures forall i, j :: 0 <= i < j < |NamedStatuses| ==> NamedStatuses[i] != NamedStatuses[j]
  {
  }
}
