/** Entities: the resource record and the validation of create options
    (entity.go, everything but the client). */
module Entities {
  import opened Wrappers
  import opened MiscTypes
  import opened Validations

  datatype Entity = Entity(
    id: string,
    location: Option<Location>,
    entityType: string,
    customName: string,
    status: ResourceStatus)

  datatype EntityList = EntityList(items: seq<Entity>)

  datatype EntityListOptions = EntityListOptions(limit: int)

  const EntityTypeRequired: Error := "entity type is required"
  const CustomNameRequired: Error := "custom name is required"
  const LocationRequired: Error := "location is required"

  datatype EntityCreateOptions = EntityCreateOptions(
    location: Option<Location>,
    entityType: string,
    customName: string)
  {
    /** valid: entity type, then custom name, then location; the first
        missing one names the error. */
    function Valid(): (err: Option<Error>)
      ensures err == None <==> entityType != "" && customName != "" && location.Some?
      ensures err == Some(EntityTypeRequired) <==> entityType == ""
      ensures err == Some(CustomNameRequired) <==> entityType != "" && customName == ""
      ensures err == Some(LocationRequired) <==> entityType != "" && customName != "" && location.None?
    {
      if !ValidString(Some(entityType)) then Some(EntityTypeRequired)
      else if !ValidString(Some(customName)) then Some(CustomNameRequired)
      else if !ValidLocation(location) then Some(LocationRequired)
      else None
    }
  }

  datatype EntityUpdateOptions = EntityUpdateOptions(
    location: Option<Location>,
    entityType: string,
    customName: string)
}
