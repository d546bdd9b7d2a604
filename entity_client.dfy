/** The entities client (the `entities` type of entity.go): validate,
    exchange one request with the transport, and return what it filled in
    without any further processing. */
module EntityClient {
  import opened Wrappers
  import opened Validations
  import opened Paths
  import opened Entities
  import opened Transport

  const InvalidEntityID: Error := "invalid value for entityID"

  class EntitiesClient {
    const client: Client

    constructor (client: Client)
      ensures this.client == client
    {
      this.client := client;
    }

    /** List: GET "entities"; the list comes back as the transport filled it. */
    method List(options: EntityListOptions) returns (r: Result<EntityList>)
      modifies client`log
      ensures client.log == old(client.log) + client.Exchange(GET, "entities", EntityListBody(options))
      ensures client.ExchangeError().Some? ==> r == Err(client.ExchangeError().value)
      ensures client.ExchangeError().None? ==> r == Ok(client.entityListReply)
    {
      var req := client.NewRequest(GET, "entities", EntityListBody(options));
      if req.Err? {
        return Err(req.error);
      }
      var entityl := client.DoEntityList(req.value);
      if entityl.Err? {
        return Err(entityl.error);
      }
      r := Ok(entityl.value);
    }

    /** Create: rejects options that fail validation with no call made;
        otherwise POST "entities". */
    method Create(options: EntityCreateOptions) returns (r: Result<Entity>)
      modifies client`log
      ensures options.Valid().Some? ==> r == Err(options.Valid().value) && client.log == old(client.log)
      ensures options.Valid().None? ==>
        client.log == old(client.log) + client.Exchange(POST, "entities", EntityCreateBody(options))
      ensures options.Valid().None? && client.ExchangeError().Some? ==> r == Err(client.ExchangeError().value)
      ensures options.Valid().None? && client.ExchangeError().None? ==> r == Ok(client.entityReply)
    {
      var err := options.Valid();
      if err.Some? {
        return Err(err.value);
      }
      var req := client.NewRequest(POST, "entities", EntityCreateBody(options));
      if req.Err? {
        return Err(req.error);
      }
      var ent := client.DoEntity(req.value);
      if ent.Err? {
        return Err(ent.error);
      }
      r := Ok(ent.value);
    }

    /** Read: an invalid id is rejected with no call made; otherwise
        GET "entities/<id>". */
    method Read(entityID: string) returns (r: Result<Entity>)
      modifies client`log
      ensures !ValidStringID(Some(entityID)) ==> r == Err(InvalidEntityID) && client.log == old(client.log)
      ensures ValidStringID(Some(entityID)) ==>
        client.log == old(client.log) + client.Exchange(GET, "entities/" + entityID, NoBody)
      ensures ValidStringID(Some(entityID)) && client.ExchangeError().Some? ==>
        r == Err(client.ExchangeError().value)
      ensures ValidStringID(Some(entityID)) && client.ExchangeError().None? ==> r == Ok(client.entityReply)
    {
      if !ValidStringID(Some(entityID)) {
        return Err(InvalidEntityID);
      }
      var u := ResourcePath("entities/", entityID);
      var req := client.NewRequest(GET, u, NoBody);
      if req.Err? {
        return Err(req.error);
      }
      var ent := client.DoEntity(req.value);
      if ent.Err? {
        return Err(ent.error);
      }
      r := Ok(ent.value);
    }

    /** Update: an invalid id is rejected with no call made; the options
        are not validated; otherwise PATCH "entities/<id>". */
    method Update(entityID: string, options: EntityUpdateOptions) returns (r: Result<Entity>)
      modifies client`log
      ensures !ValidStringID(Some(entityID)) ==> r == Err(InvalidEntityID) && client.log == old(client.log)
      ensures ValidStringID(Some(entityID)) ==>
        client.log == old(client.log) + client.Exchange(PATCH, "entities/" + entityID, EntityUpdateBody(options))
      ensures ValidStringID(Some(entityID)) && client.ExchangeError().Some? ==>
        r == Err(client.ExchangeError().value)
      ensures ValidStringID(Some(entityID)) && client.ExchangeError().None? ==> r == Ok(client.entityReply)
    {
      if !ValidStringID(Some(entityID)) {
        return Err(InvalidEntityID);
      }
      var u := ResourcePath("entities/", entityID);
      var req := client.NewRequest(PATCH, u, EntityUpdateBody(options));
      if req.Err? {
        return Err(req.error);
      }
      var ent := client.DoEntity(req.value);
      if ent.Err? {
        return Err(ent.error);
      }
      r := Ok(ent.value);
    }

    /** Delete: an invalid id is rejected with no call made; otherwise
        DELETE "entities/<id>" and return do's error as it is. */
    method Delete(entityID: string) returns (err: Option<Error>)
      modifies client`log
      ensures !ValidStringID(Some(entityID)) ==> err == Some(InvalidEntityID) && client.log == old(client.log)
      ensures ValidStringID(Some(entityID)) ==>
        client.log == old(client.log) + client.Exchange(DELETE, "entities/" + entityID, NoBody)
        && err == client.ExchangeError()
    {
      if !ValidStringID(Some(entityID)) {
        return Some(InvalidEntityID);
      }
      var u := ResourcePath("entities/", entityID);
      var req := client.NewRequest(DELETE, u, NoBody);
      if req.Err? {
        return Some(req.error);
      }
      err := client.DoNoContent(req.value);
    }
  }
}
