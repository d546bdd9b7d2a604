/** The shapes client (the `shapes` type of shape.go): validate, exchange
    one request with the transport, and decode every shape it hands back. */
module ShapeClient {
  import opened Wrappers
  import opened MiscTypes
  import opened Validations
  import opened Paths
  import opened Shapes
  import opened Transport
  import Entities

  const InvalidShapeID: Error := "invalid value for ShapeID"

  class ShapesClient {
    const client: Client

    /** Every wire shape that went through the decoder, oldest first. */
    ghost var decoded: seq<WireShape>

    constructor (client: Client)
      ensures this.client == client && decoded == []
    {
      this.client := client;
      decoded := [];
    }

    /** Overwrite one shape's payload by its decoded dimensions. */
    method Decode(w: WireShape) returns (s: DecodedShape)
      modifies this`decoded
      ensures s == DecodeShape(w)
      ensures decoded == old(decoded) + [w]
    {
      var dims := CastDimensions(w.dimensions, w.shapeType);
      s := Shape(w.id, w.location, w.shapeType, w.material, w.previousData, dims, w.status);
      decoded := decoded + [w];
    }

    /** List: GET "shapes"; each returned item decoded once, in order. */
    method List(options: ShapeListOptions) returns (r: Result<ShapeList<Option<Dimensions>>>)
      modifies client`log, this`decoded
      ensures client.log == old(client.log) + client.Exchange(GET, "shapes", ShapeListBody(options))
      ensures client.ExchangeError().Some? ==> r == Err(client.ExchangeError().value) && decoded == old(decoded)
      ensures client.ExchangeError().None? ==>
        var wire := client.shapeListReply.items;
        && r.Ok? && |r.value.items| == |wire|
        && (forall i :: 0 <= i < |wire| ==> r.value.items[i] == DecodeShape(wire[i]))
        && decoded == old(decoded) + wire
    {
      var req := client.NewRequest(GET, "shapes", ShapeListBody(options));
      if req.Err? {
        return Err(req.error);
      }
      var shapel := client.DoShapeList(req.value);
      if shapel.Err? {
        return Err(shapel.error);
      }
      var wire := shapel.value.items;
      ghost var logAfter := client.log;
      var items: seq<DecodedShape> := [];
      var i := 0;
      while i < |wire|
        invariant 0 <= i <= |wire|
        invariant |items| == i
        invariant forall j :: 0 <= j < i ==> items[j] == DecodeShape(wire[j])
        invariant decoded == old(decoded) + wire[..i]
        invariant client.log == logAfter
      {
        var shp := Decode(wire[i]);
        items := items + [shp];
        i := i + 1;
      }
      assert wire[..i] == wire;
      r := Ok(ShapeList(items));
    }

    /** Create: rejects options that fail validation with no call made;
        otherwise POST "shapes" and decode the created shape. */
    method Create(options: ShapeCreateOptions) returns (r: Result<DecodedShape>)
      modifies client`log, this`decoded
      ensures options.Valid().Some? ==>
        r == Err(options.Valid().value) && client.log == old(client.log) && decoded == old(decoded)
      ensures options.Valid().None? ==>
        client.log == old(client.log) + client.Exchange(POST, "shapes", ShapeCreateBody(options))
      ensures options.Valid().None? && client.ExchangeError().Some? ==>
        r == Err(client.ExchangeError().value) && decoded == old(decoded)
      ensures options.Valid().None? && client.ExchangeError().None? ==>
        r == Ok(DecodeShape(client.shapeReply)) && decoded == old(decoded) + [client.shapeReply]
    {
      var err := options.Valid();
      if err.Some? {
        return Err(err.value);
      }
      var req := client.NewRequest(POST, "shapes", ShapeCreateBody(options));
      if req.Err? {
        return Err(req.error);
      }
      var shp := client.DoShape(req.value);
      if shp.Err? {
        return Err(shp.error);
      }
      var decodedShape := Decode(shp.value);
      r := Ok(decodedShape);
    }

    /** Read: an invalid id is rejected with no call made; otherwise
        GET "shapes/<id>" and decode the shape. */
    method Read(shapeID: string) returns (r: Result<DecodedShape>)
      modifies client`log, this`decoded
      ensures !ValidStringID(Some(shapeID)) ==>
        r == Err(InvalidShapeID) && client.log == old(client.log) && decoded == old(decoded)
      ensures ValidStringID(Some(shapeID)) ==>
        client.log == old(client.log) + client.Exchange(GET, "shapes/" + shapeID, NoBody)
      ensures ValidStringID(Some(shapeID)) && client.ExchangeError().Some? ==>
        r == Err(client.ExchangeError().value) && decoded == old(decoded)
      ensures ValidStringID(Some(shapeID)) && client.ExchangeError().None? ==>
        r == Ok(DecodeShape(client.shapeReply)) && decoded == old(decoded) + [client.shapeReply]
    {
      if !ValidStringID(Some(shapeID)) {
        return Err(InvalidShapeID);
      }
      var u := ResourcePath("shapes/", shapeID);
      var req := client.NewRequest(GET, u, NoBody);
      if req.Err? {
        return Err(req.error);
      }
      var shp := client.DoShape(req.value);
      if shp.Err? {
        return Err(shp.error);
      }
      var decodedShape := Decode(shp.value);
      r := Ok(decodedShape);
    }

    /** Update: an invalid id is rejected with no call made; the options
        are not validated; otherwise PATCH "shapes/<id>" and decode. */
    method Update(shapeID: string, options: ShapeUpdateOptions) returns (r: Result<DecodedShape>)
      modifies client`log, this`decoded
      ensures !ValidStringID(Some(shapeID)) ==>
        r == Err(InvalidShapeID) && client.log == old(client.log) && decoded == old(decoded)
      ensures ValidStringID(Some(shapeID)) ==>
        client.log == old(client.log) + client.Exchange(PATCH, "shapes/" + shapeID, ShapeUpdateBody(options))
      ensures ValidStringID(Some(shapeID)) && client.ExchangeError().Some? ==>
        r == Err(client.ExchangeError().value) && decoded == old(decoded)
      ensures ValidStringID(Some(shapeID)) && client.ExchangeError().None? ==>
        r == Ok(DecodeShape(client.shapeReply)) && decoded == old(decoded) + [client.shapeReply]
    {
      if !ValidStringID(Some(shapeID)) {
        return Err(InvalidShapeID);
      }
      var u := ResourcePath("shapes/", shapeID);
      var req := client.NewRequest(PATCH, u, ShapeUpdateBody(options));
      if req.Err? {
        return Err(req.error);
      }
      var shp := client.DoShape(req.value);
      if shp.Err? {
        return Err(shp.error);
      }
      var decodedShape := Decode(shp.value);
      r := Ok(decodedShape);
    }

    /** Delete: an invalid id is rejected with no call made; otherwise
        DELETE "shapes/<id>" and return do's error as it is. Nothing is
        decoded (the method may not touch the decode log). */
    method Delete(shapeID: string) returns (err: Option<Error>)
      modifies client`log
      ensures !ValidStringID(Some(shapeID)) ==> err == Some(InvalidShapeID) && client.log == old(client.log)
      ensures ValidStringID(Some(shapeID)) ==>
        client.log == old(client.log) + client.Exchange(DELETE, "shapes/" + shapeID, NoBody)
        && err == client.ExchangeError()
    {
      if !ValidStringID(Some(shapeID)) {
        return Some(InvalidShapeID);
      }
      var u := ResourcePath("shapes/", shapeID);
      var req := client.NewRequest(DELETE, u, NoBody);
      if req.Err? {
        return Some(req.error);
      }
      err := client.DoNoContent(req.value);
    }
  }

  /** A server listing a cube {lengthX: 4, heightY: 4, widthZ: 4} and then a
      cylinder {height: 8, radius: 2}: List hands back CubeDimensions
      {4, 4, 4} and CylinderDimensions {8, 2}, in that order. */
  method ListCubeAndCylinder() returns (r: Result<ShapeList<Option<Dimensions>>>)
    ensures r.Ok? && |r.value.items| == 2
    ensures r.value.items[0].dimensions == Some(CubeDimensions(4, 4, 4))
    ensures r.value.items[1].dimensions == Some(CylinderDimensions(8, 2))
  {
    var cube := Shape("cube-1", NewLocation(0, 64, 0, "world"), ShapeTypeCube, "stone", [],
                      map["lengthX" := 4, "heightY" := 4, "widthZ" := 4], ResourceStatusReady);
    var cylinder := Shape("cylinder-1", NewLocation(8, 64, 8, "world"), ShapeTypeCylinder, "glass", [],
                          map["height" := 8, "radius" := 2], ResourceStatusReady);
    var transport := new Client(None, None, ShapeList([cube, cylinder]), cube,
                                Entities.EntityList([]), Entities.Entity("", None, "", "", ResourceStatusReady));
    var shapes := new ShapesClient(transport);
    r := shapes.List(ShapeListOptions(0));
  }
}
