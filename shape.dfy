/** Shapes: the resource record, its two dimension variants, the decoder
    that turns the untyped wire payload back into a variant, and the
    validation of create options (shape.go, everything but the client). */
module Shapes {
  import opened Wrappers
  import opened MiscTypes
  import opened Validations

  /** ShapeType is a Go string type; the server may send any string, two
      values are named. */
  type ShapeType = string

  const ShapeTypeCube: ShapeType := "cube"
  const ShapeTypeCylinder: ShapeType := "cylinder"

  /** The dimensions of a shape: exactly one of the two variants. */
  datatype Dimensions =
    | CubeDimensions(lengthX: int, heightY: int, widthZ: int)
    | CylinderDimensions(height: int, radius: int)

  /** A shape whose dimensions have type D: the wire payload as the
      transport fills it in (WireShape), or the decoded variant, nil when
      the tag is not recognised (DecodedShape). */
  datatype Shape<D> = Shape(
    id: string,
    location: Option<Location>,
    shapeType: ShapeType,
    material: string,
    previousData: seq<string>,
    dimensions: D,
    status: ResourceStatus)

  type WireShape = Shape<map<string, int>>
  type DecodedShape = Shape<Option<Dimensions>>

  datatype ShapeList<D> = ShapeList(items: seq<Shape<D>>)

  /** The variant that the tag calls for. */
  predicate Fits(d: Dimensions, t: ShapeType) {
    match d
    case CubeDimensions(_, _, _) => t == ShapeTypeCube
    case CylinderDimensions(_, _) => t == ShapeTypeCylinder
  }

  /** The shape invariant: decoded dimensions, when present, are of the
      variant its tag names. */
  predicate WellTyped(s: DecodedShape) {
    s.dimensions.Some? ==> Fits(s.dimensions.value, s.shapeType)
  }

  function NewCubeDimensions(lengthX: int, heightY: int, widthZ: int): (d: Dimensions)
    ensures Fits(d, ShapeTypeCube)
    ensures d.lengthX == lengthX && d.heightY == heightY && d.widthZ == widthZ
  {
    CubeDimensions(lengthX, heightY, widthZ)
  }

  function NewCylinderDimensions(height: int, radius: int): (d: Dimensions)
    ensures Fits(d, ShapeTypeCylinder)
    ensures d.height == height && d.radius == radius
  {
    CylinderDimensions(height, radius)
  }

  /** Go's `m[key]` on a map of ints: the zero value for a missing key. */
  function Lookup(m: map<string, int>, key: string): int {
    if key in m then m[key] else 0
  }

  /** The payload keys each tag reads: the JSON names of its variant's
      fields. */
  function KeysRead(t: ShapeType): set<string> {
    if t == ShapeTypeCube then {"lengthX", "heightY", "widthZ"}
    else if t == ShapeTypeCylinder then {"height", "radius"}
    else {}
  }

  /** The dimension decoder as the helper evidently intends it: the tag
      picks the variant, each field is read from the payload under its JSON
      name, and a tag other than cube or cylinder yields nil. */
  function DecodeDimensions(payload: map<string, int>, shapeType: ShapeType): (r: Option<Dimensions>)
    ensures r.Some? <==> shapeType == ShapeTypeCube || shapeType == ShapeTypeCylinder
    ensures r.Some? ==> Fits(r.value, shapeType)
  {
    if shapeType == ShapeTypeCube then
      Some(NewCubeDimensions(Lookup(payload, "lengthX"), Lookup(payload, "heightY"), Lookup(payload, "widthZ")))
    else if shapeType == ShapeTypeCylinder then
      Some(NewCylinderDimensions(Lookup(payload, "height"), Lookup(payload, "radius")))
    else
      None
  }

  /** castDimensions. As written the helper does not compile (the copy `m`
      is undeclared, a string is stored into a map of ints, the switch has
      no return after it, and every caller passes one argument); this is
      its evident intent. The payload is already a map of ints, the caller
      passes the shape's tag, and the loop copies the payload into `m`
      before the switch reads it. */
  method CastDimensions(dimensions: map<string, int>, shapeType: ShapeType) returns (r: Option<Dimensions>)
    ensures r == DecodeDimensions(dimensions, shapeType)
  {
    var m: map<string, int> := map[];
    var pending := dimensions.Keys;
    while pending != {}
      invariant pending <= dimensions.Keys
      invariant m.Keys == dimensions.Keys - pending
      invariant forall k :: k in m ==> m[k] == dimensions[k]
      decreases pending
    {
      var key :| key in pending;
      m := m[key := dimensions[key]];
      pending := pending - {key};
    }
    assert m == dimensions;
    if shapeType == ShapeTypeCube {
      r := Some(NewCubeDimensions(Lookup(m, "lengthX"), Lookup(m, "heightY"), Lookup(m, "widthZ")));
    } else if shapeType == ShapeTypeCylinder {
      r := Some(NewCylinderDimensions(Lookup(m, "height"), Lookup(m, "radius")));
    } else {
      r := None;
    }
  }

  /** A cube payload decodes to a cube whose fields are the payload's
      lengthX, heightY and widthZ, a missing key reading as 0. */
  lemma DecodeCube(payload: map<string, int>)
    ensures var r := DecodeDimensions(payload, ShapeTypeCube);
      && r.Some? && r.value.CubeDimensions?
      && (if "lengthX" in payload then r.value.lengthX == payload["lengthX"] else r.value.lengthX == 0)
      && (if "heightY" in payload then r.value.heightY == payload["heightY"] else r.value.heightY == 0)
      && (if "widthZ" in payload then r.value.widthZ == payload["widthZ"] else r.value.widthZ == 0)
  {
  }

  /** A cylinder payload decodes to a cylinder whose fields are the
      payload's height and radius, a missing key reading as 0. */
  lemma DecodeCylinder(payload: map<string, int>)
    ensures var r := DecodeDimensions(payload, ShapeTypeCylinder);
      && r.Some? && r.value.CylinderDimensions?
      && (if "height" in payload then r.value.height == payload["height"] else r.value.height == 0)
      && (if "radius" in payload then r.value.radius == payload["radius"] else r.value.radius == 0)
  {
  }

  /** Keys the tag does not read do not affect the result: two payloads
      that agree (with Go's zero-value reading) on the read keys decode
      alike. */
  lemma DecodeReadsOnlyTagKeys(p: map<string, int>, q: map<string, int>, t: ShapeType)
    requires forall k :: k in KeysRead(t) ==> Lookup(p, k) == Lookup(q, k)
    ensures DecodeDimensions(p, t) == DecodeDimensions(q, t)
  {
    if t == ShapeTypeCube {
      assert "lengthX" in KeysRead(t) && "heightY" in KeysRead(t) && "widthZ" in KeysRead(t);
    } else if t == ShapeTypeCylinder {
      assert "height" in KeysRead(t) && "radius" in KeysRead(t);
    }
  }

  /** The tag each variant is sent with. */
  function TagOf(d: Dimensions): (t: ShapeType)
    ensures Fits(d, t)
  {
    match d
    case CubeDimensions(_, _, _) => ShapeTypeCube
    case CylinderDimensions(_, _) => ShapeTypeCylinder
  }

  /** The wire form of a variant: a flat JSON object under the field tags
      of CubeDimensions and CylinderDimensions. */
  function Encode(d: Dimensions): (payload: map<string, int>)
    ensures payload.Keys == KeysRead(TagOf(d))
  {
    match d
    case CubeDimensions(x, y, z) => map["lengthX" := x, "heightY" := y, "widthZ" := z]
    case CylinderDimensions(h, r) => map["height" := h, "radius" := r]
  }

  /** Round trip: dimensions sent with their own tag come back unchanged. */
  lemma EncodeDecodeRoundTrip(d: Dimensions)
    ensures DecodeDimensions(Encode(d), TagOf(d)) == Some(d)
  {
  }

  /** The other direction: a payload carrying exactly the keys its tag
      reads is the encoding of what it decodes to. */
  lemma DecodeEncodeRoundTrip(payload: map<string, int>, t: ShapeType)
    requires t == ShapeTypeCube || t == ShapeTypeCylinder
    requires payload.Keys == KeysRead(t)
    ensures Encode(DecodeDimensions(payload, t).value) == payload
  {
  }

  /** Replace a wire shape's payload by its decoded dimensions, keeping
      every other field. */
  function DecodeShape(w: WireShape): (s: DecodedShape)
    ensures s.id == w.id && s.location == w.location && s.shapeType == w.shapeType
    ensures s.material == w.material && s.previousData == w.previousData && s.status == w.status
    ensures s.dimensions == DecodeDimensions(w.dimensions, w.shapeType)
    ensures WellTyped(s)
    ensures s.dimensions.None? <==> w.shapeType != ShapeTypeCube && w.shapeType != ShapeTypeCylinder
  {
    Shape(w.id, w.location, w.shapeType, w.material, w.previousData,
          DecodeDimensions(w.dimensions, w.shapeType), w.status)
  }

  datatype ShapeListOptions = ShapeListOptions(limit: int)

  const ShapeTypeRequired: Error := "shape type is required"
  const MaterialRequired: Error := "material is required"
  const DimensionsRequired: Error := "dimensions is required"
  const LocationRequired: Error := "location is required"

  datatype ShapeCreateOptions = ShapeCreateOptions(
    location: Option<Location>,
    shapeType: ShapeType,
    material: string,
    dimensions: Option<Dimensions>)
  {
    /** valid, as written: the first failing check decides the message.
        The shape-type and dimensions checks are given the ADDRESS of the
        field, which is never nil, so they always pass; the only errors
        left are a missing material and a missing location. */
    function Valid(): (err: Option<Error>)
      ensures err == None <==> material != "" && location.Some?
      ensures err == Some(MaterialRequired) <==> material == ""
      ensures err == Some(LocationRequired) <==> material != "" && location.None?
    {
      if !NotNil(Some(shapeType)) then Some(ShapeTypeRequired)
      else if !ValidString(Some(material)) then Some(MaterialRequired)
      else if !NotNil(Some(dimensions)) then Some(DimensionsRequired)
      else if !ValidLocation(location) then Some(LocationRequired)
      else None
    }

    /** valid as its messages intend it: a non-empty shape type and a
        non-nil dimensions value are checked, in the same order. */
    function ValidIntended(): (err: Option<Error>)
      ensures err == None <==> shapeType != "" && material != "" && dimensions.Some? && location.Some?
      ensures err == Some(ShapeTypeRequired) <==> shapeType == ""
      ensures err == Some(MaterialRequired) <==> shapeType != "" && material == ""
      ensures err == Some(DimensionsRequired) <==> shapeType != "" && material != "" && dimensions.None?
      ensures err == Some(LocationRequired)
          <==> shapeType != "" && material != "" && dimensions.Some? && location.None?
    {
      if !ValidString(Some(shapeType)) then Some(ShapeTypeRequired)
      else if !ValidString(Some(material)) then Some(MaterialRequired)
      else if !NotNil(dimensions) then Some(DimensionsRequired)
      else if !ValidLocation(location) then Some(LocationRequired)
      else None
    }
  }

  /** The two validators differ only on the two checks that cannot fail as
      written: whatever the intended one accepts, the written one accepts. */
  lemma ValidIntendedIsStricter(o: ShapeCreateOptions)
    ensures o.ValidIntended() == None ==> o.Valid() == None
    ensures o.Valid() != o.ValidIntended() ==> o.shapeType == "" || o.dimensions.None?
  {
  }

  /** A concrete input on which the two disagree: no shape type and no
      dimensions, yet the written check lets the options through. */
  lemma ValidLetsMissingShapeTypeThrough()
    ensures var o := ShapeCreateOptions(NewLocation(0, 64, 0, "world"), "", "stone", None);
      o.Valid() == None && o.ValidIntended() == Some(ShapeTypeRequired)
  {
  }

  datatype ShapeUpdateOptions = ShapeUpdateOptions(
    location: Option<Location>,
    shapeType: ShapeType,
    material: string,
    dimensions: Option<Dimensions>)
}
