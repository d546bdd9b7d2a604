# go-minecraft shapes and entities client, modelled in Dafny

This project models the core of a typed Go client for a remote CRUD API
over game-world resources. There are two resources:

- **shapes**: cubes and cylinders with a material and a location.
- **entities**: a type and a custom name at a location.

The model covers:

- the validators of fields and identifiers (`validations.go`);
- the shared `Location` record and the `ResourceStatus` names (`misc_types.go`);
- the shape record with its two dimension variants and the decoder that
  turns the untyped `dimensions` payload back into a variant (`shape.go`);
- the validation of create options (`shape.go`, `entity.go`);
- the List/Create/Read/Update/Delete operations of both clients
  (`shape.go`, `entity.go`).

Modules, one per concern:

- `Wrappers`: `Option` (nil or a value) and `Result` (Go's `(T, error)`).
- `MiscTypes`: `Location`, `NewLocation`, the status names.
- `Validations`: `validString`, `validLocation`, `validStringID`, `notNil`.
  The identifier pattern `^[a-zA-Z0-9\-\._]+$` becomes a matcher that is
  proved equal to "non-empty, every character in the class".
- `Paths`: the `"<collection>/" + url.QueryEscape(id)` paths.
- `Shapes`: the shape record, `Dimensions = CubeDimensions | CylinderDimensions`,
  the decoder, its wire encoding and round trips, and create-option validation.
- `Entities`: the entity record and create-option validation.
- `Transport`: the HTTP client the resource clients call. Its `newRequest`
  and `do` append to a ghost call log. They return the error or the decoded
  reply held in the client's fields. A contract proved for every value of
  those fields holds for every behaviour of the real transport.
- `ShapeClient`, `EntityClient`: the `shapes` and `entities` types as classes.

Pointers and interface values are `Option`s, with `None` for nil. A shape
is generic in its dimensions: `WireShape` carries the raw payload as the
transport fills it in, and `DecodedShape` carries the decoded variant.

`castDimensions` (shape.go:63-75) does not compile as written:

- `m` is undeclared.
- A string is stored into a `map[string]int`.
- Nothing is returned after the `switch`.
- Every caller passes one argument instead of two.

The model follows its evident intent. The payload is a map from key to
integer, the caller passes the shape's own `ShapeType`, and a missing key
reads as Go's zero value 0. A tag other than `cube` or `cylinder` yields nil.

Two behaviours of the code worth stating plainly:

- A missing dimension key reads as Go's zero value 0; the decoder raises no
  error for it.
- Create cannot reject a missing shape type or missing dimensions, although
  its error messages name both checks; see Findings.

`ShapesClient.Create` calls the create-option check as written, because
that is what callers of the code get. The corrected check is defined and
proved beside it.

## Model

| member | source | states |
|---|---|---|
| `MiscTypes.NewLocation` | misc_types.go:12-19 | the result is non-nil and its X, Y, Z and World are the arguments |
| `MiscTypes.NamedStatusesDistinct` | misc_types.go:25-30 | the four named statuses "initializing", "ready", "deleting", "updating" are pairwise distinct |
| `Validations.ValidString` | validations.go:11-13 | validString holds iff the pointer is non-nil and the string non-empty |
| `Validations.ValidLocation` | validations.go:16-18 | validLocation: the pointer is non-nil; coordinates and world are not inspected |
| `Validations.MatchesStringID` | validations.go:8 | the anchored pattern `^[a-zA-Z0-9\-\._]+$`: one class character, then end of text or a further repetition; holds exactly for non-empty strings over the class |
| `Validations.ValidStringID` | validations.go:22-24 | validStringID holds iff the pointer is non-nil, the string non-empty and every character an ASCII letter, digit, `-`, `.` or `_`; nil and "" fail |
| `Validations.NotNil` | validations.go:27-29 | notNil: the interface value is not nil |
| `Paths.QueryEscape` | shape.go:173 | url.QueryEscape: unreserved characters kept, space to `+`, every other character `%XX` per UTF-8 byte in upper-case hex; never shorter than its input |
| `Validations.NewLocationIsValid` | validations.go:16-18 | every location built by NewLocation passes validLocation |
| `Validations.NotNilOfAddress` | validations.go:27-29 | notNil holds for every field address |
| `Validations.OneBadCharRejects` | validations.go:8 | one character outside the class anywhere rejects the whole identifier |
| `Validations.StringIDsAccepted` | validations.go:8 | "shape-01" and "a.b_c" pass |
| `Validations.StringIDsRejected` | validations.go:22-24 | nil, "", and identifiers holding a space, a slash, a tilde or a trailing newline fail |
| `Validations.ConcatStringIDs` | validations.go:8 | the concatenation of two valid identifiers is valid |
| `Validations.SliceOfStringID` | validations.go:8 | every non-empty slice of a valid identifier is valid |
| `Paths.QueryEscapeFixedIff` | shape.go:173 | the escaper returns its input unchanged iff every character is unreserved (RFC 3986 section 2.3) |
| `Paths.QueryEscapeHasNoSlash` | shape.go:173 | no escaped identifier contains a slash |
| `Paths.ValidIDEscapesToItself` | shape.go:173 | a valid identifier escapes to itself |
| `Paths.ResourcePath` | shape.go:173 | the path is the prefix followed by the escaped id: the id itself when valid, and never a further slash |
| `Shapes.NewCubeDimensions` | shape.go:84-87 | builds a cube variant with the given lengthX, heightY, widthZ |
| `Shapes.NewCylinderDimensions` | shape.go:95-98 | builds a cylinder variant with the given height and radius |
| `Shapes.DecodeDimensions` | shape.go:63-75 | a result exists iff the tag is cube or cylinder, and its variant always matches the tag |
| `Shapes.CastDimensions` | shape.go:63-75 | the copying loop and switch compute exactly DecodeDimensions |
| `Shapes.DecodeCube` | shape.go:70-71 | tag cube gives a cube whose fields are the payload's lengthX, heightY, widthZ, or 0 where missing |
| `Shapes.DecodeCylinder` | shape.go:72-73 | tag cylinder gives a cylinder whose fields are the payload's height and radius, or 0 where missing |
| `Shapes.DecodeReadsOnlyTagKeys` | shape.go:64-74 | payloads that agree on the keys the tag reads decode alike; other keys do not matter |
| `Shapes.TagOf` | shape.go:56-60 | the tag a variant is sent with is one it fits |
| `Shapes.Encode` | shape.go:77-93 | the wire object of a variant has exactly the keys its tag reads |
| `Shapes.EncodeDecodeRoundTrip` | shape.go:63-93 | decoding the encoding of any dimensions with their own tag gives them back |
| `Shapes.DecodeEncodeRoundTrip` | shape.go:63-93 | a payload with exactly the keys its tag reads is the encoding of what it decodes to |
| `Shapes.DecodeShape` | shape.go:163 | decoding replaces only the dimensions, and the result satisfies the shape invariant: the variant matches the tag, nil only for an unknown tag |
| `Shapes.ShapeCreateOptions.Valid` | shape.go:131-145 | as written: fails only with "material is required" (empty material) or else "location is required" (nil location), and is nil otherwise |
| `Shapes.ShapeCreateOptions.ValidIntended` | shape.go:131-145 | as intended: shape type, material, dimensions, location checked in that order, the first missing one naming the error, nil iff all present |
| `Shapes.ValidIntendedIsStricter` | shape.go:131-145 | whatever the intended check accepts the written one accepts; they differ only on an empty shape type or nil dimensions |
| `Shapes.ValidLetsMissingShapeTypeThrough` | shape.go:132-140 | options with no shape type and no dimensions pass the written check but not the intended one |
| `Entities.EntityCreateOptions.Valid` | entity.go:79-90 | "entity type is required" iff the type is empty; else "custom name is required" iff the name is empty; else "location is required" iff the location is nil; nil iff all three present |
| `ShapeClient.ShapesClient.Decode` | shape.go:118 | the shape comes back decoded and is logged as decoded exactly once |
| `ShapeClient.ShapesClient.List` | shape.go:106-121 | GET "shapes"; a transport error is returned unchanged with nothing decoded; otherwise every item is decoded once, length and order kept |
| `ShapeClient.ShapesClient.Create` | shape.go:148-165 | invalid options return the validation error with no transport call; otherwise POST "shapes", transport errors unchanged, the reply decoded once |
| `ShapeClient.ShapesClient.Read` | shape.go:168-186 | an invalid id returns "invalid value for ShapeID" with no call; otherwise GET "shapes/"+id, errors unchanged, the reply decoded once |
| `ShapeClient.ShapesClient.Update` | shape.go:197-215 | as Read but PATCH "shapes/"+id with the options, which are not validated |
| `ShapeClient.ShapesClient.Delete` | shape.go:218-230 | an invalid id returns "invalid value for ShapeID" with no call; otherwise DELETE "shapes/"+id and the transport's error as it is; never decodes |
| `ShapeClient.ListCubeAndCylinder` | shape.go:106-121 | a listed cube {4,4,4} and cylinder {8,2} come back as CubeDimensions{4,4,4} and CylinderDimensions{8,2}, in that order |
| `EntityClient.EntitiesClient.List` | entity.go:57-70 | GET "entities"; the transport's error unchanged, or its list as it is |
| `EntityClient.EntitiesClient.Create` | entity.go:93-110 | invalid options return the validation error with no call; otherwise POST "entities" and the transport's error or entity unchanged |
| `EntityClient.EntitiesClient.Read` | entity.go:113-131 | an invalid id returns "invalid value for entityID" with no call; otherwise GET "entities/"+id, result unchanged |
| `EntityClient.EntitiesClient.Update` | entity.go:141-159 | as Read but PATCH "entities/"+id with the unvalidated options |
| `EntityClient.EntitiesClient.Delete` | entity.go:162-174 | an invalid id returns "invalid value for entityID" with no call; otherwise DELETE "entities/"+id and the transport's error as it is |

## Findings

| source | as written | input that shows it | evidently intended | confidence | as-written member | corrected member |
|---|---|---|---|---|---|---|
| shape.go:132-140 | `notNil(&e.ShapeType)` and `notNil(&e.Dimensions)` test the address of a field, which is never nil, so both checks always pass | ShapeCreateOptions with Location NewLocation(0, 64, 0, "world"), ShapeType "", Material "stone", Dimensions nil: `valid()` returns nil | reject an empty shape type with "shape type is required" and nil dimensions with "dimensions is required" | high; not executed | `Shapes.ValidLetsMissingShapeTypeThrough` | `Shapes.ShapeCreateOptions.ValidIntended` |

## Left out

- The HTTP client behind `newRequest` and `do` is not part of this model. That covers request construction, authentication, JSON encoding and decoding, and status codes. It is replaced by the `Transport.Client` stand-in, whose outcomes are free fields.
- `context.Context` and cancellation: passed straight to the transport, no logic here.
- The regular-expression engine: the compiled pattern is modelled by the matcher `MatchesStringID`.
- The string-to-int coercion and the `map[string]interface{}` type assertion at shape.go:64-67: they do not type-check as written, and a failed assertion is a panic. The payload is taken as a map of integers.
- JSON tags other than the dimension keys (which `Shapes.Encode` and `Shapes.KeysRead` model), including the unquoted `json:dimensions` at shape.go:49 and shape.go:193, and every other wire-format detail.
- `PreviousData` and `Status` are carried through unchanged; the server writes them.
- helper_types.go is not part of this model: it redeclares `Location` and `ResourceStatus` from misc_types.go.
- The `Shapes` and `Entities` interface declarations and their compile-time assertions carry no behaviour.
- ShapeClient.ShapesClient.List: Go overwrites `Dimensions` in place through the `[]*Shape` pointers; the model builds a new list of decoded values, so aliasing between items is not modelled.
- Paths.QueryEscape: Go escapes byte by byte; the model escapes per Unicode scalar value and then per UTF-8 byte, which gives the same output for every valid string. Invalid UTF-8 cannot occur in a Dafny string.
- Validations.NotNil: a Go interface holding a typed nil pointer is not nil. The source only passes field addresses to `notNil`, so this case does not arise and is not modelled.
