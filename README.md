# Schema registration for the Memphis Go client, modelled in Dafny

This project models the schema-registration logic of the Memphis Go client (`schema.go`).
That logic validates a schema's name and type, builds the creation request, interprets the
broker's reply and runs `Conn.CreateSchema`. `CreateSchema` reads the schema file, checks
the name, checks the type, and then hands a new `Schema` to the connection's generic
creation call.

The source is pure decision logic with early returns, so the model is functional:

- `wrappers.dfy` (module `Wrappers`): `Outcome` stands for Go's `error` result, and `Pass`
  stands for nil. `Result` stands for a value-or-error pair.
- `go_strings.dfy` (module `GoStrings`): a Go string is a byte sequence. `Byte` is a
  character whose code is below 256, so `|s|` is Go's `len(s)`.
- `validation.dfy` (module `Validation`): `validateName`, `validateSchemaName` and
  `validateSchemaType`, their errors and the exact texts those errors print. The anchored
  regular expression `^[a-z0-9_.-]*$` is modelled as a star over a byte class
  (`MatchesNamePattern`). It is proved equal to a per-byte membership test. This
  holds for Go's RE2 engine: `$` matches only at the end of the text, and every non-ASCII
  rune or invalid byte falls outside the class.
- `schema.dfy` (module `SchemaEntity`): the `Schema` entity, the request and response
  shapes, the creation and destruction subjects, `getCreationReq` and `handleCreationResp`.
  JSON decoding becomes the datatype `Decoded`. The default reply handler's verdict is a
  parameter.
- `connection.dfy` (module `Connection`): `CreateSchema`. The file read's outcome is an
  input, and the creation call is an arbitrary function from the built `Schema` to an
  outcome. "Create is never called" is proved as: the result does not depend on that
  function. The worked example uses one concrete creation call, `CreateVia`. It publishes
  the schema's creation request on its creation subject through an arbitrary transport,
  then interprets the decoded reply with `HandleCreationResp`.

Behaviour of the code worth knowing (the model follows the code):

- The too-long message says "under 128 characters", but the check is `len(name) > 128`.
  A name of exactly 128 bytes is accepted.
- The bad-character message says "alphanumeric", but the class is `[a-z0-9_.-]`.
  Upper-case letters are rejected.
- `CreateSchema` does not check the file's content. An empty file is read successfully,
  and its empty content goes into the schema.
- The destruction subject is the empty string and the destruction request is nil. What a
  removal then does is decided by the generic destruction call, which is outside this model.

## Model

| member | source | states |
|---|---|---|
| `Validation.ValidateName` | schema.go:111-142 | The empty-name error is returned exactly when the length is 0. The too-long error is returned exactly when the length exceeds 128. The bad-character error is returned exactly for a 1-128 byte name holding a byte outside `[a-z0-9_.-]`. The boundary error is returned exactly for such a name made only of allowed bytes whose first or last byte is not `[a-z0-9]`. Success holds iff the name is well formed. Every error carries the given object kind. |
| `Validation.ValidateSchemaName` | schema.go:107-109 | Succeeds iff the name is well formed; its errors name the object kind "Schema". |
| `Validation.MatchesNamePattern` | schema.go:130-132 | The anchored pattern `^[a-z0-9_.-]*$` matches a byte string iff every byte lies in the class. |
| `Validation.NameErrorMessage` | schema.go:112-115 | Each name error's text contains its object kind. The kind ends the bad-character text and begins the other three. |
| `Validation.FirstFailure` | schema.go:122-139 | A run of checks passes iff every check holds; otherwise it reports the error of a failing check that all earlier checks passed. |
| `Validation.ValidateNameIsFirstFailure` | schema.go:122-139 | `validateName` equals the first failure of its four checks in the order empty, too long, characters, boundary; nothing accumulates. |
| `Validation.LongUppercaseNameIsTooLong` | schema.go:126-135 | A 200-byte all upper-case name gets the too-long error, not the character error. |
| `Validation.UppercaseRejected` | schema.go:130-135 | A 1-128 byte name containing an upper-case letter gets the invalid-character error. |
| `Validation.MaxLengthNameAccepted` | schema.go:126-128 | A name of exactly 128 allowed bytes passes every check. |
| `Validation.NameErrorMessagesDistinct` | schema.go:112-120 | For one object kind, the four error texts are pairwise distinct. |
| `Validation.ValidateSchemaType` | schema.go:144-157 | Succeeds iff the tag names protobuf, json or graphql. It fails with the avro error iff the tag is "avro". It fails with the generic error iff the tag is neither of those. |
| `Validation.TypeErrorMessage` | schema.go:145-148 | Both type error texts are non-empty. A text begins with "avro" iff it is the avro error's text. |
| `Validation.AvroDistinctFromUnknown` | schema.go:145-156 | "avro" and "xml" get different errors with different texts. |
| `SchemaEntity.CreationSubject` | schema.go:39-41 | The creation subject is non-empty and differs from the destruction subject. |
| `SchemaEntity.DestructionSubject` | schema.go:43-45 | The destruction subject is the empty string. |
| `SchemaEntity.SubjectsAreFixed` | schema.go:39-45 | Every schema is created on `$memphis_schema_creations`; the destruction subject is empty and differs from it. |
| `SchemaEntity.GetCreationReq` | schema.go:47-54 | The request copies name, type, creator and content unchanged and always has an empty struct name. |
| `SchemaEntity.CreationReqRoundTrip` | schema.go:47-54 | Re-deriving a schema from its request returns the original with the struct name emptied. |
| `SchemaEntity.CreationReqIdentifiesSchema` | schema.go:47-54 | Two schemas give the same request iff they agree on every field but the struct name. |
| `SchemaEntity.HandleCreationResp` | schema.go:56-67 | An undecodable reply yields the default handler's verdict. A decoded reply succeeds iff its error text is empty; otherwise it fails with a broker rejection whose text is exactly that error. |
| `SchemaEntity.ParsedReplyIgnoresFallback` | schema.go:58-66 | Once a reply decodes, the default handler does not affect the verdict. |
| `Connection.CreateSchema` | schema.go:74-105 | A read failure is returned first. Then the name error, then the type error. If all three pass, the result is the creation call's outcome on a schema with the session user and an empty struct name. |
| `Connection.CreateConsultedOnlyAfterChecks` | schema.go:82-102 | When the read or a check fails, the creation call cannot affect the result. When all pass, different creation outcomes give different results. |
| `Connection.ReadErrorPrecedesValidation` | schema.go:75-78 | A read failure yields the read error whatever the name, type and creation call. |
| `Connection.NameErrorPrecedesTypeError` | schema.go:82-90 | With an invalid name, the type does not affect the result. |
| `Connection.CreatedSchemaShape` | schema.go:92-98 | The schema built after the checks pass gives a request with the session user, the file content and an empty struct name. The request goes to the single creation subject, and its type is a supported one. |
| `Connection.CreateCallsCreate` | schema.go:92-104 | Once the read and both checks pass, the result is the creation call's verdict on the schema built from the session user and the file content. |
| `Connection.OrdersReachesCreate` | schema.go:82-90 | The name "orders-v1" and the type "json" pass both checks. |
| `Connection.CreateViaPublishes` | schema.go:92-104 | When the checks pass and creation goes through `CreateVia`, the result is `HandleCreationResp` applied to the transport's reply. That reply is to the schema's creation request, sent on `$memphis_schema_creations`. |
| `Connection.OrdersPublishedRequest` | schema.go:74-105 | Creating "orders-v1" as "json" publishes a request of type "json" on `$memphis_schema_creations`. The result is the interpretation of the reply to exactly that request. |
| `Connection.OrdersAccepted` | schema.go:74-105 | Creating "orders-v1" as "json" from a readable file succeeds when the broker answers that request with an empty error. |
| `Connection.OrdersRejected` | schema.go:74-105 | The same creation fails with exactly "name exists" when the broker answers that request with that text. |

## Left out

- Reading the file (`os.ReadFile`) is not modelled: its outcome is an input of `CreateSchema`.
- The generic creation call `c.create` and the default reply handler `defaultHandleCreationResp` are not part of this model. The first is a parameter function of `CreateSchema`; the second is the verdict passed to `HandleCreationResp`. `CreateVia` is the creation call assumed by the worked example (publish, then interpret the reply), not a model of `c.create`'s code.
- The error wrapper `memphisError` is not part of this model. It is taken to keep the wrapped error unchanged, so each error constructor stands for the wrapped error of one stage.
- JSON decoding (`json.Unmarshal`) is not modelled: the reply arrives already classified as decoded or undecodable.
- The `regexp` library is replaced by the byte-class predicate it evaluates here.
- `getDestructionReq` returns nil and `removeSchemaReq` is never built. Neither carries behaviour, so neither is modelled.
- `autoRegSchema`, `scanMsgChema` and `extractSchema` are unfinished sketches that do not compile. They have no behaviour to model, so format detection, schema generation and the auto-registration state machine are not modelled.
- Timeouts, cancellation and concurrency belong to the transport, which is outside the model.
