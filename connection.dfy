/** Conn.CreateSchema: read the schema file, validate the name, validate the type, then
    hand a freshly built Schema to the connection's generic creation call. The file read
    and the creation round trip are outside the model: the read's outcome is an input and
    the creation call is an arbitrary function of the schema it is given. */
module Connection {
  import opened Wrappers
  import opened GoStrings
  import opened Validation
  import opened SchemaEntity

  /** The part of a connection CreateSchema uses: the session's user name. */
  datatype Conn = Conn(username: Bytes)

  /** CreateSchema. `read` is what reading the file at the given path produced (its error
      is the read error's text); `create` is the generic creation call, which publishes the
      request and interprets the broker's reply. The first failing stage decides the error,
      and `create` is applied only when the read and both checks have passed. */
  function CreateSchema(
    c: Conn, name: Bytes, schemaType: Bytes,
    read: Result<Bytes, Bytes>, create: Schema -> Outcome<Error>): (r: Outcome<Error>)
    ensures read.Failure? ==> r == Fail(ReadFailed(read.error))
    ensures read.Success? && !WellFormedName(name) ==>
              && r.Fail? && r.error.InvalidName?
              && r.error.nameError == ValidateName(name, SchemaObjectName).error
    ensures read.Success? && WellFormedName(name) && ValidateSchemaType(schemaType).Fail? ==>
              r == Fail(InvalidType(ValidateSchemaType(schemaType).error))
    ensures read.Success? && WellFormedName(name) && ValidateSchemaType(schemaType) == Pass ==>
              r == create(Schema(name, schemaType, c.username, read.value, []))
  {
    match read
    case Failure(e) => Fail(ReadFailed(e))
    case Success(data) =>
      var nameCheck := ValidateSchemaName(name);
      if nameCheck.Fail? then Fail(InvalidName(nameCheck.error))
      else
        var typeCheck := ValidateSchemaType(schemaType);
        if typeCheck.Fail? then Fail(InvalidType(typeCheck.error))
        else create(Schema(name, schemaType, c.username, data, []))
  }

  /** Whether CreateSchema reaches its creation call. */
  predicate ReachesCreate(name: Bytes, schemaType: Bytes, read: Result<Bytes, Bytes>) {
    read.Success? && WellFormedName(name) && ValidateSchemaType(schemaType) == Pass
  }

  /** Before the creation call is reached, its behaviour cannot influence the result: no
      request is sent when the read or a check fails. When it is reached, two creation calls
      that disagree on the schema built give different results, so the call is consulted. */
  lemma CreateConsultedOnlyAfterChecks(
    c: Conn, name: Bytes, schemaType: Bytes, read: Result<Bytes, Bytes>,
    create1: Schema -> Outcome<Error>, create2: Schema -> Outcome<Error>)
    ensures !ReachesCreate(name, schemaType, read) ==>
              CreateSchema(c, name, schemaType, read, create1) == CreateSchema(c, name, schemaType, read, create2)
    ensures ReachesCreate(name, schemaType, read) ==>
              var built := Schema(name, schemaType, c.username, read.value, []);
              (create1(built) != create2(built) ==>
                CreateSchema(c, name, schemaType, read, create1) != CreateSchema(c, name, schemaType, read, create2))
  {
  }

  /** Once the read and both checks pass, the result is the creation call's verdict on the
      schema built from the session user and the file's content. */
  lemma CreateCallsCreate(c: Conn, name: Bytes, schemaType: Bytes, content: Bytes, create: Schema -> Outcome<Error>)
    requires ReachesCreate(name, schemaType, Success(content))
    ensures CreateSchema(c, name, schemaType, Success(content), create) ==
            create(Schema(name, schemaType, c.username, content, []))
  {
  }

  /** A failed read is reported before any validation: the name and type play no part. */
  lemma ReadErrorPrecedesValidation(
    c: Conn, name1: Bytes, name2: Bytes, type1: Bytes, type2: Bytes, cause: Bytes,
    create1: Schema -> Outcome<Error>, create2: Schema -> Outcome<Error>)
    ensures CreateSchema(c, name1, type1, Failure(cause), create1) ==
            CreateSchema(c, name2, type2, Failure(cause), create2) == Fail(ReadFailed(cause))
  {
  }

  /** A name failure is reported before the type is looked at. */
  lemma NameErrorPrecedesTypeError(
    c: Conn, name: Bytes, type1: Bytes, type2: Bytes, content: Bytes,
    create: Schema -> Outcome<Error>)
    requires !WellFormedName(name)
    ensures CreateSchema(c, name, type1, Success(content), create) ==
            CreateSchema(c, name, type2, Success(content), create)
  {
  }

  /** The schema a successful pipeline hands to the creation call: the session user as its
      author, the file's bytes as its content and an empty struct name; its request is
      published on the single creation subject. */
  lemma CreatedSchemaShape(c: Conn, name: Bytes, schemaType: Bytes, content: Bytes)
    requires ReachesCreate(name, schemaType, Success(content))
    ensures var s := Schema(name, schemaType, c.username, content, []);
            && GetCreationReq(s) == CreateSchemaReq(name, schemaType, c.username, content, [])
            && CreationSubject(s) == "$memphis_schema_creations"
            && (exists t :: TypeTag(t) == s.schemaType)
  {
  }

  /** The worked example's name and type pass both checks. */
  lemma OrdersReachesCreate(content: Bytes)
    ensures ReachesCreate("orders-v1", "json", Success(content))
  {
    var name: Bytes := "orders-v1";
    assert WellFormedName(name) by {
      assert forall i :: 0 <= i < |name| ==> IsNameChar(name[i]);
    }
    assert TypeTag(Json) == "json";
  }

  /** The generic creation call as the worked example takes it: publish the schema's
      creation request on its creation subject, take the decoded reply from the transport
      and interpret it. `fallback` is the default handler's verdict on an undecodable reply. */
  function CreateVia(transport: (Bytes, CreateSchemaReq) -> Decoded, fallback: Outcome<Error>): Schema -> Outcome<Error> {
    s => HandleCreationResp(transport(CreationSubject(s), GetCreationReq(s)), fallback)
  }

  /** Through that creation call, a pipeline that passes its checks publishes exactly one
      request, the schema's creation request on `$memphis_schema_creations`, and returns the
      interpretation of the reply to it. */
  lemma CreateViaPublishes(
    c: Conn, name: Bytes, schemaType: Bytes, content: Bytes,
    transport: (Bytes, CreateSchemaReq) -> Decoded, fallback: Outcome<Error>)
    requires ReachesCreate(name, schemaType, Success(content))
    ensures CreateSchema(c, name, schemaType, Success(content), CreateVia(transport, fallback)) ==
            HandleCreationResp(transport("$memphis_schema_creations",
                                         CreateSchemaReq(name, schemaType, c.username, content, [])), fallback)
  {
    var built := Schema(name, schemaType, c.username, content, []);
    CreateCallsCreate(c, name, schemaType, content, CreateVia(transport, fallback));
    assert CreateVia(transport, fallback)(built) ==
           HandleCreationResp(transport(CreationSubject(built), GetCreationReq(built)), fallback);
    assert CreationSubject(built) == "$memphis_schema_creations";
  }

  /** Worked example: creating "orders-v1" as "json" from a readable file publishes one
      request, of type "json", on `$memphis_schema_creations`, and its result is the
      interpretation of the reply to exactly that request. */
  lemma OrdersPublishedRequest(
    c: Conn, content: Bytes, transport: (Bytes, CreateSchemaReq) -> Decoded, fallback: Outcome<Error>)
    ensures var req := CreateSchemaReq("orders-v1", "json", c.username, content, []);
            && req.schemaType == "json"
            && CreateSchema(c, "orders-v1", "json", Success(content), CreateVia(transport, fallback)) ==
               HandleCreationResp(transport("$memphis_schema_creations", req), fallback)
  {
    OrdersReachesCreate(content);
    CreateViaPublishes(c, "orders-v1", "json", content, transport, fallback);
  }

  /** Worked example: the creation succeeds when the broker answers that request with an
      empty error. */
  lemma OrdersAccepted(
    c: Conn, content: Bytes, transport: (Bytes, CreateSchemaReq) -> Decoded, fallback: Outcome<Error>)
    requires transport("$memphis_schema_creations", CreateSchemaReq("orders-v1", "json", c.username, content, []))
             == Parsed(CreateSchemaResp(""))
    ensures CreateSchema(c, "orders-v1", "json", Success(content), CreateVia(transport, fallback)) == Pass
  {
    OrdersPublishedRequest(c, content, transport, fallback);
  }

  /** Worked example: the creation fails with exactly the broker's text when the broker
      answers that request with "name exists". */
  lemma OrdersRejected(
    c: Conn, content: Bytes, transport: (Bytes, CreateSchemaReq) -> Decoded, fallback: Outcome<Error>)
    requires transport("$memphis_schema_creations", CreateSchemaReq("orders-v1", "json", c.username, content, []))
             == Parsed(CreateSchemaResp("name exists"))
    ensures CreateSchema(c, "orders-v1", "json", Success(content), CreateVia(transport, fallback))
              == Fail(BrokerRejected("name exists"))
  {
    OrdersPublishedRequest(c, content, transport, fallback);
  }
}
