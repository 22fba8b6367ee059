/** The Schema entity of schema.go and the three behaviours the generic creation call
    uses: the subject a creation is published on, the request body it sends, and the
    interpretation of the broker's reply. */
module SchemaEntity {
  import opened Wrappers
  import opened GoStrings
  import opened Validation

  /** One named, typed schema as uploaded by a client. */
  datatype Schema = Schema(
    name: Bytes,
    schemaType: Bytes,
    createdByUsername: Bytes,
    schemaContent: Bytes,
    messageStructName: Bytes)

  /** The creation request's wire shape (createSchemaReq). */
  datatype CreateSchemaReq = CreateSchemaReq(
    name: Bytes,
    schemaType: Bytes,
    createdByUsername: Bytes,
    schemaContent: Bytes,
    messageStructName: Bytes)

  /** The creation response's wire shape (createSchemaResp): an empty error is success. */
  datatype CreateSchemaResp = CreateSchemaResp(err: Bytes)

  /** What JSON decoding of a reply into CreateSchemaResp yields; the decoder itself is not
      modelled. */
  datatype Decoded = Parsed(resp: CreateSchemaResp) | Unparseable

  /** Every error the creation path can return. The client's uniform error wrapper is taken
      to keep the wrapped error as it is, so each constructor is the error of one stage. */
  datatype Error =
    | ReadFailed(cause: Bytes)          // the schema file could not be read
    | InvalidName(nameError: NameError) // validateSchemaName refused the name
    | InvalidType(typeError: TypeError) // validateSchemaType refused the type
    | BrokerRejected(message: Bytes)    // the broker replied with a non-empty error
    | TransportFailed(cause: Bytes)     // any other failure of the creation round trip

  /** The text of an error, as Error() would print it. */
  function ErrorMessage(e: Error): string {
    match e
    case ReadFailed(cause) => cause
    case InvalidName(ne) => NameErrorMessage(ne)
    case InvalidType(te) => TypeErrorMessage(te)
    case BrokerRejected(message) => message
    case TransportFailed(cause) => cause
  }

  /** getCreationSubject: a non-empty subject, unlike the destruction subject. */
  function CreationSubject(s: Schema): (r: Bytes)
    ensures |r| > 0 && r != DestructionSubject(s)
  {
    "$memphis_schema_creations"
  }

  /** getDestructionSubject: removal is not wired to any subject; the subject is the empty
      string for every schema. */
  function DestructionSubject(s: Schema): (r: Bytes)
    ensures |r| == 0
  {
    ""
  }

  /** Every schema creation, whatever its name or type, goes to one fixed subject, and that
      subject is never the (empty) destruction subject. */
  lemma SubjectsAreFixed(s1: Schema, s2: Schema)
    ensures CreationSubject(s1) == CreationSubject(s2) == "$memphis_schema_creations"
    ensures DestructionSubject(s1) == [] != CreationSubject(s2)
  {
  }

  /** getCreationReq: copies the uploaded fields and leaves the struct name at its zero
      value, whatever the schema holds there. */
  function GetCreationReq(s: Schema): (r: CreateSchemaReq)
    ensures r.name == s.name
    ensures r.schemaType == s.schemaType
    ensures r.createdByUsername == s.createdByUsername
    ensures r.schemaContent == s.schemaContent
    ensures r.messageStructName == []
  {
    CreateSchemaReq(s.name, s.schemaType, s.createdByUsername, s.schemaContent, [])
  }

  /** The schema fields a creation request carries. */
  function SchemaOfReq(r: CreateSchemaReq): Schema {
    Schema(r.name, r.schemaType, r.createdByUsername, r.schemaContent, r.messageStructName)
  }

  /** Building the request loses nothing but the struct name: re-deriving a schema from it
      gives back the original with an empty struct name. */
  lemma CreationReqRoundTrip(s: Schema)
    ensures SchemaOfReq(GetCreationReq(s)) == s.(messageStructName := [])
  {
  }

  /** Two schemas give the same request exactly when they agree on every field but the
      struct name. */
  lemma CreationReqIdentifiesSchema(s1: Schema, s2: Schema)
    ensures GetCreationReq(s1) == GetCreationReq(s2) <==>
              s1.(messageStructName := []) == s2.(messageStructName := [])
  {
  }

  /** handleCreationResp: a reply that does not decode is passed to the default handler,
      whose verdict is the parameter fallback; a decoded reply succeeds exactly when its
      error text is empty and otherwise fails with that very text. */
  function HandleCreationResp(decoded: Decoded, fallback: Outcome<Error>): (r: Outcome<Error>)
    ensures decoded.Unparseable? ==> r == fallback
    ensures decoded.Parsed? ==> (r == Pass <==> decoded.resp.err == [])
    ensures decoded.Parsed? && r.Fail? ==>
              r.error == BrokerRejected(decoded.resp.err) && ErrorMessage(r.error) == decoded.resp.err
  {
    match decoded
    case Unparseable => fallback
    case Parsed(resp) =>
      if resp.err != [] then Fail(BrokerRejected(resp.err)) else Pass
  }

  /** Once a reply decodes, the default handler plays no part in the verdict. */
  lemma ParsedReplyIgnoresFallback(resp: CreateSchemaResp, fallback1: Outcome<Error>, fallback2: Outcome<Error>)
    ensures HandleCreationResp(Parsed(resp), fallback1) == HandleCreationResp(Parsed(resp), fallback2)
  {
  }
}
