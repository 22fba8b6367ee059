/** The schema name and schema type validators of schema.go (validateName,
    validateSchemaName, validateSchemaType), their error values and the texts those
    errors print. */
module Validation {
  import opened Wrappers
  import opened GoStrings

  /** The object kind that schema names are reported under (schemaObjectName). */
  const SchemaObjectName: Bytes := "Schema"

  /** The longest name, in bytes, that passes the length check. */
  const MaxNameLength: nat := 128

  // ---------------------------------------------------------------------------
  // Character classes

  /** [a-z0-9]: the bytes a name may begin and end with. */
  predicate IsLowerAlnum(c: Byte) {
    'a' <= c <= 'z' || '0' <= c <= '9'
  }

  /** The three punctuation bytes a name may contain but not begin or end with. */
  predicate IsNameSymbol(c: Byte) {
    c == '_' || c == '.' || c == '-'
  }

  /** Membership in the character class [a-z0-9_.-]. */
  predicate IsNameChar(c: Byte) {
    IsLowerAlnum(c) || IsNameSymbol(c)
  }

  /** The anchored pattern ^[a-z0-9_.-]*$ as the validator applies it: the starred class
      consumes the whole input, one byte at a time, up to the end of the text. A multi-byte
      UTF-8 sequence or an invalid byte decodes to a rune outside the class, so testing
      bytes gives the same answer as testing runes. The pattern matches exactly the byte
      strings whose every byte lies in the class. */
  predicate MatchesNamePattern(s: Bytes)
    ensures MatchesNamePattern(s) <==> AllNameChars(s)
  {
    if s == [] then true
    else
      assert forall i :: 1 <= i < |s| ==> s[1..][i - 1] == s[i];
      IsNameChar(s[0]) && MatchesNamePattern(s[1..])
  }

  /** Every byte of s lies in [a-z0-9_.-]. */
  predicate AllNameChars(s: Bytes) {
    forall i :: 0 <= i < |s| ==> IsNameChar(s[i])
  }

  /** The first or the last byte is '.', '-' or '_'. */
  predicate HasSymbolAtBoundary(s: Bytes) {
    |s| > 0 && (IsNameSymbol(s[0]) || IsNameSymbol(s[|s| - 1]))
  }

  /** The names the validator accepts, stated independently of the order of its checks:
      1 to 128 bytes from [a-z0-9_.-] that begin and end with [a-z0-9]. */
  predicate WellFormedName(s: Bytes) {
    && 1 <= |s| <= MaxNameLength
    && AllNameChars(s)
    && IsLowerAlnum(s[0])
    && IsLowerAlnum(s[|s| - 1])
  }

  // ---------------------------------------------------------------------------
  // Name validation

  /** The four failures of validateName; each carries the object kind its message names. */
  datatype NameError =
    | EmptyName(objectType: Bytes)
    | NameTooLong(objectType: Bytes)
    | InvalidCharacters(objectType: Bytes)
    | InvalidBoundary(objectType: Bytes)

  /** The text each failure prints, with the object kind substituted for %v: the kind
      ends the bad-character message and begins the three others. */
  function NameErrorMessage(e: NameError): (r: string)
    ensures |r| > |e.objectType|
    ensures e.InvalidCharacters? ==> r[|r| - |e.objectType|..] == e.objectType
    ensures !e.InvalidCharacters? ==> r[..|e.objectType|] == e.objectType
  {
    match e
    case EmptyName(k) => k + " name can not be empty"
    case NameTooLong(k) => k + " should be under 128 characters"
    case InvalidCharacters(k) => "Only alphanumeric and the '_', '-', '.' characters are allowed in " + k
    case InvalidBoundary(k) => k + " name can not start or end with non alphanumeric character"
  }

  /** validateName: the checks run in the order empty, too long, bad characters, bad
      boundary, and the first that fails decides the error. */
  function ValidateName(name: Bytes, objectType: Bytes): (r: Outcome<NameError>)
    ensures r == Fail(EmptyName(objectType)) <==> |name| == 0
    ensures r == Fail(NameTooLong(objectType)) <==> |name| > MaxNameLength
    ensures r == Fail(InvalidCharacters(objectType)) <==>
              && 1 <= |name| <= MaxNameLength
              && exists i :: 0 <= i < |name| && !IsNameChar(name[i])
    ensures r == Fail(InvalidBoundary(objectType)) <==>
              && 1 <= |name| <= MaxNameLength
              && AllNameChars(name)
              && !(IsLowerAlnum(name[0]) && IsLowerAlnum(name[|name| - 1]))
    ensures r == Pass <==> WellFormedName(name)
    ensures r.Fail? ==> r.error.objectType == objectType
  {
    if |name| == 0 then Fail(EmptyName(objectType))
    else if |name| > MaxNameLength then Fail(NameTooLong(objectType))
    else if !MatchesNamePattern(name) then Fail(InvalidCharacters(objectType))
    else if HasSymbolAtBoundary(name) then Fail(InvalidBoundary(objectType))
    else Pass
  }

  /** validateSchemaName: validateName under the object kind "Schema". */
  function ValidateSchemaName(name: Bytes): (r: Outcome<NameError>)
    ensures r == Pass <==> WellFormedName(name)
    ensures r.Fail? ==> r.error.objectType == SchemaObjectName
  {
    ValidateName(name, SchemaObjectName)
  }

  // ---------------------------------------------------------------------------
  // First-failure ordering

  /** One check of a pipeline: whether it holds, and the error reported when it does not. */
  datatype Stage<E> = Stage(holds: bool, failure: E)

  /** Runs checks in order and reports the first that fails; errors never accumulate. */
  function FirstFailure<E>(stages: seq<Stage<E>>): (r: Outcome<E>)
    ensures r.Pass? <==> forall i :: 0 <= i < |stages| ==> stages[i].holds
    ensures r.Fail? ==> exists i :: && 0 <= i < |stages|
                                     && !stages[i].holds
                                     && r.error == stages[i].failure
                                     && forall j :: 0 <= j < i ==> stages[j].holds
  {
    if stages == [] then Pass
    else if !stages[0].holds then Fail(stages[0].failure)
    else
      var rest := FirstFailure(stages[1..]);
      assert forall i :: 1 <= i < |stages| ==> stages[1..][i - 1] == stages[i];
      rest
  }

  /** The four checks of validateName, in the order the source runs them. */
  function NameStages(name: Bytes, objectType: Bytes): seq<Stage<NameError>> {
    [ Stage(|name| != 0, EmptyName(objectType)),
      Stage(|name| <= MaxNameLength, NameTooLong(objectType)),
      Stage(AllNameChars(name), InvalidCharacters(objectType)),
      Stage(!HasSymbolAtBoundary(name), InvalidBoundary(objectType)) ]
  }

  lemma ValidateNameIsFirstFailure(name: Bytes, objectType: Bytes)
    ensures ValidateName(name, objectType) == FirstFailure(NameStages(name, objectType))
  {
    var stages := NameStages(name, objectType);
    var checks := stages[2..];
    var boundary := stages[3..];
    assert FirstFailure(boundary) == if HasSymbolAtBoundary(name) then Fail(InvalidBoundary(objectType)) else Pass by {
      assert boundary[1..] == [];
    }
    assert FirstFailure(checks) == if !AllNameChars(name) then Fail(InvalidCharacters(objectType)) else FirstFailure(boundary) by {
      assert checks[1..] == boundary;
    }
    assert FirstFailure(stages[1..]) == if |name| > MaxNameLength then Fail(NameTooLong(objectType)) else FirstFailure(checks) by {
      assert stages[1..][1..] == checks;
    }
  }

  /** A name over the length limit is reported as too long whatever bytes it holds: the
      character check is never reached. */
  lemma LongUppercaseNameIsTooLong(objectType: Bytes)
    ensures ValidateName(seq(200, _ => 'A'), objectType) == Fail(NameTooLong(objectType))
  {
  }

  /** Upper-case letters are outside the class, so a name of acceptable length holding one
      is rejected for its characters. */
  lemma UppercaseRejected(name: Bytes, objectType: Bytes, i: nat)
    requires 1 <= |name| <= MaxNameLength
    requires i < |name| && 'A' <= name[i] <= 'Z'
    ensures ValidateName(name, objectType) == Fail(InvalidCharacters(objectType))
  {
    assert !IsNameChar(name[i]);
  }

  /** A name of exactly 128 bytes passes the length check (the message says "under 128"). */
  lemma MaxLengthNameAccepted(objectType: Bytes)
    ensures ValidateName(seq(MaxNameLength, _ => 'a'), objectType) == Pass
  {
    var name: Bytes := seq(MaxNameLength, _ => 'a');
    assert forall i :: 0 <= i < |name| ==> name[i] == 'a';
  }

  /** The four messages for one object kind are pairwise distinct, so the text alone tells
      which check failed. */
  lemma NameErrorMessagesDistinct(e1: NameError, e2: NameError)
    requires e1.objectType == e2.objectType && e1 != e2
    ensures NameErrorMessage(e1) != NameErrorMessage(e2)
  {
    var k := e1.objectType;
    assert |NameErrorMessage(EmptyName(k))| == |k| + 22;
    assert |NameErrorMessage(NameTooLong(k))| == |k| + 31;
    assert |NameErrorMessage(InvalidCharacters(k))| == |k| + 66;
    assert |NameErrorMessage(InvalidBoundary(k))| == |k| + 58;
  }

  // ---------------------------------------------------------------------------
  // Schema type validation

  /** The schema types a broker accepts. */
  datatype SchemaType = Protobuf | Json | GraphQL

  /** The tag each accepted type is requested under. */
  function TypeTag(t: SchemaType): Bytes {
    match t
    case Protobuf => "protobuf"
    case Json => "json"
    case GraphQL => "graphql"
  }

  /** The two failures of validateSchemaType. */
  datatype TypeError = UnsupportedSchemaType | AvroNotSupported

  /** The text each failure prints; only the avro message begins with the name "avro". */
  function TypeErrorMessage(e: TypeError): (r: string)
    ensures |r| > 0
    ensures (|r| >= 4 && r[..4] == "avro") <==> e == AvroNotSupported
  {
    match e
    case UnsupportedSchemaType =>
      var m := "unsupported schema type";
      assert m[..4][0] == 'u';
      m
    case AvroNotSupported => "avro is not supported at this time"
  }

  /** validateSchemaType: a three-way classification of the requested tag. */
  function ValidateSchemaType(schemaType: Bytes): (r: Outcome<TypeError>)
    ensures r == Pass <==> exists t :: TypeTag(t) == schemaType
    ensures r == Fail(AvroNotSupported) <==> schemaType == "avro"
    ensures r == Fail(UnsupportedSchemaType) <==>
              schemaType != "avro" && forall t :: TypeTag(t) != schemaType
  {
    assert TypeTag(Protobuf) == "protobuf" && TypeTag(Json) == "json" && TypeTag(GraphQL) == "graphql";
    if schemaType == "protobuf" || schemaType == "json" || schemaType == "graphql" then Pass
    else if schemaType == "avro" then Fail(AvroNotSupported)
    else Fail(UnsupportedSchemaType)
  }

  /** "avro" is recognised and refused with its own message, distinct from the one any
      unknown tag such as "xml" receives. */
  lemma AvroDistinctFromUnknown()
    ensures ValidateSchemaType("avro") == Fail(AvroNotSupported)
    ensures ValidateSchemaType("xml") == Fail(UnsupportedSchemaType)
    ensures TypeErrorMessage(AvroNotSupported) != TypeErrorMessage(UnsupportedSchemaType)
  {
  }
}
