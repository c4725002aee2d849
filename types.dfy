/** The shared vocabulary of the skill-parameter editor: the table from integer
    type codes to JSON-Schema type names, the Skill and SkillDetail records,
    and the field-by-field validation of a new parameter record. */
module Types {

  datatype Option<+T> = None | Some(value: T)

  datatype Result<+T, +E> = Ok(value: T) | Err(error: E)

  /** The fixed table from the integer codes the backend stores to the
      JSON-Schema type names the schema preview uses. */
  const ItemTypeMapping: map<int, string> :=
    map[1 := "string", 2 := "number", 3 := "integer", 4 := "object",
        5 := "array", 6 := "boolean", 7 := "null"]

  /** The table's keys in the order the host enumerates an object's
      integer-like keys (ascending). */
  const ItemTypeKeys: seq<int> := [1, 2, 3, 4, 5, 6, 7]

  /** A type field as the host sees it at run time: a number, a string,
      JSON null (what the backend sends for a parameter without an item
      type), or nothing at all (an unknown code looked up in the table). */
  datatype TypeValue = Code(code: int) | Str(text: string) | Null | Undefined

  /** A skill, the callable tool whose parameters are edited. */
  datatype Skill = Skill(
    skillId: int,
    versionId: int,
    name: string,
    enabledByDefault: int,
    inputUseSchema: int,
    endpoint: string,
    prompt: string)

  /** One parameter of a skill. Numbers the host keeps as floating point
      (isRequired, status) are reals here so that "is an integer" can be
      stated; identifiers and codes that the backend stores as integers are
      ints. */
  datatype SkillDetail = SkillDetail(
    parameterId: Option<string>,
    skillVersionId: Option<int>,
    name: string,
    description: string,
    valueType: TypeValue,
    itemType: TypeValue,
    valueEnum: Option<string>,
    isRequired: real,
    status: Option<real>,
    createBy: Option<string>)

  /** The name the table gives a code, or None where the host yields undefined. */
  function CodeToName(code: int): (r: Option<string>)
    ensures r.Some? <==> 1 <= code <= 7
    ensures r.Some? ==> r.value in ItemTypeMapping.Values
  {
    if code in ItemTypeMapping then Some(ItemTypeMapping[code]) else None
  }

  /** The table lookup of a numeric type field: the code's name, or
      undefined for a code outside the table. */
  function CodeToNameValue(code: int): (r: TypeValue)
    ensures r.Str? <==> CodeToName(code).Some?
    ensures r.Str? ==> CodeToName(code) == Some(r.text)
    ensures !r.Str? ==> r == Undefined
  {
    match CodeToName(code)
    case Some(name) => Str(name)
    case None => Undefined
  }

  lemma ItemTypeKeysAreTheTable()
    ensures forall k :: k in ItemTypeMapping <==> 1 <= k <= 7
    ensures forall i :: 0 <= i < |ItemTypeKeys| ==> ItemTypeKeys[i] in ItemTypeMapping
    ensures forall k :: k in ItemTypeMapping <==> k in ItemTypeKeys
    ensures forall i, j :: 0 <= i < j < |ItemTypeKeys| ==> ItemTypeKeys[i] < ItemTypeKeys[j]
  {
  }

  /** Two codes with the same name are the same code. */
  lemma ItemTypeMappingInjective(a: int, b: int)
    requires a in ItemTypeMapping && b in ItemTypeMapping
    requires ItemTypeMapping[a] == ItemTypeMapping[b]
    ensures a == b
  {
  }

  /** Code 5 is the one code whose name is "array". */
  lemma OnlyFiveIsArray(k: int)
    ensures CodeToName(k) == Some("array") <==> k == 5
  {
  }

  /** The length of a string as the host counts it: in UTF-16 code units, so
      a character outside the Basic Multilingual Plane counts twice. */
  function Utf16Length(s: string): (n: nat)
    ensures |s| <= n <= 2 * |s|
  {
    if s == [] then 0
    else (if s[0] as int > 0xFFFF then 2 else 1) + Utf16Length(s[1..])
  }

  predicate InBasicPlane(s: string) {
    forall i :: 0 <= i < |s| ==> s[i] as int <= 0xFFFF
  }

  lemma {:induction false} Utf16LengthOfBasicPlane(s: string)
    requires InBasicPlane(s)
    ensures Utf16Length(s) == |s|
  {
    if s != [] {
      assert InBasicPlane(s[1..]) by {
        forall i | 0 <= i < |s[1..]| ensures s[1..][i] as int <= 0xFFFF {
          assert s[1..][i] == s[i + 1];
        }
      }
      Utf16LengthOfBasicPlane(s[1..]);
    }
  }

  /** The fields of a new parameter record that carry a check. */
  datatype Field =
    | SkillVersionId | Name | Description | ValueType | ItemType
    | IsRequired | Status | CreateBy

  /** The custom message the schema attaches to a field's check, where it
      gives one. */
  function Message(f: Field): (m: Option<string>)
    ensures m.None? <==> f == SkillVersionId
  {
    match f
    case SkillVersionId => None
    case Name => Some("Name is required")
    case Description => Some("Description is required")
    case ValueType => Some("Value type is required")
    case ItemType => Some("Item type is required")
    case IsRequired => Some("is_required must be selected")
    case Status => Some("Status is required")
    case CreateBy => Some("Please write a valid email")
  }

  predicate IsInteger(x: real) {
    x.Floor as real == x
  }

  /** A type field passes when it holds a number or a string; null and a
      missing value both fail the union of number and string. */
  predicate TypePresent(t: TypeValue) {
    t.Code? || t.Str?
  }

  /** Whether field f of p passes its check; isEmail is the host library's
      email syntax check, left abstract. */
  predicate FieldValid(p: SkillDetail, f: Field, isEmail: string -> bool): (b: bool)
    ensures f == Name ==> (b <==> p.name != [])
    ensures f == Description && |p.description| >= 4 ==> b
    ensures f == Description && |p.description| < 2 ==> !b
  {
    match f
    case SkillVersionId => p.skillVersionId.Some?
    case Name => Utf16Length(p.name) >= 1
    case Description => Utf16Length(p.description) >= 4
    case ValueType => TypePresent(p.valueType)
    case ItemType => TypePresent(p.itemType)
    case IsRequired => IsInteger(p.isRequired) && p.isRequired >= 0.0
    case Status => p.status.Some? && p.status.value >= 0.0
    case CreateBy => p.createBy.Some? && isEmail(p.createBy.value)
  }

  const AllFields: set<Field> :=
    {SkillVersionId, Name, Description, ValueType, ItemType, IsRequired, Status, CreateBy}

  /** The fields of p that fail their check. */
  function FailingFields(p: SkillDetail, isEmail: string -> bool): (fs: set<Field>)
    ensures forall f :: f in fs <==> !FieldValid(p, f, isEmail)
  {
    set f | f in AllFields && !FieldValid(p, f, isEmail)
  }

  /** Validates a new parameter record: the record itself when every field
      passes, otherwise the set of fields that fail (no partial success). */
  function ValidateSkillDetail(p: SkillDetail, isEmail: string -> bool): (r: Result<SkillDetail, set<Field>>)
    ensures r.Ok? <==> forall f :: FieldValid(p, f, isEmail)
    ensures r.Ok? ==> r.value == p
    ensures r.Err? ==> r.error != {} && forall f :: f in r.error <==> !FieldValid(p, f, isEmail)
  {
    var fs := FailingFields(p, isEmail);
    if fs == {} then Ok(p) else Err(fs)
  }

  /** A description of three characters is rejected, one of four accepted
      (for text in the Basic Multilingual Plane, where each character is one
      code unit). */
  lemma DescriptionOfThreeRejected(p: SkillDetail, isEmail: string -> bool)
    requires |p.description| == 3 && InBasicPlane(p.description)
    ensures ValidateSkillDetail(p, isEmail).Err?
    ensures Description in ValidateSkillDetail(p, isEmail).error
  {
    Utf16LengthOfBasicPlane(p.description);
    assert !FieldValid(p, Description, isEmail);
  }

  lemma DescriptionOfFourAccepted(p: SkillDetail, isEmail: string -> bool)
    requires |p.description| == 4 && InBasicPlane(p.description)
    ensures FieldValid(p, Description, isEmail)
  {
    Utf16LengthOfBasicPlane(p.description);
  }

  /** Two characters outside the Basic Multilingual Plane already make four
      code units, so such a description passes. */
  lemma DescriptionCountsCodeUnits(p: SkillDetail, isEmail: string -> bool)
    requires p.description == ['\U{1F600}', '\U{1F600}']
    ensures FieldValid(p, Description, isEmail)
  {
    assert p.description[1..] == ['\U{1F600}'];
    assert p.description[1..][1..] == [];
  }

  /** is_required must be a non-negative integer; status only non-negative. */
  lemma NumericFieldRules(p: SkillDetail, isEmail: string -> bool)
    ensures FieldValid(p, IsRequired, isEmail) <==> p.isRequired.Floor as real == p.isRequired && p.isRequired >= 0.0
    ensures FieldValid(p, Status, isEmail) <==> p.status.Some? && p.status.value >= 0.0
  {
  }

  /** A fractional is_required fails even when it is positive, while a
      fractional status passes. */
  lemma FractionalNumbers(p: SkillDetail, isEmail: string -> bool)
    requires p.isRequired == 0.5 && p.status == Some(0.5)
    ensures !FieldValid(p, IsRequired, isEmail)
    ensures FieldValid(p, Status, isEmail)
  {
    assert p.isRequired.Floor == 0;
  }

  /** Either kind of value satisfies a type field; null or a missing value fails. */
  lemma TypeFieldsPresent(p: SkillDetail, isEmail: string -> bool)
    ensures FieldValid(p, ValueType, isEmail) <==> p.valueType != Undefined && p.valueType != Null
    ensures FieldValid(p, ItemType, isEmail) <==> p.itemType != Undefined && p.itemType != Null
  {
  }

  /** A record validates exactly when all eight checks pass together. */
  lemma ValidateIffAllChecks(p: SkillDetail, isEmail: string -> bool)
    ensures ValidateSkillDetail(p, isEmail).Ok? <==>
      && p.skillVersionId.Some?
      && p.name != []
      && Utf16Length(p.description) >= 4
      && p.valueType != Undefined && p.valueType != Null
      && p.itemType != Undefined && p.itemType != Null
      && IsInteger(p.isRequired) && p.isRequired >= 0.0
      && p.status.Some? && p.status.value >= 0.0
      && p.createBy.Some? && isEmail(p.createBy.value)
  {
    if ValidateSkillDetail(p, isEmail).Ok? {
      assert FieldValid(p, SkillVersionId, isEmail) && FieldValid(p, Name, isEmail);
      assert FieldValid(p, Description, isEmail) && FieldValid(p, ValueType, isEmail);
      assert FieldValid(p, ItemType, isEmail) && FieldValid(p, IsRequired, isEmail);
      assert FieldValid(p, Status, isEmail) && FieldValid(p, CreateBy, isEmail);
    }
  }
}
