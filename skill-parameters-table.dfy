/** The parameter table of one skill: the list decoding applied to every
    fetched parameter list, the reverse lookup from a type name to its code,
    and the local update after an item type was changed on the server. */
module SkillParametersTable {
  import opened Types
  import OpenAIPrompt

  /** Looking a value up in the type table the way the host does: the value
      is turned into a property key, and of the table's own keys only "1" to
      "7" exist. A number keys by its decimal text, a string by itself, null
      by the text "null" and a missing value by the text "undefined"; the
      last two are not keys. */
  function LookupByKey(t: TypeValue): (r: TypeValue)
    ensures r.Str? || r.Undefined?
    ensures r.Str? ==> r.text in ItemTypeMapping.Values
    ensures t.Null? || t.Undefined? ==> r == Undefined
  {
    match t
    case Code(c) => CodeToNameValue(c)
    case Str(s) =>
      if |s| == 1 && '1' <= s[0] <= '7' then CodeToNameValue(s[0] as int - '0' as int)
      else Undefined
    case Null => Undefined
    case Undefined => Undefined
  }

  /** Decodes one fetched parameter: both type fields are replaced by their
      table names. */
  function DecodeParameter(p: SkillDetail): (d: SkillDetail)
    ensures d.itemType == LookupByKey(p.itemType) && d.valueType == LookupByKey(p.valueType)
    ensures d.(itemType := p.itemType, valueType := p.valueType) == p
  {
    p.(itemType := LookupByKey(p.itemType), valueType := LookupByKey(p.valueType))
  }

  /** Decodes a fetched parameter list, element by element. */
  function DecodeFetched(ps: seq<SkillDetail>): (ds: seq<SkillDetail>)
    ensures |ds| == |ps|
    ensures forall i :: 0 <= i < |ps| ==> ds[i] == DecodeParameter(ps[i])
  {
    seq(|ps|, i requires 0 <= i < |ps| => DecodeParameter(ps[i]))
  }

  /** A stored code in 1..7 decodes to its table name, any other code to
      undefined; besides the two type fields nothing changes. */
  lemma DecodeFetchedCodes(ps: seq<SkillDetail>, i: int)
    requires 0 <= i < |ps|
    requires ps[i].valueType.Code? && ps[i].itemType.Code?
    ensures var d := DecodeFetched(ps)[i];
      && (d.valueType == if 1 <= ps[i].valueType.code <= 7 then Str(ItemTypeMapping[ps[i].valueType.code]) else Undefined)
      && (d.itemType == if 1 <= ps[i].itemType.code <= 7 then Str(ItemTypeMapping[ps[i].itemType.code]) else Undefined)
      && d.parameterId == ps[i].parameterId && d.skillVersionId == ps[i].skillVersionId
      && d.name == ps[i].name && d.description == ps[i].description
      && d.valueEnum == ps[i].valueEnum && d.isRequired == ps[i].isRequired
      && d.status == ps[i].status && d.createBy == ps[i].createBy
  {
  }

  /** Decoding is not idempotent: a name already in the list is not a key of
      the table, so decoding it again loses it. */
  lemma DecodeTwiceLosesNames(p: SkillDetail)
    requires p.valueType == Code(5)
    ensures DecodeParameter(p).valueType == Str("array")
    ensures DecodeParameter(DecodeParameter(p)).valueType == Undefined
  {
  }

  /** The first key of keys, in order, whose table name is name. */
  function FindKey(keys: seq<int>, name: string): (r: Option<int>)
    requires forall i :: 0 <= i < |keys| ==> keys[i] in ItemTypeMapping
    ensures r.Some? ==> exists i :: 0 <= i < |keys| && keys[i] == r.value &&
                                  (forall j :: 0 <= j < i ==> ItemTypeMapping[keys[j]] != name)
    ensures r.Some? ==> ItemTypeMapping[r.value] == name
    ensures r.None? <==> forall i :: 0 <= i < |keys| ==> ItemTypeMapping[keys[i]] != name
  {
    if keys == [] then None
    else if ItemTypeMapping[keys[0]] == name then Some(keys[0])
    else
      var r := FindKey(keys[1..], name);
      assert forall i :: 1 <= i < |keys| ==> keys[i] == keys[1..][i - 1];
      r
  }

  /** The code sent to the server for a type name chosen in the table: the
      first key whose name matches, or 0 when none does. */
  function ItemTypeKey(name: string): (k: int)
    ensures k != 0 ==> k in ItemTypeMapping && ItemTypeMapping[k] == name
    ensures k == 0 <==> forall j :: j in ItemTypeMapping ==> ItemTypeMapping[j] != name
  {
    ItemTypeKeysAreTheTable();
    match FindKey(ItemTypeKeys, name)
    case Some(key) => key
    case None => 0
  }

  /** A name in the table gets back the one code that has that name. */
  lemma ItemTypeKeyOfKnownName(name: string)
    requires name in ItemTypeMapping.Values
    ensures 1 <= ItemTypeKey(name) <= 7
    ensures ItemTypeMapping[ItemTypeKey(name)] == name
    ensures forall j :: j in ItemTypeMapping && ItemTypeMapping[j] == name ==> j == ItemTypeKey(name)
  {
    var j :| j in ItemTypeMapping && ItemTypeMapping[j] == name;
    var k := ItemTypeKey(name);
    ItemTypeKeysAreTheTable();
    forall j' | j' in ItemTypeMapping && ItemTypeMapping[j'] == name ensures j' == k {
      ItemTypeMappingInjective(j', k);
    }
  }

  /** Any other name falls back to 0, which is no code of the table. */
  lemma ItemTypeKeyOfUnknownName(name: string)
    requires name !in ItemTypeMapping.Values
    ensures ItemTypeKey(name) == 0 && ItemTypeKey(name) !in ItemTypeMapping
  {
    ItemTypeKeysAreTheTable();
  }

  /** Code to name and back, and name to code and back. */
  lemma ItemTypeKeyRoundTrips(k: int, name: string)
    ensures 1 <= k <= 7 ==> ItemTypeKey(ItemTypeMapping[k]) == k
    ensures name in ItemTypeMapping.Values ==> CodeToName(ItemTypeKey(name)) == Some(name)
  {
    if 1 <= k <= 7 {
      ItemTypeKeyOfKnownName(ItemTypeMapping[k]);
    }
    if name in ItemTypeMapping.Values {
      ItemTypeKeyOfKnownName(name);
    }
  }

  /** Sets the item type of every parameter whose id is parameterId. A
      parameter without an id never matches. */
  function UpdateItemType(ps: seq<SkillDetail>, parameterId: string, newItemType: string): (r: seq<SkillDetail>)
    ensures |r| == |ps|
    ensures forall i :: 0 <= i < |ps| && ps[i].parameterId == Some(parameterId) ==>
      r[i] == ps[i].(itemType := Str(newItemType))
    ensures forall i :: 0 <= i < |ps| && ps[i].parameterId != Some(parameterId) ==> r[i] == ps[i]
  {
    seq(|ps|, i requires 0 <= i < |ps| =>
      if ps[i].parameterId == Some(parameterId) then ps[i].(itemType := Str(newItemType)) else ps[i])
  }

  /** When no id matches, the list is unchanged. */
  lemma UpdateWithoutMatch(ps: seq<SkillDetail>, parameterId: string, newItemType: string)
    requires forall i :: 0 <= i < |ps| ==> ps[i].parameterId != Some(parameterId)
    ensures UpdateItemType(ps, parameterId, newItemType) == ps
  {
  }

  /** Applying the same update twice is applying it once. */
  lemma UpdateIdempotent(ps: seq<SkillDetail>, parameterId: string, newItemType: string)
    ensures var once := UpdateItemType(ps, parameterId, newItemType);
      UpdateItemType(once, parameterId, newItemType) == once
  {
  }

  /** A fetched list whose type fields all hold numbers (or are absent);
      on such a list decoding and the preview's own resolution agree, so the
      preview of the decoded list is the preview of the fetched one. */
  predicate AsStored(ps: seq<SkillDetail>) {
    forall i :: 0 <= i < |ps| ==>
      (ps[i].valueType.Code? || ps[i].valueType.Undefined?) &&
      (ps[i].itemType.Code? || ps[i].itemType.Undefined?)
  }

  lemma DecodeAgreesWithResolve(skill: Skill, ps: seq<SkillDetail>)
    requires AsStored(ps)
    ensures DecodeFetched(ps) == OpenAIPrompt.ResolveAll(ps)
    ensures OpenAIPrompt.OpenAIFormat(skill, DecodeFetched(ps)) == OpenAIPrompt.OpenAIFormat(skill, ps)
  {
    assert forall i :: 0 <= i < |ps| ==> DecodeParameter(ps[i]) == OpenAIPrompt.ResolveTypes(ps[i]);
    OpenAIPrompt.TransformIdempotent(skill, ps);
  }

  /** A stored null is where the two part: decoding turns it into
      undefined, while the preview's resolution keeps null, so an array
      parameter without an item type previews differently once decoded. */
  lemma DecodeNullDiffersFromResolve(skill: Skill, p: SkillDetail)
    requires p.valueType == Code(5) && p.itemType == Null
    ensures DecodeParameter(p).itemType == Undefined
    ensures OpenAIPrompt.ResolveTypes(p).itemType == Null
    ensures OpenAIPrompt.OpenAIFormat(skill, [p]).fn.parameters.properties[p.name].items == Some(Null)
    ensures OpenAIPrompt.OpenAIFormat(skill, DecodeFetched([p])).fn.parameters.properties[p.name].items == Some(Undefined)
  {
    var r := OpenAIPrompt.ResolveTypes(p);
    assert OpenAIPrompt.ResolveAll([p]) == [] + [r];
    OpenAIPrompt.PropertiesSnoc([], r);
    var d := DecodeParameter(p);
    assert DecodeFetched([p]) == [d];
    DecodedIsResolved([p]);
    assert OpenAIPrompt.ResolveAll([d]) == [] + [d];
    OpenAIPrompt.PropertiesSnoc([], d);
  }

  /** A decoded list has no numeric type field left, so the preview resolves
      nothing in it. */
  lemma DecodedIsResolved(ps: seq<SkillDetail>)
    ensures OpenAIPrompt.Resolved(DecodeFetched(ps))
    ensures OpenAIPrompt.ResolveAll(DecodeFetched(ps)) == DecodeFetched(ps)
  {
    OpenAIPrompt.ResolvedIsFixedPoint(DecodeFetched(ps));
  }

  /** Updating an item type keeps a resolved list resolved. */
  lemma UpdateKeepsResolved(ps: seq<SkillDetail>, parameterId: string, newItemType: string)
    requires OpenAIPrompt.Resolved(ps)
    ensures OpenAIPrompt.Resolved(UpdateItemType(ps, parameterId, newItemType))
  {
  }

  /** The table component: the skill it shows and the parameter list it holds. */
  class SkillDetailTable {
    const skill: Skill
    var parameters: seq<SkillDetail>

    /** The list holds no numeric type field: every record came from the
        decode or from an update that writes a string. */
    predicate Valid()
      reads this
    {
      OpenAIPrompt.Resolved(parameters)
    }

    constructor (skill: Skill)
      ensures Valid()
      ensures this.skill == skill && parameters == []
    {
      this.skill := skill;
      parameters := [];
    }

    /** The fetch of the skill's parameters succeeded with response. */
    method OnParametersFetched(response: seq<SkillDetail>)
      modifies this
      ensures Valid()
      ensures parameters == DecodeFetched(response)
    {
      parameters := DecodeFetched(response);
      DecodedIsResolved(response);
    }

    /** The user picked newItemType for a parameter. The code to send is
        returned; putSucceeded is the outcome of that request, and only on
        success does the list take the new item type. */
    method HandleItemTypeChange(parameterId: string, newItemType: string, putSucceeded: bool)
      returns (itemTypeKey: int)
      requires Valid()
      modifies this
      ensures Valid()
      ensures itemTypeKey == ItemTypeKey(newItemType)
      ensures parameters == if putSucceeded then UpdateItemType(old(parameters), parameterId, newItemType)
                            else old(parameters)
    {
      itemTypeKey := ItemTypeKey(newItemType);
      if putSucceeded {
        UpdateKeepsResolved(parameters, parameterId, newItemType);
        parameters := UpdateItemType(parameters, parameterId, newItemType);
      }
    }

    /** The OpenAI tab renders the preview from this table's own records.
        The transformation resolves them in place, but they are resolved
        already, so the table's list comes back unchanged. */
    method RenderOpenAIPreview() returns (tool: OpenAIPrompt.Tool)
      requires Valid()
      modifies this
      ensures Valid()
      ensures tool == OpenAIPrompt.OpenAIFormat(skill, parameters)
      ensures parameters == OpenAIPrompt.ResolveAll(old(parameters))
      ensures parameters == old(parameters)
    {
      var records := new SkillDetail[|parameters|](i requires 0 <= i < |parameters| reads this => parameters[i]);
      assert records[..] == parameters;
      tool := OpenAIPrompt.TransformToOpenAIFormat(skill, records);
      parameters := records[..];
      OpenAIPrompt.ResolvedIsFixedPoint(old(parameters));
    }
  }
}
