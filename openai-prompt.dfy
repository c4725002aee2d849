/** The OpenAI function-calling preview of a skill: its parameters become a
    tool schema whose properties are keyed by parameter name, whose required
    list names the required parameters in order, and whose name is the
    skill's name with whitespace runs replaced by underscores. */
module OpenAIPrompt {
  import opened Types

  // ---------------------------------------------------------------------
  // Code resolution

  /** A numeric type field becomes its table name (undefined for a code
      outside the table); a string, null or a missing value is left as it
      is, since only a number passes the host's typeof test. */
  function Resolve(t: TypeValue): (r: TypeValue)
    ensures !r.Code?
    ensures t.Code? ==> (r.Str? <==> 1 <= t.code <= 7)
    ensures t.Code? && r.Str? ==> CodeToName(t.code) == Some(r.text)
    ensures !t.Code? ==> r == t
  {
    match t
    case Code(c) => CodeToNameValue(c)
    case _ => t
  }

  function ResolveTypes(p: SkillDetail): (q: SkillDetail)
    ensures q.valueType == Resolve(p.valueType) && q.itemType == Resolve(p.itemType)
    ensures q.(valueType := p.valueType, itemType := p.itemType) == p
  {
    p.(valueType := Resolve(p.valueType), itemType := Resolve(p.itemType))
  }

  function ResolveAll(ps: seq<SkillDetail>): (rs: seq<SkillDetail>)
    ensures |rs| == |ps|
    ensures forall i :: 0 <= i < |ps| ==> rs[i] == ResolveTypes(ps[i])
  {
    seq(|ps|, i requires 0 <= i < |ps| => ResolveTypes(ps[i]))
  }

  /** No numeric type field survives resolution. */
  predicate Resolved(ps: seq<SkillDetail>) {
    forall i :: 0 <= i < |ps| ==> !ps[i].valueType.Code? && !ps[i].itemType.Code?
  }

  /** Resolution leaves no code behind and is idempotent. */
  lemma ResolveAllIdempotent(ps: seq<SkillDetail>)
    ensures Resolved(ResolveAll(ps))
    ensures ResolveAll(ResolveAll(ps)) == ResolveAll(ps)
  {
  }

  /** A list with no numeric type field is its own resolution. */
  lemma ResolvedIsFixedPoint(ps: seq<SkillDetail>)
    requires Resolved(ps)
    ensures ResolveAll(ps) == ps
  {
  }

  // ---------------------------------------------------------------------
  // The output document

  /** One entry of properties; items is present only for an array. */
  datatype Property = Property(typ: TypeValue, description: string, items: Option<TypeValue>)

  datatype ParametersSchema = ParametersSchema(
    typ: string,
    properties: map<string, Property>,
    required: seq<string>)

  datatype FunctionSchema = FunctionSchema(
    name: string,
    description: string,
    parameters: ParametersSchema)

  datatype Tool = Tool(typ: string, fn: FunctionSchema)

  /** The entry a resolved parameter contributes to properties. */
  function PropertyOf(p: SkillDetail): (e: Property)
    ensures e.items.Some? <==> p.valueType == Str("array")
    ensures e.items.Some? ==> e.items.value == p.itemType
    ensures e.typ == p.valueType && e.description == p.description
  {
    Property(p.valueType, p.description, if p.valueType == Str("array") then Some(p.itemType) else None)
  }

  /** properties after inserting the entries of ps in order, each insertion
      overwriting an earlier entry of the same name. */
  function Properties(ps: seq<SkillDetail>): (m: map<string, Property>)
    ensures forall k :: k in m <==> exists i :: 0 <= i < |ps| && ps[i].name == k
  {
    if ps == [] then map[]
    else
      var init := ps[..|ps| - 1];
      assert forall i :: 0 <= i < |init| ==> init[i] == ps[i];
      Properties(init)[ps[|ps| - 1].name := PropertyOf(ps[|ps| - 1])]
  }

  /** The names of the parameters whose is_required is 1, in list order. */
  function RequiredNames(ps: seq<SkillDetail>): (r: seq<string>)
    ensures |r| <= |ps|
    ensures forall n :: n in r <==> exists i :: 0 <= i < |ps| && ps[i].isRequired == 1.0 && ps[i].name == n
  {
    if ps == [] then []
    else
      var init := ps[..|ps| - 1];
      assert forall i :: 0 <= i < |init| ==> init[i] == ps[i];
      RequiredNames(init) + (if ps[|ps| - 1].isRequired == 1.0 then [ps[|ps| - 1].name] else [])
  }

  // ---------------------------------------------------------------------
  // The tool name

  /** The host's whitespace class: the ECMAScript WhiteSpace and
      LineTerminator characters. */
  predicate IsWhitespace(c: char): (b: bool)
    ensures c as int < 128 ==> (b <==> c in {'\t', '\n', '\U{000B}', '\U{000C}', '\r', ' '})
  {
    || c == '\t' || c == '\n' || c == '\U{000B}' || c == '\U{000C}' || c == '\r'
    || c == ' ' || c == '\U{00A0}' || c == '\U{1680}'
    || ('\U{2000}' <= c <= '\U{200A}')
    || c == '\U{2028}' || c == '\U{2029}' || c == '\U{202F}' || c == '\U{205F}'
    || c == '\U{3000}' || c == '\U{FEFF}'
  }

  predicate NoWhitespace(s: string) {
    forall i :: 0 <= i < |s| ==> !IsWhitespace(s[i])
  }

  predicate AllWhitespace(s: string) {
    forall i :: 0 <= i < |s| ==> IsWhitespace(s[i])
  }

  /** s with every maximal run of whitespace replaced by one underscore:
      a whitespace character followed by another one is dropped, the last
      one of a run becomes the underscore. */
  function ReplaceWhitespaceRuns(s: string): (r: string)
    ensures NoWhitespace(r)
    ensures |r| <= |s|
  {
    if s == [] then []
    else if !IsWhitespace(s[0]) then [s[0]] + ReplaceWhitespaceRuns(s[1..])
    else if |s| > 1 && IsWhitespace(s[1]) then ReplaceWhitespaceRuns(s[1..])
    else "_" + ReplaceWhitespaceRuns(s[1..])
  }

  /** A name without whitespace is kept as it is. */
  lemma {:induction false} ReplaceKeepsPlainText(s: string)
    requires NoWhitespace(s)
    ensures ReplaceWhitespaceRuns(s) == s
  {
    if s != [] {
      assert NoWhitespace(s[1..]) by {
        forall i | 0 <= i < |s[1..]| ensures !IsWhitespace(s[1..][i]) {
          assert s[1..][i] == s[i + 1];
        }
      }
      ReplaceKeepsPlainText(s[1..]);
    }
  }

  /** Replacing twice is replacing once. */
  lemma ReplaceIdempotent(s: string)
    ensures ReplaceWhitespaceRuns(ReplaceWhitespaceRuns(s)) == ReplaceWhitespaceRuns(s)
  {
    ReplaceKeepsPlainText(ReplaceWhitespaceRuns(s));
  }

  /** A whole run, however long, becomes a single underscore. */
  lemma {:induction false} RunBecomesOneUnderscore(w: string, t: string)
    requires w != [] && AllWhitespace(w)
    requires t == [] || !IsWhitespace(t[0])
    ensures ReplaceWhitespaceRuns(w + t) == "_" + ReplaceWhitespaceRuns(t)
  {
    assert (w + t)[0] == w[0] && (w + t)[1..] == w[1..] + t;
    if |w| == 1 {
      assert w[1..] + t == t;
    } else {
      assert (w + t)[1] == w[1];
      RunBecomesOneUnderscore(w[1..], t);
    }
  }

  /** Text split anywhere but inside a run of whitespace is replaced part by
      part: runs never merge across such a split. */
  lemma {:induction false} ReplaceSplits(a: string, b: string)
    requires a == [] || b == [] || !IsWhitespace(a[|a| - 1]) || !IsWhitespace(b[0])
    ensures ReplaceWhitespaceRuns(a + b) == ReplaceWhitespaceRuns(a) + ReplaceWhitespaceRuns(b)
    decreases |a|
  {
    if a == [] {
      assert a + b == b;
    } else {
      assert (a + b)[0] == a[0] && (a + b)[1..] == a[1..] + b;
      if |a| == 1 {
        assert a[1..] + b == b;
        assert ReplaceWhitespaceRuns(a) == (if IsWhitespace(a[0]) then "_" else [a[0]]) + ReplaceWhitespaceRuns(a[1..]);
      } else {
        assert (a + b)[1] == a[1];
        assert a[1..][|a| - 2] == a[|a| - 1];
        ReplaceSplits(a[1..], b);
      }
    }
  }

  /** A plain word followed by one run and another plain word. */
  lemma TwoWords(u: string, w: string, v: string)
    requires NoWhitespace(u) && NoWhitespace(v)
    requires w != [] && AllWhitespace(w)
    ensures ReplaceWhitespaceRuns(u + w + v) == u + "_" + v
  {
    assert u + w + v == u + (w + v);
    ReplaceSplits(u, w + v);
    ReplaceKeepsPlainText(u);
    RunBecomesOneUnderscore(w, v);
    ReplaceKeepsPlainText(v);
  }

  /** The facts about the string literals of the two name examples below:
      which words hold no whitespace and how the literals split. */
  lemma ExampleWords()
    ensures NoWhitespace("Search") && NoWhitespace("Videos")
    ensures NoWhitespace("My") && NoWhitespace("Tool")
    ensures AllWhitespace(" ") && AllWhitespace("   ")
    ensures "Search Videos" == "Search" + " " + "Videos" && "Search_Videos" == "Search" + "_" + "Videos"
    ensures "My   Tool" == "My" + "   " + "Tool" && "My_Tool" == "My" + "_" + "Tool"
  {
  }

  lemma ExampleSearchVideos()
    ensures ReplaceWhitespaceRuns("Search Videos") == "Search_Videos"
  {
    ExampleWords();
    TwoWords("Search", " ", "Videos");
  }

  lemma ExampleMyTool()
    ensures ReplaceWhitespaceRuns("My   Tool") == "My_Tool"
  {
    ExampleWords();
    TwoWords("My", "   ", "Tool");
  }

  // ---------------------------------------------------------------------
  // The transformation

  /** The document the preview shows for skill and parameters. */
  function OpenAIFormat(skill: Skill, parameters: seq<SkillDetail>): (t: Tool)
    ensures t.typ == "function" && t.fn.parameters.typ == "object"
    ensures t.fn.description == skill.prompt
    ensures NoWhitespace(t.fn.name)
  {
    var rs := ResolveAll(parameters);
    Tool("function",
      FunctionSchema(ReplaceWhitespaceRuns(skill.name), skill.prompt,
        ParametersSchema("object", Properties(rs), RequiredNames(rs))))
  }

  lemma PropertiesSnoc(ps: seq<SkillDetail>, p: SkillDetail)
    ensures Properties(ps + [p]) == Properties(ps)[p.name := PropertyOf(p)]
  {
    assert (ps + [p])[..|ps|] == ps;
  }

  lemma RequiredNamesSnoc(ps: seq<SkillDetail>, p: SkillDetail)
    ensures RequiredNames(ps + [p]) == RequiredNames(ps) + (if p.isRequired == 1.0 then [p.name] else [])
  {
    assert (ps + [p])[..|ps|] == ps;
  }

  /** The first pass over the list: resolves each record's type fields in
      place and inserts its entry into properties. */
  method ResolveAndCollectProperties(parameters: array<SkillDetail>) returns (properties: map<string, Property>)
    modifies parameters
    ensures parameters[..] == ResolveAll(old(parameters[..]))
    ensures properties == Properties(parameters[..])
  {
    ghost var input := parameters[..];
    ghost var done: seq<SkillDetail> := [];
    properties := map[];
    var i := 0;
    while i < parameters.Length
      invariant 0 <= i <= parameters.Length && |done| == i
      invariant forall j :: 0 <= j < i ==> done[j] == ResolveTypes(input[j]) && parameters[j] == done[j]
      invariant forall j :: i <= j < parameters.Length ==> parameters[j] == input[j]
      invariant properties == Properties(done)
    {
      var parameter := parameters[i];
      if parameter.valueType.Code? {
        parameter := parameter.(valueType := CodeToNameValue(parameter.valueType.code));
      }
      if parameter.itemType.Code? {
        parameter := parameter.(itemType := CodeToNameValue(parameter.itemType.code));
      }
      parameters[i] := parameter;
      properties := properties[parameter.name :=
        Property(parameter.valueType, parameter.description,
          if parameter.valueType == Str("array") then Some(parameter.itemType) else None)];
      PropertiesSnoc(done, parameter);
      done := done + [parameter];
      i := i + 1;
    }
    assert parameters[..] == done;
  }

  /** The second pass: the names of the required parameters, in order. */
  method CollectRequired(parameters: array<SkillDetail>) returns (required: seq<string>)
    ensures required == RequiredNames(parameters[..])
  {
    required := [];
    var i := 0;
    while i < parameters.Length
      invariant 0 <= i <= parameters.Length
      invariant required == RequiredNames(parameters[..i])
    {
      RequiredNamesSnoc(parameters[..i], parameters[i]);
      assert parameters[..i + 1] == parameters[..i] + [parameters[i]];
      if parameters[i].isRequired == 1.0 {
        required := required + [parameters[i].name];
      }
      i := i + 1;
    }
    assert parameters[..] == parameters[..i];
  }

  /** Builds the preview. As in the host, the type fields of the given
      records are resolved in place, which the caller sees afterwards. */
  method TransformToOpenAIFormat(skill: Skill, parameters: array<SkillDetail>) returns (tool: Tool)
    modifies parameters
    ensures parameters[..] == ResolveAll(old(parameters[..]))
    ensures tool == OpenAIFormat(skill, old(parameters[..]))
  {
    var properties := ResolveAndCollectProperties(parameters);
    var required := CollectRequired(parameters);
    tool := Tool("function",
      FunctionSchema(ReplaceWhitespaceRuns(skill.name), skill.prompt,
        ParametersSchema("object", properties, required)));
  }

  // ---------------------------------------------------------------------
  // What the document says about the parameters

  /** The entry under a name is the one of the last parameter with that name. */
  lemma {:induction false} PropertiesLastWins(ps: seq<SkillDetail>, i: int)
    requires 0 <= i < |ps|
    requires forall j :: i < j < |ps| ==> ps[j].name != ps[i].name
    ensures ps[i].name in Properties(ps)
    ensures Properties(ps)[ps[i].name] == PropertyOf(ps[i])
    decreases |ps|
  {
    if i < |ps| - 1 {
      var init := ps[..|ps| - 1];
      assert init[i] == ps[i];
      PropertiesLastWins(init, i);
    }
  }

  /** Every entry comes from some parameter of that name. */
  lemma {:induction false} PropertiesFrom(ps: seq<SkillDetail>, k: string)
    requires k in Properties(ps)
    ensures exists i :: 0 <= i < |ps| && ps[i].name == k && Properties(ps)[k] == PropertyOf(ps[i])
    decreases |ps|
  {
    var last := |ps| - 1;
    if ps[last].name != k {
      var init := ps[..last];
      PropertiesFrom(init, k);
      var i :| 0 <= i < |init| && init[i].name == k && Properties(init)[k] == PropertyOf(init[i]);
      assert ps[i] == init[i];
    }
  }

  /** In the document, each property carries the resolved value type and
      the description of its parameter, and has items exactly when that
      type is "array", holding the resolved item type. */
  lemma OpenAIProperties(skill: Skill, ps: seq<SkillDetail>, k: string)
    requires k in OpenAIFormat(skill, ps).fn.parameters.properties
    ensures var e := OpenAIFormat(skill, ps).fn.parameters.properties[k];
      exists i :: 0 <= i < |ps| && ps[i].name == k
        && e.typ == Resolve(ps[i].valueType)
        && e.description == ps[i].description
        && (e.items.Some? <==> e.typ == Str("array"))
        && (e.items.Some? ==> e.items.value == Resolve(ps[i].itemType))
  {
    var rs := ResolveAll(ps);
    PropertiesFrom(rs, k);
    var i :| 0 <= i < |rs| && rs[i].name == k && Properties(rs)[k] == PropertyOf(rs[i]);
    assert rs[i] == ResolveTypes(ps[i]);
  }

  /** Property keys of the document are exactly the parameter names, and a
      repeated name takes the entry of its last parameter. */
  lemma OpenAIPropertyKeys(skill: Skill, ps: seq<SkillDetail>)
    ensures forall k :: k in OpenAIFormat(skill, ps).fn.parameters.properties <==>
      exists i :: 0 <= i < |ps| && ps[i].name == k
    ensures forall i :: 0 <= i < |ps| && (forall j :: i < j < |ps| ==> ps[j].name != ps[i].name) ==>
      OpenAIFormat(skill, ps).fn.parameters.properties[ps[i].name] == PropertyOf(ResolveTypes(ps[i]))
  {
    var rs := ResolveAll(ps);
    forall i | 0 <= i < |ps| && (forall j :: i < j < |ps| ==> ps[j].name != ps[i].name)
      ensures Properties(rs)[ps[i].name] == PropertyOf(ResolveTypes(ps[i]))
    {
      PropertiesLastWins(rs, i);
    }
  }

  /** required keeps input order: the names of a concatenation are the names
      of each part, one after the other. */
  lemma {:induction false} RequiredNamesAppend(a: seq<SkillDetail>, b: seq<SkillDetail>)
    ensures RequiredNames(a + b) == RequiredNames(a) + RequiredNames(b)
    decreases |b|
  {
    if b == [] {
      assert a + b == a;
    } else {
      var b' := b[..|b| - 1];
      assert (a + b)[..|a + b| - 1] == a + b';
      assert (a + b)[|a + b| - 1] == b[|b| - 1];
      RequiredNamesAppend(a, b');
    }
  }

  /** Resolution does not touch names or is_required, so required is the
      same whichever form the type fields are in. */
  lemma {:induction false} RequiredNamesIgnoreTypes(ps: seq<SkillDetail>)
    ensures RequiredNames(ResolveAll(ps)) == RequiredNames(ps)
    decreases |ps|
  {
    if ps != [] {
      var init := ps[..|ps| - 1];
      assert ResolveAll(ps)[..|ps| - 1] == ResolveAll(init);
      RequiredNamesIgnoreTypes(init);
    }
  }

  /** The document's required list is the required-parameter names in input
      order. */
  lemma OpenAIRequired(skill: Skill, ps: seq<SkillDetail>)
    ensures OpenAIFormat(skill, ps).fn.parameters.required == RequiredNames(ps)
  {
    RequiredNamesIgnoreTypes(ps);
  }

  /** A second run over records the first run resolved gives the same
      document, so rendering twice shows the same preview. */
  lemma TransformIdempotent(skill: Skill, ps: seq<SkillDetail>)
    ensures OpenAIFormat(skill, ResolveAll(ps)) == OpenAIFormat(skill, ps)
  {
    ResolveAllIdempotent(ps);
  }

  /** The worked example: one required string parameter "sort". */
  lemma ExampleSearchVideosTool(skill: Skill, p: SkillDetail)
    requires skill.name == "Search Videos" && skill.prompt == "Searches videos"
    requires p.name == "sort" && p.description == "sort order" && p.valueType == Code(1) && p.isRequired == 1.0
    ensures OpenAIFormat(skill, [p]) ==
      Tool("function", FunctionSchema("Search_Videos", "Searches videos",
        ParametersSchema("object", map["sort" := Property(Str("string"), "sort order", None)], ["sort"])))
  {
    ExampleSearchVideos();
    var r := ResolveTypes(p);
    assert ResolveAll([p]) == [] + [r];
    PropertiesSnoc([], r);
    RequiredNamesSnoc([], r);
    assert r.valueType == Str("string");
    assert PropertyOf(r) == Property(Str("string"), "sort order", None);
  }
}
