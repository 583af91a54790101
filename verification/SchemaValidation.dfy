/**
  The structured-output validator (internal/llm/validation.go) over decoded JSON values:
  a walk that appends to a shared list and stops at twenty issues. Object members keep
  one fixed order; Go's map iteration may choose any.
 */
module SchemaValidation {
  import opened Wrappers
  import Text

  datatype Json =
    | JNull
    | JBool(truth: bool)
    | JNumber(literal: string)
    | JString(text: string)
    | JArray(items: seq<Json>)
    | JObject(fields: seq<Field>)

  datatype Field = Field(name: string, value: Json)

  datatype Issue = Issue(path: string, code: string, message: string)

  const MAX_ISSUES := 20

  // ----- reading a schema -----

  function Lookup(fields: seq<Field>, name: string): Option<Json> {
    if fields == [] then None
    else if fields[0].name == name then Some(fields[0].value)
    else Lookup(fields[1..], name)
  }

  /** schema["type"].(string), or blank. */
  function TypeName(schema: seq<Field>): string {
    var t := Lookup(schema, "type");
    if t.Some? && t.value.JString? then t.value.text else ""
  }

  /** value.(map[string]any), or an empty map. */
  function AsObject(value: Option<Json>): seq<Field> {
    if value.Some? && value.value.JObject? then value.value.fields else []
  }

  function Digits(s: string): Option<nat> {
    if s == "" || !('0' <= s[|s| - 1] <= '9') then None
    else
      var digit := s[|s| - 1] as int - '0' as int;
      if |s| == 1 then Some(digit)
      else var before := Digits(s[..|s| - 1]); if before.None? then None else Some(10 * before.value + digit)
  }

  /** json.Number.Int64: an optional sign and decimal digits, within 64 bits. */
  function ParseInt64(s: string): Option<int> {
    var signed := s != "" && (s[0] == '-' || s[0] == '+');
    var magnitude := Digits(if signed then s[1..] else s);
    if magnitude.None? then None
    else
      var size: int := magnitude.value;
      var n := if signed && s[0] == '-' then -size else size;
      if -0x8000_0000_0000_0000 <= n < 0x8000_0000_0000_0000 then Some(n) else None
  }

  /** schemaInteger: a bound counts only when it is a nonnegative integer. */
  function Bound(schema: seq<Field>, keyword: string): Option<nat> {
    var raw := Lookup(schema, keyword);
    if raw.None? || !raw.value.JNumber? then None
    else
      var n := ParseInt64(raw.value.literal);
      if n.Some? && n.value >= 0 then Some(n.value) else None
  }

  predicate MatchesType(typeName: string, value: Json) {
    match typeName
    case "object" => value.JObject?
    case "array" => value.JArray?
    case "string" => value.JString?
    case "number" => value.JNumber?
    case "integer" => value.JNumber? && ParseInt64(value.literal).Some?
    case "boolean" => value.JBool?
    case "null" => value.JNull?
    case _ => true
  }

  function JoinPath(parent: string, name: string): string {
    parent + "." + name
  }

  function ItemPath(parent: string, index: nat): string {
    parent + "[" + Text.Decimal(index) + "]"
  }

  /** required: the names that are strings. */
  function RequiredNames(schema: seq<Field>): seq<Json> {
    var raw := Lookup(schema, "required");
    if raw.Some? && raw.value.JArray? then raw.value.items else []
  }

  predicate ForbidsAdditional(schema: seq<Field>) {
    Lookup(schema, "additionalProperties") == Some(JBool(false))
  }

  // ----- the uncapped validator -----

  function RequiredIssues(path: string, fields: seq<Field>, names: seq<Json>): seq<Issue> {
    if names == [] then []
    else
      RequiredIssues(path, fields, names[..|names| - 1]) + RequiredIssue(path, fields, names[|names| - 1])
  }

  function RequiredIssue(path: string, fields: seq<Field>, name: Json): seq<Issue> {
    if name.JString? && Lookup(fields, name.text).None?
    then [Issue(JoinPath(path, name.text), "required", "is required")] else []
  }

  function AdditionalIssues(path: string, fields: seq<Field>, properties: seq<Field>): seq<Issue> {
    if fields == [] then []
    else
      AdditionalIssues(path, fields[..|fields| - 1], properties) + AdditionalIssue(path, fields[|fields| - 1].name, properties)
  }

  function AdditionalIssue(path: string, name: string, properties: seq<Field>): seq<Issue> {
    if Lookup(properties, name).None? then [Issue(JoinPath(path, name), "additional_property", "is not allowed")] else []
  }

  function AtLeast(code: string, path: string, size: nat, minimum: Option<nat>, unit: string): seq<Issue> {
    if minimum.Some? && size < minimum.value
    then [Issue(path, code, "must contain at least " + Text.Decimal(minimum.value) + unit)] else []
  }

  function AtMost(code: string, path: string, size: nat, maximum: Option<nat>, unit: string): seq<Issue> {
    if maximum.Some? && size > maximum.value
    then [Issue(path, code, "must contain at most " + Text.Decimal(maximum.value) + unit)] else []
  }

  function StringIssues(path: string, text: string, schema: seq<Field>): seq<Issue> {
    AtLeast("min_length", path, |Text.TrimSpace(text)|, Bound(schema, "minLength"), " character(s)")
    + AtMost("max_length", path, |text|, Bound(schema, "maxLength"), " character(s)")
  }

  function SizeIssues(path: string, size: nat, schema: seq<Field>): seq<Issue> {
    AtLeast("min_items", path, size, Bound(schema, "minItems"), " item(s)")
    + AtMost("max_items", path, size, Bound(schema, "maxItems"), " item(s)")
  }

  function MembershipIssues(path: string, fields: seq<Field>, schema: seq<Field>): seq<Issue> {
    RequiredIssues(path, fields, RequiredNames(schema))
    + if ForbidsAdditional(schema) then AdditionalIssues(path, fields, AsObject(Lookup(schema, "properties"))) else []
  }

  predicate HasChildSchema(properties: seq<Field>, name: string) {
    Lookup(properties, name).Some? && Lookup(properties, name).value.JObject?
  }

  /** All issues of a value under a schema, in the order of the walk. */
  function NodeIssues(path: string, value: Json, schema: seq<Field>): seq<Issue>
    decreases value, 2, 0
  {
    var typeName := TypeName(schema);
    if typeName != "" && !MatchesType(typeName, value) then [Issue(path, "type", "must be " + typeName)]
    else if typeName == "object" && value.JObject? then
      MembershipIssues(path, value.fields, schema)
      + FieldIssues(path, value, |value.fields|, AsObject(Lookup(schema, "properties")))
    else if typeName == "array" && value.JArray? then
      SizeIssues(path, |value.items|, schema) + ItemIssues(path, value, |value.items|, AsObject(Lookup(schema, "items")))
    else if typeName == "string" && value.JString? then StringIssues(path, value.text, schema)
    else []
  }

  /** The issues of the first n members that have a schema. */
  function FieldIssues(path: string, value: Json, n: nat, properties: seq<Field>): seq<Issue>
    requires value.JObject? && n <= |value.fields|
    decreases value, 1, n
  {
    if n == 0 then []
    else
      var f := value.fields[n - 1];
      FieldIssues(path, value, n - 1, properties)
      + if HasChildSchema(properties, f.name)
        then NodeIssues(JoinPath(path, f.name), f.value, AsObject(Lookup(properties, f.name))) else []
  }

  /** The issues of the first n items. */
  function ItemIssues(path: string, value: Json, n: nat, schema: seq<Field>): seq<Issue>
    requires value.JArray? && n <= |value.items|
    decreases value, 1, n
  {
    if n == 0 then []
    else ItemIssues(path, value, n - 1, schema) + NodeIssues(ItemPath(path, n - 1), value.items[n - 1], schema)
  }

  // ----- conformance, declaratively -----

  predicate Fits(size: nat, minimum: Option<nat>, maximum: Option<nat>, trimmed: nat) {
    (minimum.Some? ==> trimmed >= minimum.value) && (maximum.Some? ==> size <= maximum.value)
  }

  /** The checked keywords hold at this value and, through properties and items, below it. */
  predicate Conforms(value: Json, schema: seq<Field>)
    decreases value
  {
    var typeName, properties := TypeName(schema), AsObject(Lookup(schema, "properties"));
    && MatchesType(typeName, value)
    && (typeName == "object" && value.JObject? ==>
          && (forall i :: 0 <= i < |RequiredNames(schema)| && RequiredNames(schema)[i].JString? ==>
                Lookup(value.fields, RequiredNames(schema)[i].text).Some?)
          && (ForbidsAdditional(schema) ==>
                forall i :: 0 <= i < |value.fields| ==> Lookup(properties, value.fields[i].name).Some?)
          && (forall i :: 0 <= i < |value.fields| && HasChildSchema(properties, value.fields[i].name) ==>
                Conforms(value.fields[i].value, AsObject(Lookup(properties, value.fields[i].name)))))
    && (typeName == "array" && value.JArray? ==>
          && Fits(|value.items|, Bound(schema, "minItems"), Bound(schema, "maxItems"), |value.items|)
          && (forall i :: 0 <= i < |value.items| ==> Conforms(value.items[i], AsObject(Lookup(schema, "items")))))
    && (typeName == "string" && value.JString? ==>
          Fits(|value.text|, Bound(schema, "minLength"), Bound(schema, "maxLength"), |Text.TrimSpace(value.text)|))
  }

  // ----- the keywords, read off the schema itself -----

  /** The first member of that name has that value. */
  ghost predicate Says(schema: seq<Field>, name: string, value: Json) {
    exists i :: 0 <= i < |schema| && IsFirstOf(schema, name, i) && schema[i].value == value
  }

  predicate IsFirstOf(schema: seq<Field>, name: string, i: nat)
    requires i < |schema|
  {
    schema[i].name == name && forall k :: 0 <= k < i ==> schema[k].name != name
  }

  lemma {:induction false} LookupSays(fields: seq<Field>, name: string, value: Json)
    ensures Lookup(fields, name) == Some(value) <==> Says(fields, name, value)
    ensures Lookup(fields, name).None? <==> forall i :: 0 <= i < |fields| ==> fields[i].name != name
  {
    if fields != [] {
      var rest := fields[1..];
      LookupSays(rest, name, value);
      if fields[0].name == name {
        assert IsFirstOf(fields, name, 0);
      } else {
        forall i | 0 <= i < |rest|
          ensures IsFirstOf(rest, name, i) <==> IsFirstOf(fields, name, i + 1)
        {
          assert forall k :: 0 < k < i + 1 ==> fields[k] == rest[k - 1];
          assert forall k :: 0 <= k < i ==> rest[k] == fields[k + 1];
        }
        assert forall i :: 0 <= i < |rest| ==> rest[i] == fields[i + 1];
      }
    }
  }

  /** The type names a value goes by. */
  function NamesOf(value: Json): set<string> {
    match value
    case JNull => {"null"}
    case JBool(_) => {"boolean"}
    case JNumber(literal) => if ParseInt64(literal).Some? then {"number", "integer"} else {"number"}
    case JString(_) => {"string"}
    case JArray(_) => {"array"}
    case JObject(_) => {"object"}
  }

  const TYPE_NAMES := {"null", "boolean", "number", "integer", "string", "array", "object"}

  /** A type name the validator knows admits exactly the values that go by it; any other admits everything. */
  lemma TypesAre(typeName: string, value: Json)
    ensures MatchesType(typeName, value) <==> typeName in NamesOf(value) || typeName !in TYPE_NAMES
  {
  }

  /** The digits of a literal, and nothing else, in base ten. */
  lemma {:induction false} DigitsAre(s: string)
    ensures Digits(s).Some? <==> s != "" && forall i :: 0 <= i < |s| ==> '0' <= s[i] <= '9'
    ensures Digits(s).Some? ==> Digits(s).value == Text.ValueOf(s)
  {
    if |s| > 1 {
      DigitsAre(s[..|s| - 1]);
    } else if |s| == 1 {
      assert s[..0] == "";
    }
  }

  /** A literal is an integer of 64 bits exactly if it is decimal digits, perhaps signed, within the range. */
  lemma IntegersAre(s: string, n: int)
    ensures ParseInt64(s) == Some(n) <==>
              && -0x8000_0000_0000_0000 <= n < 0x8000_0000_0000_0000
              && var digits := if s != "" && (s[0] == '-' || s[0] == '+') then s[1..] else s;
                 && digits != "" && (forall i :: 0 <= i < |digits| ==> '0' <= digits[i] <= '9')
                 && n == if s[0] == '-' then -Text.ValueOf(digits) else Text.ValueOf(digits)
  {
    DigitsAre(if s != "" && (s[0] == '-' || s[0] == '+') then s[1..] else s);
    hide Digits, Text.ValueOf;
  }

  /** Which keywords a schema is asked for, and what counts as their value. */
  lemma KeywordsAre(schema: seq<Field>)
    ensures forall t :: t != "" ==> (TypeName(schema) == t <==> Says(schema, "type", JString(t)))
    ensures forall items :: items != [] ==> (RequiredNames(schema) == items <==> Says(schema, "required", JArray(items)))
    ensures ForbidsAdditional(schema) <==> Says(schema, "additionalProperties", JBool(false))
    ensures forall keyword, fields :: fields != [] ==>
              (AsObject(Lookup(schema, keyword)) == fields <==> Says(schema, keyword, JObject(fields)))
  {
    hide Lookup, ParseInt64, Says;
    forall name, value
      ensures Lookup(schema, name) == Some(value) <==> Says(schema, name, value)
    {
      LookupSays(schema, name, value);
    }
  }

  /** A bound counts exactly if its keyword is a number that is an integer from zero up. */
  lemma BoundIs(schema: seq<Field>, keyword: string, n: nat)
    ensures Bound(schema, keyword) == Some(n) <==>
              exists literal :: Says(schema, keyword, JNumber(literal)) && ParseInt64(literal) == Some(n)
  {
    hide Lookup, ParseInt64, Says;
    forall literal
      ensures Lookup(schema, keyword) == Some(JNumber(literal)) <==> Says(schema, keyword, JNumber(literal))
    {
      LookupSays(schema, keyword, JNumber(literal));
    }
    if Bound(schema, keyword) == Some(n) {
      var raw := Lookup(schema, keyword).value;
      assert Says(schema, keyword, JNumber(raw.literal));
    }
  }

  /** What an object's issues say: each name that is missing, and each that is not allowed, in the member's own path. */
  lemma {:induction false} MembersSay(path: string, fields: seq<Field>, names: seq<Json>, issue: Issue)
    ensures issue in RequiredIssues(path, fields, names) <==>
              exists name :: JString(name) in names && Lookup(fields, name).None?
                             && issue == Issue(path + "." + name, "required", "is required")
  {
    if names != [] {
      var before, last := names[..|names| - 1], names[|names| - 1];
      MembersSay(path, fields, before, issue);
      assert names == before + [last];
      hide RequiredIssues, Lookup;
    }
  }

  lemma {:induction false} AdditionsSay(path: string, fields: seq<Field>, properties: seq<Field>, issue: Issue)
    ensures issue in AdditionalIssues(path, fields, properties) <==>
              exists f :: f in fields && Lookup(properties, f.name).None?
                          && issue == Issue(path + "." + f.name, "additional_property", "is not allowed")
  {
    if fields != [] {
      var before, last := fields[..|fields| - 1], fields[|fields| - 1];
      AdditionsSay(path, before, properties, issue);
      assert fields == before + [last];
      hide AdditionalIssues, Lookup;
    }
  }

  /** What a value's own issues say: the wrong type alone, or each bound its text or its items break. */
  lemma ValuesSay(path: string, value: Json, schema: seq<Field>)
    ensures TypeName(schema) != "" && !MatchesType(TypeName(schema), value) ==>
              NodeIssues(path, value, schema) == [Issue(path, "type", "must be " + TypeName(schema))]
    ensures TypeName(schema) == "string" && value.JString? ==>
              var low, high := Bound(schema, "minLength"), Bound(schema, "maxLength");
              NodeIssues(path, value, schema) ==
                (if low.Some? && |Text.TrimSpace(value.text)| < low.value
                 then [Issue(path, "min_length", "must contain at least " + Text.Decimal(low.value) + " character(s)")] else [])
                + (if high.Some? && |value.text| > high.value
                   then [Issue(path, "max_length", "must contain at most " + Text.Decimal(high.value) + " character(s)")] else [])
    ensures TypeName(schema) == "array" && value.JArray? ==>
              var low, high := Bound(schema, "minItems"), Bound(schema, "maxItems");
              SizeIssues(path, |value.items|, schema) ==
                (if low.Some? && |value.items| < low.value
                 then [Issue(path, "min_items", "must contain at least " + Text.Decimal(low.value) + " item(s)")] else [])
                + (if high.Some? && |value.items| > high.value
                   then [Issue(path, "max_items", "must contain at most " + Text.Decimal(high.value) + " item(s)")] else [])
  {
    hide TypeName, Bound, Text.TrimSpace, Text.Decimal;
  }

  /**
    What a container's issues consist of, in order, when `declared` is what the schema says of
    its members or items, or blank for nothing; values of other types have none but their type's.
   */
  lemma ContainersSay(path: string, value: Json, schema: seq<Field>, declared: seq<Field>)
    requires var keyword := if value.JObject? then "properties" else "items";
             if declared == [] then forall d :: Says(schema, keyword, JObject(d)) ==> d == []
             else Says(schema, keyword, JObject(declared))
    ensures TypeName(schema) == "object" && value.JObject? ==>
              NodeIssues(path, value, schema) ==
                RequiredIssues(path, value.fields, RequiredNames(schema))
                + (if ForbidsAdditional(schema) then AdditionalIssues(path, value.fields, declared) else [])
                + FieldIssues(path, value, |value.fields|, declared)
    ensures TypeName(schema) == "array" && value.JArray? ==>
              NodeIssues(path, value, schema) ==
                SizeIssues(path, |value.items|, schema) + ItemIssues(path, value, |value.items|, declared)
    ensures TypeName(schema) !in {"object", "array", "string"} && MatchesType(TypeName(schema), value) ==>
              NodeIssues(path, value, schema) == []
  {
    KeywordsAre(schema);
    hide Lookup, Says, AsObject, RequiredIssues, AdditionalIssues, SizeIssues, TypeName, RequiredNames, ForbidsAdditional;
  }

  /** Each member's issues carry its path, and each item's its index. */
  lemma PathsSay(path: string, value: Json, n: nat, properties: seq<Field>, items: seq<Field>)
    ensures value.JObject? && n < |value.fields| ==>
              var f := value.fields[n];
              FieldIssues(path, value, n + 1, properties) ==
                FieldIssues(path, value, n, properties)
                + if Lookup(properties, f.name).Some? && Lookup(properties, f.name).value.JObject?
                  then NodeIssues(path + "." + f.name, f.value, Lookup(properties, f.name).value.fields) else []
    ensures value.JArray? && n < |value.items| ==>
              ItemIssues(path, value, n + 1, items) ==
                ItemIssues(path, value, n, items) + NodeIssues(path + "[" + Text.Decimal(n) + "]", value.items[n], items)
  {
    hide NodeIssues, Lookup;
  }

  lemma {:induction false} RequiredEmpty(path: string, fields: seq<Field>, names: seq<Json>)
    ensures RequiredIssues(path, fields, names) == [] <==>
            forall i :: 0 <= i < |names| && names[i].JString? ==> Lookup(fields, names[i].text).Some?
  {
    if names != [] {
      var before := names[..|names| - 1];
      RequiredEmpty(path, fields, before);
      assert forall i :: 0 <= i < |before| ==> before[i] == names[i];
    }
  }

  lemma {:induction false} AdditionalEmpty(path: string, fields: seq<Field>, properties: seq<Field>)
    ensures AdditionalIssues(path, fields, properties) == [] <==>
            forall i :: 0 <= i < |fields| ==> Lookup(properties, fields[i].name).Some?
  {
    if fields != [] {
      var before := fields[..|fields| - 1];
      AdditionalEmpty(path, before, properties);
      assert forall i :: 0 <= i < |before| ==> before[i] == fields[i];
    }
  }

  lemma MembershipEmpty(path: string, fields: seq<Field>, schema: seq<Field>)
    ensures MembershipIssues(path, fields, schema) == [] <==>
            && RequiredIssues(path, fields, RequiredNames(schema)) == []
            && (ForbidsAdditional(schema) ==> AdditionalIssues(path, fields, AsObject(Lookup(schema, "properties"))) == [])
  {
    hide RequiredIssues, AdditionalIssues, RequiredNames, ForbidsAdditional, AsObject, Lookup;
  }

  /** No issue is found exactly when the value conforms. */
  lemma {:induction false} NoIssuesIffConforms(path: string, value: Json, schema: seq<Field>)
    ensures NodeIssues(path, value, schema) == [] <==> Conforms(value, schema)
    decreases value, 2, 0
  {
    hide Lookup, Bound, TypeName, AsObject, RequiredNames, ForbidsAdditional, HasChildSchema, MembershipIssues, JoinPath, ItemPath,
         FieldIssues, ItemIssues, RequiredIssues, AdditionalIssues;
    var properties := AsObject(Lookup(schema, "properties"));
    if TypeName(schema) == "object" && value.JObject? {
      MembershipEmpty(path, value.fields, schema);
      RequiredEmpty(path, value.fields, RequiredNames(schema));
      AdditionalEmpty(path, value.fields, properties);
      FieldsConform(path, value, |value.fields|, properties);
    } else if TypeName(schema) == "array" && value.JArray? {
      ItemsConform(path, value, |value.items|, AsObject(Lookup(schema, "items")));
    }
  }

  lemma {:induction false} FieldsConform(path: string, value: Json, n: nat, properties: seq<Field>)
    requires value.JObject? && n <= |value.fields|
    ensures FieldIssues(path, value, n, properties) == [] <==>
            forall i :: 0 <= i < n && HasChildSchema(properties, value.fields[i].name) ==>
              Conforms(value.fields[i].value, AsObject(Lookup(properties, value.fields[i].name)))
    decreases value, 1, n
  {
    hide NodeIssues, Conforms, JoinPath, Lookup, AsObject, HasChildSchema;
    if n > 0 {
      FieldsConform(path, value, n - 1, properties);
      var f := value.fields[n - 1];
      if HasChildSchema(properties, f.name) {
        NoIssuesIffConforms(JoinPath(path, f.name), f.value, AsObject(Lookup(properties, f.name)));
      }
    }
  }

  lemma {:induction false} ItemsConform(path: string, value: Json, n: nat, schema: seq<Field>)
    requires value.JArray? && n <= |value.items|
    ensures ItemIssues(path, value, n, schema) == [] <==> forall i :: 0 <= i < n ==> Conforms(value.items[i], schema)
    decreases value, 1, n
  {
    hide NodeIssues, Conforms, ItemPath;
    if n > 0 {
      ItemsConform(path, value, n - 1, schema);
      NoIssuesIffConforms(ItemPath(path, n - 1), value.items[n - 1], schema);
    }
  }

  // ----- the capped validator -----

  /** The first twenty issues. */
  function Capped(issues: seq<Issue>): seq<Issue> {
    if |issues| <= MAX_ISSUES then issues else issues[..MAX_ISSUES]
  }

  lemma CappedTwice(a: seq<Issue>, b: seq<Issue>)
    ensures Capped(Capped(a) + b) == Capped(a + b)
    ensures |a| >= MAX_ISSUES ==> Capped(a + b) == Capped(a)
  {
  }

  /** Issues already cut to the first twenty take the next one that Append lets in. */
  lemma CappedNext(before: seq<Issue>, soFar: seq<Issue>, more: seq<Issue>, items: seq<Issue>)
    requires |more| <= 1 && items == Capped(before + soFar)
    ensures Capped(before + (soFar + more)) == if more == [] || |items| >= 20 then items else items + more
    ensures |Capped(before + (soFar + more))| <= MAX_ISSUES
  {
    assert before + soFar + more == before + (soFar + more);
    assert more == [] ==> soFar + more == soFar;
  }

  /** The slice the validators share through a pointer. */
  class IssueList {
    var items: seq<Issue>

    constructor ()
      ensures items == []
    {
      items := [];
    }

    /** appendValidationIssue */
    method Append(path: string, code: string, message: string)
      modifies this
      ensures items == if |old(items)| >= 20 then old(items) else old(items) + [Issue(path, code, message)]
    {
      if |items| >= MAX_ISSUES {
        return;
      }
      items := items + [Issue(path, code, message)];
    }
  }

  /** validateSchemaNode: appends exactly what the cap leaves room for. */
  method ValidateNode(path: string, value: Json, schema: seq<Field>, issues: IssueList)
    requires |issues.items| <= MAX_ISSUES
    modifies issues
    ensures issues.items == Capped(old(issues.items) + NodeIssues(path, value, schema))
    decreases value, 2
  {
    if |issues.items| >= MAX_ISSUES {
      return;
    }
    var typeName := TypeName(schema);
    if typeName != "" && !MatchesType(typeName, value) {
      issues.Append(path, "type", "must be " + typeName);
      return;
    }
    if typeName == "object" {
      ValidateObject(path, value, schema, issues);
    } else if typeName == "array" {
      ValidateArray(path, value, schema, issues);
    } else if typeName == "string" {
      ValidateString(path, value, schema, issues);
    }
  }

  method ValidateObject(path: string, value: Json, schema: seq<Field>, issues: IssueList)
    requires |issues.items| <= MAX_ISSUES && value.JObject?
    modifies issues
    ensures issues.items == Capped(old(issues.items) + (MembershipIssues(path, value.fields, schema)
              + FieldIssues(path, value, |value.fields|, AsObject(Lookup(schema, "properties")))))
    decreases value, 1
  {
    hide NodeIssues, JoinPath, Lookup, AsObject, MembershipIssues, HasChildSchema, Capped;
    ghost var before := issues.items;
    var properties := AsObject(Lookup(schema, "properties"));
    CappedSize(before + MembershipIssues(path, value.fields, schema));
    assert before + MembershipIssues(path, value.fields, schema) + []
        == before + MembershipIssues(path, value.fields, schema);
    ValidateMembership(path, value.fields, schema, issues);
    ghost var members := MembershipIssues(path, value.fields, schema);
    for i := 0 to |value.fields|
      invariant |issues.items| <= MAX_ISSUES
      invariant issues.items == Capped(before + members + FieldIssues(path, value, i, properties))
    {
      var f := value.fields[i];
      ghost var soFar := FieldIssues(path, value, i, properties);
      if HasChildSchema(properties, f.name) {
        var child := AsObject(Lookup(properties, f.name));
        ghost var more := NodeIssues(JoinPath(path, f.name), f.value, child);
        ValidateNode(JoinPath(path, f.name), f.value, child, issues);
        CappedTwice(before + members + soFar, more);
        assert before + members + soFar + more == before + members + (soFar + more);
        CappedSize(before + members + (soFar + more));
      } else {
        assert soFar + [] == soFar;
      }
    }
    ghost var all := FieldIssues(path, value, |value.fields|, properties);
    assert before + members + all == before + (members + all);
  }

  /** required and additionalProperties. */
  method ValidateMembership(path: string, fields: seq<Field>, schema: seq<Field>, issues: IssueList)
    requires |issues.items| <= MAX_ISSUES
    modifies issues
    ensures issues.items == Capped(old(issues.items) + MembershipIssues(path, fields, schema))
  {
    hide Lookup, ForbidsAdditional, RequiredNames, AsObject, JoinPath, Capped;
    ghost var before := issues.items;
    var names := RequiredNames(schema);
    CappedSize(before);
    assert before + [] == before;
    for i := 0 to |names|
      invariant |issues.items| <= MAX_ISSUES
      invariant issues.items == Capped(before + RequiredIssues(path, fields, names[..i]))
    {
      assert names[..i + 1][..i] == names[..i];
      ghost var soFar := RequiredIssues(path, fields, names[..i]);
      ghost var more := RequiredIssue(path, fields, names[i]);
      CappedNext(before, soFar, more, issues.items);
      if names[i].JString? && Lookup(fields, names[i].text).None? {
        issues.Append(JoinPath(path, names[i].text), "required", "is required");
      }
    }
    assert names[..|names|] == names;
    ghost var required := RequiredIssues(path, fields, names);
    assert required + [] == required;
    if ForbidsAdditional(schema) {
      var properties := AsObject(Lookup(schema, "properties"));
      for i := 0 to |fields|
        invariant |issues.items| <= MAX_ISSUES
        invariant issues.items == Capped(before + (required + AdditionalIssues(path, fields[..i], properties)))
      {
        assert fields[..i + 1][..i] == fields[..i];
        ghost var soFar := AdditionalIssues(path, fields[..i], properties);
        ghost var more := AdditionalIssue(path, fields[i].name, properties);
        CappedNext(before, required + soFar, more, issues.items);
        assert required + soFar + more == required + (soFar + more);
        if Lookup(properties, fields[i].name).None? {
          issues.Append(JoinPath(path, fields[i].name), "additional_property", "is not allowed");
        }
      }
      assert fields[..|fields|] == fields;
    }
  }

  lemma SizeIssuesOf(path: string, size: nat, schema: seq<Field>)
    ensures SizeIssues(path, size, schema) ==
            AtLeast("min_items", path, size, Bound(schema, "minItems"), " item(s)")
            + AtMost("max_items", path, size, Bound(schema, "maxItems"), " item(s)")
  {
  }

  lemma CappedSize(a: seq<Issue>)
    ensures |Capped(a)| <= MAX_ISSUES
    ensures |Capped(a)| >= MAX_ISSUES <==> |a| >= MAX_ISSUES
    ensures |a| <= MAX_ISSUES ==> Capped(a) == a
  {
  }

  method ValidateArray(path: string, value: Json, schema: seq<Field>, issues: IssueList)
    requires |issues.items| <= MAX_ISSUES && value.JArray?
    modifies issues
    ensures issues.items == Capped(old(issues.items) + (SizeIssues(path, |value.items|, schema)
              + ItemIssues(path, value, |value.items|, AsObject(Lookup(schema, "items")))))
    decreases value, 1
  {
    hide NodeIssues, ItemPath, Bound, Lookup, AsObject, SizeIssues, Capped;
    SizeIssuesOf(path, |value.items|, schema);
    ghost var before := issues.items;
    ValidateSize(path, "min_items", "max_items", " item(s)", Bound(schema, "minItems"), Bound(schema, "maxItems"),
                 |value.items|, |value.items|, issues);
    ghost var sizes := SizeIssues(path, |value.items|, schema);
    var itemSchema := AsObject(Lookup(schema, "items"));
    CappedSize(before + sizes);
    assert before + sizes + [] == before + sizes;
    for i := 0 to |value.items|
      invariant |issues.items| <= MAX_ISSUES
      invariant issues.items == Capped(before + sizes + ItemIssues(path, value, i, itemSchema))
    {
      CappedSize(before + sizes + ItemIssues(path, value, i, itemSchema));
      if |issues.items| >= MAX_ISSUES {
        FullStaysFull(path, value, i, |value.items|, itemSchema, before + sizes);
        assert before + sizes + ItemIssues(path, value, |value.items|, itemSchema)
            == before + (sizes + ItemIssues(path, value, |value.items|, itemSchema));
        return;
      }
      ghost var soFar := ItemIssues(path, value, i, itemSchema);
      ghost var more := NodeIssues(ItemPath(path, i), value.items[i], itemSchema);
      ValidateNode(ItemPath(path, i), value.items[i], itemSchema, issues);
      CappedTwice(before + sizes + soFar, more);
      assert before + sizes + soFar + more == before + sizes + (soFar + more);
      CappedSize(before + sizes + (soFar + more));
    }
    ghost var all := ItemIssues(path, value, |value.items|, itemSchema);
    assert before + sizes + all == before + (sizes + all);
  }

  /** Twenty issues found early are the twenty found in the end. */
  lemma {:induction false} FullStaysFull(path: string, value: Json, i: nat, n: nat, schema: seq<Field>, before: seq<Issue>)
    requires value.JArray? && i <= n <= |value.items| && |before + ItemIssues(path, value, i, schema)| >= MAX_ISSUES
    ensures |before + ItemIssues(path, value, n, schema)| >= MAX_ISSUES
    ensures Capped(before + ItemIssues(path, value, n, schema)) == Capped(before + ItemIssues(path, value, i, schema))
    decreases n
  {
    hide NodeIssues, ItemPath, Capped;
    if i < n {
      FullStaysFull(path, value, i, n - 1, schema, before);
      var soFar, more := ItemIssues(path, value, n - 1, schema), NodeIssues(ItemPath(path, n - 1), value.items[n - 1], schema);
      CappedTwice(before + soFar, more);
      assert before + soFar + more == before + (soFar + more);
    }
  }

  method ValidateString(path: string, value: Json, schema: seq<Field>, issues: IssueList)
    requires |issues.items| <= MAX_ISSUES && value.JString?
    modifies issues
    ensures issues.items == Capped(old(issues.items) + StringIssues(path, value.text, schema))
  {
    ValidateSize(path, "min_length", "max_length", " character(s)", Bound(schema, "minLength"), Bound(schema, "maxLength"),
                 |Text.TrimSpace(value.text)|, |value.text|, issues);
  }

  /** A lower and an upper bound, each on its own measure. */
  method ValidateSize(path: string, minCode: string, maxCode: string, unit: string, minimum: Option<nat>, maximum: Option<nat>,
                      low: nat, high: nat, issues: IssueList)
    requires |issues.items| <= MAX_ISSUES
    modifies issues
    ensures issues.items == Capped(old(issues.items)
              + (AtLeast(minCode, path, low, minimum, unit) + AtMost(maxCode, path, high, maximum, unit)))
  {
    ghost var before := issues.items;
    ghost var first, second := AtLeast(minCode, path, low, minimum, unit), AtMost(maxCode, path, high, maximum, unit);
    if minimum.Some? && low < minimum.value {
      issues.Append(path, minCode, "must contain at least " + Text.Decimal(minimum.value) + unit);
    }
    assert issues.items == Capped(before + first);
    if maximum.Some? && high > maximum.value {
      issues.Append(path, maxCode, "must contain at most " + Text.Decimal(maximum.value) + unit);
    }
    CappedTwice(before + first, second);
    assert before + first + second == before + (first + second);
  }

  /** The validator: the first twenty of all issues, and none exactly for conforming values. */
  method Validate(value: Json, schema: seq<Field>) returns (found: seq<Issue>)
    ensures found == Capped(NodeIssues("$", value, schema))
    ensures var issues := NodeIssues("$", value, schema); found == if |issues| <= 20 then issues else issues[..20]
    ensures found == [] <==> Conforms(value, schema)
  {
    var issues := new IssueList();
    ValidateNode("$", value, schema, issues);
    found := issues.items;
    assert [] + NodeIssues("$", value, schema) == NodeIssues("$", value, schema);
    NoIssuesIffConforms("$", value, schema);
  }
}
