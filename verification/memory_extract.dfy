/**
 * The pure pieces of memory extraction (chatai/memory/extract.py): the
 * batch request record sent to the chat-completions endpoint, the grouping
 * of stored memories by character name, and the rewrite of the characters'
 * recent facts in a prompt configuration.
 */
module MemoryExtract {
  import opened Wrappers
  import opened Json
  import opened PromptSections

  /** A row of the memories table: one fact about one character. */
  datatype Memory = Memory(
    chatId: int,
    startUnixtime: int,
    endUnixtime: int,
    characterName: string,
    fact: string,
    interestScore: real)

  // ---------------------------------------------------------------------
  // The batch request

  /** A JSON-schema property of the given type with a description. */
  function Property(kind: string, description: string): Json
  {
    JObject(map["type" := JString(kind), "description" := JString(description)])
  }

  /** The fields every extracted fact must carry. */
  const FactFields: seq<string> := ["character_name", "fact", "interest_score"]

  /**
   * The schema of one fact: its character name must be one of
   * `characterNames`, and the properties it may carry are exactly the ones it
   * must carry.
   */
  function FactSchema(characterNames: seq<string>): (r: Json)
    ensures At(r, ["properties", "character_name", "enum"]) == Some(Strings(characterNames))
    ensures Get(r, "required") == Some(Strings(FactFields))
    ensures Get(r, "additionalProperties") == Some(JBool(false))
    ensures Get(r, "properties").Some? && Get(r, "properties").value.JObject?
    ensures Get(r, "properties").value.fields.Keys == set f | f in FactFields
  {
    var name := JObject(map[
      "type" := JString("string"),
      "description" := JString("Имя основного персонажа, про которого этот факт"),
      "enum" := Strings(characterNames)]);
    var properties := JObject(map[
      "character_name" := name,
      "fact" := Property("string", "Текст факта про персонажа"),
      "interest_score" := Property("number", "Скор интересности факта. Число от 0 до 1")]);
    var r := JObject(map[
      "type" := JString("object"),
      "properties" := properties,
      "additionalProperties" := JBool(false),
      "required" := Strings(FactFields),
      "description" := JString("Структура, описывающая факт про персонажа")]);
    assert ["properties", "character_name", "enum"] == ["properties"] + ["character_name", "enum"];
    assert ["character_name", "enum"] == ["character_name"] + ["enum"];
    assert ["enum"] == ["enum"] + [];
    AtStep(r, "properties", ["character_name", "enum"]);
    AtStep(properties, "character_name", ["enum"]);
    AtStep(name, "enum", []);
    r
  }

  /** The path from the response format to the schema of one fact. */
  const FactPath: seq<string> := ["json_schema", "schema", "properties", "facts", "items"]

  /**
   * The strict structured-output format: an object that must hold a list of
   * facts, each following `FactSchema`.
   */
  function ResponseFormat(characterNames: seq<string>): (r: Json)
    ensures At(r, FactPath) == Some(FactSchema(characterNames))
    ensures At(r, ["json_schema", "strict"]) == Some(JBool(true))
  {
    var facts := JObject(map[
      "type" := JString("array"),
      "items" := FactSchema(characterNames),
      "description" := JString("Список фактов про персонажа")]);
    var properties := JObject(map["facts" := facts]);
    var schema := JObject(map[
      "type" := JString("object"),
      "properties" := properties,
      "required" := Strings(["facts"]),
      "additionalProperties" := JBool(false)]);
    var jsonSchema := JObject(map[
      "strict" := JBool(true),
      "name" := JString("character_facts"),
      "schema" := schema]);
    var r := JObject(map["type" := JString("json_schema"), "json_schema" := jsonSchema]);
    assert FactPath == ["json_schema"] + ["schema", "properties", "facts", "items"];
    assert ["schema", "properties", "facts", "items"] == ["schema"] + ["properties", "facts", "items"];
    assert ["properties", "facts", "items"] == ["properties"] + ["facts", "items"];
    assert ["facts", "items"] == ["facts"] + ["items"];
    assert ["items"] == ["items"] + [];
    AtStep(r, "json_schema", ["schema", "properties", "facts", "items"]);
    AtStep(jsonSchema, "schema", ["properties", "facts", "items"]);
    AtStep(schema, "properties", ["facts", "items"]);
    AtStep(properties, "facts", ["items"]);
    AtStep(facts, "items", []);
    assert ["json_schema", "strict"] == ["json_schema"] + ["strict"];
    assert ["strict"] == ["strict"] + [];
    AtStep(r, "json_schema", ["strict"]);
    AtStep(jsonSchema, "strict", []);
    r
  }

  /** One entry of the chat-completion message list. */
  function ChatEntry(role: string, content: string): Json
  {
    JObject(map["role" := JString(role), "content" := JString(content)])
  }

  /** Within the whole format, the character name of a fact is restricted to exactly the given names. */
  lemma SchemaEnum(characterNames: seq<string>)
    ensures At(ResponseFormat(characterNames), FactPath + ["properties", "character_name", "enum"])
      == Some(Strings(characterNames))
  {
    AtAppend(ResponseFormat(characterNames), FactPath, ["properties", "character_name", "enum"]);
  }

  /**
   * Within the whole format, every fact must carry exactly a character name,
   * a fact and an interest score, and nothing else; the reply must carry the
   * list of facts, and nothing else.
   */
  lemma SchemaRequired(characterNames: seq<string>)
    ensures At(ResponseFormat(characterNames), FactPath + ["required"]) == Some(Strings(FactFields))
    ensures At(ResponseFormat(characterNames), FactPath + ["additionalProperties"]) == Some(JBool(false))
    ensures At(ResponseFormat(characterNames), ["json_schema", "schema", "required"]) == Some(Strings(["facts"]))
    ensures At(ResponseFormat(characterNames), ["json_schema", "schema", "additionalProperties"]) == Some(JBool(false))
  {
    var format := ResponseFormat(characterNames);
    var jsonSchema := Get(format, "json_schema").value;
    var schema := Get(jsonSchema, "schema").value;
    assert ["json_schema", "schema", "required"] == ["json_schema"] + ["schema", "required"];
    assert ["schema", "required"] == ["schema"] + ["required"];
    AtStep(format, "json_schema", ["schema", "required"]);
    AtStep(jsonSchema, "schema", ["required"]);
    AtStep(schema, "required", []);
    assert ["json_schema", "schema", "additionalProperties"] == ["json_schema"] + ["schema", "additionalProperties"];
    assert ["schema", "additionalProperties"] == ["schema"] + ["additionalProperties"];
    AtStep(format, "json_schema", ["schema", "additionalProperties"]);
    AtStep(jsonSchema, "schema", ["additionalProperties"]);
    AtStep(schema, "additionalProperties", []);
    var fact := FactSchema(characterNames);
    AtAppend(ResponseFormat(characterNames), FactPath, ["required"]);
    AtAppend(ResponseFormat(characterNames), FactPath, ["additionalProperties"]);
    assert ["required"] == ["required"] + [];
    assert ["additionalProperties"] == ["additionalProperties"] + [];
    AtStep(fact, "required", []);
    AtStep(fact, "additionalProperties", []);
  }

  /** The message list of a request: both system prompts, then every message from the user, in order. */
  method InputMessages(messages: seq<string>, systemPrompt: string, memoryPrompt: string)
    returns (inputMessages: seq<Json>)
    ensures |inputMessages| == |messages| + 2
    ensures inputMessages[0] == ChatEntry("system", systemPrompt)
    ensures inputMessages[1] == ChatEntry("system", memoryPrompt)
    ensures forall i :: 0 <= i < |messages| ==> inputMessages[i + 2] == ChatEntry("user", messages[i])
  {
    inputMessages := [ChatEntry("system", systemPrompt), ChatEntry("system", memoryPrompt)];
    for k := 0 to |messages|
      invariant |inputMessages| == k + 2
      invariant inputMessages[0] == ChatEntry("system", systemPrompt)
      invariant inputMessages[1] == ChatEntry("system", memoryPrompt)
      invariant forall i :: 0 <= i < k ==> inputMessages[i + 2] == ChatEntry("user", messages[i])
    {
      inputMessages := inputMessages + [ChatEntry("user", messages[k])];
    }
  }

  /**
   * `make_request`: the two system prompts, then each message as a user
   * entry, under a body that also names the model, the token budget and
   * the response format.
   */
  method MakeRequest(
    customId: string,
    characterNames: seq<string>,
    messages: seq<string>,
    systemPrompt: string,
    memoryPrompt: string,
    model: string,
    maxTokens: int)
    returns (request: Json)
    ensures request.JObject? && request.fields.Keys == {"custom_id", "method", "url", "body"}
    ensures Get(request, "custom_id") == Some(JString(customId))
    ensures Get(request, "method") == Some(JString("POST"))
    ensures Get(request, "url") == Some(JString("/v1/chat/completions"))
    ensures Get(request, "body").Some?
    ensures var body := Get(request, "body").value;
      && Get(body, "model") == Some(JString(model))
      && Get(body, "max_tokens") == Some(JInt(maxTokens))
      && Get(body, "response_format") == Some(ResponseFormat(characterNames))
      && Get(body, "messages").Some?
    ensures var sent := Get(Get(request, "body").value, "messages").value;
      && sent.JArray?
      && |sent.elems| == |messages| + 2
      && sent.elems[0] == ChatEntry("system", systemPrompt)
      && sent.elems[1] == ChatEntry("system", memoryPrompt)
      && (forall i :: 0 <= i < |messages| ==> sent.elems[i + 2] == ChatEntry("user", messages[i]))
  {
    var inputMessages := InputMessages(messages, systemPrompt, memoryPrompt);
    var body := JObject(map[
      "model" := JString(model),
      "max_tokens" := JInt(maxTokens),
      "messages" := JArray(inputMessages),
      "response_format" := ResponseFormat(characterNames)]);
    request := JObject(map[
      "custom_id" := JString(customId),
      "method" := JString("POST"),
      "url" := JString("/v1/chat/completions"),
      "body" := body]);
  }

  // ---------------------------------------------------------------------
  // Grouping memories by character

  /** The memories about `name`, in their original order. */
  function OfCharacter(memories: seq<Memory>, name: string): seq<Memory>
  {
    if memories == [] then []
    else (if memories[0].characterName == name then [memories[0]] else []) + OfCharacter(memories[1..], name)
  }

  /** The character names that occur in `memories`. */
  function Names(memories: seq<Memory>): set<string>
  {
    set i | 0 <= i < |memories| :: memories[i].characterName
  }

  /** A map holds exactly one group per name present, each with that name's memories in order. */
  ghost predicate GroupedBy(groups: map<string, seq<Memory>>, memories: seq<Memory>)
  {
    && groups.Keys == Names(memories)
    && forall name :: name in groups ==> groups[name] == OfCharacter(memories, name)
  }

  /** A group grows by one memory exactly when the new memory bears its name. */
  lemma {:induction false} OfCharacterSnoc(memories: seq<Memory>, m: Memory, name: string)
    ensures OfCharacter(memories + [m], name)
      == OfCharacter(memories, name) + (if m.characterName == name then [m] else [])
    decreases |memories|
  {
    if memories == [] {
      assert memories + [m] == [m];
      assert [m][1..] == [];
    } else {
      var ms := memories + [m];
      assert ms[0] == memories[0] && ms[1..] == memories[1..] + [m];
      OfCharacterSnoc(memories[1..], m, name);
      var h := if memories[0].characterName == name then [memories[0]] else [];
      var x := if m.characterName == name then [m] else [];
      assert OfCharacter(ms, name) == h + (OfCharacter(memories[1..], name) + x);
      assert h + (OfCharacter(memories[1..], name) + x) == (h + OfCharacter(memories[1..], name)) + x;
    }
  }

  /** Membership in a group: the memory occurs in the input and bears the group's name. */
  lemma {:induction false} OfCharacterMembers(memories: seq<Memory>, name: string)
    ensures forall m :: m in OfCharacter(memories, name) <==> m in memories && m.characterName == name
    decreases |memories|
  {
    if memories != [] {
      OfCharacterMembers(memories[1..], name);
      assert memories == [memories[0]] + memories[1..];
    }
  }

  /** A name with no memories has an empty group. */
  lemma {:induction false} OfCharacterAbsent(memories: seq<Memory>, name: string)
    requires name !in Names(memories)
    ensures OfCharacter(memories, name) == []
    decreases |memories|
  {
    if memories != [] {
      assert memories[0].characterName in Names(memories);
      assert Names(memories[1..]) <= Names(memories) by {
        forall n | n in Names(memories[1..])
          ensures n in Names(memories)
        {
          var i :| 0 <= i < |memories[1..]| && memories[1..][i].characterName == n;
          assert memories[i + 1].characterName == n;
        }
      }
      OfCharacterAbsent(memories[1..], name);
    }
  }

  /**
   * The grouping loop of `prepare_memories_by_user`: each memory is appended
   * to the list of its character, creating the list on first use.
   */
  method GroupByCharacter(memories: seq<Memory>) returns (groups: map<string, seq<Memory>>)
    ensures groups.Keys == Names(memories)
    ensures forall name :: name in groups ==> groups[name] == OfCharacter(memories, name)
  {
    groups := map[];
    for k := 0 to |memories|
      invariant groups.Keys == Names(memories[..k])
      invariant forall name :: name in groups ==> groups[name] == OfCharacter(memories[..k], name)
    {
      var m := memories[k];
      assert memories[..k + 1] == memories[..k] + [m];
      assert Names(memories[..k + 1]) == Names(memories[..k]) + {m.characterName} by {
        assert memories[..k + 1][k] == m;
        forall n | n in Names(memories[..k + 1])
          ensures n in Names(memories[..k]) + {m.characterName}
        {
          var i :| 0 <= i < k + 1 && memories[..k + 1][i].characterName == n;
          if i < k {
            assert memories[..k][i].characterName == n;
          }
        }
        forall n | n in Names(memories[..k])
          ensures n in Names(memories[..k + 1])
        {
          var i :| 0 <= i < k && memories[..k][i].characterName == n;
          assert memories[..k + 1][i].characterName == n;
        }
      }
      forall name
        ensures OfCharacter(memories[..k + 1], name)
          == OfCharacter(memories[..k], name) + (if m.characterName == name then [m] else [])
      {
        OfCharacterSnoc(memories[..k], m, name);
      }
      if m.characterName !in groups {
        OfCharacterAbsent(memories[..k], m.characterName);
      }
      var group := if m.characterName in groups then groups[m.characterName] else [];
      groups := groups[m.characterName := group + [m]];
    }
    assert memories[..|memories|] == memories;
  }

  /** How many of `names` equal `name`. */
  function Occurrences(names: seq<string>, name: string): nat
  {
    if names == [] then 0 else (if names[0] == name then 1 else 0) + Occurrences(names[1..], name)
  }

  /** The sizes of the groups of `names`, summed. */
  function GroupSizes(memories: seq<Memory>, names: seq<string>): nat
  {
    if names == [] then 0 else |OfCharacter(memories, names[0])| + GroupSizes(memories, names[1..])
  }

  /** A name listed once among distinct names occurs once. */
  lemma {:induction false} OccursOnce(names: seq<string>, name: string)
    requires forall i, j :: 0 <= i < j < |names| ==> names[i] != names[j]
    requires name in names
    ensures Occurrences(names, name) == 1
    decreases |names|
  {
    if names[0] == name {
      OccursNever(names[1..], name);
    } else {
      OccursOnce(names[1..], name);
    }
  }

  lemma {:induction false} OccursNever(names: seq<string>, name: string)
    requires name !in names
    ensures Occurrences(names, name) == 0
    decreases |names|
  {
    if names != [] {
      assert names[0] != name;
      OccursNever(names[1..], name);
    }
  }

  /** Adding a memory in front grows the summed sizes by the number of times its name is listed. */
  lemma {:induction false} GroupSizesCons(m: Memory, rest: seq<Memory>, names: seq<string>)
    ensures GroupSizes([m] + rest, names) == GroupSizes(rest, names) + Occurrences(names, m.characterName)
    decreases |names|
  {
    var ms := [m] + rest;
    assert ms[0] == m && ms[1..] == rest;
    if names != [] {
      GroupSizesCons(m, rest, names[1..]);
    }
  }

  /**
   * The groups partition the memories: over any list naming every
   * character present exactly once, the group sizes sum to the number of
   * memories.
   */
  lemma {:induction false} GroupSizesSum(memories: seq<Memory>, names: seq<string>)
    requires forall i, j :: 0 <= i < j < |names| ==> names[i] != names[j]
    requires forall i :: 0 <= i < |memories| ==> memories[i].characterName in names
    ensures GroupSizes(memories, names) == |memories|
    decreases |memories|
  {
    if memories == [] {
      GroupSizesEmpty(names);
    } else {
      assert memories == [memories[0]] + memories[1..];
      GroupSizesCons(memories[0], memories[1..], names);
      OccursOnce(names, memories[0].characterName);
      GroupSizesSum(memories[1..], names);
    }
  }

  lemma {:induction false} GroupSizesEmpty(names: seq<string>)
    ensures GroupSizes([], names) == 0
    decreases |names|
  {
    if names != [] {
      GroupSizesEmpty(names[1..]);
    }
  }

  // ---------------------------------------------------------------------
  // Refreshing the characters' recent facts

  /** The facts of a list of memories, in order. */
  function Facts(memories: seq<Memory>): (r: seq<string>)
    ensures |r| == |memories|
    ensures forall i :: 0 <= i < |memories| ==> r[i] == memories[i].fact
  {
    seq(|memories|, i requires 0 <= i < |memories| => memories[i].fact)
  }

  /** The new recent facts of a character: its group's facts, none if it has no group. */
  function RecentFacts(groups: map<string, seq<Memory>>, name: string): seq<string>
  {
    Facts(if name in groups then groups[name] else [])
  }

  /** The error `export_prompt` stops with, and the position of the offending section (and item). */
  datatype ExportError =
    | IndexError(section: nat)
    | AttributeError(section: nat, item: nat)

  /** A list section whose first item is a main character: the loop rewrites its items. */
  predicate Targeted(s: Section)
  {
    s.ListSection? && |s.items| > 0 && s.items[0].MainCharacter?
  }

  /** A section the loop fails on: an empty list, or a targeted list holding a non-character item. */
  predicate Faulty(s: Section)
  {
    && s.ListSection?
    && (|s.items| == 0
        || (s.items[0].MainCharacter? && exists j :: 0 <= j < |s.items| && !s.items[j].MainCharacter?))
  }

  /**
   * The `recent_facts` loop of `export_prompt`. Sections other than a list
   * whose first item is a main character are left as they are; each item
   * of such a list gets its group's facts as recent facts. The loop fails
   * with an IndexError on an empty list and with an AttributeError on the
   * first item of a targeted list that is not a main character; the first
   * faulty section in order decides the error.
   */
  method RefreshRecentFacts(config: seq<Section>, groups: map<string, seq<Memory>>)
    returns (r: Result<seq<Section>, ExportError>)
    ensures r.Err? <==> exists i :: 0 <= i < |config| && Faulty(config[i])
    ensures r.Err? ==>
      && r.error.section < |config|
      && Faulty(config[r.error.section])
      && forall i :: 0 <= i < r.error.section ==> !Faulty(config[i])
    ensures r.Err? && r.error.IndexError? ==> config[r.error.section].items == []
    ensures r.Err? && r.error.AttributeError? ==>
      var items := config[r.error.section].items;
      && r.error.item < |items|
      && !items[r.error.item].MainCharacter?
      && forall j :: 0 <= j < r.error.item ==> items[j].MainCharacter?
    ensures r.Ok? ==> |r.value| == |config|
    ensures r.Ok? ==> forall i :: 0 <= i < |config| && !Targeted(config[i]) ==> r.value[i] == config[i]
    ensures r.Ok? ==> forall i :: 0 <= i < |config| && Targeted(config[i]) ==>
      && r.value[i].ListSection?
      && r.value[i].title == config[i].title
      && |r.value[i].items| == |config[i].items|
      && forall j :: 0 <= j < |config[i].items| ==>
           && config[i].items[j].MainCharacter?
           && r.value[i].items[j] == config[i].items[j].(recentFacts := RecentFacts(groups, config[i].items[j].name))
  {
    var result: seq<Section> := [];
    for k := 0 to |config|
      invariant |result| == k
      invariant forall i :: 0 <= i < k ==> !Faulty(config[i])
      invariant forall i :: 0 <= i < k && !Targeted(config[i]) ==> result[i] == config[i]
      invariant forall i :: 0 <= i < k && Targeted(config[i]) ==>
        && result[i].ListSection?
        && result[i].title == config[i].title
        && |result[i].items| == |config[i].items|
        && forall j :: 0 <= j < |config[i].items| ==>
             && config[i].items[j].MainCharacter?
             && result[i].items[j] == config[i].items[j].(recentFacts := RecentFacts(groups, config[i].items[j].name))
    {
      var component := config[k];
      if !component.ListSection? {
        result := result + [component];
        continue;
      }
      if |component.items| == 0 {
        return Err(IndexError(k));
      }
      if !component.items[0].MainCharacter? {
        result := result + [component];
        continue;
      }
      var items: seq<Section> := [];
      for j := 0 to |component.items|
        invariant |items| == j
        invariant forall t :: 0 <= t < j ==>
          && component.items[t].MainCharacter?
          && items[t] == component.items[t].(recentFacts := RecentFacts(groups, component.items[t].name))
      {
        var c := component.items[j];
        if !c.MainCharacter? {
          return Err(AttributeError(k, j));
        }
        items := items + [c.(recentFacts := RecentFacts(groups, c.name))];
      }
      result := result + [component.(items := items)];
    }
    return Ok(result);
  }

  /**
   * Refreshing with the groups of a list of memories gives each character
   * the facts of its own memories, in the order they were stored, and no
   * facts when it has none.
   */
  lemma RecentFactsFromMemories(groups: map<string, seq<Memory>>, memories: seq<Memory>, name: string)
    requires GroupedBy(groups, memories)
    ensures RecentFacts(groups, name) == Facts(OfCharacter(memories, name))
    ensures name !in Names(memories) ==> RecentFacts(groups, name) == []
  {
    if name !in groups {
      OfCharacterAbsent(memories, name);
    }
  }
}
