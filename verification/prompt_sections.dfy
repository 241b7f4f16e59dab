/**
 * The sections of the character prompt configuration (chatai/prompt/prompt.py).
 *
 * A configuration is a list of blocks, each a dictionary tagged by "type":
 * "text", "list" (a titled list of nested sections) or "main_character".
 * Each section is parsed from its block, serialised back to one, and
 * rendered as text; the prompt is the rendered sections joined by blank
 * lines. The YAML file the configuration lives in is replaced by its
 * loaded value, and `random.shuffle` by a Fisher–Yates shuffle driven by a
 * stream of random draws `rand` read from position `pos` on.
 */
module PromptSections {
  import opened Wrappers
  import opened Json

  datatype Section =
    | Text(text: string)
    | ListSection(title: string, items: seq<Section>)
    | MainCharacter(
        name: string,
        nickname: string,
        coreFacts: seq<string>,
        recentFacts: seq<string>,
        messageExamples: seq<string>)

  /** A missing key, or a value of a kind the section cannot hold. */
  datatype ParseError = KeyError(key: string) | TypeError(key: string)

  // ---------------------------------------------------------------------
  // Parsing

  /** `config[key]`: a missing key is a KeyError, indexing a non-dictionary a TypeError. */
  function Field(config: Json, key: string): (r: Result<Json, ParseError>)
    ensures r.Ok? ==> r.value < config && Get(config, key) == Some(r.value)
  {
    if !config.JObject? then Err(TypeError(key))
    else if key !in config.fields then Err(KeyError(key))
    else Ok(config.fields[key])
  }

  function StringField(config: Json, key: string): Result<string, ParseError>
  {
    var v :- Field(config, key);
    if v.JString? then Ok(v.s) else Err(TypeError(key))
  }

  /** The strings of a list value; any other element is a TypeError. */
  function StringsOf(elems: seq<Json>, key: string): (r: Result<seq<string>, ParseError>)
    ensures r.Ok? <==> forall i :: 0 <= i < |elems| ==> elems[i].JString?
    ensures r.Ok? ==> Strings(r.value) == JArray(elems)
    ensures r.Err? ==> r.error == TypeError(key)
  {
    if elems == [] then Ok([])
    else if !elems[0].JString? then Err(TypeError(key))
    else
      var rest :- StringsOf(elems[1..], key);
      var xs := [elems[0].s] + rest;
      assert Strings(xs).elems == elems by {
        assert forall i :: 1 <= i < |elems| ==> elems[i] == elems[1..][i - 1];
      }
      Ok(xs)
  }

  function StringListField(config: Json, key: string): Result<seq<string>, ParseError>
  {
    var v :- Field(config, key);
    if v.JArray? then StringsOf(v.elems, key) else Err(TypeError(key))
  }

  /** `Text.parse`: a text section holding `config["text"]`. */
  function ParseText(config: Json): (r: Result<Section, ParseError>)
    ensures r.Ok? <==> Get(config, "text").Some? && Get(config, "text").value.JString?
    ensures r.Ok? ==> r.value == Text(Get(config, "text").value.s)
    ensures config.JObject? && "text" !in config.fields ==> r == Err(KeyError("text"))
  {
    var text :- StringField(config, "text");
    Ok(Text(text))
  }

  /**
   * `ListSection.parse`: the title, then the items through `parse_config`,
   * which iterates them; an empty dictionary or string iterates as no blocks.
   */
  function ParseList(config: Json): (r: Result<Section, ParseError>)
    ensures r.Ok? ==> r.value.ListSection? && Get(config, "title") == Some(JString(r.value.title))
    ensures r.Ok? ==> Get(config, "items").Some?
    ensures r.Ok? ==>
      || (Get(config, "items").value in {JObject(map[]), JString("")} && r.value.items == [])
      || (Get(config, "items").value.JArray? && ParseBlocks(Get(config, "items").value.elems) == Ok(r.value.items))
    ensures config.JObject? && "title" !in config.fields ==> r == Err(KeyError("title"))
    ensures Get(config, "title").Some? && Get(config, "title").value.JString? && Get(config, "items").None?
      ==> r == Err(KeyError("items"))
    decreases config, 1
  {
    var title :- StringField(config, "title");
    var items :- Field(config, "items");
    if items == JObject(map[]) || items == JString("") then Ok(ListSection(title, []))
    else if !items.JArray? then Err(TypeError("items"))
    else
      var sections :- ParseBlocks(items.elems);
      Ok(ListSection(title, sections))
  }

  /**
   * `MainCharacter.parse`: the five fields, looked up in order; each field
   * of the section is the value stored under its key.
   */
  function ParseMainCharacter(config: Json): (r: Result<Section, ParseError>)
    ensures r.Ok? ==> r.value.MainCharacter?
    ensures r.Ok? ==>
      && Get(config, "name") == Some(JString(r.value.name))
      && Get(config, "nickname") == Some(JString(r.value.nickname))
      && Get(config, "core_facts") == Some(Strings(r.value.coreFacts))
      && Get(config, "recent_facts") == Some(Strings(r.value.recentFacts))
      && Get(config, "message_examples") == Some(Strings(r.value.messageExamples))
    ensures config.JObject? && "name" !in config.fields ==> r == Err(KeyError("name"))
    ensures !config.JObject? ==> r == Err(TypeError("name"))
  {
    var name :- StringField(config, "name");
    var nickname :- StringField(config, "nickname");
    var coreFacts :- StringListField(config, "core_facts");
    var recentFacts :- StringListField(config, "recent_facts");
    var messageExamples :- StringListField(config, "message_examples");
    Ok(MainCharacter(name, nickname, coreFacts, recentFacts, messageExamples))
  }

  /** The "type" tag of each section kind. */
  function Tag(s: Section): string
  {
    match s
    case Text(_) => "text"
    case ListSection(_, _) => "list"
    case MainCharacter(_, _, _, _, _) => "main_character"
  }

  /** One iteration of `parse_config`: dispatch on "type"; an unknown tag yields nothing. */
  function ParseBlock(block: Json): (r: Result<Option<Section>, ParseError>)
    ensures !block.JObject? ==> r == Err(TypeError("type"))
    ensures block.JObject? && "type" !in block.fields ==> r == Err(KeyError("type"))
    ensures r.Ok? && r.value.Some? ==> Get(block, "type") == Some(JString(Tag(r.value.value)))
    ensures r == Ok(None) <==>
      (Get(block, "type").Some? && Get(block, "type").value !in {JString("text"), JString("list"), JString("main_character")})
    decreases block, 2
  {
    var t :- Field(block, "type");
    if t == JString("text") then
      var s :- ParseText(block); Ok(Some(s))
    else if t == JString("list") then
      var s :- ParseList(block); Ok(Some(s))
    else if t == JString("main_character") then
      var s :- ParseMainCharacter(block); Ok(Some(s))
    else
      Ok(None)
  }

  /** `parse_config`: the sections of the blocks, in order; the first error wins. */
  function ParseBlocks(blocks: seq<Json>): (r: Result<seq<Section>, ParseError>)
    ensures r.Ok? ==> |r.value| <= |blocks|
    decreases blocks, 0
  {
    if blocks == [] then Ok([])
    else
      var head :- ParseBlock(blocks[0]);
      var tail :- ParseBlocks(blocks[1..]);
      Ok((if head.Some? then [head.value] else []) + tail)
  }

  /** The parse of a run of blocks that follows the sections already collected. */
  function Prepend(done: seq<Section>, r: Result<seq<Section>, ParseError>): Result<seq<Section>, ParseError>
  {
    if r.Ok? then Ok(done + r.value) else r
  }

  /** `Prompt.parse_config`, as the loop that appends to `components`. */
  method ParseConfig(config: seq<Json>) returns (r: Result<seq<Section>, ParseError>)
    ensures r == ParseBlocks(config)
  {
    var components: seq<Section> := [];
    var i := 0;
    assert config[0..] == config;
    if ParseBlocks(config).Ok? {
      assert [] + ParseBlocks(config).value == ParseBlocks(config).value;
    }
    while i < |config|
      invariant 0 <= i <= |config|
      invariant ParseBlocks(config) == Prepend(components, ParseBlocks(config[i..]))
    {
      var block := config[i];
      assert config[i..] == [block] + config[i + 1..];
      var t := Field(block, "type");
      if t.Err? {
        ParseStepFails(components, block, config[i + 1..], t.error);
        return Err(t.error);
      }
      var parsed: Result<Section, ParseError> := Err(KeyError("type"));
      var known := true;
      if t.value == JString("text") {
        parsed := ParseText(block);
      } else if t.value == JString("list") {
        parsed := ParseList(block);
      } else if t.value == JString("main_character") {
        parsed := ParseMainCharacter(block);
      } else {
        known := false;
      }
      var head: seq<Section> := [];
      if known {
        if parsed.Err? {
          ParseStepFails(components, block, config[i + 1..], parsed.error);
          return Err(parsed.error);
        }
        head := [parsed.value];
      }
      ParseStep(components, block, config[i + 1..], head);
      components := components + head;
      i := i + 1;
    }
    assert config[i..] == [];
    assert components + [] == components;
    r := Ok(components);
  }

  // ---------------------------------------------------------------------
  // Serialisation

  /** `serialize_config` of one section. */
  function Serialize(s: Section): (r: Json)
    ensures r.JObject? && Get(r, "type") == Some(JString(Tag(s)))
    ensures r.fields.Keys == match s
      case Text(_) => {"type", "text"}
      case ListSection(_, _) => {"type", "title", "items"}
      case MainCharacter(_, _, _, _, _) =>
        {"type", "name", "nickname", "core_facts", "recent_facts", "message_examples"}
    ensures s.Text? ==> Get(r, "text") == Some(JString(s.text))
    ensures s.ListSection? ==> Get(r, "title") == Some(JString(s.title))
    ensures s.MainCharacter? ==> Get(r, "name") == Some(JString(s.name)) && Get(r, "nickname") == Some(JString(s.nickname))
    decreases s, 1
  {
    match s
    case Text(text) =>
      JObject(map["type" := JString("text"), "text" := JString(text)])
    case ListSection(title, items) =>
      JObject(map["type" := JString("list"), "title" := JString(title), "items" := JArray(SerializeAll(items))])
    case MainCharacter(name, nickname, coreFacts, recentFacts, messageExamples) =>
      JObject(map[
        "type" := JString("main_character"),
        "name" := JString(name),
        "nickname" := JString(nickname),
        "core_facts" := Strings(coreFacts),
        "recent_facts" := Strings(recentFacts),
        "message_examples" := Strings(messageExamples)])
  }

  /** The serialised blocks of a list of sections, in order (`save_config`, `ListSection.serialize_config`). */
  function SerializeAll(ss: seq<Section>): (r: seq<Json>)
    ensures |r| == |ss|
    decreases ss, 0
  {
    if ss == [] then [] else [Serialize(ss[0])] + SerializeAll(ss[1..])
  }

  lemma {:induction false} StringsRoundTrip(xs: seq<string>, key: string)
    ensures StringsOf(Strings(xs).elems, key) == Ok(xs)
    decreases |xs|
  {
    if xs != [] {
      var elems := Strings(xs).elems;
      assert elems[0] == JString(xs[0]);
      assert elems[1..] == Strings(xs[1..]).elems;
      StringsRoundTrip(xs[1..], key);
      assert [xs[0]] + xs[1..] == xs;
    }
  }

  /** Parsing a serialised section gives it back, under its own tag. */
  lemma {:induction false} SectionRoundTrip(s: Section)
    ensures ParseBlock(Serialize(s)) == Ok(Some(s))
    decreases s, 1
  {
    match s
    case Text(text) =>
    case ListSection(title, items) =>
      ConfigRoundTrip(items);
    case MainCharacter(name, nickname, coreFacts, recentFacts, messageExamples) =>
      StringsRoundTrip(coreFacts, "core_facts");
      StringsRoundTrip(recentFacts, "recent_facts");
      StringsRoundTrip(messageExamples, "message_examples");
  }

  /** Parsing the serialised list of any section tree gives back an equal tree. */
  lemma {:induction false} ConfigRoundTrip(ss: seq<Section>)
    ensures ParseBlocks(SerializeAll(ss)) == Ok(ss)
    decreases ss, 0
  {
    if ss != [] {
      var blocks := SerializeAll(ss);
      assert blocks[0] == Serialize(ss[0]) && blocks[1..] == SerializeAll(ss[1..]);
      SectionRoundTrip(ss[0]);
      ConfigRoundTrip(ss[1..]);
      assert [ss[0]] + ss[1..] == ss;
    }
  }

  /** One step of `parse_config`: the first block's section, if any, goes before the rest. */
  lemma ParseBlocksCons(block: Json, rest: seq<Json>)
    ensures ParseBlocks([block] + rest) ==
      match ParseBlock(block)
      case Err(e) => Err(e)
      case Ok(head) => Prepend(if head.Some? then [head.value] else [], ParseBlocks(rest))
  {
    var blocks := [block] + rest;
    assert blocks[0] == block && blocks[1..] == rest;
    if ParseBlock(block).Ok? && ParseBlocks(rest).Ok? {
      var head := ParseBlock(block).value;
      assert ParseBlocks(blocks) == Ok((if head.Some? then [head.value] else []) + ParseBlocks(rest).value);
    }
  }

  /** A loop iteration of `parse_config` that fails ends the whole parse with its error. */
  lemma ParseStepFails(done: seq<Section>, block: Json, rest: seq<Json>, e: ParseError)
    requires ParseBlock(block) == Err(e)
    ensures Prepend(done, ParseBlocks([block] + rest)) == Err(e)
  {
    ParseBlocksCons(block, rest);
  }

  /** A loop iteration of `parse_config` that succeeds moves its section, if any, to the collected ones. */
  lemma ParseStep(done: seq<Section>, block: Json, rest: seq<Json>, head: seq<Section>)
    requires |head| <= 1
    requires ParseBlock(block) == Ok(if head == [] then None else Some(head[0]))
    ensures Prepend(done, ParseBlocks([block] + rest)) == Prepend(done + head, ParseBlocks(rest))
  {
    ParseBlocksCons(block, rest);
    assert (if head == [] then [] else [head[0]]) == head;
    if ParseBlocks(rest).Ok? {
      assert done + (head + ParseBlocks(rest).value) == (done + head) + ParseBlocks(rest).value;
    }
  }

  /** A block whose "type" is none of the three tags is skipped silently. */
  lemma UnknownBlockSkipped(block: Json, rest: seq<Json>, t: Json)
    requires Get(block, "type") == Some(t)
    requires t != JString("text") && t != JString("list") && t != JString("main_character")
    ensures ParseBlocks([block] + rest) == ParseBlocks(rest)
  {
    ParseBlocksCons(block, rest);
    assert ParseBlock(block) == Ok(None);
    if ParseBlocks(rest).Ok? {
      assert [] + ParseBlocks(rest).value == ParseBlocks(rest).value;
    }
  }

  /** Parsing keeps block order: the parse of two runs is the parse of each, concatenated. */
  lemma {:induction false} ParseBlocksAppend(a: seq<Json>, b: seq<Json>)
    ensures ParseBlocks(a + b) ==
      if ParseBlocks(a).Err? then ParseBlocks(a)
      else Prepend(ParseBlocks(a).value, ParseBlocks(b))
    decreases |a|
  {
    if a == [] {
      assert a + b == b;
      if ParseBlocks(b).Ok? {
        assert [] + ParseBlocks(b).value == ParseBlocks(b).value;
      }
    } else {
      assert a == [a[0]] + a[1..];
      assert a + b == [a[0]] + (a[1..] + b);
      ParseBlocksCons(a[0], a[1..] + b);
      ParseBlocksCons(a[0], a[1..]);
      ParseBlocksAppend(a[1..], b);
      var head := ParseBlock(a[0]);
      if head.Ok? && ParseBlocks(a[1..]).Ok? && ParseBlocks(b).Ok? {
        var h := if head.value.Some? then [head.value.value] else [];
        assert h + (ParseBlocks(a[1..]).value + ParseBlocks(b).value)
          == (h + ParseBlocks(a[1..]).value) + ParseBlocks(b).value;
      }
    }
  }

  // ---------------------------------------------------------------------
  // Rendering

  /** The decimal digits of a natural number, as `str` prints it. */
  function NatToString(n: nat): (s: string)
    decreases n
  {
    if n < 10 then [Digit(n)] else NatToString(n / 10) + [Digit(n % 10)]
  }

  function Digit(d: nat): char
    requires d < 10
  {
    "0123456789"[d]
  }

  function DigitValue(c: char): nat {
    if '0' <= c <= '9' then (c as int - '0' as int) else 0
  }

  /** The number a string of decimal digits denotes. */
  function DecimalValue(s: string): nat
    decreases |s|
  {
    if s == [] then 0 else DecimalValue(s[..|s| - 1]) * 10 + DigitValue(s[|s| - 1])
  }

  /** `str(n)` is decimal, without a leading zero, and denotes `n`. */
  lemma {:induction false} NatToStringDenotes(n: nat)
    ensures forall i :: 0 <= i < |NatToString(n)| ==> '0' <= NatToString(n)[i] <= '9'
    ensures NatToString(n) != [] && (NatToString(n)[0] == '0' ==> n == 0)
    ensures DecimalValue(NatToString(n)) == n
    decreases n
  {
    var s := NatToString(n);
    if n >= 10 {
      NatToStringDenotes(n / 10);
      assert s[..|s| - 1] == NatToString(n / 10);
      assert s[0] == NatToString(n / 10)[0];
    }
  }

  /** `sep.join(xs)` */
  function Join(sep: string, xs: seq<string>): string
  {
    if xs == [] then "" else if |xs| == 1 then xs[0] else xs[0] + sep + Join(sep, xs[1..])
  }

  lemma {:induction false} JoinAppend(sep: string, xs: seq<string>, ys: seq<string>)
    requires xs != [] && ys != []
    ensures Join(sep, xs + ys) == Join(sep, xs) + sep + Join(sep, ys)
    decreases |xs|
  {
    if |xs| == 1 {
      assert (xs + ys)[1..] == ys;
    } else {
      assert (xs + ys)[1..] == xs[1..] + ys;
      JoinAppend(sep, xs[1..], ys);
    }
  }

  /** `f"{i + 1}: {item}" for i, item in enumerate(...)`, counting from `k`. */
  function Numbered(strs: seq<string>, k: nat): seq<string>
    decreases |strs|
  {
    if strs == [] then [] else [NatToString(k) + ": " + strs[0]] + Numbered(strs[1..], k + 1)
  }

  /** The i-th bullet carries the number k + i. */
  lemma {:induction false} NumberedAt(strs: seq<string>, k: nat)
    ensures |Numbered(strs, k)| == |strs|
    ensures forall i :: 0 <= i < |strs| ==> Numbered(strs, k)[i] == NatToString(k + i) + ": " + strs[i]
    decreases |strs|
  {
    if strs != [] {
      NumberedAt(strs[1..], k + 1);
    }
  }

  /** `f"* {x}"` for each line. */
  function Bulleted(xs: seq<string>): (r: seq<string>)
    ensures |r| == |xs|
    ensures forall i :: 0 <= i < |xs| ==> r[i] == "* " + xs[i]
  {
    seq(|xs|, i requires 0 <= i < |xs| => "* " + xs[i])
  }

  /** The line break, indentation and line break between a list's title and its bullets. */
  const ListGap := "\n            \n"

  /** The layout of a main character, for a given order of the facts. */
  function CharacterCard(name: string, nickname: string, facts: seq<string>, examples: seq<string>): string
  {
    name + " (" + nickname + ")\n"
    + "Интересные факты:\n"
    + Join("\n", Bulleted(facts))
    + "\n        \n"
    + "Примеры сообщений:\n"
    + Join("\n", Bulleted(examples))
  }

  /** The swap step of the shuffle: exchange positions i and j. */
  function Swap(xs: seq<string>, i: nat, j: nat): (r: seq<string>)
    requires i < |xs| && j < |xs|
    ensures |r| == |xs| && multiset(r) == multiset(xs)
  {
    var r := xs[i := xs[j]][j := xs[i]];
    assert multiset(xs[i := xs[j]]) == multiset(xs) - multiset{xs[i]} + multiset{xs[j]};
    r
  }

  /**
   * `random.shuffle`: for i from the last index down to 1, swap x[i] with
   * x[j] for a draw j below i + 1; one draw per step.
   */
  function ShuffleFrom(xs: seq<string>, i: nat, rand: nat -> nat, pos: nat): (r: (seq<string>, nat))
    requires i < |xs|
    ensures multiset(r.0) == multiset(xs) && |r.0| == |xs|
    ensures r.1 == pos + i
    decreases i
  {
    if i == 0 then (xs, pos)
    else
      var j := rand(pos) % (i + 1);
      ShuffleFrom(Swap(xs, i, j), i - 1, rand, pos + 1)
  }

  /** A shuffled copy of `xs`, with the position after the draws it used. */
  function Shuffle(xs: seq<string>, rand: nat -> nat, pos: nat): (r: (seq<string>, nat))
    ensures multiset(r.0) == multiset(xs)
    ensures r.1 == if |xs| <= 1 then pos else pos + |xs| - 1
  {
    if |xs| <= 1 then (xs, pos) else ShuffleFrom(xs, |xs| - 1, rand, pos)
  }

  /** `__str__` of a section, with the random position after it. */
  function Render(s: Section, rand: nat -> nat, pos: nat): (r: (string, nat))
    ensures r.1 >= pos
    ensures s.Text? ==> r == (s.text, pos)
    ensures s.ListSection? ==> s.title + ListGap <= r.0
    ensures s.MainCharacter? ==> s.name + " (" + s.nickname + ")\n" <= r.0
    ensures s.MainCharacter? ==> r.1 == Shuffle(s.coreFacts + s.recentFacts, rand, pos).1
    decreases s, 1
  {
    match s
    case Text(text) => (text, pos)
    case ListSection(title, items) =>
      var (strs, pos') := RenderAll(items, rand, pos);
      (title + ListGap + Join("\n\n", Numbered(strs, 1)), pos')
    case MainCharacter(name, nickname, coreFacts, recentFacts, messageExamples) =>
      var (facts, pos') := Shuffle(coreFacts + recentFacts, rand, pos);
      (CharacterCard(name, nickname, facts, messageExamples), pos')
  }

  /** The rendered sections, in order, each reading the draws the previous ones left. */
  function RenderAll(ss: seq<Section>, rand: nat -> nat, pos: nat): (r: (seq<string>, nat))
    ensures |r.0| == |ss|
    ensures r.1 >= pos
    decreases ss, 0
  {
    if ss == [] then ([], pos)
    else
      var (first, pos') := Render(ss[0], rand, pos);
      var (rest, pos'') := RenderAll(ss[1..], rand, pos');
      ([first] + rest, pos'')
  }

  /** `Prompt.print`: the rendered sections joined by blank lines. */
  function Print(config: seq<Section>, rand: nat -> nat, pos: nat): (r: string)
    ensures config == [] ==> r == ""
    ensures |config| == 1 ==> r == Render(config[0], rand, pos).0
  {
    Join("\n\n", RenderAll(config, rand, pos).0)
  }

  /**
   * A list renders as its title, a gap, then its items numbered 1..k in
   * order as "i: item", separated by blank lines.
   */
  lemma ListRendering(title: string, items: seq<Section>, rand: nat -> nat, pos: nat)
    ensures var strs := RenderAll(items, rand, pos).0;
      exists bullets: seq<string> ::
        && |bullets| == |items|
        && (forall i :: 0 <= i < |items| ==> bullets[i] == NatToString(i + 1) + ": " + strs[i])
        && Render(ListSection(title, items), rand, pos).0 == title + "\n            \n" + Join("\n\n", bullets)
  {
    var strs := RenderAll(items, rand, pos).0;
    NumberedAt(strs, 1);
    var bullets := Numbered(strs, 1);
    assert Render(ListSection(title, items), rand, pos).0 == title + ListGap + Join("\n\n", bullets);
  }

  /**
   * A main character lists every core and recent fact exactly once, in some
   * order, then every message example in order.
   */
  lemma MainCharacterRendering(m: Section, rand: nat -> nat, pos: nat)
    requires m.MainCharacter?
    ensures exists facts: seq<string> ::
      && multiset(facts) == multiset(m.coreFacts + m.recentFacts)
      && Render(m, rand, pos).0 == CharacterCard(m.name, m.nickname, facts, m.messageExamples)
  {
    var facts := Shuffle(m.coreFacts + m.recentFacts, rand, pos).0;
    assert Render(m, rand, pos).0 == CharacterCard(m.name, m.nickname, facts, m.messageExamples);
  }

  /** Rendering a run of sections renders its first section, then the rest from where the first left off. */
  lemma RenderAllCons(s: Section, rest: seq<Section>, rand: nat -> nat, pos: nat)
    ensures RenderAll([s] + rest, rand, pos) ==
      ([Render(s, rand, pos).0] + RenderAll(rest, rand, Render(s, rand, pos).1).0,
       RenderAll(rest, rand, Render(s, rand, pos).1).1)
  {
    var ss := [s] + rest;
    assert ss[0] == s && ss[1..] == rest;
  }

  lemma {:induction false} RenderAllAppend(a: seq<Section>, b: seq<Section>, rand: nat -> nat, pos: nat)
    ensures var (sa, pa) := RenderAll(a, rand, pos);
      RenderAll(a + b, rand, pos) == (sa + RenderAll(b, rand, pa).0, RenderAll(b, rand, pa).1)
    decreases |a|
  {
    if a == [] {
      assert a + b == b;
      assert [] + RenderAll(b, rand, pos).0 == RenderAll(b, rand, pos).0;
    } else {
      var s, rest := a[0], a[1..];
      var p1 := Render(s, rand, pos).1;
      assert a == [s] + rest;
      assert a + b == [s] + (rest + b);
      RenderAllCons(s, rest, rand, pos);
      RenderAllCons(s, rest + b, rand, pos);
      RenderAllAppend(rest, b, rand, p1);
      ConsAssoc(Render(s, rand, pos).0, RenderAll(rest, rand, p1).0, RenderAll(b, rand, RenderAll(rest, rand, p1).1).0);
    }
  }

  lemma ConsAssoc(x: string, xs: seq<string>, ys: seq<string>)
    ensures [x] + (xs + ys) == ([x] + xs) + ys
  {
  }

  /**
   * The printed prompt keeps configuration order: printing two runs of
   * sections is printing the first, a blank line, then the second, which
   * draws its randomness after the first.
   */
  lemma PrintInOrder(a: seq<Section>, b: seq<Section>, rand: nat -> nat, pos: nat)
    requires a != [] && b != []
    ensures Print(a + b, rand, pos) == Print(a, rand, pos) + "\n\n" + Print(b, rand, RenderAll(a, rand, pos).1)
  {
    RenderAllAppend(a, b, rand, pos);
    var (sa, pa) := RenderAll(a, rand, pos);
    JoinAppend("\n\n", sa, RenderAll(b, rand, pa).0);
  }
}
