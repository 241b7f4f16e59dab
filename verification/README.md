# chatai core, modelled in Dafny

This project models the logic at the heart of chatai, a group-chat bot that keeps recent chat turns, turns them into chat-completion requests, and maintains a character prompt whose "recent facts" are refreshed from extracted memories. It models four pieces:

- **Message cache** (`message_cache.dfy`, module `Util`). `MessageCache` is a class over a `seq` of `(timestamp, message)` entries. `AddMessage` follows the in-place insertion scan of `add_message` and one front eviction. `GetLastNMessages` returns a suffix of the queue. The specification functions `Placed`, `Trimmed`, `Add` and `AddAll` describe these steps on values. The lemmas cover the capacity invariant, in-order sortedness, and the "newest `max_size` entries" window, plus the out-of-order behaviour.
- **Completion prompt** (`chat_prompt.dfy`, module `ChatPrompt`).
  - `Encode` is the recursive encoder with its scan over the quoted encoding.
  - `Generate` prefixes the two system blocks and tags roles.
  - Both are proved against `Expected`, a description of the encoding in terms of the message alone: its payload text and the images it carries.
- **Prompt sections** (`prompt_sections.dfy`, module `PromptSections`).
  - The `Text`, `ListSection` and `MainCharacter` sections form a recursive datatype.
  - Each can be parsed from a configuration block, serialised back, and rendered.
  - `ParseConfig` is the `parse_config` loop, proved equal to the recursive `ParseBlocks`. Parsing inverts serialisation on every section tree.
  - Rendering threads a stream of random draws through a Fisher–Yates shuffle, which stands in for `random.shuffle`.
- **Memory extraction** (`memory_extract.dfy`, module `MemoryExtract`):
  - the batch request record with its JSON schema;
  - the grouping of memories by character;
  - the `export_prompt` loop that rewrites the characters' recent facts, including its two error exits.

Dictionaries and lists are modelled by the `Json` datatype (`json.dfy`). `Option` and `Result` are in `wrappers.dfy`.

## Behaviour worth knowing (the model follows the code)

- The comment at `chatai/util.py:15` calls the scan an insertion sort that keeps the queue sorted by timestamp. The scan puts an out-of-order entry before the first entry with a strictly smaller timestamp. In an ascending queue that is the front. While the cache still has room and holds a smaller timestamp, the late entry stays there and the cache becomes unsorted (`Util.OutOfOrderUnsorts`). In a full sorted cache the late entry is evicted at once, or never inserted, so the cache is unchanged and the message is lost (`Util.LateEntryInFullCacheIsLost`).
- With maximum size 2, adding timestamps 1, 3, 2 leaves the entries for 1 and 3: the late entry is put at the front and evicted at once (`Util.OutOfOrderTrace`).
- A maximum size of zero or less is accepted. The cache then stays empty.
- `encode` recurses through quoted messages of any depth.
- The closing `)` of the quoted part is followed directly by the message text, with no space.

## Model

| member | source | states |
|---|---|---|
| Util.MessageCache.constructor | chatai/util.py:8-11 | A new cache is empty, remembers its maximum size and satisfies the capacity invariant. |
| Util.MessageCache.AddMessage | chatai/util.py:13-26 | The new queue is the old one with the entry placed (appended, inserted, or dropped), then at most one front entry evicted. It stays within capacity. An in-order add to a sorted queue leaves it sorted. |
| Util.MessageCache.GetLastNMessages | chatai/util.py:28-31 | Returns the last `min(n, len)` entries in stored order and none when `n <= 0`. It changes nothing. |
| Util.FirstBelow | chatai/util.py:19-22 | The scan position is the first entry with a strictly smaller timestamp. Every entry before it has a timestamp at least as large. When there is no such entry, the position is the length. |
| Util.Placed | chatai/util.py:16-22 | The insertion step either adds the entry (one entry more, the same entries plus the new one) or leaves the queue as it is. It leaves the queue as it is exactly when the entry is out of order and no entry has a smaller timestamp. |
| Util.Add | chatai/util.py:13-26 | The front entry is evicted exactly when the placed queue is longer than `max_size`; otherwise the placed queue is kept whole. An add grows the queue by at most one entry. If the queue held at most `max(max_size, 0)` entries before, it does after. |
| Util.AddLosesAtMostFront | chatai/util.py:16-26 | An add brings in no entry other than the new one, and every entry but the one at the front survives it. After a late insertion the front entry need not be the oldest. |
| Util.LateEntryInFullCacheIsLost | chatai/util.py:16-26 | A late entry added to a full sorted cache leaves the cache unchanged: the message is lost. |
| Util.InOrderAddIsWindow | chatai/util.py:16-26 | An in-order add is an append followed by keeping the last `max(max_size, 0)` entries. |
| Util.InOrderAddKeepsSorted | chatai/util.py:15-17 | An in-order add keeps a sorted queue sorted by timestamp. |
| Util.OutOfOrderPlacement | chatai/util.py:18-22 | An out-of-order entry lands just before the first strictly smaller timestamp. Everything before it is at least as large. With no smaller entry, nothing is inserted. |
| Util.OutOfOrderWithoutSmallerIsDropped | chatai/util.py:18-22 | In a sorted cache, an out-of-order entry no later than the first entry leaves the cache unchanged. |
| Util.InOrderAddsKeepNewest | chatai/util.py:15-26 | When every add arrives in timestamp order, the cache is exactly the newest `max(max_size, 0)` entries of everything added. |
| Util.InOrderAddsStaySorted | chatai/util.py:15-26 | In-order adds leave the cache sorted by timestamp. |
| Util.OutOfOrderTrace | chatai/util.py:19-26 | With maximum size 2, timestamps 1, 3, 2 leave exactly the entries for 1 and 3. |
| Util.OutOfOrderUnsorts | chatai/util.py:15-22 | With room for 3, the same adds give 2, 1, 3, which is not sorted. |
| ChatPrompt.LastText | chatai/prompt.py:45-47 | The quoted text the scan keeps is the text of a text block with no text block after it. There is none exactly when the list has no text block. |
| ChatPrompt.LastImage | chatai/prompt.py:45-49 | The quoted image the scan keeps is the image of an image block with no image block after it. There is none exactly when the list has no image block. |
| ChatPrompt.ReadQuote | chatai/prompt.py:42-49 | A plain quoted encoding gives its string and no image. For a block list, the quoted text is the last text block (or "") and the image is the last image block's. |
| ChatPrompt.QuotedParts | chatai/prompt.py:40-50 | Reading a message's encoding back gives its full payload and the image it carries forward. |
| ChatPrompt.Encode | chatai/prompt.py:34-66 | The encoding is the payload as a plain string when there is no image. Otherwise it is one text block with the payload, then one image block per image, the quoted image first. |
| ChatPrompt.Assemble | chatai/prompt.py:58-66 | Without images the result is the text as a plain string. Otherwise it is a text block (when the text is not empty), then one image block per image in order. |
| ChatPrompt.PlainIffNoImage | chatai/prompt.py:53-66 | The result is a plain string exactly when neither the message nor its quote carries an image. A block list has one block more than it has images, with 1 to 2 images, and starts with the text block. |
| ChatPrompt.EncodedText | chatai/prompt.py:35-52 | The text is `"(от: " + name + ") "` (name from the table, else "Незнакомец"). It continues with `"(ответ на: " + quoted text + ")"` when there is a quote, then the message text. |
| ChatPrompt.ImageOrder | chatai/prompt.py:53-63 | The quoted image comes before the message's own image, which is a `data:image/jpeg;base64,` URI. |
| ChatPrompt.QuotedImageExample | chatai/prompt.py:34-66 | A concrete reply to a quoted image message encodes to the expected text block and the quoted image. |
| ChatPrompt.Generate | chatai/prompt.py:24-32 | Returns the number of messages plus 2 entries: the system prompt, then the focus prompt, both as system. Then each message's encoding in order, as assistant exactly for "boggeyman_ai_bot" and as user otherwise. |
| PromptSections.ParseText | chatai/prompt/prompt.py:32-34 | Parsing succeeds exactly when "text" holds a string, and the section holds that string. A missing "text" is a KeyError. |
| PromptSections.ParseList | chatai/prompt/prompt.py:54-59 | A parsed list has the stored title. Its items are the parse of the stored blocks, or none when "items" is an empty dictionary or empty string. A missing "title" or "items" is a KeyError for that key. |
| PromptSections.ParseMainCharacter | chatai/prompt/prompt.py:96-104 | Each of the five fields of a parsed main character is exactly the value stored under its key. A missing "name" is a KeyError. A block that is not a dictionary is a TypeError. |
| PromptSections.ParseBlock | chatai/prompt/prompt.py:129-136 | A block yields a section whose tag is the block's "type". It yields nothing exactly when "type" is present and is none of the three tags. A block with no "type" is a KeyError, and a block that is not a dictionary is a TypeError. |
| PromptSections.ParseBlocks | chatai/prompt/prompt.py:126-137 | The parsed configuration is never longer than its blocks. |
| PromptSections.ParseConfig | chatai/prompt/prompt.py:126-137 | The appending loop computes the same result, or the same first error, as the recursive parse. |
| PromptSections.SectionRoundTrip | chatai/prompt/prompt.py:32-114 | Parsing a serialised `Text`, `ListSection` or `MainCharacter` gives back the same section, with every field unchanged. |
| PromptSections.ConfigRoundTrip | chatai/prompt/prompt.py:126-143 | Parsing the serialised list of any section tree gives back an equal tree. |
| PromptSections.Serialize | chatai/prompt/prompt.py:36-114 | A section serialises to a dictionary whose keys are exactly "type" and the keys of its own fields. "type" holds its tag: "text", "list" or "main_character". Its text, title, name and nickname are stored under their keys. |
| PromptSections.SerializeAll | chatai/prompt/prompt.py:61-66 | A list's items serialise to one block each. |
| PromptSections.UnknownBlockSkipped | chatai/prompt/prompt.py:129-136 | A block whose tag is none of the three is skipped silently. |
| PromptSections.ParseBlocksAppend | chatai/prompt/prompt.py:127-137 | Parsing keeps block order: the parse of two runs of blocks is the two parses concatenated, or the first error. |
| PromptSections.NatToStringDenotes | chatai/prompt/prompt.py:48 | The item number is written as decimal digits with no leading zero and denotes the number. |
| PromptSections.NumberedAt | chatai/prompt/prompt.py:48 | Item i of a list is written `"<i+1>: <item>"`. |
| PromptSections.Shuffle | chatai/prompt/prompt.py:84-85 | The shuffled facts are a permutation of core facts followed by recent facts. |
| PromptSections.Render | chatai/prompt/prompt.py:29-94 | A text section renders as its text and draws no random numbers. A list starts with its title and the gap line. A main character starts with `"<name> (<nickname>)\n"` and uses exactly the draws of one shuffle of its facts. Rendering never moves the random position backwards. |
| PromptSections.ListRendering | chatai/prompt/prompt.py:47-52 | A list renders as its title and the gap line. Its items follow, numbered 1..k in order as `"i: item"` and separated by blank lines. |
| PromptSections.MainCharacterRendering | chatai/prompt/prompt.py:83-94 | A main character renders its name and nickname. Every core and recent fact follows exactly once, in some order, then every message example in order. |
| PromptSections.RenderAll | chatai/prompt/prompt.py:123-124 | Every section renders to one string. |
| PromptSections.JoinAppend | chatai/prompt/prompt.py:124 | Joining two runs is joining each, with the separator between. |
| PromptSections.RenderAllAppend | chatai/prompt/prompt.py:123-124 | Rendering two runs of sections is rendering the first, then the second from the random position the first left. |
| PromptSections.Print | chatai/prompt/prompt.py:123-124 | An empty configuration prints as the empty string, and a single section prints as its rendering. |
| PromptSections.PrintInOrder | chatai/prompt/prompt.py:123-124 | The printed prompt keeps configuration order: two runs print as the first, a blank line, then the second. |
| MemoryExtract.FactSchema | chatai/memory/extract.py:155-170 | The character name of a fact must be one of exactly the given names. A fact must carry `character_name`, `fact` and `interest_score`, and its properties are exactly those three. No other property is allowed. |
| MemoryExtract.ResponseFormat | chatai/memory/extract.py:145-178 | The fact schema sits under `json_schema.schema.properties.facts.items`, and the format is strict. |
| MemoryExtract.SchemaEnum | chatai/memory/extract.py:158-161 | The character name of a fact must be one of exactly the given names. |
| MemoryExtract.SchemaRequired | chatai/memory/extract.py:145-178 | Within the whole format, a fact requires `character_name`, `fact` and `interest_score` and allows nothing else. The reply requires `facts` and allows nothing else. |
| MemoryExtract.InputMessages | chatai/memory/extract.py:180-185 | The message list is the system prompt, then the memory prompt (both as system), then one user entry per message in order. It has the number of messages plus 2 entries. |
| MemoryExtract.MakeRequest | chatai/memory/extract.py:136-197 | The record has exactly the keys custom_id, method, url and body. It carries `custom_id` unchanged, "POST" and "/v1/chat/completions". Its body carries model, max_tokens, the message list and the response format. |
| MemoryExtract.OfCharacterSnoc | chatai/memory/extract.py:286-289 | Appending a memory grows exactly the group of its own character, at the end. |
| MemoryExtract.OfCharacterMembers | chatai/memory/extract.py:286-289 | A memory is in a character's group exactly when it is among the memories and bears that name. |
| MemoryExtract.OfCharacterAbsent | chatai/memory/extract.py:286-289 | A name with no memories has an empty group. |
| MemoryExtract.GroupByCharacter | chatai/memory/extract.py:286-289 | The map has a key for exactly the names present. Each group is that name's memories in input order. |
| MemoryExtract.GroupSizesSum | chatai/memory/extract.py:286-289 | Over any list naming each present character once, the group sizes sum to the number of memories. |
| MemoryExtract.RefreshRecentFacts | chatai/memory/extract.py:262-267 | Only list sections whose first item is a main character change; each of their characters gets its group's facts as recent facts, all else unchanged. It fails exactly when some list is empty (IndexError) or mixes a non-character into such a list (AttributeError at that item), the first such section deciding. |
| MemoryExtract.RecentFactsFromMemories | chatai/memory/extract.py:267 | With groups built from the memories, a character's new recent facts are its memories' facts in stored order. They are empty when it has none. |

## Left out

- The `threading.Lock` in `chatai/util.py` is left out. Operations are sequential, and each is atomic.
- File I/O is left out. The model does not cover:
  - reading the system prompt file in `Prompt.generate`, which is a parameter here;
  - loading the YAML configuration in `Prompt.__init__`, where the loaded value is the input of `ParseConfig`;
  - dumping it in `Prompt.save_config`, where `SerializeAll` gives the value written;
  - the prompt files written by `export_prompt`.
- The debugging `print` calls in `save_config` and `export_prompt` are left out.
- Database access, the clock and the batch API in `chatai/memory/extract.py` are left out: `read_messages`, `read_messages_by_ids`, `dump_memories`, the query in `prepare_memories_by_user` and `submit_and_wait_batch_task`. The memories to group are a parameter.
- `encode_messages` and `extract_memories` are left out. `chatai.prompt.chat` is not part of this model.
- The `Memory` table class is not part of this model. Its fields are taken from `dump_memories`, and `interest_score` is a `real` carried without arithmetic.
- Dictionary key order is not kept: JSON objects are maps. The order of keys in a dumped configuration or a request record is not modelled.
- Dynamic typing is narrowed. A `text`, `title`, `name` or `nickname` value that is not a string, or a fact list that is not a list of strings, is a `TypeError` in the parser; Python would store the value as it is. Python iterates the `items` value with `parse_config`. The parser accepts a list, and an empty dictionary or empty string as no blocks, as Python does. Any other value is a `TypeError("items")`; in Python it fails too, because it is not iterable or its first element is not a dictionary, but with a different message.
- RefreshRecentFacts: sections are values here. `export_prompt` overwrites `recent_facts` on the section objects in place; the model returns the new configuration instead.
  - Aliasing between section objects is not captured.
  - The updates that happen before an exception escapes are not captured either, since nothing is saved in that case.
- MainCharacterRendering: states only that the facts appear as a permutation, not which permutation Python's generator picks. `random.shuffle` is modelled as a Fisher–Yates shuffle over a stream `rand` of random draws.
- Python's integers are unbounded, like Dafny's. No width or wrap-around is involved.
