# Geyser plugin-message translator and pig interaction rules, in Dafny

This project models two pieces of the Geyser proxy, which bridges Java-edition servers and
Bedrock-edition clients:

1. **The server plugin-message translator** (`JavaPluginMessageTranslator.translate`). On the
   `geyser:settings` channel it reads a JSON document. When the document reports `success` and its
   `settings` object has a `disable-bedrock-scaffolding` entry, the session's world-cache flag becomes
   that entry's value OR the local configuration's value. On the `floodgate:form` channel, and only when
   the default authentication type is Floodgate, it decodes a form request frame. That frame is
   `[form-type ordinal][id byte][id byte][UTF-8 body]`. The translator presents the form and gives it a
   response handler. The handler sends `[id byte][id byte][UTF-8 response]` back on the same channel.
2. **The pig's interaction rules** (`PigEntity`). `canEat` accepts carrot, potato and beetroot.
   `testMobInteraction` predicts a tag and `mobInteract` produces a result. Both first test the same
   mount guard: the item is not feed, the pig is saddled, it has no passengers and the player is not
   sneaking. If the guard fails, they defer to the superclass and then to the saddling attempt.

Files:
- `wrappers.dfy`: `Option` and `Result`.
- `form_frame.dfy` (module `FormFrame`): Java signed bytes (`JByte`), the form kinds, the request
  decoder and its inverse, and the response frame. The response frame is built as a value and also by
  an array-filling method.
- `settings.dfy` (module `Settings`): the JSON tree model and the scaffolding merge.
- `plugin_message_translator.dfy` (module `PluginMessageTranslator`): the session class, with its
  world-cache flag, its outbox of sent plugin messages and its list of presented forms. It holds
  `Translate`, the form response handler `Respond`, and client methods that run them.
- `pig_entity.dfy` (module `PigEntity`): `CanEat`, `TestMobInteraction`, `MobInteract` and the lemmas
  that relate the two decision paths.

Design decisions:
- Exceptions that `translate` does not catch are modelled as a `Failed(fault)` status, and the method
  stops where the Java code would throw. There are four kinds:
  - a missing `success` or `settings` node (a `NullPointerException`);
  - an empty form frame (`data[0]` is out of bounds);
  - an unknown form-type ordinal (the explicit `NullPointerException`);
  - a frame with a valid ordinal but fewer than three bytes (`new String(data, 3, data.length - 3)` throws).
  The ordinal is checked before the length, as in the code. The `IOException` of the JSON reader is
  caught, so it leaves the session unchanged.
- Java bytes are signed. `data[0]` is widened to a negative `int` for bytes 0x80 to 0xFF, so such
  ordinals are unknown form types.
- The JSON reader is a function parameter of `Translate`. It yields either a parsed document or
  `ParseError` (the caught `IOException`).

Behaviour of the code worth noting:
- The form response handler is not one-shot. Each invocation sends a frame. `AnswerTwice` shows that
  answering a form twice sends the same frame twice. Nothing is retired.
- The merge ORs the incoming value with the local configuration only, never with the previously cached
  value. `LaterDocumentClears` shows that a later `false` document clears a flag set by an earlier one
  when the local configuration is false.
- A JSON `null` as the value of `disable-bedrock-scaffolding` is a present node. It counts as `false`,
  so the flag becomes the local configuration's value.

## Model

| member | source | states |
|---|---|---|
| FormFrame.FormTypeByOrdinal | connector/src/main/java/org/geysermc/connector/network/translators/java/JavaPluginMessageTranslator.java:77 | a form kind exists exactly for ordinals 0 to 2, and it has the requested ordinal |
| FormFrame.DecodeFormRequest | connector/src/main/java/org/geysermc/connector/network/translators/java/JavaPluginMessageTranslator.java:72-83 | an empty frame fails first, then an ordinal outside the enumeration fails with that ordinal, then a frame shorter than 3 bytes fails; otherwise the kind has ordinal `data[0]`, the ids are `data[1..3]` and the body is exactly `data[3..]` with length `|data| - 3` |
| FormFrame.EncodeFormRequest | connector/src/main/java/org/geysermc/connector/network/translators/java/JavaPluginMessageTranslator.java:74 | the request layout written by the sender is three header bytes followed by the body |
| FormFrame.DecodeEncode | connector/src/main/java/org/geysermc/connector/network/translators/java/JavaPluginMessageTranslator.java:74-83 | every request survives encoding then decoding unchanged |
| FormFrame.EncodeDecode | connector/src/main/java/org/geysermc/connector/network/translators/java/JavaPluginMessageTranslator.java:74-83 | every frame that decodes is re-encoded to exactly the same bytes, so decoding loses nothing |
| FormFrame.ResponseFrame | connector/src/main/java/org/geysermc/connector/network/translators/java/JavaPluginMessageTranslator.java:87-92 | the response frame has length `|raw| + 2`, starts with the two id bytes and continues with exactly `raw` |
| FormFrame.SplitResponseFrame | connector/src/main/java/org/geysermc/connector/network/translators/java/JavaPluginMessageTranslator.java:75 | the receiving side can split a frame exactly when it has at least two bytes, giving the first two bytes as the id |
| FormFrame.SplitBuild | connector/src/main/java/org/geysermc/connector/network/translators/java/JavaPluginMessageTranslator.java:87-92 | splitting a built response frame gives back the id bytes and the response |
| FormFrame.BuildSplit | connector/src/main/java/org/geysermc/connector/network/translators/java/JavaPluginMessageTranslator.java:75 | every frame of two or more bytes is the response frame of its own split, so the layout has no other form |
| FormFrame.CorrelationIdEchoed | connector/src/main/java/org/geysermc/connector/network/translators/java/JavaPluginMessageTranslator.java:90-91 | the response to a decoded request starts with that request's bytes 1 and 2, whatever the response text |
| FormFrame.BuildResponseFrame | connector/src/main/java/org/geysermc/connector/network/translators/java/JavaPluginMessageTranslator.java:87-92 | filling the `raw.length + 2` array (two id bytes, then the copy of `raw` at offset 2) yields exactly the response frame |
| FormFrame.ResponseExample | connector/src/main/java/org/geysermc/connector/network/translators/java/JavaPluginMessageTranslator.java:88-92 | ids 0x01 0x02 with response "ok" give exactly the bytes 0x01 0x02 'o' 'k' |
| Settings.Get | connector/src/main/java/org/geysermc/connector/network/translators/java/JavaPluginMessageTranslator.java:54-56 | a child is found exactly when the node is an object that has that name, and it is that object's entry |
| Settings.AsBoolean | connector/src/main/java/org/geysermc/connector/network/translators/java/JavaPluginMessageTranslator.java:54 | a boolean node gives its own value; only boolean, integer and text nodes can give true |
| Settings.MergeSettings | connector/src/main/java/org/geysermc/connector/network/translators/java/JavaPluginMessageTranslator.java:52-60 | a missing `success` node fails; `settings` missing under a successful document fails; these two are the only faults, so a `settings` node without the key (or not an object) is a no-op; the flag is set exactly when the document succeeds and carries the key, and then to `incoming OR local` |
| Settings.Merged | connector/src/main/java/org/geysermc/connector/network/translators/java/JavaPluginMessageTranslator.java:54-59 | after a merge the flag is `incoming OR local` when the key is applied, and the cached value otherwise; the cached value is not consulted when the key is applied |
| Settings.LocalTrueWins | connector/src/main/java/org/geysermc/connector/network/translators/java/JavaPluginMessageTranslator.java:58 | with local configuration true, an applied document leaves the flag true whatever its value |
| Settings.LocalFalseFollowsIncoming | connector/src/main/java/org/geysermc/connector/network/translators/java/JavaPluginMessageTranslator.java:58 | with local configuration false, the flag equals the incoming value |
| Settings.UnsuccessfulIsNoOp | connector/src/main/java/org/geysermc/connector/network/translators/java/JavaPluginMessageTranslator.java:54 | a document whose `success` is false leaves the flag untouched, whatever its nested contents |
| Settings.LaterDocumentClears | connector/src/main/java/org/geysermc/connector/network/translators/java/JavaPluginMessageTranslator.java:57-58 | with local configuration false, a later `false` document clears the flag an earlier `true` document set |
| PluginMessageTranslator.SettingsOutcome | connector/src/main/java/org/geysermc/connector/network/translators/java/JavaPluginMessageTranslator.java:50-64 | other channels and a caught parse error change nothing; it fails exactly when the message is on the settings channel, parses, and the merge of its document fails; the flag is set exactly when the parsed document carries the key, and then to `incoming OR local` |
| PluginMessageTranslator.FormFor | connector/src/main/java/org/geysermc/connector/network/translators/java/JavaPluginMessageTranslator.java:85-86 | the presented form has the request's kind, both id bytes and its body, and its handler keeps the channel the request came on |
| PluginMessageTranslator.FormOutcome | connector/src/main/java/org/geysermc/connector/network/translators/java/JavaPluginMessageTranslator.java:67-85 | a form is presented or a frame fault raised only under Floodgate authentication on the form channel; there it fails exactly when the frame does not decode, and a frame that decodes always presents the form of the decoded request |
| PluginMessageTranslator.UnknownOrdinalPresentsNothing | connector/src/main/java/org/geysermc/connector/network/translators/java/JavaPluginMessageTranslator.java:77-81 | an unknown ordinal fails with that ordinal before any form is built |
| PluginMessageTranslator.ChannelsExclusive | connector/src/main/java/org/geysermc/connector/network/translators/java/JavaPluginMessageTranslator.java:50-71 | at most one of the settings part and the form part acts on a given message |
| PluginMessageTranslator.ResponseFor | connector/src/main/java/org/geysermc/connector/network/translators/java/JavaPluginMessageTranslator.java:86-94 | the handler's message goes on the form's own channel and carries the response frame of the form's id bytes |
| PluginMessageTranslator.Session.Translate | connector/src/main/java/org/geysermc/connector/network/translators/java/JavaPluginMessageTranslator.java:47-98 | translate sends nothing; a settings fault aborts with flag and forms unchanged; otherwise the flag is the merged value or is kept, then a frame fault aborts with no form presented, or the decoded form (if any) is appended to the presented forms |
| PluginMessageTranslator.Session.Respond | connector/src/main/java/org/geysermc/connector/network/translators/java/JavaPluginMessageTranslator.java:86-95 | every invocation appends exactly one message, the response frame on the form's channel; flag and forms are unchanged |
| PluginMessageTranslator.ApplySettingsDocument | connector/src/main/java/org/geysermc/connector/network/translators/java/JavaPluginMessageTranslator.java:54-58 | a successful settings message leaves the session flag `incoming OR local`, whatever it held before |
| PluginMessageTranslator.AnswerFormRequest | connector/src/main/java/org/geysermc/connector/network/translators/java/JavaPluginMessageTranslator.java:71-95 | under Floodgate, a decodable request answered once yields one send on the form channel, echoing `data[1..3]` and then the response; an undecodable one fails with its frame fault and nothing is sent |
| PluginMessageTranslator.AnswerTwice | connector/src/main/java/org/geysermc/connector/network/translators/java/JavaPluginMessageTranslator.java:86-95 | answering the same form twice sends two identical frames, because the handler is not retired |
| PigEntity.FeedInHandNeverMounts | core/src/main/java/org/geysermc/geyser/entity/type/living/animal/PigEntity.java:48-55 | holding carrot, potato or beetroot (the identifiers `canEat` accepts) rules out the mount branch on both paths, whatever the pig's saddle, passengers or the player's stance |
| PigEntity.TestMobInteraction | core/src/main/java/org/geysermc/geyser/entity/type/living/animal/PigEntity.java:54-67 | under the mount guard the tag is MOUNT whatever the superclass says; otherwise a non-NONE superclass tag is returned unchanged; otherwise the tag is SADDLE exactly when the saddling attempt consumes the action, and NONE exactly when it does not |
| PigEntity.MobInteract | core/src/main/java/org/geysermc/geyser/entity/type/living/animal/PigEntity.java:71-83 | under the mount guard the result is SUCCESS; otherwise a consuming superclass result is returned unchanged; otherwise the result is exactly the saddling attempt's |
| PigEntity.TagMountsIffGuard | core/src/main/java/org/geysermc/geyser/entity/type/living/animal/PigEntity.java:55-57 | the tag path is MOUNT for every superclass tag and saddling outcome if and only if the mount guard holds |
| PigEntity.ResultMountsIffGuard | core/src/main/java/org/geysermc/geyser/entity/type/living/animal/PigEntity.java:72-74 | the result path is SUCCESS for every superclass result and saddling outcome if and only if the mount guard holds |
| PigEntity.MountBranchesAgree | core/src/main/java/org/geysermc/geyser/entity/type/living/animal/PigEntity.java:55-72 | the tag path takes its mount branch if and only if the result path does |
| PigEntity.NoMountWhenGuardFails | core/src/main/java/org/geysermc/geyser/entity/type/living/animal/PigEntity.java:55-72 | feed in hand, no saddle, a passenger or sneaking each rules out the mount branch on both paths |
| PigEntity.TagPredictsResult | core/src/main/java/org/geysermc/geyser/entity/type/living/animal/PigEntity.java:54-82 | when the superclass's tag and result agree on consuming the action, so do the pig's: its tag is non-NONE exactly when its result consumes the action |

## Left out

- JSON parsing (`JSON_MAPPER.readTree`) is a function parameter that yields a document or a caught parse error. Jackson's tree model is reduced to boolean, integer, text, null, object and "other" nodes.
- Settings.AsBoolean: text nodes count as true only for exactly `"true"`; Jackson's trimming of surrounding whitespace first is not modelled.
- The stack trace printed for a caught `IOException` is output only and is not modelled.
- UTF-8 encoding and decoding of the form body and the response are the identity on bytes. A response is given as its encoded bytes.
- `Forms.fromJson` is not modelled: a form is its kind, its body bytes and the handler's captured state. A body the form library rejects, which would throw, is not modelled.
- The form-type enumeration belongs to the form library. It is taken as its three kinds (modal, simple, custom) in that ordinal order. For a negative ordinal, whether `getByOrdinal` returns null or throws is not known here. Either way the message fails before a form is built, and the model reports both as an unknown form type.
- The response handler reads `data[1]` and `data[2]` from the captured packet array when it runs; the model copies those two id bytes into the form when `Translate` runs. Nothing writes to that array, so the bytes sent are the same.
- Sending downstream and presenting forms are appends to the session's `outbox` and `forms` sequences. The packet classes, the session's I/O and the client-side form delivery are not modelled.
- The session's threading model is not modelled; the operations are sequential.
- The translator registry and the `@Translator` dispatch are not modelled.
- The superclass interaction rules (`testMobInteraction` and `mobInteract` of the animal superclass) are inputs. So is `EntityUtils.attemptToSaddle`, whose one outcome is used by both paths.
- The `canEat(GeyserItemStack)` overload, which strips the namespace from the item's identifier, is not modelled. An item is given by its stripped identifier. The unused `ItemMapping` argument of `canEat` is dropped.
- Entity construction, pose and the Bedrock entity-flag set are not modelled. A pig is its SADDLED flag and its passenger list; sneaking is a parameter.
- InteractiveTag is reduced to NONE, MOUNT, SADDLE and one case for every other tag. InteractionResult is SUCCESS, CONSUME and PASS, and only PASS does not consume the action.
