# Stable Diffusion Discord bot: the interaction decision layer

This project models the pure decision layer inside the Discord front end of a
Stable Diffusion bot (`discord_bot/discord_bot.go`). For each slash command and
each message-component interaction, the layer decides what the bot asks its
queue and settings store for:

- **Command names.** The four slash-command names (`imagine`, `_ext`,
  `_settings`, `_change_model`), with a `dev_` prefix in development mode, and
  the dispatch on them (`command_names.dfy`).
- **Component decoding.** A button's custom ID and a menu's selected values
  become one tagged `Action`: reroll, upscale(n), variation(n), set dimensions,
  set batch, change model, ignore, or crash. Crash is a Go index-out-of-range
  panic (`components.dfy`).
- **Batch pairing.** The batch-count and batch-size menus pair their values so
  that count × size = 4.
- **Settings view.** The settings message marks each menu's current default
  (`settings_view.dfy`).
- **Capped lists.** The embedding choices and the change-model menu are capped
  for display (`choices.dfy`).
- **Command handling.** The plain command decides whether to enqueue. The
  extended command folds its options into the queued prompt and generation
  options (`commands.dfy`).

Supporting modules model Go's `strconv.Atoi`/`Itoa` on a 64-bit platform
(`strconv.dfy`) and `strings.Split` (`strs.dfy`). The remaining modules hold
the data shapes: the queue item and default settings (`entities.dfy`), and the
Discord payloads (`discord.dfy`).

The queue, the worker, the result correlator and the settings store belong to
the packages `imagine_queue` and `repositories`. Those packages are not part of
this model. The queue's `AddImagine` is a function parameter that returns the
reported position. A settings change is modelled as the `SettingsUpdate` the
handler would send to `UpdateDefaultDimensions` or `UpdateDefaultBatch`.

Three behaviours of the code are worth stating up front:

- Only the plain command checks the prompt, and it does so locally. The
  extended command enqueues whatever prompt its options fold to, even an
  empty one.
- The plain command reports position 0 when it enqueues nothing.
- The component handler has no error path of its own: it logs and returns
  (`Ignore`). Two cases index past the end of a slice, which panics
  (`Crash`). One is a dimension value without `_`. The other is a
  change-model interaction with no selected value.

## Model

| member | source | states |
|---|---|---|
| Strconv.AtoiItoa | discord_bot/discord_bot.go:155-157 | Parsing the decimal spelling of any 64-bit `int` gives that number back, so a button index survives the round trip through its custom ID |
| Strconv.ItoaAtoi | discord_bot/discord_bot.go:155-157 | Conversely, an accepted index string with no `+`, no leading zero and no `-0` is the canonical spelling of its value |
| Strconv.CanonicalOfItoa | discord_bot/discord_bot.go:155-157 | And only those: an accepted string that is the canonical spelling of its value has no `+`, no leading zero and no `-0` |
| Strs.Split | discord_bot/discord_bot.go:183 | Splitting yields at least one piece, no piece contains the separator, and joining the pieces with the separator rebuilds the input |
| Strs.SplitJoin | discord_bot/discord_bot.go:183-186 | Splitting undoes joining whenever no piece contains the separator |
| CommandNames.DevNames | discord_bot/discord_bot.go:38-68 | In development mode each name is the production name prefixed with `dev_`; the ext, settings and change-model names are the base name plus `_ext`, `_settings`, `_change_model` |
| CommandNames.NamesDistinct | discord_bot/discord_bot.go:38-68 | For every base name and mode, the four command names are pairwise distinct |
| CommandNames.DispatchRoundTrip | discord_bot/discord_bot.go:138-149 | The command switch routes a name to a handler exactly when the name is that handler's registered name, so dispatch is unambiguous |
| Components.Decode | discord_bot/discord_bot.go:150-273 | Only the exact ID `imagine_reroll` rerolls; every batch action pairs values with product 4; an empty selection on a settings menu does nothing; only the dimension and change-model paths can panic |
| Components.DecodeEncode | discord_bot/discord_bot.go:150-273 | Every action the handler acts on decodes back from its custom ID and value: `imagine_upscale_`/`imagine_variation_` plus the index, "W_H", the batch count, the model title |
| Components.DecodeOnlyEncodable | discord_bot/discord_bot.go:150-273 | Conversely, every non-ignored action fits a 64-bit `int` and every batch pair is a pairing-map pair |
| Components.IndexedButtons | discord_bot/discord_bot.go:151-175 | Upscale(n) or Variation(n) is produced exactly when the ID has that prefix and the rest parses to n; a negative n passes, since nothing checks the range; an unparsable rest is ignored |
| Components.PairedBatchProduct | discord_bot/discord_bot.go:219-233 | The batch-count menu accepts a pair exactly when both values are positive and their product is 4 |
| Components.PairedBatchInvolution | discord_bot/discord_bot.go:252-266 | The pairing accepts exactly 1, 2 and 4, and it is its own inverse, so the batch-size menu uses the same map |
| Components.BatchMenus | discord_bot/discord_bot.go:203-268 | A paired value yields the same pair from either batch menu; an unparsable or unpaired value yields nothing |
| Components.DimensionValues | discord_bot/discord_bot.go:176-202 | A dimension value panics exactly when it has no `_`; otherwise it sets the dimensions to its first two pieces when both parse as integers, and does nothing when either does not |
| Components.DimensionsSwappedAsWritten | discord_bot/discord_bot.go:915-916 | As written, selecting "W_H" sends width H and height W to the settings store |
| Components.DimensionsSwapWitness | discord_bot/discord_bot.go:202 | As written, selecting "512_768" requests width 768 and height 512 |
| Components.DimensionsForwarded | discord_bot/discord_bot.go:915-916 | Corrected, the selection reaches the store unchanged; for square selections the code as written agrees |
| Components.SettingsUpdates | discord_bot/discord_bot.go:177-268 | As written and corrected alike, every batch update requested keeps count × size = 4, and any update at all comes from a settings menu with a selected value |
| Components.FollowUpItem | discord_bot/discord_bot.go:555-615 | Only reroll, upscale and variation enqueue an item. The item has no prompt and no options, and its type is the reroll, upscale or variation type matching the action. Upscale and variation carry the button index; a reroll carries index 0 |
| Components.FollowUpIndex | discord_bot/discord_bot.go:575-615 | The index on an upscale or variation button reaches the queued item unchanged |
| SettingsView.SettingsMessageComponents | discord_bot/discord_bot.go:683-766 | Three single-choice menus (dimension, batch count, batch size), three options each |
| SettingsView.OfferedValuesDecode | discord_bot/discord_bot.go:694-760 | The handler decodes each offered value to the size or batch pair its label names |
| SettingsView.DefaultMarksCurrent | discord_bot/discord_bot.go:683-766 | An option is marked default exactly when choosing it would request the current width and height, batch count, or batch size again |
| SettingsView.AtMostOneDefault | discord_bot/discord_bot.go:683-766 | At most one option per menu is marked default |
| SettingsView.OfferedOptionsAccepted | discord_bot/discord_bot.go:683-766 | Every offered option is one the handler acts on: a square size or a batch pair with product 4 |
| SettingsView.ChoosingDefaultKeepsSettings | discord_bot/discord_bot.go:695-706 | With paired settings, choosing the marked option requests the current settings again, and the swapped dimension forwarding is harmless there |
| Choices.EmbeddingChoices | discord_bot/discord_bot.go:454-468 | There are min(25, number loaded) choices, the first embeddings in iteration order, each with name equal to value and names distinct |
| Choices.EmbeddingsOption | discord_bot/discord_bot.go:454-478 | The embeddings option exists exactly when some embedding is loaded; it then has between 1 and 25 choices, all loaded names |
| Choices.ChangeModelOptionsAsWritten | discord_bot/discord_bot.go:887-899 | As written there are always as many options as models; with exactly 25 models only the first is filled and the rest are blank |
| Choices.ChangeModelOptions | discord_bot/discord_bot.go:887-899 | Corrected, the menu holds the first min(25, number of models) models, each filled in |
| Choices.ChangeModelMessageComponents | discord_bot/discord_bot.go:884-913 | As written, the model menu is single-choice with one option per model. Unless there are exactly 25 models, choosing option k decodes as a change to model k. With exactly 25, only the first option names a model, and choosing any other asks for the model "" |
| Choices.ChangeModelMessageComponentsCorrected | discord_bot/discord_bot.go:884-913 | Corrected, the menu holds min(25, number of models) options, and choosing option k decodes as a change to model k |
| Choices.TwentyFiveModelsWitness | discord_bot/discord_bot.go:895-898 | With 25 models, the menu as written offers a blank second option where the intended one offers the second model |
| Choices.ManyModelsWitness | discord_bot/discord_bot.go:887-899 | With more than 25 models, the menu as written exceeds Discord's 25-option limit |
| Discord.LastIndexNamed | discord_bot/discord_bot.go:620-623 | The index found is the last option of that name; no later option has it; -1 means no option has it |
| Commands.BuildOptionMap | discord_bot/discord_bot.go:620-623 | The option map has a key exactly for the option names present, and each maps to the last option of that name |
| Commands.NegativeDroppedAsWritten | discord_bot/discord_bot.go:638-653 | As written, the negative prompt makes no difference to what is queued: the item equals the one queued without it and carries the default options |
| Commands.NegativeDroppedWitness | discord_bot/discord_bot.go:638-653 | As written, prompt "a cat" with negative "blurry" queues the default negative prompt instead of "blurry"; the corrected item carries "blurry" |
| Commands.PlainArguments | discord_bot/discord_bot.go:620-636 | The prompt and negative prompt read are the last options of those names, or "" when absent |
| Commands.ProcessImagineCommand | discord_bot/discord_bot.go:617-653 | As written, it enqueues exactly when the prompt is non-empty. The item always carries the default options, whatever the negative prompt. The reported position is the queue's, or 0 when nothing is enqueued |
| Commands.ProcessImagineCommandCorrected | discord_bot/discord_bot.go:617-653 | Corrected, the same, except that the queued options carry the given negative prompt when there is one |
| Commands.ApplyPrompt | discord_bot/discord_bot.go:775-794 | A `prompt` option replaces the prompt; a non-empty aspect ratio appends " " + it; an embedding appends ", " + it |
| Commands.ApplyFrame | discord_bot/discord_bot.go:783-796 | An option sets only its own generation field and leaves every other field unchanged |
| Commands.ExtFoldPrompt | discord_bot/discord_bot.go:771-798 | As written, the queued prompt is the last `prompt` option followed only by the suffixes of the options that arrived after it |
| Commands.ExtFoldFields | discord_bot/discord_bot.go:771-798 | Each other field is the value of the last option of its name, or its default when that option is absent |
| Commands.ProcessImagineExtCommand | discord_bot/discord_bot.go:768-816 | As written, it always enqueues. The prompt is the last `prompt` option (or the default) followed only by the aspect-ratio and embedding suffixes of the options after it. The other fields hold their last option or default. The position is the queue's |
| Commands.ProcessImagineExtCommandCorrected | discord_bot/discord_bot.go:768-816 | Corrected, the same, except that the prompt keeps every aspect-ratio and embedding suffix in order, wherever the `prompt` option arrived |
| Commands.ExtOrderWitness | discord_bot/discord_bot.go:775-782 | As written, an aspect ratio chosen before the prompt is lost: the queued prompt is "a cat" and not "a cat --ar 4:3" |
| Commands.PromptsFirstPermutes | discord_bot/discord_bot.go:773 | Moving the `prompt` options to the front is a permutation of the options |
| Commands.IntendedIsPromptFirst | discord_bot/discord_bot.go:773-798 | The corrected prompt is what the code as written gives once the prompt arrives first, and reordering does not change it |

## Findings

| source | as written | input that shows it | evidently intended | confidence | as-written member | corrected member |
|---|---|---|---|---|---|---|
| discord_bot/discord_bot.go:915-916 | The callee declares `(height, width)` and is called with `(widthInt, heightInt)`, then forwards `(width, height)` | selection "512_768" | `UpdateDefaultDimensions(512, 768)`, but the code requests `(768, 512)` | medium: the menu offers only squares; not executed | Components.DimensionsSwapWitness | Components.DimensionsForwarded |
| discord_bot/discord_bot.go:887-899 | The cap checks the length of a preallocated slice, which always equals the number of models | 25 models: options 2 to 25 are blank. 26 models: 26 options | at most 25 options, each filled in | high; not executed | Choices.TwentyFiveModelsWitness | Choices.ChangeModelOptions |
| discord_bot/discord_bot.go:638-653 | Both branches enqueue the same item from the default options, so the negative prompt is read but never used | prompt "a cat", negative "blurry" | the queued options carry negative prompt "blurry" | medium; not executed | Commands.NegativeDroppedWitness | Commands.ProcessImagineCommandCorrected |
| discord_bot/discord_bot.go:775-782 | A `prompt` option overwrites the suffixes appended by earlier options | options in the order aspect_ratio "--ar 4:3", then prompt "a cat" | "a cat --ar 4:3" | low: depends on the order Discord delivers options; not executed | Commands.ExtOrderWitness | Commands.IntendedIsPromptFirst |

## Left out

- Discord session plumbing is not modelled. This covers opening and closing the session, registering and deleting commands, interaction responses and follow-ups, and logging (discord_bot/discord_bot.go:91-133, 280-336, 480-527). It is I/O against an external service.
- The option lists of the command registrations are not modelled (discord_bot/discord_bot.go:350-447). These are the choice lists, descriptions and min/max bounds that Discord itself enforces.
- `New`'s configuration checks are not modelled (discord_bot/discord_bot.go:70-89). They are construction-time wiring, not interaction decisions.
- The queue and the settings store are opaque. `AddImagine` is a function parameter; its error is only logged by the handlers. `UpdateDefaultDimensions`, `UpdateDefaultBatch`, `GetBotDefaultSettings` and `SetSelectedModel` are represented only by the request the handler makes. Their results and errors lead to I/O only.
- `processChangeModel` first sends a deferred response and returns if that fails. The model keeps only what it does with the selected value.
- The values of `NewQueueItemOptions()` are defined in `imagine_queue`, which is not part of this model. They are an input (`defaults`). Only the fields the bot reads or writes appear in `QueueItemOptions`.
- The Discord interaction handle and the user ID in replies are not modelled. Reply text formatting is not modelled either; the models return the position and prompt the reply shows.
- The CFG scale is a float in the program. It is a `real` that is only copied, never computed with. Seed and steps are taken as integers; their conversion from Discord's float64 is not modelled.
- Choices.EmbeddingChoices: the loaded embeddings are the keys of a Go map. The model takes them as a sequence of distinct names in map-iteration order, which Go leaves unspecified.
- Choices.EmbeddingsOption: on an error from `GetEmbeddings` the code logs it and still reads `embs.Loaded` (discord_bot/discord_bot.go:450-454). That dereference panics if the response is nil, inside `addImagineExtCommand`, which `New` calls (line 120); the bot would not start. The model takes the loaded names as given and does not represent that panic.
- The extended command's options are assumed to arrive with the type they were registered with (`ExtWellTyped`, `PlainWellTyped`); discordgo's value accessors rely on this.
- `stable_diffusion_api/interface.go` and `main.go` are not modelled. The first is a bare interface. The second only wires components; the `discord_bot.Config` it builds omits the Stable Diffusion API (main.go:93-100).
