# LLM-itM core, modelled in Dafny

LLM-itM is an OpenAI-compatible gateway. It sits between a client and an LLM server. Each
chat or completion request goes through an ordered list of middleware units, called
modules, before it is forwarded upstream. A non-streamed reply goes through the same
units on the way back. This project models that pipeline and proves properties of it:

- the unit contract of `BaseModule`:
  - the name comes from the class name;
  - the setting key is `use_<name>`;
  - a unit counts as enabled when its key is missing;
  - a disabled unit is the identity.
- the five shipped units, each a small rewrite of the request's messages or of the
  reply's choices (content moderation, pirate mode, response filtering, translation,
  request logging);
- the module manager's ordered fold and its two builders (`get_module_settings`,
  `get_module_info`);
- the two completion handlers:
  - the request and response phases, with the `update_settings` merge hook;
  - the stream / non-stream branch and the server-sent-event framing;
  - the "client not configured" guard;
- the configuration manager: core settings plus one boolean per unit, and saved values
  merged over the defaults;
- the request monitor: a bounded, most-recent-first record store with lookup by id,
  completion and error updates, limited listing and clearing.

How the source is represented:

- Payloads and settings are decoded JSON (`Values.Json`). A top-level payload is a
  `Dict`.
- A Python exception is a `Raised` result, and it ends the phase that met it.
- Python's `in`, `.get`, truthiness, iteration and `str()` are spelled out in
  `Values`.
- Lower-casing, `str.replace` and `int()` are spelled out in `Text`.
- Where the source loops and overwrites values in place, the model is a method with a
  loop, proved equal to a function that states what the loop computes. The
  properties are then lemmas about that function.
- The request monitor and the configuration manager keep state, so they are classes.

Some behaviours of the code worth knowing:

- The monitor accepts duplicate ids; a lookup returns the newest record with the id.
- Completing or failing a record makes no "still pending" check, so the last call
  wins. Completing does not clear an earlier error.
- The monitor has no operation that replaces the processed request.
- The monitor finds records by a linear scan from the front.
- Content moderation detects banned words case-insensitively but replaces them
  case-sensitively. So "HACK" is detected and left in place.
- The response phase runs with the settings as the request phase left them. The hooks
  of the response phase also merge into those settings.

## Model

| member | source | states |
|---|---|---|
| Base.MissingKeyEnables | modules/base.py:40-47 | a unit whose `get_setting_name()` key is missing is enabled: `is_enabled` returns True |
| Base.StoredValueDecides | modules/base.py:40-47 | `is_enabled` returns exactly the value stored under the `get_setting_name()` key |
| Base.OnlySettingNameMatters | modules/base.py:40-47 | two settings that agree on the `get_setting_name()` key give the same `is_enabled`, whatever else they hold |
| Base.ProcessGate | modules/base.py:20-30 | a disabled unit returns its payload unchanged in both phases; an enabled one returns its `_process_*` result |
| Base.DefaultsAreIdentities | modules/base.py:32-38 | the inherited `_process_request` / `_process_response` return the payload; Translation's response phase is that default |
| Base.NameOfContentModeration | modules/base.py:11 | `ContentModerationModule` lower-cased with "module" removed is "contentmoderation" |
| Base.NameOfPirateMode | modules/base.py:11 | `PirateModeModule` gives "piratemode" |
| Base.NameOfResponseFiltering | modules/base.py:11 | `ResponseFilteringModule` gives "responsefiltering" |
| Base.NameOfTranslation | modules/base.py:11 | `TranslationModule` gives "translation" |
| Base.NameOfRequestLogging | modules/base.py:11 | `RequestLoggingModule` gives "requestlogging" |
| Manager.ProcessAllBy | modules/manager.py:51-53 | the loop over the units, with the gate and the step as parameters, returns the fold of the admitted units, ending at the first exception |
| Manager.ProcessAll | modules/manager.py:49-61 | `process_request` and `process_response` return the left fold of the enabled units' `_process_*`, ending at the first exception |
| Manager.FoldAppend | modules/manager.py:51-53 | folding over `us + vs` is folding over `us`, then over `vs`: units run in list order |
| Manager.FoldRunsEnabledUnits | modules/manager.py:51-53 | the fold equals running, ungated, exactly the enabled units in their order |
| Manager.EnabledUnits | modules/manager.py:51-53 | a unit is listed exactly when it is one of the units and enabled under the settings |
| Manager.AllDisabledIsIdentity | modules/manager.py:51-53 | with every unit disabled, or no units, the payload comes back unchanged |
| Manager.DisabledUnitSkipped | modules/manager.py:51-53 | a unit that is not enabled (for instance, its `use_<name>` is false) contributes nothing wherever it stands in the list |
| Manager.GetModuleSettings | modules/manager.py:42-47 | the loop builds the map of `get_module_settings` |
| Manager.ModuleSettingsShape | modules/manager.py:42-47 | the map holds every unit's `use_<name>` key and no other key, and every value is True |
| Manager.ModuleInfo | modules/manager.py:63-73 | one entry per unit, in unit order |
| Manager.ModuleInfoNames | modules/manager.py:63-73 | each entry has exactly the four keys, its `setting_name` is "use_" + its `name`, and its `class_name` is the unit's class name |
| App.RunPhaseLoopBy | app.py:106-113 | the phase loop checks each unit against the settings the earlier units left, runs it and merges its hook's result |
| App.RunPhaseLoop | app.py:106-113 | the request loop (the same code at 133-139, 159-165, 184-190) computes `RunPhase` for the shipped gate and steps |
| App.Merge | app.py:110-113 | an empty hook result leaves the settings as they are; a non-empty one adds its keys, and its values win |
| App.NoHooksIsManagerFold | app.py:106-113 | when no unit has a hook, a phase gives the manager's fold result (or its error) and leaves the settings unchanged |
| App.SettingsOnlyGrow | app.py:110-113 | a phase never removes a setting; without hooks it changes none |
| App.RunPhaseByAppend | app.py:106-113 | for any gate and steps, running `us + vs` is running `us`, then `vs` from the payload and settings `us` left; an exception in `us` ends the phase |
| App.RunPhaseAppend | app.py:106-113 | the loop runs the units in list order: a phase over `us + vs` is the phase over `us` followed by the phase over `vs` from where it stopped |
| App.HookReachesLaterUnits | app.py:106-113 | after an enabled unit with a hook has run, every later unit of the phase runs against the settings with the hook's result merged in |
| App.HookDisablesLaterUnit | app.py:106-113 | when the merged result of an enabled unit's hook makes a later unit's key falsy, and no unit in between has a hook, that later unit does not run: the phase equals the phase without it |
| App.DisabledHookNotApplied | app.py:107-113 | a unit that is disabled at its turn neither runs nor applies its hook: the settings go on unchanged, and the phase equals the phase without that unit |
| App.Frames | app.py:119-122 | one `data: <chunk>` frame per chunk, in order, followed by exactly one `data: [DONE]` frame |
| App.Generate | app.py:119-122 | the generator loop yields the frames of `App.Frames` |
| App.FramesRoundTrip | app.py:121 | each chunk can be read back from its frame, between the "data: " prefix and the blank line |
| App.HandleRequest | app.py:97-144 | the handler follows the client guard, the request phase, the stream branch, the upstream call and the response phase, and maps any error to a 500 reply |
| App.StreamSkipsResponsePhase | app.py:116-127 | a request whose `stream` is truthy gets the framed upstream chunks, and no response-phase unit runs |
| App.PlainUsesRequestEndSettings | app.py:128-140 | a non-streamed request runs the response phase with the settings as the request phase left them, and returns 200 with the result or 500 with the error |
| App.NoClientFailsFirst | app.py:98-99 | with no client the reply is 500 "OpenAI client not configured", and it depends on neither the units, the settings nor the body |
| ContentModeration.FilterLoop | modules/content_moderation.py:18-21 | the banned-word loop computes `FilterWords`; `hit` holds exactly when some banned word occurs in the lower-cased content, and without a hit the content is unchanged |
| ContentModeration.ModerateOne | modules/content_moderation.py:16-21 | one message of the request loop computes `ModerateMessage`: AttributeError for a non-dict message or a non-str content, otherwise the content is written when a word was detected |
| ContentModeration.ModerateItems | modules/content_moderation.py:16-21 | the loop over the messages maps every message by `ModerateMessage` and stops at the first exception |
| ContentModeration.ProcessRequest | modules/content_moderation.py:11-23 | the message loop computes `ModerateRequest` |
| ContentModeration.KeepOne | modules/content_moderation.py:28-32 | one choice of the response loop computes `KeepChoice` |
| ContentModeration.KeepItems | modules/content_moderation.py:28-32 | the loop over the choices maps every choice by `KeepChoice` and stops at the first exception |
| ContentModeration.ProcessResponse | modules/content_moderation.py:25-34 | the choice loop computes `ModerateResponse` |
| ContentModeration.BannedWordsShape | modules/content_moderation.py:13 | three non-empty lower-case banned words, none of which occurs in "[FILTERED]" or shares its bracket characters |
| ContentModeration.FilterWordsIsReplace | modules/content_moderation.py:18-21 | the detection gate never matters: the inner loop equals replacing every banned word in turn |
| ContentModeration.FilterIsPlainReplace | modules/content_moderation.py:18-21 | filtering a content is `.replace("hack")`, then `.replace("exploit")`, then `.replace("malware")`, each with "[FILTERED]" |
| ContentModeration.ReplaceWordsRemoves | modules/content_moderation.py:21 | after the replacements a replaced word occurs nowhere, and a word absent before stays absent |
| ContentModeration.FilterRemovesBanned | modules/content_moderation.py:18-21 | a filtered content contains no banned word as a case-sensitive substring |
| ContentModeration.FilterKeepsClean | modules/content_moderation.py:18-21 | a content with no banned word (case-sensitively) is left unchanged |
| ContentModeration.UpperCaseIsDetectedButKept | modules/content_moderation.py:17-21 | "HACK" is detected through `.lower()` but left as it is by the case-sensitive replace |
| ContentModeration.FilterExample | modules/content_moderation.py:21 | "tell me about hack tools" becomes "tell me about [FILTERED] tools" |
| ContentModeration.ModerateMessageKeeps | modules/content_moderation.py:17-21 | a message whose content holds no banned word in any case is returned unchanged |
| ContentModeration.ModerateMessageShape | modules/content_moderation.py:16-21 | a processed message keeps its keys, its role and every field except the content. The content is the filtered old content, and a message without content is unchanged |
| ContentModeration.ModerateRequestShape | modules/content_moderation.py:15-21 | message count and order are kept, each message is processed as above, and no other request key changes; a "messages" value that is not a list leaves the request unchanged |
| ContentModeration.ModerateMessageIdempotent | modules/content_moderation.py:16-21 | processing a processed message again changes nothing |
| ContentModeration.ModerateRequestIdempotent | modules/content_moderation.py:15-21 | running the request phase twice gives the result of running it once |
| ContentModeration.ModerateResponseIdentity | modules/content_moderation.py:25-34 | whenever the response phase succeeds, it returns its input unchanged |
| PirateMode.LastUserBelow | modules/pirate_mode.py:16-17 | the backward scan finds the last message whose role is "user". When it finds none, every message it saw was a non-user dict. AttributeError means it met a non-dict before any user message |
| PirateMode.ProcessRequest | modules/pirate_mode.py:11-22 | the backward loop with its `break` computes `PirateRequest` |
| PirateMode.PirateRequestChangesLastUser | modules/pirate_mode.py:12-20 | only the last user message changes, to "Respond like a pirate. " + its old content. Every other message and key is kept. A missing, non-list or empty `messages` leaves the request unchanged |
| PirateMode.UserWithoutContent | modules/pirate_mode.py:18-19 | a last user message without content gets exactly "Respond like a pirate. " |
| PirateMode.LastUserSameRoles | modules/pirate_mode.py:16-17 | the scan depends only on which messages are dicts and which have role "user" |
| PirateMode.PirateRequestTwice | modules/pirate_mode.py:16-19 | a second pass prefixes the same message again: the phase is not idempotent |
| PirateMode.MarkOne | modules/pirate_mode.py:27-29 | one choice of the response loop computes `MarkChoice` |
| PirateMode.MarkItems | modules/pirate_mode.py:26-29 | the loop over the choices maps every choice by `MarkChoice` and stops at the first exception |
| PirateMode.ProcessResponse | modules/pirate_mode.py:24-31 | the choice loop computes `PirateResponse` |
| PirateMode.PirateResponseMarks | modules/pirate_mode.py:25-29 | every choice with `message.content` gets the note appended to its old text, and nothing else in the choice changes. Choices without it, and all other keys, are unchanged |
| PirateMode.MarkedContentEndsWithNote | modules/pirate_mode.py:28-29 | a marked content is the old text followed by "\n\n[Told to respond like a pirate]" |
| Values.ChoiceContent | modules/pirate_mode.py:27 | a content is returned only when the choice is a dict whose "message" dict has "content", and it is that value; conversely such a choice always yields its content, and a dict choice without "message" yields none |
| ResponseFiltering.Trunc | modules/response_filtering.py:32 | `int()` of a float truncates toward zero |
| ResponseFiltering.PrefixMessage | modules/response_filtering.py:17-18 | one message of the prefix loop computes `PrefixIfSystem` |
| ResponseFiltering.PrefixItems | modules/response_filtering.py:16-18 | the loop over the messages maps every message by `PrefixIfSystem` and stops at the first exception |
| ResponseFiltering.PrefixLoop | modules/response_filtering.py:13-18 | the prefix loop computes `PrefixSystem` |
| ResponseFiltering.ProcessRequest | modules/response_filtering.py:11-36 | the three blocks in order compute `FilterRequest` |
| ResponseFiltering.PrefixSystemMessages | modules/response_filtering.py:13-18 | with a truthy prefix, each system message's content becomes prefix + "\n" + its old content. Other messages, the count, the order and all other keys are kept |
| ResponseFiltering.NoPrefixKeepsMessages | modules/response_filtering.py:13-14 | an empty or absent prefix leaves the messages unchanged |
| ResponseFiltering.LimitTokensParses | modules/response_filtering.py:29-34 | a limit whose text parses as an int sets "max_tokens" to that int |
| ResponseFiltering.LimitTokensRoundTrip | modules/response_filtering.py:32 | a limit stored as `str(n)` sets "max_tokens" to n |
| ResponseFiltering.UnparsableLimitSkipped | modules/response_filtering.py:29-34 | a limit that is unset, empty or unparseable leaves "max_tokens" as it was, present or absent |
| ResponseFiltering.UnparsableTemperatureSkipped | modules/response_filtering.py:21-26 | a temperature that is unset, empty or unparseable leaves "temperature" as it was, present or absent |
| ResponseFiltering.FilterRequestKeys | modules/response_filtering.py:11-36 | the request phase adds at most "temperature" and "max_tokens", and changes no key other than those and "messages" |
| ResponseFiltering.FilterResponse | modules/response_filtering.py:38-45 | the response is returned unchanged for every `response_format` |
| Translation.TranslateOne | modules/translation.py:15-16 | one message of the loop computes `TranslateMessage` |
| Translation.TranslateItems | modules/translation.py:14-16 | the loop over the messages maps every message by `TranslateMessage` and stops at the first exception |
| Translation.ProcessRequest | modules/translation.py:11-18 | the loop computes `TranslateRequest` |
| Translation.TranslateRequestShape | modules/translation.py:13-16 | every user message's content becomes "What's a cactus?" and its other fields are kept. Other messages, the count, the order and all other keys are kept, so a request without messages is unchanged |
| Translation.TranslateRequestIdempotent | modules/translation.py:14-16 | translating twice gives the result of translating once |
| RequestLogging.LogRequest | modules/request_logging.py:11-13 | the request is returned unchanged exactly when `len()` accepts its messages (default `[]`); otherwise TypeError is raised |
| RequestLogging.LogResponse | modules/request_logging.py:15-17 | the response is returned unchanged; missing "model" or "usage" never fails |
| Config.ModuleSettingsOf | config_manager.py:59-66 | one setting per unit, in unit order, made by `_add_module_settings` |
| Config.ConfigManager.constructor | config_manager.py:33-55 | the available settings are the eight core settings followed by the unit settings, and the settings are loaded from them |
| Config.ConfigManager.AddModuleSettings | config_manager.py:57-66 | appends exactly the unit settings and changes nothing else |
| Config.ConfigManager.LoadSettings | config_manager.py:68-85 | the merge loop over a saved dict, or the defaults when there is none |
| Config.ConfigManager.SaveSettings | config_manager.py:87-96 | the new settings are kept only when the write succeeds, and the result says which |
| Config.ConfigManager.GetSetting | config_manager.py:98-100 | the stored value of the name, or the default given when the name is absent |
| Config.ConfigManager.GetAllSettings | config_manager.py:102-104 | a copy with the same keys and values as the stored settings |
| Config.ConfigManager.GetSettingsSchema | config_manager.py:106-108 | one `to_dict` per available setting, same length and order |
| Config.MergedKeys | config_manager.py:76-78 | the loaded settings have exactly one key per available setting name; saved keys outside the schema are dropped |
| Config.MergedValue | config_manager.py:76-78 | each setting takes the saved value under its name when there is one, and its default otherwise |
| Config.NoSavedValueMeansDefaults | config_manager.py:85 | with no saved value for any setting, every setting equals its default |
| Config.SameDefault | config_manager.py:85 | a name whose every setting has default v is mapped to v in the defaults |
| Config.CoreNamesAreNotUnitKeys | config_manager.py:41-50 | no core setting is named like a `use_<name>` key |
| Config.DefaultsEnableEveryUnit | config_manager.py:59-66 | under the default settings every unit is enabled |
| Config.DefaultLimitSetting | config_manager.py:42 | the default settings hold the text "2048" under "max_tokens_limit" |
| Config.DefaultTokenLimit | config_manager.py:42 | under the default settings the response-filtering unit sets "max_tokens" to 2048 |
| Monitor.RequestMonitor.constructor | request_monitor.py:48-52 | an empty store of the given capacity, with no emitter |
| Monitor.RequestMonitor.SetSocketio | request_monitor.py:54-56 | attaches or detaches the emitter and changes nothing else |
| Monitor.RequestMonitor.StartRequest | request_monitor.py:58-74 | `appendleft` of a new pending record, bounded by the capacity, and one `request_started` event when an emitter is attached |
| Monitor.RequestMonitor.FindRecord | request_monitor.py:118-123 | the front-first scan returns the first record with the id |
| Monitor.RequestMonitor.CompleteRequest | request_monitor.py:76-86 | marks the found record completed, or does nothing for an unknown id; one event only when the record was found |
| Monitor.RequestMonitor.ErrorRequest | request_monitor.py:88-96 | marks the found record as failed, or does nothing for an unknown id; one event only when the record was found |
| Monitor.RequestMonitor.GetRecords | request_monitor.py:98-104 | a front part of the store, most recent first: all of it for None or 0, `min(limit, n)` records for a positive limit |
| Monitor.RequestMonitor.GetRecord | request_monitor.py:106-110 | the first record with the id, or None exactly when no record has it |
| Monitor.RequestMonitor.ClearRecords | request_monitor.py:112-116 | the store is empty, every lookup returns None, and one `records_cleared` event is emitted when an emitter is attached |
| Monitor.AppendLeft | request_monitor.py:73 | the new record is in front, the old ones follow in order, and the length never exceeds the capacity |
| Monitor.FindFrom | request_monitor.py:118-123 | the index found holds the id and no earlier record does; None means no record has the id |
| Monitor.StartedRecordIsNewest | request_monitor.py:62-73 | after a start the front record is the new one: pending, with no response, duration or error. Looking its id up finds it, even when older records share the id |
| Monitor.FullStoreEvictsOldest | request_monitor.py:73 | at capacity a start drops exactly the last (oldest) record |
| Monitor.ReplayIsNewestFirst | request_monitor.py:73 | after any sequence of starts the store holds min(started, capacity) records, and position i holds the i-th most recent start |
| Monitor.UnknownIdUnchanged | request_monitor.py:80-81 | completing or failing an id not in the store changes nothing |
| Monitor.CompleteChangesOnlyTarget | request_monitor.py:82-85 | completing sets both responses, the duration and status "completed" on the found record only; its error is kept |
| Monitor.FailChangesOnlyTarget | request_monitor.py:92-95 | failing sets the error text, the duration and status "error" on the found record only; its responses are kept |
| Monitor.FindKeepsPlace | request_monitor.py:118-123 | updating a record's other fields does not change which record the scan finds |
| Monitor.LastCallWins | request_monitor.py:76-96 | without a pending check the later of complete and error decides the status |
| Monitor.LimitIsFrontPart | request_monitor.py:101-103 | any limit lists a front part of the store, and a negative limit drops that many records from the back |
| Text.ReplaceRemoves | modules/content_moderation.py:21 | after `s.replace(w, r)`, with `r` unable to form `w`, the word `w` no longer occurs |

## Left out

- Flask routing, the settings page and its template, `/api/settings`, `/v1/models` and the health check are web plumbing. Only the two completion handlers are modelled.
- Module discovery through `pkgutil`, `importlib` and `dir()` is left out: the unit list is a given sequence. The five shipped units are constructors of `Base.Unit`. Any other subclass is `Custom`, and its overrides and `update_settings` hook are function values.
- The OpenAI client is a pair of function values. `Upstream.complete` returns one reply; `Upstream.stream` returns the chunks already serialised. The "client configured" test is an `Option`.
- App.Generate: an error raised by the upstream while chunks are being relayed, after the stream has started, is not modelled. The whole chunk list is a value.
- App.ErrorText: `str(e)` of Python's own exceptions is a stand-in text. The upstream's message is kept as it is.
- Logging calls, and the `logger.info` of the forwarded model at app.py:114, have no effect on results and are left out.
- A request body or a saved config that is not a JSON object is left out: payloads and settings are `Dict`. A saved file that parses to a non-object is covered, as the defaults the `except` falls back to.
- Hooks that mutate the settings they are given, or return something other than a dict, are left out: a hook is a function from settings to a dict.
- The units change the request in place and return it; the model returns the new value. A unit that raises midway leaves a partly changed request in Python, but the handler then only answers 500, so the difference is not visible.
- Values.PyStr: `str()` of a float, list or dict is a stand-in text. Only strings, None, booleans and ints are rendered exactly.
- Text.Lower: only ASCII letters are lower-cased, not the full Unicode mapping of `str.lower()`.
- Text.ParseInt: accepts an optional sign and ASCII digits. It does not accept the surrounding whitespace, underscores or non-ASCII digits that `int()` also accepts.
- Text.ParseDecimal: accepts an optional sign, digits and an optional fraction, as an exact real. Exponents, "inf", "nan", whitespace, underscores, non-ASCII digits and float rounding are not modelled.
- Monitor.Duration: real arithmetic, without float rounding. The clock is a parameter (`now`).
- The monitor's lock is left out: the model is single-threaded.
- `RequestRecord.to_dict` and its `datetime` text are left out. `GetRecords` and `GetRecord` return the records, and events carry the record value.
- The SocketIO emitter is an event log, and the emit timestamp is left out.
- `copy.deepcopy` has no visible effect on values, so `Sanitize` is the identity.
- Config file reading and writing are abstracted. `load_settings` gets what `json.load` returned, or None. `save_settings` gets whether the write succeeded.
- `simple_interface.py` is an interactive command-line client and is not part of this model.
