# scisift core, modelled in Dafny

scisift is a small research-paper assistant. It keeps a store of *analysis profiles*, which are
named records with a description, a list of constraints, an output-style mapping and a
`selected` flag. It sends the paper text, with the active profile's instructions in front of
it, to a chat-completions endpoint. It also defines a cache of paper summaries, keyed by a
digest of the paper content and the profile name, though no code path in the program
constructs or uses it. This project models the store, the request assembly and the cache
class, and proves what they promise.

| Dafny module | file | models |
|---|---|---|
| `Profiles` | `profile_manager.dfy` | `ProfileManager`. A class whose `profiles` list the methods reassign. A ghost `saved` field holds the list the settings file holds: the one read from it or the one last written. Each method is proved against a specification function on the old list (`Created`, `Updated`, `Deleted`, `Activated`, `Repaired`). |
| `ProfileProperties` | `profile_properties.dfy` | What those functions do to the selection flags, the order and the names. |
| `Summaries` | `summary_manager.dfy` | `SummaryManager`. A class whose `summaries` map `save_summary` updates. The MD5 digest is a function parameter. |
| `AiService` | `ai_service.dfy` | `_get_profile_context`, the `"Error:"` contract of `_read_file_content`, the message assembly of `chat_with_ai` and the dispatch of `explain_paper`. The file system and the completions client are function parameters. |
| `AiProperties` | `ai_properties.dfy` | The line structure of the profile context, the error short-circuit and the shape of the outbound message list. |
| `Text`, `Wrappers` | `text.dfy`, `wrappers.dfy` | `str.startswith`, `"\n".join`, `str.split("\n")`, `Option`, and Python truthiness of an optional string (`Given`). |

Conventions:
- A profile record without a `selected` key reads as `selected == false`, as `profile.get("selected", False)` does.
- A raised `ValueError` becomes a `Failed(error)` outcome. The list is then left as it was.
- One exception: `set_active_profile` updates every flag before it checks whether the name existed. So a missing name leaves every profile unselected, and the settings file is not written. The model keeps this behaviour, and `ActivateMissingClearsAll` states it.

## Model

| member | source | states |
|---|---|---|
| `Profiles.DefaultSettings` | profile_manager.py:10-34 | The default settings are one profile, named "Default Profile" and selected, so exactly one profile is selected. |
| `Profiles.ProfileManager.constructor` | profile_manager.py:36-65 | The loaded list is the repaired initial list. The initial list is the default settings for a missing file, a corrupt file, or a file with no or empty `profiles`; otherwise it is the parsed list. The settings file holds the initial list, without the repair. |
| `Profiles.RepairSelection` | profile_manager.py:51-59 | The repair loop computes `Repaired(ps)`: every marked profile after the first is cleared, and if none was marked, index 0 is marked. |
| `ProfileProperties.RepairKeepsFirstSelected` | profile_manager.py:51-59 | The repair changes only flags. Exactly the profile at `KeepIndex` stays selected: the first marked profile, or index 0 when none is marked. A non-empty list ends with exactly one selected. |
| `ProfileProperties.RepairIdentityOnValid` | profile_manager.py:51-59 | A list with exactly one profile selected comes through the repair unchanged. |
| `ProfileProperties.LoadedExactlyOne` | profile_manager.py:36-65 | Whatever the file held, the loaded list is non-empty and exactly one profile in it is selected. |
| `ProfileProperties.LoadFallsBackToDefault` | profile_manager.py:38-49 | A missing file, a corrupt file, or a file without profiles loads as the default settings. |
| `Profiles.ProfileManager.GetAllProfiles` | profile_manager.py:72-74 | Returns the stored list itself. |
| `Profiles.IndexOfName` | profile_manager.py:76-81 | Finds the first index with the name. No earlier entry has it, and `None` means no entry has it. |
| `Profiles.ProfileManager.GetProfileByName` | profile_manager.py:76-81 | The lookup loop returns the first profile with the name, and `None` when there is none. |
| `Profiles.IndexOfSelected` | profile_manager.py:83-88 | Finds the first index marked selected. No earlier entry is marked, and `None` means none is. |
| `Profiles.ProfileManager.GetActiveProfile` | profile_manager.py:83-88 | The loop returns the first selected profile, and `None` when there is none. |
| `ProfileProperties.OnlySelectedIsActive` | profile_manager.py:83-88 | When exactly the profile at `k` is marked, that profile is the active one. |
| `Profiles.ErrorMessage` | profile_manager.py:93 | The `ValueError` text of a `Failed` outcome starts with `Profile '`, then quotes the profile name, closed by `'`; the not-found texts at lines 108, 120 and 139 have the same form. |
| `Profiles.ProfileManager.CreateProfile` | profile_manager.py:90-96 | Fails with `DuplicateName` and changes nothing when the name is taken. Otherwise it appends the profile and the file receives the new list. |
| `ProfileProperties.CreateAppendsUnlessTaken` | profile_manager.py:90-96 | Create fails exactly when some entry has the name. Otherwise the result is the old list followed by the profile, unchanged. |
| `ProfileProperties.CreateKeepsNamesUnique` | profile_manager.py:90-96 | A successful create keeps the names unique. |
| `ProfileProperties.CreateSelectionIff` | profile_manager.py:90-96 | For any store, the count of selected profiles grows by the new profile's flag. From a store with exactly one selected, the one-selected invariant survives exactly when the new profile is selected if and only if the store was empty. |
| `Profiles.ProfileManager.UpdateProfile` | profile_manager.py:98-108 | Fails with `NotFound` and changes nothing when the old name is absent. Otherwise it replaces the first match in place, keeps that entry's flag, and the file receives the new list. |
| `ProfileProperties.UpdateReplacesInPlace` | profile_manager.py:98-108 | Update fails exactly when the old name is absent. Otherwise the length is kept and only the matched position changes, carrying its old flag. The selected count and the invariant are preserved. |
| `Profiles.ProfileManager.DeleteProfile` | profile_manager.py:110-126 | Fails with `NotFound` and changes nothing when the name is absent. Otherwise it removes the first match. If the removed profile was selected and others remain, it selects the new first entry. The file receives the new list. |
| `ProfileProperties.DeleteRemovesFirstMatch` | profile_manager.py:110-126 | Delete fails exactly when the name is absent. Otherwise the list shrinks by one and keeps the other entries in order. Only the flag of the new first entry may change. |
| `ProfileProperties.RemoveAt` | profile_manager.py:117 | `del profiles[i]` keeps the entries before `i` and shifts the later ones down by one. |
| `ProfileProperties.DeleteUnselectedKeepsFlags` | profile_manager.py:122-124 | Deleting an unselected profile touches no flag: the result is exactly the list without that entry, so the new first entry keeps its flag. |
| `ProfileProperties.DeletePreservesOneSelected` | profile_manager.py:110-126 | Delete keeps the one-selected invariant. |
| `ProfileProperties.DeleteActiveSelectsFirstRemaining` | profile_manager.py:122-124 | Deleting the active profile while others remain makes the first remaining profile selected and active. |
| `Profiles.ProfileManager.SetActiveProfile` | profile_manager.py:128-141 | Every flag becomes "name equals the given name". A found name reports `Done` and saves. A missing name reports `NotFound`, and the file is left as it was. |
| `ProfileProperties.ActivatedFlags` | profile_manager.py:131-136 | Activation changes only flags. An entry ends up marked exactly when it has the name. |
| `ProfileProperties.ActivateExistingSelectsOne` | profile_manager.py:128-141 | With unique names, activating an existing name leaves exactly that profile selected, and it is the active one. |
| `ProfileProperties.ActivateMissingClearsAll` | profile_manager.py:130-139 | Activating a missing name leaves no profile selected and none active. A non-empty store then breaks the one-selected invariant. |
| `ProfileProperties.CreateThenActivate` | profile_manager.py:90-141 | Creating a profile and then activating its name makes it the active profile. |
| `Profiles.ProfileManager.GetProfileConstraints` | profile_manager.py:143-153 | Returns the constraints of the profile selected by `ConstraintsFor`. |
| `ProfileProperties.ConstraintsLookup` | profile_manager.py:143-153 | A non-empty name looks up by name; no name or an empty one uses the active profile. Either lookup finding nothing gives the empty list. |
| `Summaries.SummaryManager.constructor` | summary_manager.py:7-20 | A parsed file gives its entries. A missing or corrupt file gives the empty cache. Nothing is written, so the file still holds what was read (no map for a missing or corrupt file). |
| `Summaries.Fingerprint` | summary_manager.py:27-32 | The key is the digest of the content followed by the profile name when that name is non-empty, and of the bare content otherwise. |
| `Summaries.NoneAndEmptyProfileShareKey` | summary_manager.py:27-32 | A `None` profile name and an empty one give the same key, the digest of the bare content. |
| `Summaries.SameConcatenationSameKey` | summary_manager.py:27-32 | The key depends only on the digested text, content followed by the profile name when one is given. Two pairs with the same such text share a key, whether or not either has a profile name (for example `("abP", None)` and `("ab", "P")`). |
| `Summaries.DistinctProfilesDistinctKeyText` | summary_manager.py:27-32 | For the same content, distinct effective profile names give distinct texts to digest. |
| `Summaries.SummaryManager.GetSummary` | summary_manager.py:34-37 | Returns a value exactly when the pair's key is in the cache, and the value is the stored summary. |
| `Summaries.SummaryManager.SaveSummary` | summary_manager.py:39-43 | Overwrites the pair's key and keeps every other entry. Reading the pair back gives the summary. The file receives the new map. |
| `Summaries.SaveThenGet` | summary_manager.py:34-43 | After a save, the saved pair reads back its summary. A pair with a different key reads what it read before. |
| `AiService.ProfileContext` | ai_service.py:14-28 | No active profile gives `""`. An active profile gives text that starts with the preamble line. |
| `AiProperties.ProfileContextLines` | ai_service.py:19-27 | Split at newlines, the context is: the preamble; the name, description and constraints-header lines; one `- c` line per constraint; the output-style header; one `- k: v` line per style entry; an empty line and the trailing indentation. Only the first line of each joined block is indented. |
| `AiProperties.ProfileContextNamesProfile` | ai_service.py:19-27 | The context has seven fixed lines plus one line per constraint and per style entry (one line for an empty block). Line 1 names the profile, line 2 describes it, and line `4 + i` gives constraint `i`. |
| `Text.SplitJoin` | ai_service.py:23-25 | Splitting `"\n".join(xs)` at newlines gives back `xs` when no element holds a newline. |
| `AiService.ReadFileContent` | ai_service.py:30-56 | Decoded text comes back unchanged. A decode failure and any other read failure give strings that start with `Error:`. |
| `AiService.ChatWithAi` | ai_service.py:58-95 | The reply and the request sent match `ChatPlan`. An error string from the file read comes back and nothing is sent. Otherwise the planned request is sent once and the client's answer comes back. |
| `AiProperties.ShortCircuitIff` | ai_service.py:61-64 | Nothing is sent exactly when a file path is given and its content string starts with `Error:`. The returned text is that string. |
| `AiProperties.ReadFailureShortCircuits` | ai_service.py:53-64 | Every read failure short-circuits with its error string. |
| `AiProperties.ErrorLookingFileShortCircuits` | ai_service.py:61-64 | A readable file whose own text starts with `Error:` is also returned as if it were an error. |
| `AiProperties.OutboundShape` | ai_service.py:69-89 | The outbound list replays every history turn but the last, in order, with role and content. It then ends in exactly one user message holding the full message. |
| `AiProperties.SentUserText` | ai_service.py:58-94 | A sent request uses the given model. Its last message is the user turn: the profile context (when `use_profile` is set), then the file prefix and content (when a file is given), then the message. |
| `AiProperties.NoActiveProfileNoPrefix` | ai_service.py:14-17 | With no active profile, `use_profile` changes nothing in what is sent. |
| `AiService.ExplainPaper` | ai_service.py:97-103 | A `"file"` kind plans the analyze message with the paper path. Any other kind plans the URL message with no file. Both use the profile and no history. |
| `AiProperties.ExplainUrlAlwaysSends` | ai_service.py:101-103 | A paper given by URL always sends one user message: the profile context, then the URL message, with `None` printed for an absent URL. |

## Left out

- JSON reading and writing: the file contents before loading are the `SettingsFile`/`SummaryFile` parameters, and every write is recorded in the ghost field `saved`. The indentation and key order of the written JSON are not modelled.
- Malformed files: the model's datatypes admit only well-formed records. In the source, a settings file whose top-level JSON value is not an object (a list, `null`) makes `settings.get` raise `AttributeError` while loading (profile_manager.py:47), and so does a profile entry that is not an object, at `profile.get` (line 53). A profile without `name` loads without error and raises `KeyError` later, when a name is compared (lines 79, 102, 115, 132). A profile without `name`, `description`, `constraints` or `outputStyle` also raises `KeyError` when it is the active one and the context is built (ai_service.py:20-25). A summaries file holding a list loads, then fails on the first lookup or save (summary_manager.py:37, 42).
- Default arguments: `model` is always passed explicitly. Callers that omit it get `"google/gemini-2.0-flash-001"` in the source (ai_service.py:58, 97).
- The MD5 hex digest is the uninterpreted parameter `digest`. No collision-freedom is assumed, so key distinctness is proved only for the text digested.
- The completions client (`client.chat.completions.create`) is the parameter `complete`; the environment-driven client setup is not modelled. The request's content list of one `{"type": "text"}` part is the single `text` field of `Message`.
- File reading (mimetype guessing, PyPDF2 page extraction, UTF-8 decoding) is the parameter `readFile`, which yields decoded text, a decode error or another failure with its message.
- Aliasing: the source hands out and stores the callers' dicts, so a caller mutating a returned profile, or `update_profile` setting `selected` on the caller's `new_profile`, changes shared state. The model works on values.
- `str(v)` is modelled for the string and boolean style values the store holds. Other JSON values (numbers, lists) are not modelled.
- AiProperties.ProfileContextLines: requires that the profile's fields hold no newline, because a newline inside a field would add lines of its own.
- AiProperties.ProfileContextNamesProfile: requires the same, for the same reason; the line positions it states hold only for profiles whose fields hold no newline.
- AiService.ChatWithAi: the client `complete` always returns a string. A transport error raised by the call (ai_service.py:91-95) is not modelled, nor is a `None` message content, which the source returns unchanged.
- AiService.ExplainPaper: inherits the same assumption about the client from `ChatWithAi`.
- Profiles.ProfileManager.CreateProfile: a failing `_save_profiles` raises after the in-memory list has changed (profile_manager.py:95-96); the model reports `Done`.
- Profiles.ProfileManager.UpdateProfile: the same for the write at profile_manager.py:105-106.
- Profiles.ProfileManager.DeleteProfile: the same for the write at profile_manager.py:123-126.
- Profiles.ProfileManager.SetActiveProfile: the same for the write at profile_manager.py:141.
- Profiles.ProfileManager.constructor: only `json.JSONDecodeError` is caught (profile_manager.py:61). An existing settings file that cannot be opened or decoded (a directory, a permission error, bytes invalid in the locale encoding) raises out of `__init__` at profile_manager.py:44-45 rather than falling back to the defaults, and since ai_service.py:12 builds the store at import, the program then fails to start. `SettingsFile` has no such case.
- Profiles.ProfileManager.constructor: a failing write of the default settings while loading (profile_manager.py:40, 49, 64) is not modelled.
- Summaries.SummaryManager.constructor: only `json.JSONDecodeError` is caught (summary_manager.py:19). An existing summaries file that cannot be opened or decoded raises out of `__init__` at summary_manager.py:17-18 rather than giving the empty cache. `SummaryFile` has no such case.
- Summaries.SummaryManager.SaveSummary: a failing `_save_summaries` raises after the map has changed (summary_manager.py:42-43); the model always completes.
- In the source, no module constructs or calls `SummaryManager`: neither `ai_service.py` (so `explain_paper` and `chat_with_ai` never consult it) nor the GUI, CLI or entry point imports it. The model therefore connects the cache to no other operation. Also, `create_profile` does not fill in missing output-style defaults. The model follows the code on both points.
- The Tkinter GUI (`gui_app.py`), the CLI (`cli_app.py`) and `main.py` are not part of this model.
