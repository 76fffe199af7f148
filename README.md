# MetaGPT artifact engine core, modelled in Dafny

This project models four small pieces of the MetaGPT fork that drives
software roles through versioned artifacts. It proves properties of each
piece.

- **Base action** (`metagpt/actions/action.py`, module `Actions`):
  - the canonical section serialiser `_parsed_to_str`;
  - the right-biased merge of the old and new section maps in `_parse_result`, which stages exactly one pending revision;
  - `process_task`, `set_prefix` and `commit`.

  The serialiser is a loop method, `Action.ParsedToStr`. It is proved equal to the specification function `Render`, and the properties of `Render` are proved as lemmas.
- **Environment** (`metagpt/environment.py`, module `Environments`):
  - the role registry keyed by profile;
  - the history string;
  - the FIFO queue of "artifact committed" events.

  It is a class whose methods update its fields. Specification functions (`RegisterAll`, `Step`, `Replay`) carry the lemmas: last role wins per profile, and delivery is in publication order.
- **Code-artifact fan-out** (`metagpt/my_actions/write_code.py`, module `WriteCode`):
  - `create_artifacts` creates one new CODE artifact per design file entry and registers two WRITE_CODE watches for each;
  - the `Dependency_Update` decision of `_get_prompt_`.

  Paths are modelled the way pathlib holds them, as a list of parts: `/` appends parts, and an absolute right-hand side replaces the left. `.name` and `.parent.name` are the last two parts. Three lemmas describe when the lookup key `'/<artifact.path>/<artifact.name>'` finds the entry an artifact was created from:
  - it does for entries of the form `/<dir>/<name>`;
  - it never does for relative entries;
  - it never does for entries nested two directories deep.
- **Driver** (`metagpt/software_company.py`, module `Company`):
  - the type-to-action message table;
  - the budget check and `invest`;
  - the round loop of `run`, with each environment step abstracted to its cost.

  `RoundsCharacterised` proves that a run stops at the first round whose balance check sees a cost above the budget. Otherwise it performs exactly `n_round` steps, and none when `n_round <= 0`.

Module `Schema` holds the shared records (artifacts, events, tasks, messages). It also holds a log-keeping stand-in for the artifact manager, whose code is not part of this model. Module `Common` holds the Option and Result wrappers.

The literal comparison `file.action == 'Update'` is kept as written. An entry whose action is `'Updated'` (the value the design prompts list) therefore leads to the no-action answer.

## Model

| member | source | states |
|---|---|---|
| Actions.Action.ParsedToStr | metagpt/actions/action.py:126-138 | with no output mapping it fails; otherwise its result is `Render` of the mapping, so the serialisation is the blocks of the mapping's entries in mapping order |
| Actions.RenderOkIff | metagpt/actions/action.py:128-133 | serialisation succeeds if and only if every mapping entry has a `'type'` and a value in the parsed map |
| Actions.RenderErrIsFirstFailure | metagpt/actions/action.py:128-133 | a failed serialisation reports the first entry, in mapping order, that lacks a type or a value, and the type is checked first |
| Actions.RenderSplitAt | metagpt/actions/action.py:127-137 | a successful serialisation has exactly one block per entry, in mapping order: `## <key>\n`, then for a non-`text` type the fence, the value and the closing fence, and for `text` the value and a blank line |
| Actions.RenderAppend | metagpt/actions/action.py:126-138 | serialising a concatenated mapping concatenates the serialisations, and the first error wins |
| Actions.RenderReadsOnlyMappingKeys | metagpt/actions/action.py:128-133 | two parsed maps that agree on the mapping's keys serialise identically, so the result does not depend on extra keys or key order in `parsed` |
| Actions.PrdNeedsEverySection | metagpt/my_actions/write_prd.py:89-95 | under the PRD action's mapping, serialisation succeeds exactly when all five sections were parsed |
| Actions.Merge | metagpt/actions/action.py:116-118 | `old \| new`: the keys of either side; a key of the new parse takes the new value; a key only in the old parse keeps the old value |
| Actions.MergeAssociative | metagpt/actions/action.py:118 | merging in stages equals merging at once |
| Actions.Action.ParseResult | metagpt/actions/action.py:113-124 | the artifact's instruct content becomes the right-biased merge of the parse of the working text and the parse of the new text; the result is the merge's serialisation; on success exactly that string is appended to `pending_content`, and on a serialisation error nothing is appended |
| Actions.Action.ProcessTask | metagpt/actions/action.py:148-158 | binds action, task and artifact in the context; with an empty or absent description it returns `artifact.content` and leaves pending content and instruct content unchanged; with one it behaves as `ParseResult` on the generated reply; content and sub-type are never changed |
| Actions.Action.Commit | metagpt/actions/action.py:165-171 | publishes exactly one event carrying the context's artifact and clears task, action and artifact in the context; the environment's roles, bindings, memory, history and task queue are unchanged; with no artifact it fails and changes nothing |
| Actions.Action.SetPrefix | metagpt/actions/action.py:50-53 | sets prefix and profile |
| Actions.Action.constructor | metagpt/actions/action.py:36-47 | empty prefix and profile; the output mapping is the one a concrete action installs (the base class leaves it `None`) |
| Environments.Environment.constructor | metagpt/environment.py:26-33 | no roles, empty history, empty queues |
| Environments.Environment.AddRole | metagpt/environment.py:48-53 | stores the role under its profile, replacing any role with that profile; binds the role to the environment; nothing else changes |
| Environments.Environment.AddRoles | metagpt/environment.py:55-60 | equals `add_role` for each role in order (`RegisterAll`), and keeps every role stored under its own profile |
| Environments.RegisterAllLastWins | metagpt/environment.py:55-60 | after `add_roles`, a profile maps to the last role carrying it; profiles no new role carries keep their old entry; no other profile appears |
| Environments.RegisterAllKeyedByProfile | metagpt/environment.py:52-53 | registering roles keeps every role stored under its own profile |
| Environments.Environment.GetRole | metagpt/environment.py:94-98 | returns the stored role for a present name and None for an absent one; a returned role's profile is the name |
| Environments.Environment.PublishMessage | metagpt/environment.py:62-68 | adds the message to memory and appends `"\n"` and the message's text to the history; nothing else changes |
| Environments.Environment.PublishEvent | metagpt/environment.py:100-101 | appends the event at the tail, which is one `Publish` step of the queue; earlier entries and the rest of the state are unchanged |
| Environments.Environment.GetNextEvent | metagpt/environment.py:103-104 | on an empty queue returns None and leaves the queue unchanged; otherwise returns the head and removes only it |
| Environments.DeliveryIsFifo | metagpt/environment.py:100-104 | for any mix of publishes and pops, the events delivered followed by those still queued are the initial queue followed by the published events, in order |
| Environments.DeliveredIsPrefix | metagpt/environment.py:100-104 | the delivered events are a prefix of the initial queue followed by the published events |
| Schema.ArtifactMgr.CreateArtifact | metagpt/my_actions/write_code.py:90 | `create_artifact` hands out a new artifact of the given kind, name and path, and records it |
| Schema.ArtifactMgr.AddWatch | metagpt/my_actions/write_code.py:93-94 | `add_watch` records one upstream-downstream-kind edge |
| WriteCode.CreateCodeArtifact | metagpt/my_actions/write_code.py:89-94 | one loop iteration: a new CODE artifact named after the file path, with the entry's type as sub-type, watched first by the design and then by the system design |
| WriteCode.CreateArtifacts | metagpt/my_actions/write_code.py:82-97 | returns one new CODE artifact per file entry, in entry order and all distinct; each is named `path.name`, placed at `path.parent.name` and typed with its entry's type; the manager records exactly these artifacts and, per artifact, the design's and then the system design's WRITE_CODE watch |
| WriteCode.WatchesForAt | metagpt/my_actions/write_code.py:93-94 | the watches registered are two per artifact, in order: watch 2i from the design and watch 2i+1 from the system design, both on artifact i |
| WriteCode.ExactlyTwoWatches | metagpt/my_actions/write_code.py:93-94 | each new artifact is the downstream of exactly two of the registered watches |
| WriteCode.ComponentsJoin | metagpt/my_actions/write_code.py:89 | joining two relative path strings with '/' concatenates their parts |
| WriteCode.PackageDirComponents | metagpt/my_actions/write_code.py:89 | `src/main/java/<package>` has the parts src, main, java, then the package's own parts |
| WriteCode.CodeFileParts | metagpt/my_actions/write_code.py:89 | for a relative file path, the file's parts are the root's, then src, main, java, the package's parts and the file path's parts |
| WriteCode.RelativeFileTarget | metagpt/my_actions/write_code.py:89-90 | for a relative file path, the artifact's name is the path's last part; its path is the part before that, or for a bare file name the package's last part, or `java` when the package is empty |
| WriteCode.AbsoluteFileTarget | metagpt/my_actions/write_code.py:89-90 | an absolute file path discards the root and the package directory: name and path come from the file path alone |
| WriteCode.FirstMatch | metagpt/my_actions/write_code.py:71-72 | finds the first entry whose path equals the key, or reports that none does |
| WriteCode.GetPrompt | metagpt/my_actions/write_code.py:59-79 | `Dependency_Create` takes the template branch; other types except `Dependency_Update` delegate; `Dependency_Update` is decided by the first entry whose path is `/<artifact.path>/<artifact.name>`: delegate if its action is the literal `'Update'`, no action for any other value, None when no entry matches |
| WriteCode.DirFileEntryMatchesItsArtifact | metagpt/my_actions/write_code.py:72 | an entry of the form `/<dir>/<name>` is found again by the artifact created from it |
| WriteCode.RelativeEntryNeverMatches | metagpt/my_actions/write_code.py:72 | a relative entry path is never found by the artifact created from it, because the key starts with '/' |
| WriteCode.NestedEntryNeverMatches | metagpt/my_actions/write_code.py:72 | an entry `/<a>/<b>/<name>` is never found by the artifact created from it, because the artifact keeps only the directory `b` |
| Company.CheckBalance | metagpt/software_company.py:44-46 | fails with the cost and the budget if and only if the total cost strictly exceeds the budget |
| Company.ExactBudgetPasses | metagpt/software_company.py:45 | a cost equal to the budget passes |
| Company.ArtifactMsg | metagpt/software_company.py:65-71 | RAW, PRD and DESIGN map to add-requirement, write-PRD and write-design; the content is the prompt when it is truthy, else the artifact's content; any other type is a key error |
| Company.RoundsCharacterised | metagpt/software_company.py:76-85 | the round loop ends out of money if and only if some round's check sees a cost above the budget, and then at the first such round; otherwise it performs exactly `n_round` steps, none when `n_round <= 0` |
| Company.SoftwareCompany.Run | metagpt/software_company.py:76-85 | the loop follows `Rounds`: the total cost after the steps taken, the history when all rounds ran, and the NoMoney error of the first failed check otherwise; the budget is unchanged |
| Company.SoftwareCompany.Invest | metagpt/software_company.py:38-42 | the investment and the configured budget both become the amount; the total cost is unchanged |
| Company.SoftwareCompany.Hire | metagpt/software_company.py:34-36 | adds the roles as `add_roles` does: `RegisterAll` of the roles, each bound to the environment in order; memory, history, event and task queues unchanged |
| Company.SoftwareCompany.constructor | metagpt/software_company.py:26-27 | the investment starts at 10.0 |

## Left out

- The language-model calls (`_aask`, `_aask_v1`, `_aask_v2`, `Action.run`, `comment`, `WriteCode.write_code`) and their simulate/record plumbing are left out, because they are network and file I/O. The reply that `process_task` parses is the parameter `generated`.
- `OutputParser.parse_data_with_mapping` is a function parameter `parse`, because its code is not shown. No parse/serialise round trip is claimed.
- `ActionOutput.create_model_class` and `output_class(**combined_data)` are left out, because that pydantic code is not shown. The artifact's instruct content holds the merged map itself, and validation errors are not modelled.
- `artifact.new_content()` is the parameter `working`, because the artifact's code is not part of this model.
- Section values are modelled by the text `f'{value}'` gives them.
- Actions.Action.ParseResult: requires an output mapping to be set, because what `create_model_class` and the parser do with `None` is not shown. `ParsedToStr` alone models the `None` case as an error.
- Actions.Action.ProcessTask: requires an output mapping when the description is truthy, for the same reason.
- `process_task` also builds a prompt with `_get_prompt`, which the base action leaves empty. That prompt only feeds the language model and is left out.
- `task.artifact.load` and `artifact.save` are left out (file I/O).
- `Environment.init` reads `artifacts.json` and `Environment.run` gathers the roles' coroutines. Both are left out (I/O and concurrency). So are `get_roles` and the `workspace`, `artifact_mgr` and `single_step` fields.
- `Role.set_env` and `Memory.add` are recorded as logs, `boundRoles` and `memory`, because their code is not part of this model.
- `str(message)` is the function parameter `show` of `PublishMessage`.
- The artifact manager (`create_artifact`, `add_watch`, `get`) and `get_dependency_by_type` are not part of this model. `ArtifactMgr` is a log-keeping stand-in: a created artifact is new and carries the given kind, name and path.
- `create_artifacts` reads the file list, the package name and the system design from other objects. These are taken as parameters, as is the workspace root.
- WriteCode.CreateArtifacts: computes all file paths before the loop instead of inside it. The computation is pure, so the artifacts, names and watches are the same.
- Paths follow POSIX pathlib without its special case for a leading `//`.
- The `Dependency_Create` branch of `_get_prompt_` reads an example file and formats a template. It is modelled only as the decision to take that branch.
- Delegation to the base `_get_prompt_`, whose code is not shown, is modelled as the decision `Delegate`.
- WriteCode.GetPrompt: assumes a `PromptType` with the members `Dependency_Create`, `Dependency_Update` and `No_Action`, and a base-class `_get_prompt_`. The `PromptType` in metagpt/actions/action.py has only `Task` and `Comment`, and the base `Action` defines only an async `_get_prompt`. Read against that file, `_get_prompt_` would fail on its first enum lookup. The model follows the newer interface that write_code.py is written against.
- `_get_prompt_` takes the file list as a parameter instead of looking up the design.
- `start_project`, `run_project_one_step`, `load_artifact` and `_save` are left out (I/O and async glue).
- Company.SoftwareCompany.Run: one environment step is modelled only by its cost, `cost(k)`, added to the total cost. The messages the roles publish during a step are not modelled, so the returned history is the history at the start.
- The budget values are Python floats. They are modelled as reals, because only one comparison and additions are involved.
- `NoMoneyException`'s message text is modelled by the two numbers it reports.
- `_get_artifact_msg` receives `artifact.type` as the string key the table is indexed with. Message fields other than content and `cause_by` are not modelled.
