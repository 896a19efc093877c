# RPG game backend: verified model of the story store, user registry, request checks and mode statistics

This project models in Dafny the parts of the RPG game backend that decide
what is stored and what is answered. It proves the promises those parts
make.

- **Story-element vote store** (`api/rpg_stories.py`). A JSON file holds a
  list of `{id, category, element, love, skip}` records. The file is seeded
  once from a catalog of six categories with eight prompts each. The seed
  is primed with 15 random love votes and 8 random skip votes. After that,
  every query reads the whole list and every vote rewrites it.
  - The file is the field `file` of the class `StoryElements.StoryStore`.
    It is either missing, unreadable, or holding a list.
  - Initialisation and voting are methods on it.
  - The queries are functions of the list that reading the file gives.
- **In-memory user registry** (`rpg.py`). The class `UserModel` holds a
  `users` list and a `next_id` counter. The registration handler
  (`DataAPI.post`) and the login handler (`LoginAPI.post`) work against
  it.
- **Request checks of the RPG handlers** (`api/rpg_api.py`). These are
  everything the handlers decide before they touch a database:
  - the first missing registration field;
  - character creation's "all fields are required" rule;
  - the ordered lists of missing fields of the quest and key-binding
    handlers, where `jumpKey` is required only outside cozy mode and a
    blank mode means `action`;
  - the template analysis used when no text-generation key is available.
- **Mode-selection statistics** (`ModeStats.StatsDb`). A `statistics`
  table holds per-mode counters and a `history` table holds selections.
  Both are sequences of rows in insertion order. The SQL statements become
  functions on rows. The same machine appears three times in the
  repository, with the same statements and the same control flow:
  - `api/rpg_stats_api.py:26-170`;
  - `api/rpg_api.py:1084-1206`, plus the legacy `/api/stats` routes at
    1232-1280;
  - `api/backend.py:29-160`.

  The rows below cite `api/rpg_stats_api.py`. The matching lines in the
  other two copies are:

  | operation | rpg_api.py | backend.py |
  |---|---|---|
  | initialisation | 1084-1108 | 29-58 |
  | `get_statistics` | 1112-1141 | 61-94 |
  | `record_selection` | 1158-1187 | 107-139 |
  | `reset_stats` | 1191-1206 | 143-160 |

  `backend.py` does not declare `mode` `UNIQUE`. This makes no
  difference, because only the initialisation inserts statistics rows,
  and it does so only into an empty table.

Python behaviour is modelled explicitly where it matters:
- `max(key=...)` returns the first maximal element.
- `sorted(set(...))` gives the strictly ascending list under code-point
  order.
- `str.strip()` removes every character `str.isspace` accepts.
- `not v` is true of an absent value and of `""`.
- A request body is `None` (no JSON) or a map from field names to strings.

Random draws, UTC timestamps and the file's existence and readability are
parameters or state of the model.

## Model

| member | source | states |
|---|---|---|
| `PyStrings.LessIrreflexive` | api/rpg_stories.py:231 | the code-point order `sorted` uses is irreflexive |
| `PyStrings.LessTransitive` | api/rpg_stories.py:231 | the order is transitive |
| `PyStrings.LessTotal` | api/rpg_stories.py:231 | any two different strings are ordered one way or the other |
| `PyStrings.LessAsymmetric` | api/rpg_stories.py:231 | no two strings are each less than the other |
| `PyStrings.Insert` | api/rpg_stories.py:230-231 | adding a category to an ascending duplicate-free list keeps it ascending and duplicate-free, with exactly the old members plus the new one |
| `PyStrings.AscendingUnique` | api/rpg_stories.py:231 | two strictly ascending lists with the same members are equal, so `sorted(set(...))` has one answer |
| `Requests.LStrip` | api/rpg_api.py:260 | the result is a suffix of the input, what was dropped is all whitespace, and the result does not start with whitespace |
| `Requests.RStrip` | api/rpg_api.py:260 | the result is a prefix of the input, what was dropped is all whitespace, and the result does not end with whitespace |
| `Requests.Strip` | api/rpg_api.py:260-263 | `strip()` gives `""` exactly when every character is whitespace; a non-empty result neither starts nor ends with whitespace |
| `Requests.FirstMissing` | rpg.py:79-81 | none exactly when every field is present and non-empty; otherwise the first field in list order that is absent or empty |
| `Requests.CheckRequired` | rpg.py:75-81 | "no data" exactly for a null or empty body; otherwise the first missing field; complete exactly when the body is non-empty and every field is present and non-empty |
| `Requests.Blanks` | api/rpg_api.py:483-489 | the missing list is never longer than the field list |
| `Requests.BlanksEmpty` | api/rpg_api.py:482 | the missing list is empty exactly when every value is non-empty (`all([...])`) |
| `Requests.BlanksMembers` | api/rpg_api.py:483-489 | a name is in the missing list exactly when one of its positions has an empty value |
| `Requests.BlanksConcat` | api/rpg_api.py:640-648 | the missing list of two lists of fields joined is the two missing lists joined, so the field order is kept |
| `Requests.BlanksSix` | api/rpg_api.py:483-489 | six successive `if not v: missing.append(name)` steps build exactly the missing list of the six fields |
| `UserRegistry.UserModel.constructor` | rpg.py:13-28 | the registry starts with John Doe (id 1) and Jane Smith (id 2), `next_id` is 3, and the invariant holds |
| `UserRegistry.UserModel.Read` | rpg.py:30-32 | `read()` returns the user list itself |
| `UserRegistry.UserModel.Create` | rpg.py:34-50 | a taken GitHub id gives `None` and no change; otherwise one user with the current `next_id` and the body's fields is appended and `next_id` goes up by one; unique GitHub ids, distinct ids and ids below `next_id` are preserved |
| `UserRegistry.UserModel.FindUser` | rpg.py:52-59 | `None` exactly when no user carries all three credentials; otherwise the first user that does |
| `UserRegistry.RegisterPost` | rpg.py:70-92 | 400 for an empty body and 400 naming the first missing of FirstName, LastName, GitHubID, both with no change; 409 with no change for a taken GitHub id; otherwise 201 with the new user, whose id is the old `next_id` and whose names and GitHub id are the body's, appended |
| `UserRegistry.LoginPost` | rpg.py:96-120 | 400 exactly for an empty body or an absent or empty credential; otherwise 200 with the first user matching all three credentials, or 401 exactly when none matches |
| `RpgApi.RpgRegistrationCheck` | api/rpg_api.py:184-190 | 400 for an empty body; otherwise the field reported is the first missing one of FirstName, LastName, GitHubID, Password; the lookup is reached exactly when all four are present and non-empty |
| `RpgApi.CheckCharacter` | api/rpg_api.py:259-268 | no body is the error path; 400 exactly when one of name, motivation, fear, secret is empty after stripping; otherwise the four stripped answers and the unstripped mode defaulting to `action` |
| `RpgApi.BasicAnalysis` | api/rpg_api.py:449-454 | the analysis begins with the character's name; the cozy template follows exactly when the mode is `cozy`, the action template exactly when it is not |
| `RpgApi.QuestMissingList` | api/rpg_api.py:483-489 | the six appends build the missing fields in the order title, location, objective, difficulty, reward, userGithubId |
| `RpgApi.QuestDecision` | api/rpg_api.py:482-491 | 400 exactly when one of the six stripped fields is empty, with exactly the ordered missing list; otherwise the quest to insert |
| `RpgApi.QuestPost` | api/rpg_api.py:463-491 | no body is the error path; 400 exactly when the ordered missing list of the stripped fields is non-empty, and it is that list; otherwise the stripped fields and the unstripped mode defaulting to `action` |
| `RpgApi.EffectiveMode` | api/rpg_api.py:580 | the mode the handler works in is never empty and is either `action` or the stripped `gameMode` |
| `RpgApi.ComputedModeIsEffective` | api/rpg_api.py:580 | stripping `gameMode` (default `action`) and falling back to `action` when the result is blank gives exactly the effective mode |
| `RpgApi.RequiredKeyFields` | api/rpg_api.py:640-648 | `jumpKey` is required exactly when the mode is not `cozy`, after the six fields every mode requires |
| `RpgApi.KeyBindingBaseMissing` | api/rpg_api.py:640-646 | the six appends build the missing fields in the order userGithubId, moveUpKey, moveLeftKey, moveDownKey, moveRightKey, interactKey |
| `RpgApi.KeyBindingDecision` | api/rpg_api.py:640-651 | 400 exactly when a field the mode requires is empty, with those fields in order and `jumpKey` last and only outside cozy mode; otherwise accepted |
| `RpgApi.KeyBindingPost` | api/rpg_api.py:574-651 | no body is the error path; otherwise `strip()` then `or 'action'` yields the effective mode (the stripped mode when present and not blank, else `action`), and the decision is taken on the stripped fields in that mode |
| `StoryElements.Incremented` | api/rpg_stories.py:191 | a vote raises the chosen counter by one and leaves the other counter, the id and the texts alone |
| `StoryElements.CategoryRecords` | api/rpg_stories.py:119-127 | the inner loop gives one record per text of the category, numbered on from `start`, with zero counters |
| `StoryElements.SeedRecords` | api/rpg_stories.py:116-127 | the nested loops give records whose ids are their positions, with zero counters |
| `StoryElements.SeedRecordsLength` | api/rpg_stories.py:116-127 | with eight texts per category, the nested loops give eight records per category |
| `StoryElements.SeedRecordAt` | api/rpg_stories.py:116-127 | with eight texts per category, record `8*j+k` is text `k` of category `j` with id `8*j+k` and zero counters |
| `StoryElements.CatalogShape` | api/rpg_stories.py:10-72 | the catalog has six categories of eight texts: 48 records once seeded |
| `StoryElements.Bump` | api/rpg_stories.py:191 | exactly one counter of exactly one record goes up by one; every other record and field stays |
| `StoryElements.Primed` | api/rpg_stories.py:130-135 | priming keeps the length, the ids, the texts and the other counter |
| `StoryElements.TotalUpdate` | api/rpg_stories.py:191 | replacing one record changes a counter's total by the difference of that record's counter |
| `StoryElements.TotalZero` | api/rpg_stories.py:124-125 | a list of zero counters has total 0 |
| `StoryElements.PrimedTotals` | api/rpg_stories.py:130-135 | priming adds exactly one vote per draw to its counter and none to the other, wherever the draws land |
| `StoryElements.BumpMonotone` | api/rpg_stories.py:184-200 | no counter of any record ever goes down on a vote |
| `StoryElements.Votes` | api/rpg_stories.py:202-208 | repeated votes keep the number of records |
| `StoryElements.VotesAccumulate` | api/rpg_stories.py:202-208 | `n` votes for one record and counter raise it by exactly `n` and change nothing else |
| `StoryElements.SeedInCatalogOrder` | api/rpg_stories.py:116-127 | the unprimed seed holds text `k` of category `j` at position `8*j+k` |
| `StoryElements.LayoutKeepsCatalogOrder` | api/rpg_stories.py:130-135 | changing only counters keeps every record's category and text in catalog order |
| `StoryElements.InitialElementsLayout` | api/rpg_stories.py:109-137 | the seeded list has ids equal to positions and holds text `k` of category `j` at `8*j+k`, eight per category |
| `StoryElements.InitialElementsTotals` | api/rpg_stories.py:129-135 | the seeded list carries exactly 15 love votes and 8 skip votes in all |
| `StoryElements.BuildRecords` | api/rpg_stories.py:116-127 | the nested loops with the running `item_id` build exactly the seed records |
| `StoryElements.PrimeCounter` | api/rpg_stories.py:130-135 | each priming loop applies one `+= 1` per draw, in draw order |
| `StoryElements.StoryStore.constructor` | api/rpg_stories.py:78-81 | the store starts from whatever file is there |
| `StoryElements.StoryStore.Read` | api/rpg_stories.py:83-95 | a missing or unparseable file reads as the empty list; otherwise the stored list |
| `StoryElements.StoryStore.InitStoryElements` | api/rpg_stories.py:109-137 | an existing file, readable or not, is left alone; a missing one becomes the primed seed list; dense ids are preserved |
| `StoryElements.StoryStore.Vote` | api/rpg_stories.py:184-200 | in range: that counter goes up by one, the file is rewritten and the new count returned; out of range: no write and `None`; missing or unreadable file: an exception and no write |
| `StoryElements.StoryStore.AddStoryLove` | api/rpg_stories.py:202-204 | a love vote in range raises `love` by one and returns it; an id out of range gives `None` and no write; a missing or unreadable file raises and nothing changes |
| `StoryElements.StoryStore.AddStorySkip` | api/rpg_stories.py:206-208 | a skip vote in range raises `skip` by one and returns it; an id out of range gives `None` and no write; a missing or unreadable file raises and nothing changes |
| `StoryElements.GetStoryElement` | api/rpg_stories.py:147-152 | a record exactly when `0 <= id < len`, namely the one at that position, whose id is `id` when ids are dense |
| `StoryElements.CountStoryElements` | api/rpg_stories.py:222-225 | `getStoryElement` succeeds exactly on the ids below the count |
| `StoryElements.GetStoryElementsByCategory` | api/rpg_stories.py:161-164 | a record is returned exactly when it is stored and has that category |
| `StoryElements.ByCategoryConcat` | api/rpg_stories.py:164 | filtering commutes with concatenation, so store order is kept |
| `StoryElements.MaxIndex` | api/rpg_stories.py:171 | the position of the first record holding the largest counter |
| `StoryElements.MostVoted` | api/rpg_stories.py:166-178 | `None` exactly on an empty store; otherwise a stored record whose counter is at least every other record's, and no earlier record reaches it |
| `StoryElements.GetRandomStoryElement` | api/rpg_stories.py:154-159 | `None` exactly on an empty store; otherwise one of its records |
| `StoryElements.GetCategories` | api/rpg_stories.py:227-231 | the categories present, each once, in ascending order |
| `StoryElements.CategoriesUnique` | api/rpg_stories.py:230-231 | any ascending duplicate-free list of exactly the categories present is the answer |
| `ModeStats.SeedIfEmpty` | api/rpg_stats_api.py:51-55 | an empty table becomes the rows chill = 0 and action = 0; a non-empty table is unchanged |
| `ModeStats.SeedIdempotent` | api/rpg_stats_api.py:51-55 | a second initialisation changes nothing |
| `ModeStats.IncrementMode` | api/rpg_stats_api.py:125-129 | every row naming the mode goes up by one; every other row is unchanged |
| `ModeStats.ZeroCounts` | api/rpg_stats_api.py:157 | every row keeps its mode and gets count 0 |
| `ModeStats.Accumulate` | api/rpg_stats_api.py:68-73 | the counts dictionary always has `chill`, `action` and `total` |
| `ModeStats.Reversed` | api/rpg_stats_api.py:76-81 | `ORDER BY id DESC` gives the history newest first |
| `ModeStats.LatestFirst` | api/rpg_stats_api.py:76-91 | at most 100 entries, `min(100, len)`, entry `k` being the `k`-th newest |
| `ModeStats.AccumulateTotal` | api/rpg_stats_api.py:68-73 | with no row named `total`, `total` is the sum of all stored counts |
| `ModeStats.AccumulateMode` | api/rpg_stats_api.py:68-73 | `chill` and `action` are always reported, defaulting to 0; any other mode only with a row; a reported mode has the count of its last row |
| `ModeStats.IncrementSum` | api/rpg_stats_api.py:125-129 | the sum of counts goes up by the number of rows naming the mode |
| `ModeStats.IncrementLastCount` | api/rpg_stats_api.py:125-129 | a mode with a row gets its count raised by one, and every other mode's count is unchanged |
| `ModeStats.IncrementOther` | api/rpg_stats_api.py:125-129 | other modes' counts are unchanged by an increment |
| `ModeStats.ZeroCountsFacts` | api/rpg_stats_api.py:157 | after reset the sum and every mode's count are 0 |
| `ModeStats.StatsDb.constructor` | api/rpg_stats_api.py:32-48 | the tables start empty |
| `ModeStats.StatsDb.Snapshot` | api/rpg_stats_api.py:60-93 | the report always has `chill`, `action` and `total` and at most 100 history entries |
| `ModeStats.StatsDb.Init` | api/rpg_stats_api.py:26-57 | the statistics table is seeded only when empty, the history is untouched, and the table invariant is preserved |
| `ModeStats.StatsDb.GetStatistics` | api/rpg_stats_api.py:60-93 | the row-by-row loop yields the report; the total is the sum of the counts; the history is the newest `min(100, len)` entries, newest first |
| `ModeStats.StatsDb.RecordSelection` | api/rpg_stats_api.py:109-146 | a mode other than chill or action gives 400 and no change; otherwise that mode's rows go up by one, one history entry (user defaulting to `anonymous`) is appended, and the fresh report is returned |
| `ModeStats.StatsDb.ResetStats` | api/rpg_stats_api.py:150-170 | every count becomes 0, the history is emptied, and the fresh report is returned |
| `ModeStats.SeededReport` | api/rpg_stats_api.py:68-73 | on the seeded table the report gives each mode's stored count and their sum as total |
| `ModeStats.RecordReport` | api/rpg_stats_api.py:125-136 | on the seeded table a recorded mode and the total each go up by one, and the other mode is unchanged |
| `ModeStats.ResetReport` | api/rpg_stats_api.py:157-160 | after a reset of the seeded table the report is chill 0, action 0, total 0 |

## Left out

- File locking and JSON I/O. The `fcntl.flock` calls, `open`/`seek`/`truncate` and JSON (de)serialisation in `api/rpg_stories.py:83-103, 187-197` are not modelled. Locking only serialises concurrent processes. The file is the `StoryFile` state, and a parse failure is its `Unreadable` case.
- Randomness. The priming draws (`random.randint`) are method parameters. `random.choice` is a nondeterministic choice.
- `StoryElements.GetMostLovedElement` and `StoryElements.GetMostSkippedElement` have no contract of their own. Each is `MostVoted` for its counter, and `MostVoted` carries the contract.
- `printStoryElement`. It only prints.
- SQLite. The SQL text, table creation, `lastrowid` and history row ids are not modelled. A database with missing tables, and the 500 answers exceptions would give, are not modelled either. The tables are sequences of rows.
- JSON `null` for `userId`. The legacy POST route of `record_selection` in `api/rpg_api.py:1232-1265` could send it to a `NOT NULL` column, where the insert fails and nothing is committed. In the model, request values are strings.
- The rest of `CharacterAPI.post`: the text-generation call, the prompt text and database writes. These are foreign calls. Only the validation and the template fallback are modelled.
- The rest of `RPGDataAPI.post`: its duplicate lookup and insert go through the ORM model `model/rpg_user.py`. Password hashing and ORM queries are foreign calls.
- `RPGLoginAPI`. It calls a finder that the ORM model does not define.
- `api/stats.py`. It calls helpers that are not part of this model.
- The key-binding handler's optional keys and its column mapping. Only the validation is modelled.
- Flask routing, HTML pages, response texts and logging. Missing-field messages are modelled as the field lists, not as text.
- Non-string JSON values. Request bodies are maps from names to strings, so `.strip()` on a number (a 500 in the source) is not modelled.
