# ragforge-shell, modelled in Dafny

This project models the decision logic of `ragforge-shell`, a command-line client for a RAG knowledge-base service. The client turns command arguments into HTTP calls and shows the answers. The model covers:

- **`APIClient`** (`api_client.dfy`): reading its settings, setting up the session headers, joining its URLs, classifying a decoded answer by `code`, wrapping a body that is not JSON as `{"text": ...}`, the empty-body rule for DELETE, and setting and clearing the token. The client is a class whose header map its methods update.
- **`UserAuth`** (`user_auth.dfy`): a class whose `login_user` and `logout` move the session between logged out and logged in. It also covers registration, the current-user query, and the input checks of the interactive flows.
- **`OutputFormatter`** (`output.dfy`): the format dispatch, the header and row matrices of the table format and of the rich table, and the message markers.
- **The commands**: `datasets`, `models`, `teams`, `retrieval`, `chunks`, and the top-level `cli`, `api-list` and `api-call` (`datasets.dfy`, `models.dfy`, `teams.dfy`, `retrieval.dfy`, `chunks.dfy`, `cli.dfy`).
  - Each command is modelled as a function of its configuration, its arguments and a client. It returns what the command shows and the calls it makes.
  - Loops, flag updates and in-place dict updates are methods. Each method is proved equal to the function that specifies it.
- **Shared pieces** (`commands.dfy`): the token gate, the first-success fallback chain, the comma split, and the two clients defined below.
- **Python values and the Python string operations the code relies on** (`json.dfy`, `text.dfy`): `strip`, `rstrip`, `split`, `join`, `lower`, `upper`, `str(int)`, truthiness, `==` with an int, iteration, and `repr`.

A client call is never performed. A command sees its client as a function from the call number and the call to what the call returns or raises. There are two ways to build that function from a server's answers:

- `Commands.Corrected`: every call reaches the server and completes as `APIClient` completes it.
- `Commands.AsWritten`: the client as the commands actually use it. `APIClient.get/post/put/delete` take no `headers` argument, so every call passing `headers=` raises TypeError. `APIClient` has no `patch`, so that call raises AttributeError.

The findings below come from the difference between the two. Commands that pass no `headers=` behave the same under both, and lemmas say so.

`main.py` registers neither the `models` group nor the `teams` group. Both are modelled as the click groups their own files define.

`api_client.py` retries no call, and the only form of token it sends is `Bearer <token>` (api_client.py:39-41, 132-134). A status makes a call fail only through `raise_for_status`, which raises for 400–599 alone: any other status goes on to the body (`Api.StatusFirst`).

## Model

| member | source | states |
|---|---|---|
| Api.ReadSettings | api_client.py:27-36 | settings are read only from a dict configuration, and a base URL read from it never ends with `/` |
| Api.SettingsDefaults | api_client.py:29-32 | an empty or missing `api` section gives `http://localhost:9380`, a timeout of 30, no headers and no token |
| Api.SettingsAccepted | api_client.py:29-36 | setup succeeds exactly when the configuration and its `api` section are dicts, `headers` is a dict or an iterable of key/value pairs with str keys, and the base URL is a string; the headers set up are those entries, in order |
| Api.HeaderPairs | api_client.py:34 | `update` given pairs reads every item as a key and a value, in order, and fails with the first item that is not a pair or whose key is not a str |
| Api.HeaderEntriesOfPairs | api_client.py:34 | an empty list or string adds no header; `[[name, value]]` adds that header; a one-item list of a string adds a header only when the string has two characters, the first the name and the second the value |
| Api.InstallLookup | api_client.py:34 | after `headers.update`, a header named in the update holds its last value there (names compared case-insensitively); every other header keeps its old value |
| Api.SessionAuthorization | api_client.py:39-41 | a truthy `auth_token` sets Authorization to `Bearer <token>`, overriding a configured one; a falsy token changes no header; no other header depends on the token |
| Api.SessionConfiguredHeader | api_client.py:32-41 | a configured header survives setup with its last configured value, unless it is Authorization and a token is set |
| Api.UrlShape | api_client.py:36 | the request URL is the base URL with only its trailing slashes removed, followed by the endpoint verbatim |
| Api.UrlStable | api_client.py:36 | stripping the base URL a second time does not change the URL |
| Api.ErrorPrefix | api_client.py:62-69 | exactly the codes 100, 401, 403 and 404 have an error message prefix |
| Api.ErrorEnvelope | api_client.py:58-69 | a decoded dict whose `code` equals one of the four codes raises with that code's prefix followed by `message` (`''` when absent) |
| Api.PassThrough | api_client.py:58-71 | any other decoded value (a non-dict, or a dict with another code or none) is returned unchanged |
| Api.NonJsonBody | api_client.py:72-74 | a body that is not JSON is returned as `{"text": body}` and never raises |
| Api.ErrorPrefixesDistinct | api_client.py:62-69 | two error messages are equal only when their codes are equal |
| Api.StatusFirst | api_client.py:82-84 | a 4xx or 5xx status raises before the body is decoded |
| Api.DeleteBody | api_client.py:121-123 | a DELETE with an empty body returns `{}` without decoding; an empty body of another verb becomes `{"text": ""}`; a non-empty body is handled as for every verb |
| Api.WithToken | api_client.py:132-134 | setting the token adds Authorization with `Bearer <token>` and leaves every other header unchanged |
| Api.WithoutToken | api_client.py:137-140 | clearing the token removes Authorization if present and leaves every other header unchanged |
| Api.ClearFacts | api_client.py:137-140 | clearing twice is clearing once; clearing after setting leaves the headers as clearing alone; clearing without a token changes nothing |
| Api.ApiClient.constructor | api_client.py:11-41 | a new client holds the configuration, the stripped base URL, the timeout, and the session headers after setup |
| Api.ApiClient.Open | api_client.py:11-49 | construction fails exactly when session setup or logging setup raises, with the error of the first that raises |
| Api.BuildOrder | api_client.py:11-15 | the session is set up before logging: a session error is raised first, and a built client has the session's settings |
| Api.MessageField | api_client.py:47-49 | a log format holding `%(message)s` passes the formatter's check |
| Api.NoPercentNoField | api_client.py:47-49 | a log format without `%` is refused |
| Api.DefaultFormatField | api_client.py:47 | the default log format passes the formatter's check |
| Api.LoggingDefaults | api_client.py:45-49 | without a `logging` section, logging setup succeeds with level `INFO` and the default format |
| Api.LevelSpelling | api_client.py:46 | a level spelled `info` or `VERBOSE` names no level of the logging module and is refused |
| Api.ApiClient.SetAuthToken | api_client.py:132-134 | the new headers are the old ones with the token set |
| Api.ApiClient.ClearAuthToken | api_client.py:137-140 | the new headers are the old ones with Authorization removed |
| Api.ClientUrl | api_client.py:78 | a client's request URL is the configured `base_url` less its trailing slashes, followed by the endpoint |
| Auth.RegisterOutcome | user_auth.py:37-78 | registration succeeds exactly when the password encrypts, the server answers 200 and `code` is 0; a request is sent exactly when the password encrypts; another status gives `HTTP错误: <status>`; a refused body gives its `message` (`注册失败` when absent) |
| Auth.LoginVerdict | user_auth.py:91-150 | a login succeeds exactly when it yields a user; then it yields a truthy token that the user record carries; a failed login yields no token |
| Auth.LoginSucceeds | user_auth.py:109-129 | login succeeds exactly when the password encrypts, the status is 200, `code` is 0 and the data holds a truthy `access_token`; the user record has the email, the nickname (the email when absent) and the token |
| Auth.LoginRefusals | user_auth.py:109-141 | a non-200 status, a refusing `code`, and an accepted answer without a token each give their own message and no token |
| Auth.UserAuth.constructor | user_auth.py:19-23 | a new session strips trailing `/` from the base URL and has no user and no token |
| Auth.UserAuth.LoginUser | user_auth.py:80-150 | the results are the login verdict; the POST carries the email and encrypted password; on success the session stores the token and user and the client gets the `Bearer` header; on failure nothing changes; of the client only its headers can change |
| Auth.UserAuth.Logout | user_auth.py:152-181 | without a token nothing is sent and nothing changes; otherwise a GET with the bearer token is sent, and it succeeds exactly when the server answers 200, clearing the user, the token and the client's Authorization; on failure nothing changes; of the client only its headers can change |
| Auth.CurrentUserQuery | user_auth.py:183-205 | without a token the query sends nothing and gives `None`; with one it sends a GET to `<base>/v1/user/info` carrying `Bearer <token>`; a 200 answer whose `code` is 0 gives its `data` (`None` when absent), and a user comes back from no other answer |
| Auth.RegistrationChecks | user_auth.py:229-248 | the prompts pass exactly when the stripped email is non-empty, the password is non-empty and confirmed, and the stripped nickname is non-empty; the first failing check is the one reported; what is registered is the stripped email and nickname |
| Auth.LoginChecksMatchRegistration | user_auth.py:274-283 | the login prompts check the email and password exactly as registration does |
| Auth.InteractiveRegisterGuards | user_auth.py:216-258 | `UserAuth()` builds its `APIClient` first, and a configuration it refuses ends the flow with exactly that error; otherwise registration is attempted exactly when the server is up and the prompts pass, and a reported success registered the checked values |
| Auth.InteractiveLoginGuards | user_auth.py:261-293 | `UserAuth()` builds its `APIClient` first, and a configuration it refuses ends the flow with exactly that error; otherwise login is attempted exactly when the server is up, the stripped email and the password are non-empty, with the stripped email; reporting success, or failing on `token[:20]`, means the login succeeded |
| Auth.AuthDispatch | user_auth.py:296-316 | no argument gives the usage text (iff); with an argument, a configuration the `APIClient` refuses stops `main` with that error before dispatch; otherwise the command is `register`, `login` or `logout` exactly when the lower-cased first argument is that word, and an unknown command is the lower-cased first argument and none of the three |
| Output.RowCells | utils/output.py:44 | the cells succeed exactly when every row is a dict; then there is one row per element and one cell per header, holding `row.get(h, "")`; otherwise a row that is not a dict raises on `.get` |
| Output.DictTable | utils/output.py:37-40 | a dict gives the headers `Key`, `Value` and one `[key, str(value)]` row per entry, in order |
| Output.ListTable | utils/output.py:41-44 | a list starting with a dict takes its headers from that dict's keys; it yields a table exactly when every element is a dict; each cell is the row's value for the header, or `""` when the row lacks it |
| Output.FirstRowIsItsValues | utils/output.py:43-44 | with distinct keys, the first row's cells are exactly its own values in order |
| Output.PlainTable | utils/output.py:45-47 | everything else, an empty list included, is rendered as `str(data)` |
| Output.FormatOutput | utils/output.py:16-25 | `json` and `yaml` dump the data, `table` formats it as a table, and any other format type gives `str(data)` |
| Output.RichRows | utils/output.py:64-65 | the rich rows succeed exactly when every row is a dict; each is then `str` of that row's own values, in its own order |
| Output.PrintRichTable | utils/output.py:51-67 | falsy data, and only falsy data, shows "No data to display"; a table has the first row's keys as columns and one row per element |
| Output.OneRowTable | utils/output.py:51-67 | a one-row table of a dict draws with that dict's keys as its columns; a one-row table of anything else raises on `.keys` |
| Output.ReadMessage | utils/output.py:69-83 | a line read back as a level and a text is exactly that message |
| Output.MessageRoundTrip | utils/output.py:69-83 | the four markers tell the levels apart: every message gives back its level and its text |
| Commands.ClientsAgree | api_client.py:76-115 | the client as written and the corrected one agree on every call without `headers=` other than `patch`; every such call raises as written; the corrected client completes the server's answer |
| Commands.TokenGate | commands/datasets.py:141-145 | a token that passes the gate is truthy |
| Commands.GateFacts | commands/datasets.py:141-145 | the gate passes exactly when the client is built and `api.api_token` is truthy, and hands on that token; no token gives the login message |
| Commands.FirstSuccess | commands/datasets.py:177-204 | the first attempt that succeeds: every attempt before it raised; none means every attempt raised |
| Commands.FirstSuccessAt | commands/datasets.py:177-204 | an attempt that succeeds after all earlier ones raised is the first success |
| Commands.FirstSuccessNone | commands/datasets.py:231-235 | when every attempt raises there is no first success |
| Commands.Tried | commands/datasets.py:177-204 | the attempts made are a prefix of the chain |
| Commands.TriedOnlyAfterFailures | commands/datasets.py:177-204 | an attempt is made only after all earlier ones raised, and a success ends the chain |
| Commands.SplitStripped | commands/retrieval.py:39 | the pieces are one per comma-separated part (the number of commas plus one), each stripped |
| Commands.SplitStrippedPieces | commands/retrieval.py:39 | each piece is already stripped and holds no comma |
| Datasets.ScanNone | commands/datasets.py:160-164 | the search finds nothing exactly when every listed entry is a dict without the id |
| Datasets.ScanWitness | commands/datasets.py:160-164 | what the search finds is the first entry carrying the id, and every entry before it is a dict without it |
| Datasets.ScanReaches | commands/datasets.py:160-164 | an entry carrying the id is found when every entry before it is a dict |
| Datasets.FindDataset | commands/datasets.py:155-164 | the listing loop returns the call's exception, the exception of `data` or of an entry that is not a dict, the first dataset with the id, or none |
| Datasets.NamedPayload | commands/datasets.py:107-112 | the `create` payload holds the name, and the description exactly when it is given and non-empty |
| Datasets.BuildNamedPayload | commands/datasets.py:342-347 | the payload as built in place equals the named payload |
| Datasets.SimpleCommandsGate | commands/datasets.py:13-129 | without a token `list`, `show`, `create` and `update` make no call and `list` shows the login message; `create` and `update` send the named payload, `update` to the dataset's own path |
| Datasets.SimpleListingFails | commands/datasets.py:39-44 | `list --format simple` on a non-empty listing ends with the AttributeError of the missing `print_simple_list` |
| Datasets.RecheckSays | commands/datasets.py:213-228 | the re-listing decides: an exception leaves the delete unverified, a missing id means it is gone, a listed id is a marked-only or a failed delete |
| Datasets.TryDelete | commands/datasets.py:174-235 | the three attempts with their `delete_success` and `mark_deleted` flags give the verdict and calls of the attempt chain |
| Datasets.DeleteDataset | commands/datasets.py:132-239 | the command, statement by statement, ends and calls as the `delete` specification says: token gate, confirmation, lookup, attempts |
| Datasets.DeleteGuards | commands/datasets.py:141-171 | no token, or no confirmation without `--force`, stops before any call; the dataset is not found exactly when the first listing raises or lacks the id, and then only that call is made; otherwise the attempts follow that listing and the name defaults to `未知数据集` |
| Datasets.AttemptOrder | commands/datasets.py:177-204 | DELETE is tried first; POST only after DELETE raised; the status PUT only after both raised; a marked-only verdict means the PUT was sent and succeeded |
| Datasets.AttemptAllFailed | commands/datasets.py:231-235 | the delete has failed outright exactly when all three attempts raised, and then nothing is re-listed |
| Datasets.AttemptVerification | commands/datasets.py:207-230 | after a successful attempt the last call is the re-listing; the dataset is gone exactly when it no longer lists the id, and unverified exactly when the re-listing raises |
| Datasets.AttemptStillListed | commands/datasets.py:221-228 | a marked-only or still-there verdict means the re-listing still shows the id; still-there means the PUT was never sent |
| Datasets.TryPurge | commands/datasets.py:285-315 | the purge attempts give the verdict and calls of the purge chain |
| Datasets.PurgeCases | commands/datasets.py:285-315 | DELETE first; POST only when it raised; the status PUT only when both raised, and then the dataset is reported as not deleted, marked or not |
| Datasets.PurgeDataset | commands/datasets.py:242-319 | the command, statement by statement, ends and calls as the `purge` specification says |
| Datasets.PurgeOutcome | commands/datasets.py:285-315 | purged exactly when DELETE or POST succeeded (POST only after DELETE raised); the PUT is sent exactly when the purge did not succeed, and `marked` says whether it succeeded |
| Datasets.PurgeGuards | commands/datasets.py:242-319 | a stopped purge makes no call; a missing dataset costs one call; otherwise the calls are the listing, then the attempts |
| Datasets.SwitchCases | commands/datasets.py:415-445 | PUT first, PATCH only when it raised, POST only when both raised; the first that succeeds decides the verb, and when all raise nothing switched |
| Datasets.TrySwitch | commands/datasets.py:415-445 | the `success` flag loop gives the verb and calls of the switch chain |
| Datasets.SetEmbeddingModel | commands/datasets.py:367-457 | the command, statement by statement, ends and calls as the `set_embedding_model` specification says |
| Datasets.EmbeddingOutcome | commands/datasets.py:391-453 | with a token and consent, the model switches exactly when one of the three attempts succeeds; then it is the first one that succeeds, the verb is that attempt's, and the calls are the listing then the attempts up to it |
| Datasets.DefaultModelName | commands/datasets.py:480-490 | the default model is the configured name up to its first `@` (all of it when there is none); an empty name means there is no default; the name used never contains `@` |
| Datasets.FixEmbeddingModel | commands/datasets.py:460-505 | no token makes no call; otherwise the default models are asked first; no default stops there; otherwise `set_embedding_model` runs forced with the default, or `bge-m3___OpenAI-API` when asking raised, on the calls that follow |
| Datasets.DeleteAsWrittenNeverDeletes | commands/datasets.py:156 | as written, the listing call passes `headers=` and raises, so `delete` never gets past "not found" and makes at most one call |
| Datasets.DeleteCorrectedCanDelete | commands/datasets.py:155-222 | with `headers=` accepted, a server that lists the dataset, accepts the DELETE and then lists nothing makes `delete` report it gone |
| Datasets.EmbeddingAsWrittenFails | commands/datasets.py:419-445 | as written, no attempt of `set_embedding_model` can succeed: PUT and POST pass `headers=`, and the client has no `patch` |
| Datasets.EmbeddingCorrectedUsesPatch | commands/datasets.py:419-435 | with the client corrected, when PUT fails the PATCH attempt is made and can switch the model |
| Models.ComplaintMessage | commands/models.py:38-39 | a refused answer shows the command's prefix and the answer's `message`, or `Unknown error` when it has none |
| Models.Answered | commands/models.py:62-70 | an answer with `code` 0 shows the success lines, another answer shows the complaint, and an exception shows `Error: ` (or `❌ Error: `) and the exception |
| Models.LlmRow | commands/models.py:29-34 | a model row has the columns `Factory`, `Model Name`, `Type`, `Used Tokens`, with the factory's name in the first |
| Models.LlmRowCells | commands/models.py:31-33 | a model row holds the model's `name`, `type` and `used_token`, or `''`, `''` and 0 where they are absent |
| Models.LlmRows | commands/models.py:28-34 | the rows of one factory exist exactly when every listed model is a dict, one per model in order; otherwise the first model that is not a dict raises on `.get` |
| Models.ConfiguredRowsShape | commands/models.py:26-34 | every row of the flattened table has the four columns and names a factory of the answer |
| Models.ConfiguredRowsAppend | commands/models.py:27-34 | the rows of two groups of factories are the rows of the first group followed by those of the second, and an exception in the first stops the loop |
| Models.FactoryWithoutLlm | commands/models.py:28 | a factory without `llm` adds no row |
| Models.AppendLlmRows | commands/models.py:28-34 | the inner loop appends one factory's rows to the table, or stops with the first exception |
| Models.FlattenModels | commands/models.py:26-34 | the nested loop builds the flattened table of all factories |
| Models.ListModelsColumns | commands/models.py:16-35 | a successful `models list` whose rows all build shows them under "Configured Models" with the four columns |
| Models.ModelsTable | commands/models.py:35 | rows that share the four columns make a rich table with those columns |
| Models.SetDefaultPayload | commands/models.py:56-60 | the `set_default` payload holds the model type, factory and name, in that order |
| Models.AddHead | commands/models.py:86-88 | the `add` payload starts with factory, name and type |
| Models.AddSettings | commands/models.py:89-91 | the `add` payload ends with the key, the base URL and the token limit |
| Models.AddPayloadFields | commands/models.py:85-92 | the `add` payload has the six keys in order; `api_key` and `api_base` are `''` exactly when their option is missing or empty, otherwise the given value; `max_tokens` defaults to 8192 |
| Models.ModelKey | commands/models.py:157-160 | a model is named by its factory and name |
| Models.EditPayload | commands/models.py:123-133 | the `edit` payload cannot be built exactly when an option is missing and the current configuration is not a dict (it has no `.get`) |
| Models.EditPayloadFields | commands/models.py:127-133 | each of `api_key`, `api_base`, `max_tokens` is the given option, or else the current value, or else `''`, `''` and 8192 |
| Models.EditIgnoresCurrent | commands/models.py:130-132 | with all three options given the current configuration does not matter |
| Models.EditKeepsCurrent | commands/models.py:130-132 | with no option given, the three settings are kept from the current configuration |
| Models.EditOnlyAfterFetch | commands/models.py:113-146 | `edit` first fetches the configuration; it posts to `/v1/llm/set_api_key` exactly when that answer has `code` 0 and the payload builds, and posts that payload; a refused fetch shows `Error: Model not found - ` and the message |
| Models.KeyMask | commands/models.py:196 | a set key shows as ten `*`, an unset one as `Not set` |
| Models.ShowLines | commands/models.py:192-199 | `show` prints eight lines starting with the heading; the fifth is the masked key |
| Models.ShowHidesKey | commands/models.py:196 | the lines do not depend on which key is set; a set key shows as stars and a missing one as `Not set` |
| Models.ShowLinesDepend | commands/models.py:192-199 | the lines depend only on the shown keys of the configuration and on whether a key is set |
| Models.ShowModelLines | commands/models.py:186-203 | an accepted `show` answer with falsy data shows "Model not found"; a dict shows its eight lines; any other truthy data shows the heading `Model Configuration:` and then the `.get` error after `Error: ` |
| Models.FactoryRow | commands/models.py:224-228 | a factory row has the columns `Name`, `Tags`, `Logo` |
| Models.FactoryRowCells | commands/models.py:225-227 | a factory row holds the factory's `name`, `tags` and `logo`, each `''` where absent |
| Models.FactoryTable | commands/models.py:222-228 | the factory rows exist exactly when every factory is a dict, one per factory in order; otherwise the first that is not raises on `.get` |
| Models.BuildFactoryTable | commands/models.py:222-228 | the loop builds the factory table |
| Models.Details | commands/models.py:264-271 | a detail line is shown for the base URL, the token limit and the key exactly when that value is truthy |
| Models.EntryLines | commands/models.py:259-272 | a falsy model id shows nothing; a truthy one shows its line first, then only detail lines, then a blank line |
| Models.EchoEntry | commands/models.py:260-272 | the body of the `default` loop gives the lines of one model type, or the exception that stops it |
| Models.ShowDefaults | commands/models.py:259-272 | the `default` loop gives the lines of every model type in order, stopping at the first exception |
| Models.DefaultEntriesTruthy | commands/models.py:259-272 | every model line shown is a configured type with a truthy id, and every detail shown is truthy |
| Models.DefaultShowsTruthy | commands/models.py:259-261 | when nothing raises, the model lines shown are exactly the configured types with truthy ids, in order |
| Models.DefaultReport | commands/models.py:252-256 | the `default` report starts with its heading, then the source (`unknown` when missing) and a blank line |
| Models.ModelsSetup | commands/models.py:12-245 | when the client cannot be built no command makes a call; otherwise each makes its call to its own endpoint, `delete` posting the model's factory and name |
| Models.ModelsCallsReachServer | commands/models.py:162-186 | the `models` commands pass no `headers=`, so the client as written and the corrected client give the same result |
| Teams.CellValue | commands/teams.py:54-62 | a copied cell is the team's value or the column's default; the `是否公开` cell is `是` exactly when `is_public` is truthy, else `否` |
| Teams.YesNoCell | commands/teams.py:62 | the public cell shows `是` exactly when `is_public` is truthy, and `否` when the team does not say |
| Teams.Row | commands/teams.py:54-62 | a team's row has the columns' headers as keys and each column's cell as value, in order |
| Teams.Project | commands/teams.py:52-63 | the rows exist exactly when every team is a dict, one per team in order; otherwise the first team that is not a dict raises on `.get` |
| Teams.ProjectRows | commands/teams.py:52-63 | the `for team in teams_data` loop builds the projected rows |
| Teams.ListingRefusals | commands/teams.py:39-47 | an answer whose `code` is not 0, or is missing, shows the error with its `message` (`未知错误` when absent); an accepted answer with no data shows the command's info message |
| Teams.ListingTable | commands/teams.py:43-65 | an accepted non-empty listing whose rows build shows one rich row per team with the projection's columns |
| Teams.InfoRows | commands/teams.py:243-267 | `info` shows eight field/value rows in the source's order, each value the team's cell |
| Teams.InfoRowsShape | commands/teams.py:243-267 | each info row has the keys `字段` and `值`; the eight fields are named as in the source; the seventh says `是` or `否` by `is_public` |
| Teams.InfoTable | commands/teams.py:234-269 | an accepted `info` answer whose data is a dict shows the eight info rows under the team's title |
| Teams.MembershipBody | commands/teams.py:92-94 | `join` and `leave` send just the team id |
| Teams.TeamPayload | commands/teams.py:352-358 | the `create` payload holds the name and the public flag, and the description exactly when it is non-empty |
| Teams.BuildTeamPayload | commands/teams.py:352-358 | the payload built in place equals the `create` payload |
| Teams.ActionSucceedsIffCodeZero | commands/teams.py:100-104 | `join`, `leave`, `create` and `delete` report success exactly when `code` equals 0; otherwise only the error with the `message` |
| Teams.TeamsGate | commands/teams.py:30-33 | without a token every `teams` command shows the login message and makes no call |
| Teams.TeamsBodies | commands/teams.py:92-400 | `join` and `leave` post the team id to their endpoints with the bearer token; `create` sends its payload; `delete` carries the token |
| Teams.TeamsAsWrittenFail | commands/teams.py:37-362 | as written, every `teams` call passes `headers=`, so listing and creating always end with the TypeError |
| Retrieval.SearchPieces | commands/retrieval.py:32-48 | the `search` body is five pieces in order: the three fixed fields, then `document_ids`, each threshold and `highlight`, each piece present exactly when its option is set |
| Retrieval.SearchPayloadBase | commands/retrieval.py:32-36 | every `search` body holds the question, the dataset ids in order, and `top_k` (10 when not given) |
| Retrieval.SearchPayloadDocuments | commands/retrieval.py:38-39 | `document_ids` is sent exactly when the option is non-empty, as its comma-separated pieces stripped of whitespace |
| Retrieval.SearchPayloadOptions | commands/retrieval.py:41-48 | each threshold is sent exactly when it is given (zero included); `highlight` is sent, as `true`, only when the flag is set |
| Retrieval.BuildSearchPayload | commands/retrieval.py:32-48 | `search_data` as built statement by statement equals the `search` body |
| Retrieval.Fixed4 | commands/retrieval.py:64 | `:.4f` succeeds exactly on bools, floats and the ints `float` can convert; an int up to `2^53` in magnitude prints its digits with four zero decimals |
| Retrieval.ExactIntFloat | commands/retrieval.py:64 | `float` of an int of magnitude up to `2^53` is that int |
| Retrieval.RoundsHalfToEven | commands/retrieval.py:64 | `float(2^53 + 1)` is `2^53`: a tie goes to the even significand |
| Retrieval.IntFloatOverflow | commands/retrieval.py:64 | `float` of an int of magnitude `2^1024` or more overflows |
| Retrieval.Fixed4LargeInts | commands/retrieval.py:64 | `2^53 + 1` prints as `9007199254740992.0000`, and an int of `2^1024` or more makes the format raise OverflowError |
| Retrieval.MissingSimilarity | commands/retrieval.py:64 | a chunk without `similarity` shows `0.0000` |
| Retrieval.Preview | commands/retrieval.py:65 | a string longer than the limit becomes its first `limit` characters followed by `...`; a shorter one is kept; a non-string content raises unless its length is within the limit |
| Retrieval.PreviewIdempotent | commands/retrieval.py:65 | previewing a preview gives the same preview |
| Retrieval.ChunkRow | commands/retrieval.py:59-66 | a chunk's row exists exactly when the chunk is a dict whose similarity formats and whose content previews; it has the command's columns in order; a non-dict chunk raises on `.get` |
| Retrieval.ChunkRowCells | commands/retrieval.py:60-66 | the copied cells are the chunk's values (`''` when missing), then the formatted similarity, then the content cell |
| Retrieval.ChunkRows | commands/retrieval.py:58-66 | the rows exist exactly when every chunk's row does; then there is one row per chunk, in order |
| Retrieval.ChunkRowsFirstFailure | commands/retrieval.py:58-66 | when the first failing chunk is chunk `i`, the loop stops with that chunk's exception |
| Retrieval.SimplifyChunks | commands/retrieval.py:58-66 | the loop builds the rows of the chunks, or stops at the first exception |
| Retrieval.ChunkRowsAll | commands/retrieval.py:58-66 | rows built chunk by chunk are the rows of the whole list |
| Retrieval.RetrieveCalls | commands/retrieval.py:27-75 | no call when the client cannot be built, otherwise exactly one POST of the payload to `/api/v1/retrieval`; an exception of that call is shown after `检索失败: `; outside table mode the answer is shown formatted |
| Retrieval.NoChunksWarns | commands/retrieval.py:55-69 | an answer without chunks, or with an empty list, shows the command's warning and no table |
| Retrieval.ChunksTable | commands/retrieval.py:55-67 | a non-empty list of chunks that all simplify gives a table with one row per chunk, each row with the command's columns, under a title naming the count |
| Retrieval.TopKDefaults | commands/retrieval.py:17-128 | without `--top-k`, the three commands send 10, 5 and 3 |
| Retrieval.RetrievalReachesServer | commands/retrieval.py:51 | the retrieval commands pass no `headers=`, so the client as written and the corrected client give the same result |
| Chunks.ChunkPath | commands/chunks.py:27 | a chunk's path is the document's `chunks` path, a `/`, then the chunk id |
| Chunks.PathGrouped | commands/chunks.py:27 | the path text is the nine segments of the template written one after the other with `/` between them |
| Chunks.JoinGrouped | commands/chunks.py:27 | joining the template's segments with `/` gives that same text |
| Chunks.ChunkPathRoundTrip | commands/chunks.py:27 | for ids without `/`, splitting the path on `/` gives back the template's segments with the three ids in their places |
| Chunks.Keywords | commands/chunks.py:60 | the keyword list has one entry per comma-separated piece (the number of commas plus one), each piece stripped of surrounding whitespace |
| Chunks.BuildAddPayload | commands/chunks.py:55-60 | `chunk_data` as built statement by statement equals the `add` payload |
| Chunks.AddPayloadFields | commands/chunks.py:55-60 | the `add` payload always carries the content; it carries `important_keywords` exactly when `--keywords` is non-empty |
| Chunks.BuildUpdatePayload | commands/chunks.py:96-105 | `update_data` as built statement by statement equals the `update` payload |
| Chunks.UpdatePayloadFields | commands/chunks.py:96-105 | each field is present exactly when its option is given (`content` and `keywords` when non-empty, `available` whenever it is not `None`); with no option the payload is `{}` |
| Chunks.Added | commands/chunks.py:66-72 | `add` shows its success message first; then, as a table, the answer's `chunk` (`{}` when absent) as a one-row table when it is a dict, or the error of `.get` on a non-dict answer or of `.keys` on a non-dict chunk; in any other format the formatted answer |
| Chunks.Updated | commands/chunks.py:111-117 | `update` shows its success message first; then, as a table, the answer as a one-row table when it is a dict, or the error of `.keys` on it; in any other format the formatted answer |
| Chunks.RunOutcome | commands/chunks.py:22-37 | a chunk command makes its one call unless the client cannot be built; it shows the answer only when the call completes and otherwise the exception after the command's prefix |
| Chunks.SuccessOnlyWhenDone | commands/chunks.py:63-66 | `add`, `update` and `delete` print success exactly when their call completed |
| Chunks.ChunksReachServer | commands/chunks.py:27-141 | the chunk commands pass no `headers=`, so the client as written and the corrected client give the same result |
| Cli.SetupContext | main.py:37-39 | the context holds the config path (`config.yaml` unless given) and the debug flag; every other entry of an existing context is kept |
| Cli.FirstNonText | main.py:85 | the first tag that is not a string: every tag before it is a string |
| Cli.TagsText | main.py:85 | joining the tags succeeds exactly when they can be iterated and are all strings |
| Cli.TagsOfStrings | main.py:85 | a list of strings becomes those strings joined by `, ` |
| Cli.ApiRow | main.py:81-86 | a row exists exactly when the operation is a dict with joinable tags; it holds the path, the upper-cased method, the summary (`''` when missing) and the joined tags, under the four columns |
| Cli.MethodRows | main.py:80-86 | a path's rows exist exactly when each of its operations gives a row; then there is one per operation, in order |
| Cli.PathRowsCount | main.py:79-86 | the listing has one row per (path, method) pair |
| Cli.PathRowsShape | main.py:79-86 | every row has the four columns, a listed path and an upper-case method |
| Cli.PathRowsAppend | main.py:79-86 | the rows of two groups of paths are the first group's rows followed by the second's, and an exception in the first stops the loop |
| Cli.AppendMethodRows | main.py:80-86 | the inner loop appends a path's rows to the listing, or stops at the first exception |
| Cli.MethodRowsAll | main.py:80-86 | rows built for every operation are the rows of the path |
| Cli.MethodRowsFirstFailure | main.py:80-86 | the first operation whose row raises stops the loop with that exception |
| Cli.ListApis | main.py:77-86 | the nested loop builds the rows of every path |
| Cli.NoPathsNoRows | main.py:77-88 | an answer that is not a dict with `paths` gives an empty listing, shown as "No data to display" |
| Cli.Dispatch | main.py:126-133 | the call has the chosen method and the endpoint, no query and no token; POST and PUT send the decoded data, GET and DELETE send no body |
| Cli.CallRows | main.py:136-140 | a list answer is the table as it is; any other answer is a table of one row |
| Cli.MalformedDataNoRequest | main.py:117-123 | `--data` that is not JSON is reported and no call is made |
| Cli.ApiCallRequest | main.py:113-140 | otherwise exactly the dispatched call is made, and a table answer is shown under `<METHOD> <endpoint>` |
| Cli.CliReachesServer | main.py:72-133 | `api-list` and `api-call` pass no `headers=`, so the client as written and the corrected client give the same result |
| Json.Get | commands/retrieval.py:55 | `d.get(k)` finds a value exactly when `k` is one of the dict's keys |
| Json.Put | main.py:38-39 | after `d[k] = v`, `k` holds `v` and every other key keeps its value |
| Json.PutKeys | main.py:38-39 | assigning an existing key keeps the key order; a new key goes last |
| Json.PutUnique | main.py:38-39 | assignment keeps the keys distinct |
| Json.PutNew | commands/retrieval.py:38-48 | assigning a key the dict lacks appends one entry |
| Json.AssignNew | commands/retrieval.py:39 | `d[k] = v` for a new key appends `k` with `v` |
| Json.EqIntUnique | api_client.py:62-69 | a value equals at most one integer under Python `==` (`False == 0`, `100.0 == 100`), so at most one error code matches |
| Json.Iterate | commands/retrieval.py:59 | a `for` over a list visits its items and over a dict one item per key; only `None`, booleans and numbers cannot be iterated |
| Json.Quote | utils/output.py:47 | `repr` of a string starts and ends with its quote character |
| Text.Strip | user_auth.py:230 | `strip()` returns the middle of the text with only whitespace cut from both ends; the result is empty exactly when the text is all whitespace |
| Text.StripIdempotent | user_auth.py:230 | stripping twice is stripping once |
| Text.StripKeepsAbsent | commands/retrieval.py:39 | stripping adds no character |
| Text.StripEndChar | user_auth.py:20 | `rstrip('/')` cuts exactly the trailing `/` characters |
| Text.StripEndCharIdempotent | user_auth.py:20 | cutting the trailing `/` twice is cutting it once |
| Text.IndexOf | commands/datasets.py:484-485 | the first position of a character: it occurs there and not before |
| Text.Split | commands/chunks.py:60 | `split(c)` gives at least one piece, and no piece contains `c` |
| Text.SplitHead | commands/datasets.py:484-485 | the first piece of `split('@')` is the text before the first `@`, or all of it |
| Text.SplitCount | commands/chunks.py:60 | `split(c)` gives one more piece than there are `c` in the text |
| Text.JoinSplit | commands/chunks.py:60 | joining the pieces of `split(c)` with `c` gives back the text |
| Text.SplitJoin | commands/chunks.py:27 | splitting pieces without `c` joined by `c` gives back the pieces |
| Text.NatToDecimal | user_auth.py:67 | `str(n)` of a natural number is digits with no leading zero |
| Text.IntToDecimal | user_auth.py:67 | `str(n)` starts with `-` exactly for a negative number |
| Text.DecimalRoundTrip | user_auth.py:67 | reading back `str(n)` gives `n` |
| Text.IntToDecimalInjective | user_auth.py:67 | distinct integers print differently, so distinct status codes give distinct messages |
| Text.Lower | user_auth.py:305 | `lower()` keeps the length and leaves no upper-case ASCII letter; other characters are kept |
| Text.LowerIdempotent | user_auth.py:305 | lower-casing twice is lower-casing once |
| Text.LowerOfUpper | api_client.py:34 | names that differ only in ASCII case fold to the same name |
| Text.Upper | main.py:83 | `upper()` keeps the length and leaves no lower-case ASCII letter; other characters are kept |
| Cli.UpperIdempotent | main.py:83 | upper-casing twice is upper-casing once |

## Left out

- HTTP traffic: `requests`, the session's connection pool and timeouts are not modelled. A server's answer is an input: `Api.Reply` for `APIClient` calls, `Auth.Exchange` for the direct `requests` calls of `UserAuth`.
- `_load_config` (YAML file loading): the configuration is given as a decoded value, so a missing or unparsable file (`FileNotFoundError`, `ValueError`) is not modelled.
- Auth.UserAuth.constructor: takes an already built `Api.ApiClient`; the errors `APIClient()` can raise inside `UserAuth()` are modelled through `Api.Build` in `Auth.InteractiveRegister`, `Auth.InteractiveLogin` and `Auth.AuthDispatch`.
- `_setup_logging` is modelled only as far as the configuration decides whether it raises (Api.LoggingFailure); what gets logged has no effect on results.
- Api.ApiClient.Open: the level names accepted are those of the logging module's levels. Other int attributes of the module (`raiseExceptions`) are accepted by `basicConfig` but refused by the model. The format check reads `\w` and `\d` as ASCII, the exception types are simplified to `Api.SetupError`, and `basicConfig` doing nothing once the root logger has handlers is not modelled. `basicConfig` builds the formatter before it sets the level, so for a level that names a module attribute which is not a level (`info`, `BASIC_FORMAT`) together with a bad truthy format, Python raises the format's `ValueError` where the model reports `NotALevel`: the setup fails in both, only the error reported differs.
- `encrypt_password` (RSA from a foreign library, randomized): its result is a parameter, an encrypted text or the text of the exception it raised.
- `click.confirm`, `input` and `getpass`: their answers are parameters (`confirmed`, the typed strings).
- `time.sleep` in the delete verification has no effect on results.
- Printing: `print`, `click.echo` and the `print_*` helpers are modelled as the list of `Commands.Display` values a command shows. Drawing a table with `tabulate` or `rich` is not modelled, nor are `json.dumps` and `yaml.dump`; these appear as the data they would render.
- Datasets.DeleteDataset: the end is the outcome the command reports (not found, all attempts failed, gone, marked only, still there, unverified) and the dataset's name. The warning printed after each failed attempt is not modelled, since it does not change the outcome.
- Datasets.PurgeDataset: the end is the outcome `purge` reports (stopped, not found, removed by DELETE or by POST, or not removable with or without the status mark) and the dataset's name. The warnings after failed attempts and the fixed advice lines are not modelled, since they do not change the outcome.
- Datasets.SetEmbeddingModel: the end is the outcome `set-embedding-model` reports (stopped, switched by PUT, PATCH or POST, or not switched) with the preview of the dataset. The warnings after failed attempts and the fixed advice lines are not modelled, since they do not change the outcome.
- Retrieval.Fixed4: `:.4f` of a float is a parameter (`FloatFormat`); decimal rounding of binary floats is not modelled. An int goes through `float` first: it prints exactly up to `2^53` in magnitude, is rounded to the nearest double (ties to even) above, and raises OverflowError from `2^1024` on. The digits printed for a double are its exact integer value, which is what `.4f` prints for an integral double. Bools print as `1.0000` and `0.0000`.
- Cli.ApiCallRequest: `json.loads` is a parameter (`Decoder`). Parsing JSON text is not modelled.
- Cli.ApiCall requires a method other than PATCH, because `click.Choice` admits only GET, POST, PUT and DELETE.
- Text.Lower and Text.Upper fold ASCII letters only. The header names and command words the code compares are ASCII; Unicode case folding is not modelled.
- Json.Quote: `repr` of a string escapes backslash, the quote, and the ASCII control characters. It does not escape the non-printable characters outside ASCII that Python also escapes.
- Json: a dict holds each key once. Decoding a JSON object with a repeated key keeps the last value in Python; the decoder is not modelled.
- `version`, `config_show` and `main()` in main.py print fixed text or pass the call through, so they are not modelled. Neither is the handling of KeyboardInterrupt.
- `datasets list --format simple` is modelled as written (Datasets.SimpleListingFails). The intended output of the missing `print_simple_list` is not known, so no corrected listing is modelled.
- The `--config` and `--debug` options have no effect on the modelled commands: `Cli.SetupContext` stores them, but no command reads them, and every command builds `APIClient()` with its default `config.yaml` (api_client.py:11). So every command takes the configuration as the decoded `config.yaml`.
- The command groups `documents`, `storage`, `network`, `system`, `user` and `debug` are not part of this model. The scripts and examples of the repository are not part of it either.
- Password hashing in reset_password.py and the encryption in password_utils.py are not part of this model.

## Findings
| source | as written | input that shows it | evidently intended | confidence | as-written member | corrected member |
|---|---|---|---|---|---|---|
| commands/datasets.py:156 | `datasets` and `teams` pass `headers=` to `client.get/post/put/delete`, whose signatures (api_client.py:76, 89, 102, 115) take no such argument, so each of these calls raises TypeError before any request; every `teams` command fails this way (Teams.TeamsAsWrittenFail) | `datasets delete <id> --force` with a token set: the listing call raises, the bare `except` at line 165 takes the dataset as missing, and nothing is ever deleted | the Authorization header sent with each call | not executed | Datasets.DeleteAsWrittenNeverDeletes | Datasets.DeleteCorrectedCanDelete |
| commands/datasets.py:430 | `set_embedding_model` calls `client.patch`, which `APIClient` does not define, so the PATCH attempt always raises AttributeError | `datasets set-embedding-model <id> <model> --force` where the PUT fails: the PATCH attempt raises without a request, and with `headers=` the PUT and POST raise too, so the model never switches | a PATCH request to the dataset | not executed | Datasets.EmbeddingAsWrittenFails | Datasets.EmbeddingCorrectedUsesPatch |
