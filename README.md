# DonutSMP Home Assistant integration — a Dafny model

This project models the three files that carry the logic of the DonutSMP
integration for Home Assistant, which polls a game server's player
statistics API:

- **sensor.py** — the catalogue of twelve player metrics (`SENSORS`), the
  unique id of each sensor entity, the coercion of a raw value into the
  sensor state (`native_value`), and the loop in `async_setup_entry` that
  builds one sensor per catalogue row.
- **config_flow.py** — `validate_input`: strip the entered user name and
  API key, send the `X-API-Key` header only for a real key, query the lookup
  endpoint once, and map its outcome to the entry's title and player uuid
  or to `CannotConnect` / `InvalidAuth(reason)`.
- **coordinator.py** — `DonutsCoordinator`: the fields its constructor
  stores, the Bearer header and the two URLs a poll uses, and the ordered
  series of guards in `_async_update_data` that turns the two responses
  into `{"lookup": …, "stats": …}` or an `UpdateFailed`.

Modules: `Wrappers` (Option, Result), `Json` (the values `json.loads`
produces and Python truthiness), `Text` (the string builtins the code
relies on: `str.strip`, `str.lower`, `str.format` with one `{}` and the
decimal rendering of a status code), `Api` (the constants of const.py that
the core uses and the shape of a request), `Sensor`, `ConfigFlow`,
`Coordinator`, and `Drift`, which states how the files fit together as
they are written.

The network is not modelled: each request is a value the model builds,
and what came back is a parameter — `ConfigFlow.Outcome` (connection
error, other exception, or status and decoded body) and
`Coordinator.Fetch` (timeout, other exception, or both responses). Parsing
a string as a float is a parameter `parse: string -> Option<real>`.

The model follows the code: the coordinator authenticates with
`Authorization: Bearer <key>` (validation uses `X-API-Key`); a poll nests
the two bodies under "lookup" and "stats" and merges nothing; a lookup 404
during polling is a lookup endpoint error, not a "not found" kind; and
there is no snapshot cache, refresh coalescing or shutdown logic. It also
keeps the drift between the files: `native_value` looks up flat metric
keys in the coordinator's data, so after every successful poll every
catalogue sensor reads as unknown (`Drift.SensorsUnknownAfterPoll`).

## Model

| member | source | states |
|---|---|---|
| Text.SpaceCharacters | config_flow.py:9-10 | the white space `str.strip()` removes includes blank, tab, newline and carriage return, and no letter, digit, brace or minus sign |
| Text.StripLeading | config_flow.py:9-10 | the result is the suffix of the input after a run of white space, and starts with a non-space character or is empty |
| Text.StripTrailing | config_flow.py:9-10 | the result is the prefix of the input before a run of trailing white space, and ends with a non-space character or is empty |
| Text.StripStart | config_flow.py:9-10 | the start of the stripped text lies within the input |
| Text.Strip | config_flow.py:9-10 | the stripped text is a slice of the input, only white space lies outside it, and it neither starts nor ends with white space |
| Text.StripSlice | config_flow.py:9-10 | an rstrip slice of an lstrip suffix is a slice of the original surrounded by white space only |
| Text.StripLeadingPadded | config_flow.py:9-10 | lstrip removes exactly a leading white-space run in front of a non-space character |
| Text.StripTrailingPadded | config_flow.py:9-10 | rstrip removes exactly a trailing white-space run after a non-space character |
| Text.StripPadded | config_flow.py:9-10 | stripping white-space padding from a string with non-space ends gives that string back (strip is fixed by its contract) |
| Text.StripIdempotent | config_flow.py:9-10 | stripping twice equals stripping once |
| Text.StripEmptyIffBlank | config_flow.py:10 | a key strips to the empty string exactly when it holds only white space |
| Text.LowerChar | config_flow.py:19 | upper-case ASCII letters map to lower case, every other character is kept |
| Text.Lower | config_flow.py:19 | lower-casing keeps the length and maps each character on its own |
| Text.LowerIsNone | config_flow.py:19 | a string lower-cases to "none" exactly when it is one of the sixteen case variants of "none" |
| Text.FormatAt | coordinator.py:46-47 | formatting `prefix + "{}" + suffix` with a brace-free prefix puts the argument in place of the braces |
| Text.FormatBraceFree | coordinator.py:46-47 | a template without a brace is left unchanged by formatting |
| Text.DigitChar | coordinator.py:69 | a digit renders as the character of that digit |
| Text.NatString | coordinator.py:69 | a natural number renders as a non-empty string of decimal digits without a leading zero |
| Text.IntString | coordinator.py:69-72 | an integer renders as a non-empty string that starts with a minus sign exactly when the integer is negative, with decimal digits everywhere else |
| Text.NatStringRoundTrip | coordinator.py:69 | reading the rendered digits back gives the number |
| Text.CancelAround | coordinator.py:69-72 | two equal strings with the same prefix and suffix agree in the part between |
| Text.NatStringInjective | coordinator.py:69 | different natural numbers render differently |
| Text.IntStringInjective | coordinator.py:69-72 | different status codes render differently |
| Json.Truthy | config_flow.py:44 | the falsy decoded values are exactly None, False, 0, 0.0 and the empty string, list and dict |
| Api.NoBrace | const.py:8-9 | the endpoint bases contain no replacement-field brace |
| Api.LookupUrlFormat | coordinator.py:46 | the lookup URL is the lookup base followed by the user name, for every name |
| Api.StatsUrlFormat | coordinator.py:47 | the stats URL is the stats base followed by the user name, for every name |
| Api.EndpointsDiffer | const.py:8-9 | no lookup URL equals any stats URL |
| Sensor.Keys | sensor.py:18-31 | the catalogue keys, one per row, in table order |
| Sensor.KeysValue | sensor.py:18-31 | the twelve keys in table order are money, shards, kills, deaths, playtime, placed_blocks, broken_blocks, mobs_killed, money_spent_on_shop, money_made_from_sell, location, rank |
| Sensor.CatalogueKeysDistinct | sensor.py:18-31 | the catalogue has exactly twelve rows and their keys are pairwise distinct |
| Sensor.KeyListsPartition | sensor.py:87-89 | the money list and the count list are disjoint and both lie in the catalogue; every other catalogue key is location or rank, which are in neither |
| Sensor.FloatOf | sensor.py:87-90 | `float()` of None, a list or a dict fails; of a string it is the parse; of a float it is that float, of True and False it is 1.0 and 0.0, and of an integer it is exact, so truncating gives the integer back; for booleans and numbers it is zero exactly when the value is falsy |
| Sensor.Trunc | sensor.py:90 | `int()` of a float truncates toward zero: the result lies within one of the float, on its side of zero |
| Sensor.NativeValueOf | sensor.py:77-94 | the state is unknown exactly when the value is missing or None; a float state only for a money key whose value converts; an int state only for a count key, as the truncation of the converted value; otherwise the value as read |
| Sensor.MoneyConverted | sensor.py:87-88 | a money key whose value converts reports that float |
| Sensor.CountConverted | sensor.py:89-90 | a count key whose value converts reports the truncated float |
| Sensor.PassThrough | sensor.py:91-94 | a present value whose key is in neither list, or whose conversion raises, is reported unchanged |
| Sensor.TestOrderIrrelevant | sensor.py:87-90 | testing the count list before the money list would report the same state for every key and value |
| Sensor.CountExamples | sensor.py:89-92 | "1.2e5" on a count key is 120000; "abc" on a count key stays "abc" |
| Sensor.UniqueId | sensor.py:72 | the unique id is the user name, an underscore and the key, in that order |
| Sensor.UniqueIdKeyInjective | sensor.py:72 | for one user, different keys give different unique ids |
| Sensor.NewSensor | sensor.py:62-74 | a sensor keeps its row's key, name, icon, unit and state class and the entry's user, has an entity name, and its unique id is the user name, an underscore and the key |
| Sensor.SetupEntry | sensor.py:42-44 | one sensor per catalogue row, in table order, each built from its row and the entry's user, and all unique ids pairwise distinct |
| Coordinator.EndpointMessageNamesStatus | coordinator.py:68-72 | an endpoint-error message determines its status code for a given body text |
| Coordinator.DonutsCoordinator.constructor | coordinator.py:21-31 | the coordinator keeps the user name and key as given, is named after the domain and the user, and passes `SCAN_INTERVAL` (60) as the update interval |
| Coordinator.DonutsCoordinator.Headers | coordinator.py:44 | a poll sends exactly one header, `Authorization: Bearer <key>`, also for an empty key |
| Coordinator.DonutsCoordinator.LookupRequest | coordinator.py:46 | the lookup request goes to the lookup base plus the user name with the Bearer header |
| Coordinator.DonutsCoordinator.StatsRequest | coordinator.py:47 | the stats request goes to the stats base plus the user name with the Bearer header |
| Coordinator.DonutsCoordinator.Requests | coordinator.py:51-52 | a poll sends two requests, first to the lookup base plus the user name and then to the stats base plus the user name, with the same headers |
| Coordinator.Message | coordinator.py:57-83 | a timeout, a 401 and a 5xx carry their fixed texts; a network error message starts with "Network error: " and ends with the exception text; a JSON error message names the endpoint whose body did not decode and ends with the exception text; an endpoint error message names its endpoint and ends with ": " and the response body |
| Coordinator.Combined | coordinator.py:86-89 | the polled data has exactly the keys lookup and stats, holding the two bodies unmodified |
| Coordinator.UpdateData | coordinator.py:49-89 | a timeout or other exception during the fetch is always a failure; a poll succeeds exactly when both statuses are 200 and both bodies decode, and then returns the two bodies unmerged |
| Coordinator.FirstTripped | coordinator.py:62-83 | the position found is the first guard that trips, all before it pass; none is found only when no guard trips |
| Coordinator.UpdateDataIsFirstTrippedCheck | coordinator.py:62-89 | the failure reported is that of the first guard, in the code's order, that trips; the poll succeeds when none trips |
| Coordinator.UnauthorizedFirst | coordinator.py:62-63 | a 401 on either endpoint is an invalid key, whatever the other status and the bodies |
| Coordinator.ServerErrorSecond | coordinator.py:65-66 | without a 401, a status of 500 or more on either endpoint is a server error |
| Coordinator.LookupStatusBeforeStats | coordinator.py:68-69 | past those guards, a lookup status other than 200 (201 and 204 included) is reported before anything about stats |
| Coordinator.StatsStatusThird | coordinator.py:71-72 | after a lookup 200, a stats status other than 200, below 500 and not 401, is a stats endpoint error |
| Coordinator.JsonChecksOrdered | coordinator.py:75-83 | with two 200s, a lookup decode failure is reported before a stats decode failure |
| ConfigFlow.KeyHeaders | config_flow.py:17-21 | the only header validation may send is `X-API-Key`, carrying the key |
| ConfigFlow.ValidationRequest | config_flow.py:28-33 | validation queries the lookup base plus the stripped user name with the key headers of the stripped key |
| ConfigFlow.Username | config_flow.py:9 | the user name is stripped: it neither starts nor ends with white space, stripping it again changes nothing, and it is empty exactly when the entered name is all white space |
| ConfigFlow.ApiKey | config_flow.py:10 | the key is stripped: it neither starts nor ends with white space and stripping it again changes nothing; a missing key is the empty string |
| ConfigFlow.KeyHeaderPresence | config_flow.py:10-21 | the key header is sent exactly when the entered key is not all white space and its stripped form is no case variant of "none"; its value is then the stripped key, with no white space at either end |
| ConfigFlow.PaddedNoneSendsNoHeader | config_flow.py:10-21 | a key entered as "  None " sends no header |
| ConfigFlow.MissingKeySendsNoHeader | config_flow.py:10-21 | a key left out of the input sends no header |
| ConfigFlow.Title | config_flow.py:64 | the entry title is "Donut SMP: " followed by the user name |
| ConfigFlow.ValidateInput | config_flow.py:30-64 | validation succeeds exactly when the response is below 400 and decodes to an object with a truthy uuid; the result is then the title of the stripped user name and that uuid |
| ConfigFlow.NotFoundFirst | config_flow.py:36-38 | a 404 is a missing user whatever the body |
| ConfigFlow.ErrorStatuses | config_flow.py:40 | a 401 is an invalid key and every other status of 400 or more an unknown error, whatever the body |
| ConfigFlow.BodyWithoutUuid | config_flow.py:42-61 | below 400, a falsy body or an object without a truthy uuid is a missing user, and a body that does not decode, or is truthy but not an object, an unknown error |
| ConfigFlow.SendErrors | config_flow.py:47-61 | a connection error cannot connect; any other exception is an unknown error |
| ConfigFlow.FailureCauses | config_flow.py:30-61 | cannot-connect comes only from a connection error and an invalid key only from a 401; a missing user only from a 404 or a decoded body below 400; an unknown error exactly from another exception, another status of 400 or more, or a body below 400 that does not decode or is truthy but not an object |
| ConfigFlow.ReasonString | config_flow.py:38-61 | each reason is raised as one of "user_not_found", "invalid_api_key" and "unknown_api_error" |
| ConfigFlow.ReasonStringInjective | config_flow.py:38-61 | different reasons are raised with different strings |
| Drift.SensorsUnknownAfterPoll | sensor.py:79 | after any successful poll, every catalogue sensor reads as unknown, because the polled data has no metric key |
| Drift.HeaderSchemesDiffer | coordinator.py:44 | polling always sends a Bearer authorization and never the key header, so for the same key polling and validation never send the same headers |
| Drift.LeftOutKeyStillSentAsBearer | coordinator.py:44 | for a coordinator holding the entered key, validation leaves the key out exactly when it is blank or strips to a case variant of "none", and polling sends it as a Bearer token all the same |

## Left out

- Networking: aiohttp sessions, `raise_for_status`, the client session of Home Assistant and the 10-second timeouts are represented only by their outcomes (`ConfigFlow.Outcome`, `Coordinator.Fetch`); that those outcomes come from the requests the model builds is not stated.
- The `with async_timeout.timeout(10)` block is taken to behave as a timeout; whether its synchronous form works depends on the library version, which is not part of this model.
- Float semantics: parsing a string is the abstract `parse`; `float()` of an integer is taken as exact, so rounding above 2^53, `OverflowError` for very large integers, and NaN and infinity (where `int(float("inf"))` raises an uncaught `OverflowError`) are not modelled.
- Sensor.FloatOf: decoded values are reals, so only the branches of `float()` on None, booleans, numbers, strings, lists and dicts are modelled.
- Text.Lower: only ASCII letters are lower-cased; no other character lowers to one of the letters of "none", so the key-header test is unaffected.
- Text.LowerChar: keeps every character other than an ASCII capital, so it does not model `str.lower()` on non-ASCII capitals; as for `Text.Lower`, this cannot change the "none" test.
- The Home Assistant framework: `DataUpdateCoordinator` scheduling, `CoordinatorEntity` notification, `UpdateFailed` propagation, `async_add_entities`, the `hass.data` lookup in `async_setup_entry`, and the coordinator's `data` being None before its first refresh.
- The coordinator's `hass` field and the sensor's reference to its coordinator; a sensor's state is read from the data passed in.
- Presentation: the `icon`, `native_unit_of_measurement` and `device_info` properties (sensor.py:96-115); the catalogue rows keep icon, unit and state class as data only.
- Logging calls.
- The `ConfigFlow` class, the exception classes and the input schema of config_flow.py are elided in the source and are not part of this model; a missing "username" (a `KeyError` raised before the `try`) is a precondition of `ConfigFlow.ValidateInput`.
- Imports: sensor.py imports `DonutSMPCoordinator`, while coordinator.py defines `DonutsCoordinator`, and `CONF_USERNAME`, which const.py does not define, so the module would not import as written; the model ignores imports.
- Exception messages (`str(err)`) and the text of response bodies are abstract strings.
