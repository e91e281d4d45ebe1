# Lawn mower and Electric Kiwi components, modelled in Dafny

This project models two Home Assistant components.

- **lawn_mower** (`lawn_mower.dfy`, `lawn_mower_reproduce.dfy`). The first file covers the
  component's constants, its `Activity` and `LawnMowerEntityFeature` flag enumerations, the
  `LawnMowerEntity` base class's `state` and `supported_features` properties, and the five
  service handlers, each of which forwards a call to an asynchronous entity operation that
  runs the synchronous operation in the executor. The second file covers reproduce-state
  support, which turns a requested activity into at most one blocking service call per entity.
- **electric_kiwi** (`electric_kiwi.dfy`, `electric_kiwi_sensor.dfy`, `billing_date.dfy`). The
  first file covers entry setup: it classifies token-validation failures, checks the token's
  scopes and registers the entry under `hass.data["electric_kiwi"]`. It also covers unload,
  which drops the entry only when its platforms unloaded. The sensor file covers the four
  account sensors. They share one `ElectricKiwiAccountData` holder: a successful fetch
  replaces its balance and a failed fetch keeps it. `billing_date.dfy` models
  `datetime.strptime(s, "%Y-%m-%d")`, which the next-billing-date sensor applies.

Pure code is modelled as datatypes and functions. The objects whose fields change are Dafny
classes: the account data holder and the `hass.data` registry. The sensor entity is also a
class, with constant fields, so that every sensor reads the one shared holder.
`wrappers.dfy` holds the `Option` and `Result` types.

## Model

| member | source | states |
|---|---|---|
| LawnMower.NamesAreDistinct | homeassistant/components/lawn_mower/__init__.py:23-33 | the five service names are pairwise different, and so are the five state names |
| LawnMower.ActivityFlagsAreDistinctBits | homeassistant/components/lawn_mower/__init__.py:58-65 | every Activity member is a single bit of value at most 16, and different members have different bits |
| LawnMower.FeatureFlagsAreDistinctBits | homeassistant/components/lawn_mower/__init__.py:68-77 | every LawnMowerEntityFeature member is a single bit between 1 and 64, and different members have different bits |
| LawnMower.NewEntity | homeassistant/components/lawn_mower/__init__.py:89-101 | a fresh entity's `state` is None until an activity is set, and then it reports that activity unchanged; `supported_features` is the stored mask |
| LawnMower.RegisteredHandler | homeassistant/components/lawn_mower/__init__.py:43-53 | a handler is registered for a service exactly when it is one of the five service names, under the name "async_service_" followed by the service name |
| LawnMower.RegistrationIsOneToOne | homeassistant/components/lawn_mower/__init__.py:43-53 | a handler is registered for a service name exactly when the name is one of the five; each handler serves exactly one service and handler names are distinct |
| LawnMower.Handle | homeassistant/components/lawn_mower/__init__.py:144-175 | each handler awaits the entity operation whose name ends its own; dock and pause pass no keyword arguments, and the other three pass all of the service data |
| LawnMower.DispatchReachesNamedOperation | homeassistant/components/lawn_mower/__init__.py:144-175 | assuming the handler resolution listed under Left out, a registered service reaches the entity operation of the same name; start_mowing, enable_schedule and disable_schedule pass all service data as keyword arguments, while dock and pause pass none |
| LawnMower.AsyncOperation | homeassistant/components/lawn_mower/__init__.py:107-141 | each async operation hands the executor its synchronous counterpart with the same keyword arguments |
| LawnMower.RunBaseJob | homeassistant/components/lawn_mower/__init__.py:103-141 | on the base class every synchronous operation fails: NotImplementedError exactly when there are no keyword arguments, TypeError otherwise |
| LawnMower.BaseEntitySupportsNoService | homeassistant/components/lawn_mower/__init__.py:103-175 | under the same handler resolution, every registered service fails on the base entity, and dock and pause always fail with NotImplementedError |
| LawnMowerReproduce.AllActivitiesListed | homeassistant/components/lawn_mower/reproduce_state.py:24 | the list of activity members contains every member |
| LawnMowerReproduce.Activities | homeassistant/components/lawn_mower/reproduce_state.py:24 | ACTIVITIES contains every activity's value and nothing else |
| LawnMowerReproduce.ServiceFor | homeassistant/components/lawn_mower/reproduce_state.py:51-60 | the elif chain chooses a service exactly for the values of the activities other than ERROR, and what it chooses is one of the five registered service names |
| LawnMowerReproduce.ServiceForMatchesTable | homeassistant/components/lawn_mower/reproduce_state.py:51-60 | the elif chain picks the reference table's service for each activity and nothing for other values; ERROR is the only valid activity it leaves out |
| LawnMowerReproduce.CallFor | homeassistant/components/lawn_mower/reproduce_state.py:49-64 | the call is blocking, on the lawn_mower domain, for the chosen service, with the caller's context; its data holds the entity id and nothing else |
| LawnMowerReproduce.ReproduceStateAsWritten | homeassistant/components/lawn_mower/reproduce_state.py:35-64 | code as written: `service` is left unbound exactly when an existing entity not already in the target state is asked to reach ERROR; any call is blocking, on the lawn_mower domain, with the caller's context and `{entity_id: <entity>}` |
| LawnMowerReproduce.ErrorTargetLeavesServiceUnbound | homeassistant/components/lawn_mower/reproduce_state.py:35-64 | code as written: asking an existing entity that is not in ERROR to reach ERROR leaves `service` unbound |
| LawnMowerReproduce.ReproduceState | homeassistant/components/lawn_mower/reproduce_state.py:35-64 | never leaves the service unbound; any call goes to the lawn_mower domain, is blocking, carries the caller's context and has data `{entity_id: <entity>}` |
| LawnMowerReproduce.ReproduceStateGuards | homeassistant/components/lawn_mower/reproduce_state.py:35-47 | the guards apply in order: a missing entity is reported whatever the target, an invalid target is reported with its value, and an entity already in the target state is left alone |
| LawnMowerReproduce.ReproduceStateDecision | homeassistant/components/lawn_mower/reproduce_state.py:49-64 | past the guards, the table's service is called with `{entity_id: <entity>}`, or nothing for ERROR; a call happens if and only if the entity exists, is in another state, and the target has a table entry |
| LawnMowerReproduce.CorrectionOnlyTouchesUnbound | homeassistant/components/lawn_mower/reproduce_state.py:51-60 | the corrected function agrees with the code as written wherever the latter does not raise; where it raises, the corrected one reports that no service reaches the target |
| LawnMowerReproduce.ReproduceStates | homeassistant/components/lawn_mower/reproduce_state.py:67-82 | the batch has one outcome per requested state, and outcome i is reproducing state i alone |
| LawnMowerReproduce.CallsOfAppend | homeassistant/components/lawn_mower/reproduce_state.py:75-82 | the calls of two concatenated outcome lists are the calls of the first followed by those of the second |
| LawnMowerReproduce.BatchIsIndependent | homeassistant/components/lawn_mower/reproduce_state.py:75-82 | reproducing s1 + s2 gives the outcomes and calls of s1 followed by those of s2 |
| LawnMowerReproduce.BatchCallsAtMostOnePerState | homeassistant/components/lawn_mower/reproduce_state.py:75-82 | a batch makes at most one call per requested state, and every call targets the lawn_mower domain and a requested entity |
| LawnMowerReproduce.ReproducedCallIsDispatched | homeassistant/components/lawn_mower/reproduce_state.py:62-64 | each call made by reproduction names a registered service; under the handler resolution listed under Left out, that service's handler reaches the entity operation of the same name |
| BillingDate.Strptime | homeassistant/components/electric_kiwi/sensor.py:79-81 | a parse that succeeds gives a valid calendar date at midnight, and the text spells exactly that date: four year digits, "-", the month in one or two digits, "-", and the day in one or two digits or as a space and a digit |
| BillingDate.SpelledDateParses | homeassistant/components/electric_kiwi/sensor.py:79-81 | every spelling of a valid date parses to midnight of that date |
| BillingDate.StrptimeCharacterised | homeassistant/components/electric_kiwi/sensor.py:79-81 | parsing gives midnight of y-m-d if and only if that date is valid and the text spells it |
| BillingDate.StrptimeRejectsNonSpellings | homeassistant/components/electric_kiwi/sensor.py:79-81 | parsing raises if and only if the text spells no valid date |
| BillingDate.ParseFormattedDate | homeassistant/components/electric_kiwi/sensor.py:79-81 | every valid date written as YYYY-MM-DD parses back to midnight of that date |
| BillingDate.CanonicalTextIsFormatted | homeassistant/components/electric_kiwi/sensor.py:79-81 | a ten-character accepted text with a digit where the day starts is exactly the YYYY-MM-DD text of the date it parses to |
| BillingDate.StrptimeAcceptsCanonical | tests/components/electric_kiwi/test_sensor.py:108 | "2020-11-03" parses to 2020-11-03T00:00:00 |
| BillingDate.StrptimeAcceptsUnpadded | homeassistant/components/electric_kiwi/sensor.py:79-81 | "2020-1-3", with an unpadded month and day, is accepted as 2020-01-03 |
| BillingDate.StrptimeAcceptsSpacePaddedDay | homeassistant/components/electric_kiwi/sensor.py:79-81 | "2020-01- 3", with a space before a single day digit, is accepted as 2020-01-03 |
| BillingDate.StrptimeRejectsTail | homeassistant/components/electric_kiwi/sensor.py:79-81 | text after the day is refused with "unconverted data remains" |
| BillingDate.StrptimeRejectsMalformed | homeassistant/components/electric_kiwi/sensor.py:79-81 | month 13 and a missing separator do not match the format |
| BillingDate.StrptimeRejectsImpossibleDates | homeassistant/components/electric_kiwi/sensor.py:79-81 | 29 February of a common year and year 0 match the format but are out of range |
| ElectricKiwi.TokenScopes | homeassistant/components/electric_kiwi/__init__.py:82 | the scopes are the token's scope when the token and its scope are present, and an empty list otherwise |
| ElectricKiwi.EntryHasScopes | homeassistant/components/electric_kiwi/__init__.py:79-83 | a missing token, or a token without a scope, fails the check; a scope list passes exactly when it contains the required scope |
| ElectricKiwi.TextScopeMatchesSubstring | homeassistant/components/electric_kiwi/__init__.py:82-83 | a scope given as text matches by substring, so "read_only" satisfies "read" |
| ElectricKiwi.SetupCheck | homeassistant/components/electric_kiwi/__init__.py:48-60 | ConfigEntryAuthFailed if and only if the response status is 4xx, or the token is valid and lacks the scope; ConfigEntryNotReady if and only if the status is not 4xx or any other client error occurred; setup proceeds if and only if the token is valid and has the scope |
| ElectricKiwi.EnsureDomain | homeassistant/components/electric_kiwi/__init__.py:38 | the domain's map exists and keeps its entries; no other key of hass.data changes |
| ElectricKiwi.Register | homeassistant/components/electric_kiwi/__init__.py:63 | the entry maps to the stored value; other entries and other domains are unchanged |
| ElectricKiwi.Unregister | homeassistant/components/electric_kiwi/__init__.py:74 | the entry is gone; other entries and other domains are unchanged |
| ElectricKiwi.UnloadUndoesSetup | homeassistant/components/electric_kiwi/__init__.py:36-75 | unloading an entry that setup newly registered leaves hass.data as `setdefault` alone would |
| ElectricKiwi.FailedSetupRegistersNothing | homeassistant/components/electric_kiwi/__init__.py:38-60 | a setup that raises after `setdefault` changes no entry's registration |
| ElectricKiwi.HassData.constructor | homeassistant/components/electric_kiwi/__init__.py:38 | a starting fixture: an empty map; every method's contract is stated against the map it finds (`old(data)`) |
| ElectricKiwi.HassData.AsyncSetupEntryAsWritten | homeassistant/components/electric_kiwi/__init__.py:36-67 | code as written: it raises exactly what the setup check decides, leaving only the `setdefault`; otherwise it stores an empty dict for the entry and returns True |
| ElectricKiwi.HassData.AsyncSetupEntry | homeassistant/components/electric_kiwi/__init__.py:36-67 | the same decisions, but on success it stores the entry's API client |
| ElectricKiwi.HassData.AsyncUnloadEntry | homeassistant/components/electric_kiwi/__init__.py:70-75 | a failed platform unload returns False and changes nothing; a successful one pops the entry and returns True; a missing entry is a KeyError with nothing changed |
| ElectricKiwiSensor.Apply | homeassistant/components/electric_kiwi/sensor.py:63-91 | the balance and HOP projections always give text; the billing-date projection gives the timestamp strptime parses, or its ValueError |
| ElectricKiwiSensor.SensorTypesTable | homeassistant/components/electric_kiwi/sensor.py:55-93 | four descriptions with distinct keys, each named "Electric Kiwi …"; each reads its own field of the record, and the billing date reads as a midnight timestamp or a parse error |
| ElectricKiwiSensor.InitialBalanceReadsZero | homeassistant/components/electric_kiwi/sensor.py:165-167 | before any fetch both balance sensors read "0", and the billing date and HOP sensors have nothing to read |
| ElectricKiwiSensor.UniqueIdFor | homeassistant/components/electric_kiwi/sensor.py:130-132 | the unique id is "<customer>_<connection>_" followed by the key, and nothing else |
| ElectricKiwiSensor.UniqueIdsDifferByKey | homeassistant/components/electric_kiwi/sensor.py:130-132 | two sensors of one account with different keys have different unique ids |
| ElectricKiwiSensor.NextBalance | homeassistant/components/electric_kiwi/sensor.py:172-175 | a fetched record becomes the balance, and any failure keeps the previous one |
| ElectricKiwiSensor.RaisedBy | homeassistant/components/electric_kiwi/sensor.py:169-176 | an update raises nothing exactly when the fetch succeeded or failed with ApiException |
| ElectricKiwiSensor.NoFetchKeepsBalance | homeassistant/components/electric_kiwi/sensor.py:169-176 | after any series of updates none of which fetched a record, the balance is the starting one |
| ElectricKiwiSensor.LastFetchWins | homeassistant/components/electric_kiwi/sensor.py:169-176 | after any series of updates the balance is the record returned by the last successful fetch, whatever failures follow it |
| ElectricKiwiSensor.PopulatedStaysPopulated | homeassistant/components/electric_kiwi/sensor.py:169-176 | a populated balance stays populated through any series of updates whose fetched records are all populated |
| ElectricKiwiSensor.AccountData.constructor | homeassistant/components/electric_kiwi/sensor.py:159-167 | the holder takes the account's ids, and its balance starts with both totals "0" |
| ElectricKiwiSensor.AccountData.AsyncUpdate | homeassistant/components/electric_kiwi/sensor.py:169-176 | a fetched record replaces the balance and any failure keeps it; only an ApiException is swallowed |
| ElectricKiwiSensor.AccountSensor.constructor | homeassistant/components/electric_kiwi/sensor.py:116-127 | the sensor keeps the shared holder and its description |
| ElectricKiwiSensor.AccountSensor.UniqueId | homeassistant/components/electric_kiwi/sensor.py:130-132 | the sensor's id is the account-and-key id above |
| ElectricKiwiSensor.AccountSensor.Name | homeassistant/components/electric_kiwi/sensor.py:135-137 | the sensor's name is its description's name |
| ElectricKiwiSensor.AccountSensor.NativeValue | homeassistant/components/electric_kiwi/sensor.py:140-142 | the state is the description's projection of the holder's current balance, so every sensor sees the latest update |
| ElectricKiwiSensor.AccountSensor.ExtraStateAttributes | homeassistant/components/electric_kiwi/sensor.py:125-127 | the attributes are exactly {attribution: "Data provided by the Juice Hacker API"} |
| ElectricKiwiSensor.AccountSource | homeassistant/components/electric_kiwi/sensor.py:100-101 | the account can be read exactly when the stored value is an API client; an empty dict is an AttributeError |
| ElectricKiwiSensor.AsWrittenRegistryBreaksSensors | homeassistant/components/electric_kiwi/__init__.py:63 | after setup as written the sensor platform fails with AttributeError; after the corrected setup it reads the stored client |
| ElectricKiwiSensor.AsyncSetupEntry | homeassistant/components/electric_kiwi/sensor.py:96-108 | an empty dict fails with AttributeError and a raising first update fails with its error; otherwise there is one sensor per description, in order, all sharing one new holder built from the client and updated once |

## Left out

- lawn_mower `async_setup_entry` and `async_unload_entry` (`lawn_mower/__init__.py:178-188`) only delegate to the host's entity component, which is not part of this model.
- `LawnMower.RegisteredHandler`: the registrations at `lawn_mower/__init__.py:43-53` name each handler only by a string such as "async_service_start_mowing", and `LawnMowerEntity` has no attribute of that name. The module-level functions of those names (`:144-175`) take the entity and the call. How the host resolves the string is not part of this model. The model assumes it calls the module-level function of that name as `handler(entity, call)`. The dispatch lemmas (`LawnMower.DispatchReachesNamedOperation`, `LawnMower.BaseEntitySupportsNoService`, `LawnMowerReproduce.ReproducedCallIsDispatched`) rest on this assumption.
- `hass.async_add_executor_job` and awaiting: the model shows which job is handed over, not its scheduling.
- `async_reproduce_states` runs its reproductions concurrently with `asyncio.gather`. They are modelled as independent evaluations against one snapshot of the state machine, so their interleaving is not modelled.
- `LawnMowerActivity` is not defined in the files modelled here. It is taken to be a string enumeration of the five state names plus `DOCKING` with value "docking".
- `LawnMowerReproduce.ReproduceState`: for an ERROR target the model returns `NoServiceFor` rather than raising (see Findings). Log messages are modelled only as which outcome occurred.
- LawnMowerEntity is modelled by the two stored attributes that its properties read. Platform-specific subclasses are out of scope.
- OAuth2 is not modelled: the implementation lookup, the session and `get_feature_access` are left out. The token check's outcome and the required scope are parameters.
- `async_forward_entry_setups` is taken to succeed, and `async_unload_platforms`' result is a parameter.
- config_flow.py and application_credentials.py are not part of this model.
- The `ATTR_*` description keys are imported from const.py but are not defined in the copy of const.py modelled here. Their text is a stand-in; only their distinctness is used.
- `Throttle`, `throttled_update` and the sensor entity's own `async_update` (sensor.py:149-153) are left out: they add rate limiting and logging around the holder's update.
- The 60-second `async_timeout` duration is not modelled: only whether a fetch timed out is.
- `_check_and_move_time` and the Hour-of-Power coordinators are not part of this model.
- `ElectricKiwiSensor.AccountSensor.NativeValue`: it requires the billing date or the first connection to be present. Python raises AttributeError or IndexError when they are missing, and the model does not produce those errors.
- `BillingDate.Strptime`: only ASCII digits are modelled. Python's `\d` also accepts other Unicode decimal digits.
- The date format accepts more than YYYY-MM-DD: single-digit months and days, and a space before a one-digit day, parse too (`BillingDate.StrptimeCharacterised`, `BillingDate.StrptimeAcceptsUnpadded`, `BillingDate.StrptimeAcceptsSpacePaddedDay`).
- A timeout during an update propagates out of `async_update`; only ApiException is caught. The data holder keeps its balance in every failure case.

## Findings

| source | as written | input that shows it | evidently intended | confidence | as-written member | corrected member |
|---|---|---|---|---|---|---|
| homeassistant/components/lawn_mower/reproduce_state.py:39-64 | ERROR passes the ACTIVITIES check, but no elif branch assigns `service`, so the call raises UnboundLocalError | an existing entity in state "mowing", target state "error" | a valid target that no service can reach is skipped without raising | not executed | LawnMowerReproduce.ErrorTargetLeavesServiceUnbound | LawnMowerReproduce.ReproduceState |
| homeassistant/components/electric_kiwi/__init__.py:62-63 | setup stores `{}` for the entry; sensor.py:100-101 uses it as the API client and reads `customer_number` from it | any entry whose token is valid and carries the scope | store the API client built on the entry's session, as the comment at line 62 says | not executed | ElectricKiwi.HassData.AsyncSetupEntryAsWritten | ElectricKiwi.HassData.AsyncSetupEntry |
