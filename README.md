# Alert decision engine and routes.yml validator

This project models the part of the Axiom alert bot that decides what happens to one
incoming monitor alert, and the consistency checks run over its `routes.yml`
configuration.

- **The decision engine** (app.py) reads an Axiom webhook payload. It finds the monitor
  name, status, time window, match count and match records wherever they appear in the
  payload, its `event`, or a JSON-encoded `event.body`. It then decides to:
  - skip a resolved alert that is not wanted;
  - drop an alert a `drop` rule catches;
  - or deliver it with:
    - a tag (`#user-impact` when a profile's `p1` rule matches, `#service-errors` otherwise);
    - a runbook rendered with `str.format`;
    - a Telegram chat and topic chosen by the first matching route.
- **The validator** (routes_validation.py) checks a configuration that already passed its
  JSON schema. Every runbook placeholder must be one of `host`, `service`, `container`,
  `monitor`. Every referenced group, topic and profile must exist. Every list operator
  must be given a list value.

Python values are modelled as a JSON-like datatype (`PyJson.Json`). Mappings are ordered
entry lists, because iteration order decides which message comes first. Most Python
exceptions the source can raise on odd input are values of `Py<T>`, not preconditions:
- a `TypeError` from an unhashable rule operator or reference;
- an `AttributeError` from `.get` on a route, or a route `match`, that is not a mapping;
- the `ValueError` of `int(topic_id)`;
- the `ValueError` and `IndexError` of `str.format`, including a format spec a text
  does not accept.

Three exceptions are outside the model:
- the `re.error` of an invalid `regex` pattern (app.py:275), because the regular
  expression search is a parameter;
- the `AttributeError` of a request body that is JSON but not an object (app.py:848),
  because the payload is a mapping by its type;
- the `TypeError` of a YAML mapping with keys that are not strings, because mapping keys
  are strings by their type.

`sorted()` on strings is code-point lexicographic order (`SeqSets.Sort`). Python sets are
duplicate-free sequences, and every consumer of them is order-insensitive.

The loops of the source take two forms:
- A loop that builds up a result is a Dafny method with loop invariants, proved equal to
  the function that specifies it. Examples are the count loop of `_most_common`, the row
  loops of `_extract_match_fields` and `_rows_from_tabular`, the loops of
  `_get_service_profiles` and `_render_runbook`, and the loops of the validator.
- A loop that searches and returns at the first hit is a recursive function only. These
  are `_should_drop`, `_is_p1`, `_resolve_runbook`, `_first_value`, `_match_route` and
  the route loop of `resolve_target`. Each has a contract that states its first-hit
  semantics.

The properties are lemmas about those functions.

`str.format` follows CPython 3.10 and later. A field's value is looked up, converted
(`!s`, `!r`, `!a`), and formatted by its format spec. A spec is
`[[fill]align][sign][z][#][0][width][,|_][.precision][type]`. For a text, a sign, `z`,
`#`, `=`, a grouping character, a `.` without digits, a type other than `s`, or any text
left over raises `ValueError`. A spec that holds a replacement field is expanded first.

Modules, in dependency order:
- `PyJson`, `PyStr`, `SeqSets`: Python values, strings and sets.
- `RouteConfig`: the configuration sections.
- `Payload`: payload normalisation.
- `AlertContext`: the fields drawn from the matches.
- `Template`: `str.format` and runbook rendering.
- `Rules`: `_match_rule`.
- `Classify`: drop, P1, profiles and runbook.
- `Routing`: the delivery target.
- `Webhook`: the decision.
- `ConfigValidation`: the validator.

Where the code and the written description of the system differ, the model follows the code:
- **Message length.** `send_message` cuts a text longer than 4000 characters to 3997
  characters plus an ellipsis, so the result is 3998 characters (app.py:693-694).
- **Empty match list.** `_coerce_matches` takes the first candidate that is a list, even
  an empty one. A later non-empty list is not used (app.py:761-782).
- **Service names.** `_normalize_service_name` removes only a `triggered`/`resolved`
  status prefix, surrounding spaces and everything from the first em dash on
  (app.py:814-818).
- **Routed monitor name.** The fallback in `normalized_name or
  _normalize_monitor_name(monitor_name)` never changes the result (app.py:1119). It is
  proved in `Webhook.RouteMonitor`.
- **Where rules live.** The validator checks only a rule's nested `match` mapping
  (routes_validation.py:111). The engine reads `rule.get("match", rule)`, so a rule
  written without `match` is matched by the engine but never checked by the validator
  (app.py:249).
- **`{container}`.** It is an allowed placeholder, but `_render_runbook` passes no
  `container` argument, so the step is left as written
  (`ConfigValidation.ContainerAllowedButUnrendered`).
- **Conversions and format specs.** The validator reads field names only:
  - `{host!x}` passes it, but rendering raises `ValueError`
    (`ConfigValidation.UnknownConversionPasses`);
  - `{host:d}` passes it, but rendering raises `ValueError`, since `d` is not a
    presentation type for a text (`ConfigValidation.UnknownSpecTypePasses`).

  The claims that accepted runbooks render therefore assume that every field has an
  accepted conversion and format spec (`ConfigValidation.Applicable`).

## Model

| member | source | states |
|---|---|---|
| RouteConfig.Section | app.py:159-163 | a configured value other than `None` is the section; otherwise the default, so the section is `None` only for a `None` default |
| RouteConfig.SectionPut | app.py:159-163 | a value other than `None` written under a name is that section read back; `None` reads back as the default |
| RouteConfig.SectionMissing | app.py:162-163 | a name the configuration lacks reads as the default |
| RouteConfig.MappingSection | app.py:166-168 | a configured mapping is the section; any other configured value, or none, reads as an empty mapping |
| RouteConfig.MappingSectionPut | app.py:166-168 | a mapping written under a name reads back as its entries; any other value reads back as empty |
| RouteConfig.Defaults | app.py:166-168 | `defaults` when it is a mapping, empty otherwise |
| RouteConfig.Profiles | app.py:186-188 | `profiles` when it is a mapping, empty otherwise |
| RouteConfig.Services | app.py:191-193 | `services` when it is a mapping, empty otherwise |
| RouteConfig.DropRules | app.py:181-183 | a configured `drop` list is the rule list; any other value, or none, gives no rules |
| RouteConfig.DropRulesPut | app.py:181-183 | a rule list written as `drop` is the rule list read back |
| RouteConfig.Tags | app.py:171-178 | each tag is the `str()` of the value the `tags` mapping gives it, or its default (`#user-impact`, `#service-errors`) when the mapping does not name it |
| RouteConfig.TagsPut | app.py:171-178 | text tags written into the configuration are the tags read back |
| Payload.GetNested | app.py:729-737 | the loop with early returns yields the value at the end of the key path, `None` once a step is not a mapping or lacks the key |
| Payload.NestedAppend | app.py:729-737 | following a path is following its parts one after the other |
| Payload.NestedFound | app.py:729-737 | a path that yields a value passed through a mapping holding its first key |
| Payload.FirstValue | app.py:740-744 | the result is usable (not `None` or `""`) exactly when some candidate is, and is then one of the candidates; otherwise `None` |
| Payload.EventBody | app.py:747-758 | a mapping body is taken as is; any other result comes from decoding a string body into a mapping |
| Payload.PayloadAliasWins | app.py:851-936 | once a payload-level alias yields a value, no value in `event` or its body can change the field |
| Payload.FirstList | app.py:761-782 | a candidate is chosen exactly when some candidate is a list, and it is one of them |
| Payload.Dicts | app.py:781 | the mapping items are kept and no other item is; with `Payload.DictsAppend` and `Payload.DictsOne`, in their order |
| Payload.DictsAppend | app.py:781 | keeping the mappings of a concatenation keeps those of each part, in order |
| Payload.DictsOne | app.py:781 | one item is kept exactly when it is a mapping |
| Payload.MatchRoots | app.py:762-769 | the payload is probed first, then the `event` mapping when it is non-empty, then the event body when it is non-empty; no other root |
| Payload.CoerceMatches | app.py:761-782 | the root-by-root, path-by-path loop returns the mapping items of the first list it finds |
| Payload.EmptyFirstListWins | app.py:761-782 | an empty list under `queryResult.matches` yields no matches, whatever lies elsewhere |
| Payload.NoListNoMatches | app.py:761-782 | without a list under any probed path of any root there are no match records |
| Payload.ExtractAlertFields | app.py:845-949 | the match records are those of `_coerce_matches`; name, description and both times are `str(v or "")` of the first usable value over their alias tables (payload, then event, then body); a mapping count is replaced by its `count` entry; a missing count becomes the number of match records; the count is `None` exactly when there is neither a count nor a record |
| Payload.FirstValueAt | app.py:740-744 | the first usable value is the candidate at the first position that is neither `None` nor `""` |
| Payload.AliasText | app.py:851-949 | a text field is `str()` of the first alias value that is neither `None` nor `""` |
| Payload.NoAliasText | app.py:942-949 | a text field with no usable alias value is `""` |
| Payload.EncodedBodyLikeInline | app.py:747-758 | a monitor whose data sits in a JSON-encoded string body is read exactly like the same data given inline |
| Payload.AlertStatusSpec | app.py:804-811 | a status is found exactly when the text before the first `": "` lower-cases to `triggered` or `resolved`; the name is then the text after it, otherwise unchanged |
| Payload.AlertStatusOfPrefixed | app.py:804-811 | round trip: a status word in any case, `": "` and a title split back into the lower-cased status and that exact title |
| Payload.AlertStatus | app.py:804-811 | a status found is `triggered` or `resolved` and the name is the text before the first `": "`, the separator and the rest; without a status the name is unchanged |
| Payload.NormalizeMonitorName | app.py:795-801 | the result is the whole name, or the rest of the name after its first `": "` |
| Payload.NormalizeIsStatusRest | app.py:795-811 | `_normalize_monitor_name` always equals the name part of `_extract_alert_status` |
| Payload.GuessServiceFromMonitor | app.py:785-792 | the guess is the stripped text before the first em dash when there is one, else before the first `" - "`; it is non-empty, and there is none without a separator |
| Payload.GuessServiceOfDashTitle | app.py:785-789 | a monitor titled `service—detail` guesses the stripped service, or nothing when that is empty |
| Payload.GuessServiceOfHyphenTitle | app.py:785-792 | a monitor titled `service - detail` with no em dash and no earlier `" - "` guesses the stripped service, or nothing when that is empty |
| Payload.NormalizeServiceName | app.py:814-818 | the normalised name holds no em dash and has no surrounding whitespace; its values are stated by `Payload.NormalizeServiceOfName` (names without a status prefix) and `Payload.NormalizeServiceOfTitle` (names with one) |
| Payload.NormalizeServiceOfName | app.py:814-818 | without a status prefix, `service—detail` and `service` both normalise to the stripped service |
| Payload.NormalizeServiceOfTitle | app.py:814-818 | `Status: service—detail` and `Status: service` both normalise to the stripped service |
| Payload.FieldNames | app.py:496 | the field names are read exactly when every field is a mapping, one per field |
| Payload.BuildRows | app.py:500-513 | the nested index loops build exactly the rows of the table; a cell is read only for a truthy field name |
| Payload.UnnamedFieldSkipped | app.py:504-511 | a field with a falsy name reads no cell: the row is unchanged whenever the column's length can be read |
| Payload.UnnamedFieldOverMapping | app.py:504-511 | an unnamed field over a mapping column, which `column[0]` would fail on, adds nothing and raises nothing |
| Payload.RowsRaiseAt | app.py:500-513 | a cell that raises while the rows are built makes the whole table raise that error |
| Payload.RegularTableCells | app.py:491-513 | transposition: on a table with one list column per distinct field name, row `r` maps each field name to the `r`-th entry of its column and holds no other key |
| Payload.TabularRows | app.py:491-494 | no truthy `tables` value gives no rows |
| Payload.TabularRowsOfTable | app.py:491-513 | on a payload whose first table is regular, one row per entry of the first column, each mapping every field name to its entry of that field's column and holding no other key |
| Payload.MatchData | app.py:522-528 | exactly the mapping `data` of the mapping matches are taken; with `Payload.MatchDataAppend` and `Payload.MatchDataOne`, in their order |
| Payload.MatchDataAppend | app.py:522-528 | the data of a concatenation of matches is the data of each part, in order |
| Payload.MatchDataOne | app.py:526-527 | one match contributes its `data` exactly when it and its `data` are mappings |
| Payload.QueryRows | app.py:516-529 | it raises exactly when the tabular rows raise, with their error; non-empty tabular rows win; otherwise the rows are exactly the `data` mappings of the mapping matches of a `matches` list, and none without one |
| AlertContext.Pick | app.py:402-424 | no alias is taken exactly when none holds a usable value; otherwise the text of the first that does |
| AlertContext.PickIndex | app.py:402-424 | the first alias whose value is taken, with none taken before it |
| AlertContext.PickLoop | app.py:402-424 | the alias loop with `break` yields the first usable alias value |
| AlertContext.AddRowFields | app.py:393-424 | one record adds its host, service, message, status, user agent and path |
| AlertContext.ExtractMatchFields | app.py:383-426 | the record loop yields the fields of the `data` records of the matches |
| AlertContext.ExtractFieldsFromRows | app.py:583-623 | the row loop yields the fields of the rows |
| AlertContext.Records | app.py:393-396 | a record is kept exactly when it is the record of some match (the match itself without `data`, its `data` mapping otherwise), and there are at most as many records as matches |
| AlertContext.RecordsAppend | app.py:393-396 | the records of a concatenation of matches are the records of each part, in order |
| AlertContext.RecordsOne | app.py:393-396 | a match without `data` is its own record; one with a mapping `data` has that record; any other `data` is skipped |
| AlertContext.RowsFieldsSets | app.py:383-426 | the host and service sets hold each truthy host or service text once, in order of first occurrence |
| AlertContext.RowsFieldsLengths | app.py:383-426 | each attribute list takes at most one value per record |
| AlertContext.RowsFieldsAppend | app.py:1148-1162 | merging the fields of two batches of rows is extracting the fields of both batches at once |
| AlertContext.MostCommonSpec | app.py:361-367 | nothing exactly for no values; otherwise a value of greatest count, the earliest to occur among those tied |
| AlertContext.MostCommon | app.py:361-367 | no result exactly for no values; otherwise one of the values |
| AlertContext.MostCommonUnique | app.py:361-367 | the most common value is unique |
| AlertContext.CountValues | app.py:364-366 | the counting loop leaves one key per distinct value, in order of first occurrence, each with its number of occurrences |
| AlertContext.MaxCountKey | app.py:367 | the `max` scan returns the first key of greatest count |
| AlertContext.MostCommonLoop | app.py:361-367 | the count loop and the scan compute `_most_common` |
| AlertContext.SampleMessages | app.py:370-380 | the samples are distinct messages in order of first occurrence, as many as the limit allows, and at least one when there are messages, even for a limit below one |
| AlertContext.SampleMessagesLoop | app.py:370-380 | the loop with its `seen` set and `break` computes the samples |
| AlertContext.LeastOr | app.py:1133-1134 | the least element of a non-empty set in sorted order, `""` for an empty one |
| AlertContext.FormatHostService | app.py:429-443 | nothing is displayed exactly when neither a host nor a service is known; otherwise the least host and service are shown, marked ` (multiple)` when either set has more than one element |
| AlertContext.FormatSingle | app.py:429-443 | a single host and service display as `host:service`, unmarked |
| AlertContext.Truncate | app.py:334-337 | a text within the limit is kept; a longer one keeps `limit - 1` characters and an ellipsis, exactly the limit long |
| AlertContext.TelegramText | app.py:693-694 | the sent text never exceeds 4000 characters; a longer one keeps its first 3997 characters and an ellipsis |
| AlertContext.CoerceBool | app.py:196-205 | a boolean is itself; a text is true for `true/1/yes` and false for `false/0/no` after stripping and lower-casing, the fallback otherwise; any other value gives the fallback |
| AlertContext.CoerceBoolNormalised | app.py:199-200 | a text's truth value does not depend on its case or surrounding whitespace |
| AlertContext.CoerceBoolOfRepr | app.py:196-205 | round trip: the text Python writes for a boolean coerces back to that boolean |
| AlertContext.CoerceInt | app.py:208-216 | an integer is itself, a boolean is 1 or 0, and a text is its parsed integer, or the fallback when it does not parse; other values give the fallback |
| AlertContext.CoerceIntOfText | app.py:208-216 | round trip: a count written as decimal text reads back as that count |
| Template.ScanPlain | app.py:350 | text without braces scans as one literal item, with no syntax error |
| Template.Scan | app.py:350 | an empty step scans to no items and no error |
| Template.RenderField | app.py:350-354 | a field whose value raises raises that error; otherwise its value is formatted by its spec, and a spec that needs expanding at the innermost level raises `ValueError` |
| Template.ParseTextSpec | app.py:350 | an empty spec is left-aligned, space-filled and unbounded; a spec a text does not accept raises `ValueError` and nothing else |
| Template.FormatText | app.py:350 | an empty spec keeps the text; a text formats exactly when its spec parses, and is then the text cut to the precision and padded to the width |
| Template.ApplyTextSpec | app.py:350 | the result is as long as the width or the cut text, holds the cut text at the alignment's offset, and is the fill character elsewhere |
| Template.FormatOneField | app.py:350 | a step that is one field formats as that field renders |
| Template.FormatLiteral | app.py:350 | a step that is one literal formats as itself |
| Template.Arguments | app.py:343-345 | a given host, service or monitor is kept, and an empty one is replaced by `нужный хост`, `нужный сервис` or `нужный монитор` |
| Template.RenderArguments | app.py:343-357 | `{host}`, `{service}` and `{monitor}` render as the host, service and monitor, each replaced by its placeholder phrase when empty |
| Template.RenderStep | app.py:347-357 | a `KeyError` leaves the step as written; any other outcome of `str.format` passes through, so a step never raises `KeyError` |
| Template.RenderRunbookLoop | app.py:340-358 | the step loop computes the rendered runbook, stopping at the first step that raises |
| Template.RenderRunbook | app.py:340-358 | the runbook renders exactly when every step does, one line per step, each the rendering of its step |
| Template.CollectRaisesFrom | app.py:347-357 | once a step raises, the whole rendering raises that error |
| Template.FormatFirstRaising | app.py:350 | the first field that raises decides what `str.format` raises |
| Template.RenderUnknownName | app.py:347-357 | a step whose first failing field names an unknown argument is left as written; a positional field makes it raise `IndexError` |
| Template.RenderPlain | app.py:347-357 | a step without braces renders as itself |
| Template.RenderContainer | app.py:350-357 | `{container}` names no argument, so the step is left as written |
| Rules.ToList | app.py:240-245 | `None` gives nothing; a list gives the texts of exactly its non-`None` items; any other value gives its text |
| Rules.AnyPairSpec | app.py:268-290 | the `any` over pairs finds a pair exactly when one exists |
| Rules.MatchRule | app.py:248-291 | raises exactly when a rule with field, operator and context values has no expected value and an unhashable operator; a rule reaching the dispatch gives its operator's verdict; any other rule is false |
| Rules.MatchRuleOperators | app.py:266-291 | `contains`, `regex` and `eq` use the first expected value (`eq` compares with `""` when there is none); `contains_any`, `in` and `prefix_in` hold when some context value contains, equals or starts with some expected value; unknown operators are false |
| Rules.EmptyTextIsAValue | app.py:240-245 | an empty text context value is still one value |
| Classify.FirstDecisive | app.py:294-298 | the first rule that is a mapping and matches or raises, and no such rule before it |
| Classify.AnyRuleMatches | app.py:294-298 | true only when some mapping rule matches, an exception only when some mapping rule raises it, and false when every mapping rule is false |
| Classify.AnyRuleMatchesFirst | app.py:294-298 | a rule list is decided by its first decisive rule: false without one, otherwise what that rule gives, true or its exception |
| Classify.ShouldDrop | app.py:294-298 | the alert is dropped as its first decisive drop rule says: not without one, otherwise true or the exception that rule gives; no rules drop nothing |
| Classify.AnyRuleMatchesAppend | app.py:301-312 | two rule lists in sequence: the second is consulted only when the first gives false |
| Classify.IsP1 | app.py:301-312 | P1 only when some profile has a mapping `p1` rule that matches; not P1 when every mapping `p1` rule of every profile is false |
| Classify.IsP1AllRules | app.py:301-312 | an alert is P1 exactly when the `p1` rules of its profiles, read as one list in profile order, match it |
| Classify.TruthyTexts | app.py:228 | the names are the texts of exactly the truthy listed profiles |
| Classify.ProfileNames | app.py:222-228 | a profile name is collected exactly when some service lists it |
| Classify.ServiceProfiles | app.py:219-237 | the profiles have no duplicates and are exactly the names some service lists |
| Classify.GetServiceProfiles | app.py:219-237 | the two loops compute the distinct profile names, in order of first occurrence over the sorted services |
| Classify.ProfileNamesLoop | app.py:222-228 | the `extend` loop collects the profile names service by service |
| Classify.DedupLoop | app.py:230-236 | the `seen`/`unique` loop removes repeats and keeps first occurrences in order |
| Classify.RunbookIndex | app.py:318-327 | the first name with a list runbook, with none before it |
| Classify.FirstRunbook | app.py:318-327 | no runbook exactly when no name has a list runbook; otherwise the runbook of the first that does |
| Classify.Lines | app.py:321 | one text line per runbook entry, in order |
| Classify.ResolveRunbook | app.py:315-331 | service runbook first (sorted order), then profile runbook, then the default |
| Classify.ServiceRunbookWins | app.py:317-321 | the runbook of the least service, in sorted order, with a list runbook wins, even an empty one |
| Classify.ProfileRunbookWins | app.py:323-327 | without a service runbook, the first listed profile with a list runbook wins |
| Routing.MatchRoute | app.py:626-641 | a route matches exactly when every entry of its `match` mapping holds; a `match` that is not a mapping raises `AttributeError` |
| Routing.MatchRouteCaseInsensitive | app.py:626-641 | lower-casing the services, hosts and monitor changes no route's verdict |
| Routing.EnvTarget | app.py:654-658 | the chat is the environment chat; no topic id gives no topic; otherwise the topic is `int(topic_id)`, which raises `ValueError` exactly when the id is not an integer |
| Routing.EnvTargetTopic | app.py:654-659 | a topic id written as an integer reaches the target as that integer |
| Routing.DictGet | app.py:672-676 | `AttributeError` exactly on a non-mapping table, `TypeError` exactly on an unhashable key; otherwise the value under a text key, or the default |
| Routing.TargetOf | app.py:672-676 | it raises exactly when `groups` or `topics` is not a mapping or a name is unhashable; the chat is the `str()` of a known group, and the topic is the `topics` entry of the name |
| Routing.UnknownNamesTarget | app.py:672-676 | a group and a topic the configuration does not name give an empty chat id and no topic |
| Routing.FromRoutes | app.py:666-676 | when every route is passed over the default target decides; a first route that matches decides the target |
| Routing.FromRoutesFirst | app.py:666-670 | routes that are passed over do not change the outcome |
| Routing.ResolveTarget | app.py:644-676 | without a configuration the environment decides; a `routes` value that cannot be iterated raises |
| Routing.MalformedRouteRaises | app.py:666-668 | the first route that is not passed over and is not a mapping, or has a `match` that is not a mapping, makes the target raise `AttributeError` |
| Routing.FirstMatchingRouteWins | app.py:660-676 | the first matching route decides the target; earlier routes are passed over and later ones never looked at |
| Routing.NoRouteMatches | app.py:660-676 | when no route matches, the default group and topic decide |
| Routing.ResolveTargetLoop | app.py:644-676 | the route loop with its early returns computes the target |
| Webhook.RouteMonitor | app.py:1119 | the routed monitor name is the title after the status prefix, and the fallback never changes it |
| Webhook.WithGuess | app.py:1128-1131 | only the services change: when the matches name none, the guessed service is added exactly when there is a guess, and it is then the only service |
| Webhook.EnrichLikeMoreRecords | app.py:1133-1162 | the enrichment rows count as if they came with the alert |
| Webhook.EnrichmentUnusedWithMessages | app.py:1135-1140 | the enrichment query's rows are ignored when the matches carry a message |
| Webhook.NormalizedServices | app.py:1164 | the service set holds, once each, exactly the normalised names of the non-empty services, none with an em dash |
| Webhook.TagFor | app.py:1191-1192 | the `user_impact` tag for a P1 alert, the `service_errors` tag otherwise, and the default tags without a `tags` mapping |
| Webhook.ContextOf | app.py:1165-1183 | the rule context: the title is the routed monitor, the host and service those displayed, status, user agent and path the most common values or `""`, and the message the top error when `top_error` is enabled and `""` otherwise |
| Webhook.Deliver | app.py:1189-1221 | a delivered alert keeps its status and services; its tag is the P1 tag exactly when its profiles' P1 rules match (if the two tags differ); it has one runbook line per resolved step and goes to the resolved target |
| Webhook.Decide | app.py:1073-1222 | an alert is skipped exactly when it is resolved and resolved alerts are not included; a delivered alert is not resolved unless they are included, carries one of the two tags, and has distinct, normalised services |
| Webhook.DecideDrop | app.py:1185-1187 | a wanted alert is dropped exactly when a drop rule catches its context, and a drop rule that raises fails the request |
| ConfigValidation.RunbookLists | routes_validation.py:30-44 | one runbook per section value, in mapping order |
| ConfigValidation.ValuesRunbooksHas | routes_validation.py:30-44 | every line of every value's runbook is collected |
| ConfigValidation.ValuesRunbooksLoop | routes_validation.py:32-36 | the loop over a section's values collects their runbook lines in order |
| ConfigValidation.CollectRunbooks | routes_validation.py:22-46 | `_iter_runbooks` collects the default, profile and service runbooks in that order |
| ConfigValidation.SectionRunbookListed | routes_validation.py:30-44 | a runbook the engine finds in a section is among the collected lines |
| ConfigValidation.ResolvedRunbookListed | routes_validation.py:22-46 | every runbook line the engine can select for any alert is a line the validator checks |
| ConfigValidation.FieldErrors | routes_validation.py:54-60 | a line's unknown fields are each reported, and only they are |
| ConfigValidation.LineErrorsSpec | routes_validation.py:52-62 | a line passes exactly when it scans without error and names only allowed fields; a syntax error is reported last |
| ConfigValidation.PlaceholderErrorsNone | routes_validation.py:49-63 | the placeholder check passes exactly when every line passes |
| ConfigValidation.ValidatePlaceholders | routes_validation.py:49-63 | the configuration passes the placeholder check exactly when every collected runbook line passes |
| ConfigValidation.LineErrorsLoop | routes_validation.py:53-62 | the loop over a line's scanned items computes its messages |
| ConfigValidation.ValidatePlaceholdersLoop | routes_validation.py:49-63 | the loop over the runbook lines computes all placeholder messages |
| ConfigValidation.EmptyFieldReported | routes_validation.py:57-60 | `{}` is reported as an unknown, empty placeholder |
| ConfigValidation.ContainerAllowedButUnrendered | routes_validation.py:12 | `{container}` passes the validator yet renders as written |
| ConfigValidation.UnknownConversionPasses | routes_validation.py:54-57 | `{host!x}` passes the validator yet rendering raises `ValueError` |
| ConfigValidation.UnknownSpecTypePasses | routes_validation.py:54-57 | `{host:d}` passes the validator yet rendering raises `ValueError` |
| ConfigValidation.AllowedFieldRenders | routes_validation.py:12 | an allowed field with an accepted conversion and format spec renders or raises `KeyError` |
| ConfigValidation.FormatAllowed | routes_validation.py:12 | formatting fields that all render or raise `KeyError` does one or the other |
| ConfigValidation.ValidLineRenders | routes_validation.py:49-63 | a line the validator accepts, with accepted conversions and format specs, always renders |
| ConfigValidation.RefErrors | routes_validation.py:72-88 | a truthy reference that is not a key is reported once; an unhashable one raises `TypeError` |
| ConfigValidation.DefaultRefErrors | routes_validation.py:70-77 | the default checks raise only `TypeError` |
| ConfigValidation.DefaultGroupReported | routes_validation.py:70-73 | when `groups` is a mapping, a dangling default group is reported exactly when present |
| ConfigValidation.RoutesRefs | routes_validation.py:80-88 | the route loop succeeds exactly when every route's check does |
| ConfigValidation.RoutesRefsHas | routes_validation.py:80-88 | the messages of every route are among those of the loop |
| ConfigValidation.RouteRefErrors | routes_validation.py:79 | route references are checked only when both `groups` and `topics` are mappings |
| ConfigValidation.RouteDanglingReported | routes_validation.py:79-88 | each dangling group or topic of a route is reported |
| ConfigValidation.MissingProfilesSpec | routes_validation.py:96-100 | a service's check raises exactly on an unhashable name, and otherwise reports exactly its dangling profile names |
| ConfigValidation.ServicesRefs | routes_validation.py:93-100 | the service loop succeeds exactly when every service's check does |
| ConfigValidation.ServicesRefsHas | routes_validation.py:93-100 | the messages of every service are among those of the loop |
| ConfigValidation.ServiceRefErrors | routes_validation.py:90-92 | service references are checked only when `profiles` and `services` are both mappings |
| ConfigValidation.ServiceMissingReported | routes_validation.py:90-100 | each missing profile a service lists is reported |
| ConfigValidation.ValidateReferencesParts | routes_validation.py:66-102 | a successful reference check is its default, route and service parts in order |
| ConfigValidation.RoutesRefsLoop | routes_validation.py:80-88 | the route loop computes the route messages |
| ConfigValidation.MissingProfilesLoop | routes_validation.py:96-100 | the loop over a service's profiles computes its messages |
| ConfigValidation.ServicesRefsLoop | routes_validation.py:93-100 | the nested service and profile loops compute the service messages |
| ConfigValidation.ValidateReferencesSteps | routes_validation.py:66-102 | `_validate_references` runs its three parts in order |
| ConfigValidation.ValidateReferences | routes_validation.py:66-102 | the reference check raises only `TypeError` |
| ConfigValidation.RouteRefsReported | routes_validation.py:80-88 | a route's dangling group and dangling topic are each reported |
| ConfigValidation.RuleListOpErrors | routes_validation.py:109-115 | a rule is reported, once, exactly when its `match` mapping has a list operator and a value that is not a list; an unhashable operator raises `TypeError` |
| ConfigValidation.RulesListOpErrors | routes_validation.py:108-115 | the rule loop succeeds exactly when every rule's check does, with at most one message per rule |
| ConfigValidation.RulesListOpHas | routes_validation.py:108-115 | the message of every rule is among those of the loop |
| ConfigValidation.ProfilesListOpErrors | routes_validation.py:117-129 | the profile loop succeeds exactly when every profile's check does |
| ConfigValidation.RulesListOpLoop | routes_validation.py:108-115 | the loop over one rule list computes its messages |
| ConfigValidation.ProfilesListOpLoop | routes_validation.py:117-129 | the loop over the profiles' `p1` rules computes their messages |
| ConfigValidation.ValidateListOpsLoop | routes_validation.py:105-131 | the drop rules are checked first, then the profiles |
| ConfigValidation.ValidateListOps | routes_validation.py:105-131 | the list-operator check raises only `TypeError` |
| ConfigValidation.DropRuleReported | routes_validation.py:107-115 | a drop rule with a list operator and a single value is reported |
| ConfigValidation.ExtraErrors | routes_validation.py:145-148 | the placeholder messages come first among the extra messages |
| ConfigValidation.ValidateRoutesConfig | routes_validation.py:134-150 | schema errors come first; otherwise the configuration is valid exactly when the three checks report nothing, and invalid with all their messages joined |
| ConfigValidation.ValidateRoutesConfigSteps | routes_validation.py:134-150 | the schema check, then the three checks extending the message list |
| ConfigValidation.ValidConfigRendersRunbooks | routes_validation.py:134-150 | a configuration the validator accepts, with accepted conversions and format specs, renders every runbook the engine selects without raising |

## Left out

- `_query_axiom_rows` (app.py:532) is an HTTP request. The rows it returns are the `enrichment` parameter of `Webhook.Decide`. Turning a response into rows is modelled, as `Payload.QueryRows`.
- `send_message`: the HTTP call, the topic id in the request and its return value are not modelled. Only the length cut (`AlertContext.TelegramText`) is. A missing chat id drops the message inside `send_message`; that step comes after the decision, so it is not modelled either.
- The alert text: `format_axiom_alert`, `_fmt_dt`, time parsing, `_resolve_time_range`, `_redact` and `_sanitize_line` produce the message text from the decided `Webhook.Alert`. They are not part of this model.
- `_extract_axiom_metadata_from_matches` is not used by the webhook decision and is not part of this model. axiom_cli.py is not part of this model either.
- These parts are not part of this model:
  - the notifier attach loops, the lifespan hooks, `/health` and `local_alert`;
  - the webhook secret check, reading the request body as JSON, and logging.
- Parameters of the model:
  - `re.search` is the `search` parameter of the rule functions;
  - `json.loads` of a string event body is the `decoded` parameter;
  - the formatted `jsonschema` errors are the `schemaErrors` parameter;
  - the configuration is given as a value, so `_load_routes`, `_load_schema` and all file I/O are not modelled;
  - the environment settings are `RouteConfig.Settings`.
- `str.format` details:
  - attribute and index access (`{host.upper}`, `{host[0]}`) render as the whole argument;
    the validator rejects those names, so they do not reach an accepted runbook;
  - widths and precisions are read from ASCII digits only, and a width or precision too
    large for a machine integer, which CPython rejects with "Too many decimal digits",
    is accepted.
- Text functions:
  - `Lower` case-folds ASCII Latin letters and the basic Cyrillic alphabet (U+0400 to
    U+042F) only;
  - `IsSpace` is Python's Unicode whitespace set, so `Strip` strips what `str.strip()`
    strips;
  - `ParseInt` reads ASCII digits only, while Python's `int()` also accepts other
    Unicode decimal digits;
  - `Repr` escapes the non-printable characters of Latin-1 and the common Unicode
    separators and format characters; other characters Python deems non-printable
    (unassigned code points, other format characters) are kept as they are.
- Floats, tuples, sets, mapping keys that are not strings and duplicate YAML keys are not
  values of `PyJson.Json`.
- Routing.ResolveTarget: its own contract states only the no-configuration and unreadable-`routes` cases. The route semantics are stated by `Routing.FromRoutes`, `Routing.FirstMatchingRouteWins`, `Routing.NoRouteMatches` and `Routing.MalformedRouteRaises`.
- Payload.TabularRows: its own contract states only the no-table case. A regular first table is stated by `Payload.TabularRowsOfTable`; ragged tables, whose short columns leave keys out of some rows, have no lemma.
- Template.Scan: its own contract states only the empty step. Plain text and single fields are stated by `Template.ScanPlain`, `Template.FormatOneField` and `Template.RenderArguments`.
- ConfigValidation.ValidateReferences: its own contract states only that it raises `TypeError` and nothing else. Its messages are stated by the lemmas on its parts and by `ConfigValidation.ValidateReferencesParts`.
- ConfigValidation.ValidateListOps: its own contract states only that it raises `TypeError` and nothing else. Its messages are stated by the lemmas on its parts and by `ConfigValidation.ValidateListOpsLoop`.
- Payload.Store: a field name that is hashable but not a string (a number, say) is dropped from the row instead of stored, since the rows are read only by string keys downstream.
- Webhook.Deliver: its contract states the runbook's length only. Its lines are those of `Template.RenderRunbook`.
- ConfigValidation.DefaultRefErrors: its contract states only that it raises `TypeError` and nothing else. The messages are stated by `ConfigValidation.DefaultGroupReported` for the group; no lemma covers the topic check.
