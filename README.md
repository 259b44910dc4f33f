# A verified model of three navitia kernel components

This project is a Dafny model of three parts of the navitia public-transport kernel. Each part
is stated as specification functions, with methods proved against them and lemmas about them.

- **The web-service base worker** (`source/WS_commons/baseworker.h`, module `WebService`).
  This covers percent-decoding of a request (module `PercentDecoding`), splitting the body and
  the query string into `key=value` tokens, and choosing the API from the last path segment.
  It also covers dispatching to a registered handler, the "API inconnue" answer, and API and
  parameter registration. `run_query` splits a request line at its first `?`.
- **The PT-referential query language** (`source/ptreferential/ptreferential.cpp`).
  - The filter grammar is a recursive-descent parser over positions that follows the Spirit
    rules and their space skipper (module `FilterGrammar`). A printer for filters, with the
    round trip "parse after print gives back the filters", is in module `FilterRender`.
  - `make_query` and its helpers are in module `PtQuery`. These are the WHERE clause built from
    filters, the indexes of one filter followed along the type path, and the intersection of
    all filters. After that come the subtraction of forbidden URIs, the on-demand-transport
    level, the validity period filters and the final "nothing found" error.
  - Every exception is a `QueryError` value. `ClassOf` gives the C++ exception class it is
    thrown as and `Message` its text.
- **The traffic report** (`source/disruption/traffic_reports_api.cpp`, module `TrafficReports`).
  - `TrafficReport` is a class whose `disrupts` field is the list of per-network entries. Its
    methods update that field in place, as `find_or_create`, `add_networks`, `add_lines`,
    `add_stop_areas`, `add_vehicle_journeys`, `sort_disruptions` and `disruptions_list` do.
  - Every method is tied to a function of the old state. The lemmas prove that the list keeps
    one entry per network and one item per object, and which impacts each object ends up with.
    They also prove which query errors are swallowed, and that the final sort orders networks
    by index and lines by (minimum severity priority, code, name).

The transport data is an abstract record (`PtQuery.PtData`, `TrafficReports.ReportData`). It
holds the lookups that the query reads: object counts, caption tables, the URI and code lookups,
the type path with its `get_target_by_source` step, and line ODT properties. It also holds
production dates, vehicle-journey validity, impact application periods, severities and the
publishable messages at a given instant. Indexes are sets of naturals. Times are whole seconds
and dates are day numbers.

## Model

| member | source | states |
|---|---|---|
| PercentDecoding.Decode | source/WS_commons/baseworker.h:24-43 | the in-place scan of `decode` yields exactly `Decoded(s)`: each `%XY` with value at least 32 becomes one character, and scanning resumes after it |
| PercentDecoding.DecodedNotLonger | source/WS_commons/baseworker.h:29-41 | decoding never lengthens the string, and it shortens it by two characters per replaced escape |
| PercentDecoding.DecodedWithoutPercent | source/WS_commons/baseworker.h:29 | a string without `%` is left unchanged |
| PercentDecoding.DecodedIsSinglePass | source/WS_commons/baseworker.h:29-40 | a `%` produced by a replacement is not decoded again (`%2541` gives `%41`) |
| PercentDecoding.DecodedKeepsControlCodesAndShortTails | source/WS_commons/baseworker.h:30-39 | an escape below 32 and a `%` with fewer than two following characters are kept as written |
| PercentDecoding.DecodeEscaped | source/WS_commons/baseworker.h:24-43 | percent-encoding every character with a code from 32 to 255 as `%XY` gives a well-escaped string that decodes back to the original |
| PercentDecoding.SkipPlain | source/WS_commons/baseworker.h:29 | the prefix before the first `%` passes through decoding unchanged |
| Text.ToLower | source/WS_commons/baseworker.h:114 | the result has the same length and no capital letter; each capital moves down to its lower-case letter and every other character is kept |
| Text.ToLowerIsLowerCase | source/WS_commons/baseworker.h:126 | a lowercased string has no capital letter, and lowercasing is the identity on lower-case text |
| Text.Split | source/WS_commons/baseworker.h:107-108 | splitting on `&` gives tokens that join back to the input, none containing the separator, one more than the separator's occurrences |
| Text.StringLessTransitive | source/disruption/traffic_reports_api.cpp:269-280 | the lexicographic string order used for codes and names is transitive |
| Text.StringLessTotal | source/disruption/traffic_reports_api.cpp:269-280 | of two distinct strings one is less than the other |
| Text.StringLessIrreflexive | source/disruption/traffic_reports_api.cpp:269-280 | no string is less than itself |
| WebService.TokenEntry | source/WS_commons/baseworker.h:111-117 | an empty token adds nothing; a token with `=` gives its lowercased prefix before the first `=` and the rest as value; a token without `=` gives its lowercased self with an empty value |
| WebService.InsertTokensKeys | source/WS_commons/baseworker.h:111-117 | a key is present after the insertions iff it was present already or some token yields it |
| WebService.InsertTokensKeepsExisting | source/WS_commons/baseworker.h:114-116 | `std::map::insert` never overwrites a parameter that is already present |
| WebService.InsertTokensFirstWins | source/WS_commons/baseworker.h:111-117 | a key gets the value of the first token that yields it |
| WebService.InsertTokensAppend | source/WS_commons/baseworker.h:109-111 | inserting the body tokens and then the query tokens is one pass over their concatenation |
| WebService.BodyBeforeQuery | source/WS_commons/baseworker.h:107-117 | a key given in the body keeps its body value whatever the query string says |
| WebService.FillParams | source/WS_commons/baseworker.h:111-117 | the token loop builds exactly `InsertTokens(initial, tokens)` |
| WebService.ApiName | source/WS_commons/baseworker.h:119-126 | the API name is the lowercased text after the last `/`, or the whole lowercased path without one |
| WebService.QueryParts | source/WS_commons/baseworker.h:338-344 | without `?` the whole request is the path; otherwise the path has no `?` and path, `?` and parameters rebuild the request |
| WebService.WellEscapedParts | source/WS_commons/baseworker.h:338-345 | a well-escaped request line splits into a well-escaped path and well-escaped parameters, so `RunQuery` accepts every line the decoder accepts whole |
| WebService.BaseWorker.constructor | source/WS_commons/baseworker.h:66-69 | a new worker has no API and no metadata |
| WebService.BaseWorker.RegisterApi | source/WS_commons/baseworker.h:167-175 | the handler and fresh metadata are stored under the lowercased name, overwriting a previous registration |
| WebService.BaseWorker.AddParam | source/WS_commons/baseworker.h:182-197 | returns false and changes nothing for an unknown API; otherwise stores or overwrites the parameter under its lowercased name |
| WebService.BaseWorker.AddDefaultApi | source/WS_commons/baseworker.h:324-329 | `help`, `stats` and `analyze` are registered with their descriptions, and `analyze` gets its mandatory `api` parameter; every other API keeps its handler and its metadata |
| WebService.BaseWorker.Dispatch | source/WS_commons/baseworker.h:100-156 | an unknown API gives the "API inconnue" XML answer; a known one gives the handler's answer on the decoded request with its parameters, tagged with the API name |
| WebService.BaseWorker.RunQuery | source/WS_commons/baseworker.h:332-351 | a GET request is built from the path and the raw parameters split at `?`, then dispatched; only the two parts need to be well escaped |
| FilterGrammar.SkipsSpaces | source/ptreferential/ptreferential.cpp:409 | the skipper consumes exactly the maximal run of white space |
| FilterGrammar.LexemeIsLongestRun | source/ptreferential/ptreferential.cpp:88-89 | a `word`/`text` lexeme is the longest non-empty run of its character class after pre-skipping, and it fails exactly when no such character follows |
| FilterGrammar.WordCharsAreTextChars | source/ptreferential/ptreferential.cpp:88-95 | word characters are text and bracket characters; text adds exactly `=`, `.`, `<`, `>` and space |
| FilterGrammar.List | source/ptreferential/ptreferential.cpp:109 | a `%` list reads at least one item and consumes input |
| FilterGrammar.ListTail | source/ptreferential/ptreferential.cpp:115-116 | the repetition after the first item always succeeds and never moves backwards |
| FilterGrammar.Clauses | source/ptreferential/ptreferential.cpp:115-116 | the whole filter rule reads at least one clause and consumes input |
| FilterGrammar.ParsersConsume | source/ptreferential/ptreferential.cpp:104-116 | every clause, separator, value and comma parser that matches consumes at least one character |
| FilterGrammar.Parse | source/ptreferential/ptreferential.cpp:404-418 | a success has at least one filter; a global error carries the request; a partial error carries a non-empty proper suffix of the request that does not start with a space |
| FilterGrammar.OperatorOrderIsLongestFirst | source/ptreferential/ptreferential.cpp:96-102 | `<=` is tried before `<`, so `a.b<=c` is one LEQ comparison |
| FilterGrammar.EscapedQuoteIsKept | source/ptreferential/ptreferential.cpp:91-93 | `\"` inside a quoted value gives a quote, and the string ends at the first unescaped quote |
| FilterGrammar.TrailingTextIsPartialError | source/ptreferential/ptreferential.cpp:409-413 | text left after the last clause is a partial error holding exactly that text |
| FilterGrammar.NoClauseIsGlobalError | source/ptreferential/ptreferential.cpp:414-416 | an input no clause starts is a global error carrying the request |
| FilterGrammar.OneCharWord | source/ptreferential/ptreferential.cpp:88 | a word character followed by a non-word character is a one-character word and value |
| FilterRender.ParseRender | source/ptreferential/ptreferential.cpp:104-116 | printing a non-empty list of well-formed filters and parsing the text gives back exactly those filters |
| FilterRender.QuotedRoundTrip | source/ptreferential/ptreferential.cpp:91-93 | any value printed with escaped quotes and backslashes is read back whole by `escaped_string` |
| FilterRender.RenderedClauses | source/ptreferential/ptreferential.cpp:115-116 | the `and`-separated clause list reads back every printed clause and stops at the end |
| FilterRender.JoinedRead | source/ptreferential/ptreferential.cpp:109 | a separator-joined sequence of items that each read back is read back whole by the list repetition |
| FilterRender.ClausesReadEach | source/ptreferential/ptreferential.cpp:104-114 | after an `and` separator every kind of printed clause is read back |
| FilterRender.ArgsReadEach | source/ptreferential/ptreferential.cpp:109 | after a `,` every printed quoted argument is read back |
| PtQuery.GetIntersection | source/ptreferential/ptreferential.cpp:427-432 | membership in the result is membership in both sets |
| PtQuery.GetDifference | source/ptreferential/ptreferential.cpp:420-425 | membership in the result is membership in the first and not the second set |
| PtQuery.HoldsAppend | source/ptreferential/ptreferential.cpp:124-144 | a clause extended with `&&` holds iff the old clause and the new condition both hold |
| PtQuery.BuildClause | source/ptreferential/ptreferential.cpp:124-144 | the WHERE clause holds on an object iff every filter on `uri`, `name` or (when the type has one) `code` compares true; other attributes are ignored |
| PtQuery.FilteredIndexes | source/ptreferential/ptreferential.cpp:184-192 | an index is kept iff it is within the collection and the clause holds on its object |
| PtQuery.Selected | source/ptreferential/ptreferential.cpp:384-387 | the generic lookup keeps exactly the objects the one-filter clause accepts |
| PtQuery.FilterLookup | source/ptreferential/ptreferential.cpp:307-388 | a plain comparison uses the generic clause lookup; an unknown method call is a partial parse error |
| PtQuery.LookUp | source/ptreferential/ptreferential.cpp:307-388 | the branch chain of `get_indexes` computes `FilterLookup` |
| PtQuery.FollowPath | source/ptreferential/ptreferential.cpp:389-394 | the path walk stops at a type the path maps to itself, and changes nothing when it starts there |
| PtQuery.WalkPath | source/ptreferential/ptreferential.cpp:389-394 | the `while` loop computes `FollowPath` |
| PtQuery.GetIndexes | source/ptreferential/ptreferential.cpp:307-402 | the indexes are the filter's lookup carried along the path; the result is empty when the path does not reach the requested type |
| PtQuery.IndexesOfRequestedType | source/ptreferential/ptreferential.cpp:389-402 | a filter on the requested type itself returns its lookup unchanged |
| PtQuery.ManageOdtLevel | source/ptreferential/ptreferential.cpp:434-466 | the loop computes `OdtRestricted` |
| PtQuery.OdtRestrictedShrinks | source/ptreferential/ptreferential.cpp:434-466 | only lines are restricted, every kept line has the requested ODT property, and other types or an empty set pass unchanged |
| PtQuery.OdtAllEmptiesLines | source/ptreferential/ptreferential.cpp:459-460 | called with level `all`, a non-empty line set becomes empty; `make_query` never calls it that way |
| PtQuery.FilteringPeriod | source/ptreferential/ptreferential.cpp:528-551 | `until` before `since` is "invalid filtering period"; bounds outside production are rejected; otherwise the period is [since or production start, until or production end, plus one second) |
| PtQuery.DayBounds | source/ptreferential/ptreferential.cpp:535-547 | the day of an instant compares with a day as the instant compares with that day's midnight |
| PtQuery.KeepVehicleJourney | source/ptreferential/ptreferential.cpp:468-482 | a vehicle journey is kept iff it has stop times and, on some valid day of the period, its first departure lies inside the period |
| PtQuery.DepartureBetweenKeeps | source/ptreferential/ptreferential.cpp:468-482 | a journey departing between `since` and `until` on a valid production day is kept |
| PtQuery.KeepImpact | source/ptreferential/ptreferential.cpp:505-515 | an impact is kept iff it is alive and one of its application periods meets the period |
| PtQuery.FilterVehicleJourneysOnPeriod | source/ptreferential/ptreferential.cpp:484-496 | exactly the input journeys that run within the period are kept |
| PtQuery.FilterImpactsOnPeriod | source/ptreferential/ptreferential.cpp:498-518 | exactly the input impacts active within the period are kept |
| PtQuery.FilterOnPeriod | source/ptreferential/ptreferential.cpp:520-562 | the period filter computes `PeriodFiltered` |
| PtQuery.PeriodFilteredShrinks | source/ptreferential/ptreferential.cpp:553-561 | period filtering only removes indexes, and it is an error for any type but vehicle journeys and impacts |
| PtQuery.RequestFilters | source/ptreferential/ptreferential.cpp:573-575 | an empty request has no filter; otherwise the filters are what `parse` returns, or its error |
| PtQuery.FilterTypes | source/ptreferential/ptreferential.cpp:577-585 | every filter object gets its type from the caption table; the first unknown caption is "Filter Unknown object type" |
| PtQuery.ResolveTypes | source/ptreferential/ptreferential.cpp:577-585 | the caption loop computes `FilterTypes` |
| PtQuery.CombinedIsIntersection | source/ptreferential/ptreferential.cpp:595-637 | when every filter succeeds, the combined indexes are exactly those in every filter's result |
| PtQuery.CombinedFirstError | source/ptreferential/ptreferential.cpp:595-637 | the first failing filter's error is the one raised |
| PtQuery.CombinedStopsAt | source/ptreferential/ptreferential.cpp:595-637 | a failure after successful earlier filters ends the loop with that failure |
| PtQuery.IntersectFilters | source/ptreferential/ptreferential.cpp:595-637 | the filter loop (first result, then intersections) computes `Combined` |
| PtQuery.CombinedStep | source/ptreferential/ptreferential.cpp:631-636 | one more filter takes its own indexes the first time and the intersection afterwards |
| PtQuery.DispatchFilter | source/ptreferential/ptreferential.cpp:598-629 | the type switch runs the lookup for the handled types and raises "Unable to find the requested type" for the others |
| PtQuery.ForbiddenIndexes | source/ptreferential/ptreferential.cpp:640-683 | a URI of unknown type is skipped; a looked-up URI has a known type |
| PtQuery.ForbidOne | source/ptreferential/ptreferential.cpp:640-683 | the body of the forbidden loop computes `ForbiddenIndexes` |
| PtQuery.ForbiddenLookupSucceeds | source/ptreferential/ptreferential.cpp:646-683 | a URI whose type has a caption and is handled by the switch is always looked up |
| PtQuery.Forbid | source/ptreferential/ptreferential.cpp:684 | a successful forbidden lookup removes its indexes; a failing one is the error |
| PtQuery.WithoutForbiddenIsDifference | source/ptreferential/ptreferential.cpp:640-685 | when every forbidden lookup succeeds, the result is the filtered set minus every forbidden URI's indexes |
| PtQuery.WithoutForbiddenFirstError | source/ptreferential/ptreferential.cpp:640-685 | the first failing forbidden lookup's error is raised |
| PtQuery.UnknownForbiddenSkipped | source/ptreferential/ptreferential.cpp:643-645 | URIs of unknown type never change the result |
| PtQuery.RemovedByEach | source/ptreferential/ptreferential.cpp:640-685 | each forbidden URI's indexes are among those removed |
| PtQuery.SubtractForbidden | source/ptreferential/ptreferential.cpp:640-685 | the forbidden loop computes `WithoutForbidden` |
| PtQuery.Restricted | source/ptreferential/ptreferential.cpp:687-699 | a successful ODT and period restriction is non-empty and within its input |
| PtQuery.Restrict | source/ptreferential/ptreferential.cpp:687-699 | the ODT, period and emptiness steps compute `Restricted` |
| PtQuery.Narrowed | source/ptreferential/ptreferential.cpp:640-699 | a successful narrowing is non-empty |
| PtQuery.Narrow | source/ptreferential/ptreferential.cpp:640-699 | the forbidden, ODT, period and emptiness steps compute `Narrowed` |
| PtQuery.NarrowedShrinks | source/ptreferential/ptreferential.cpp:640-699 | the narrowed result is within the filtered set and disjoint from every forbidden index |
| PtQuery.TypedQuery | source/ptreferential/ptreferential.cpp:587-699 | a successful query with typed filters is non-empty |
| PtQuery.QueryTypedFilters | source/ptreferential/ptreferential.cpp:587-699 | the object-count check, the filters and the narrowing compute `TypedQuery` |
| PtQuery.FilteredQuery | source/ptreferential/ptreferential.cpp:577-699 | a successful query with parsed filters is non-empty |
| PtQuery.QueryFilters | source/ptreferential/ptreferential.cpp:577-699 | typing then querying computes `FilteredQuery` |
| PtQuery.Query | source/ptreferential/ptreferential.cpp:564-699 | a successful query is never empty (an empty result is "Unable to find object") |
| PtQuery.MakeQuery | source/ptreferential/ptreferential.cpp:564-699 | `make_query` computes `Query` |
| PtQuery.QueryMeetsEveryFilter | source/ptreferential/ptreferential.cpp:595-685 | every index returned is in every filter's result and in no forbidden URI's result |
| PtQuery.FirstFilterFailure | source/ptreferential/ptreferential.cpp:595-637 | a failing filter has a first failing filter before or at it |
| PtQuery.FirstFailure | source/ptreferential/ptreferential.cpp:640-685 | a failing forbidden URI has a first failing one before or at it |
| PtQuery.QueryWithoutObjects | source/ptreferential/ptreferential.cpp:588-590 | with no object of the requested type, a parsed and typed request fails with "No requested object in the database" |
| PtQuery.QueryEverything | source/ptreferential/ptreferential.cpp:592-593 | an empty request with no forbidden URI gives all indexes of the type, or "Unable to find object" when there are none |
| PtQuery.QueryIgnoresUnknownForbidden | source/ptreferential/ptreferential.cpp:643-645 | forbidden URIs of unknown type do not change the query's outcome |
| PtQuery.MakeQueryForbidding | source/ptreferential/ptreferential.cpp:726-737 | the three-argument overload is the full query with level `all` and no period |
| PtQuery.MakeSimpleQuery | source/ptreferential/ptreferential.cpp:739-744 | the two-argument overload is the full query with no forbidden URI |
| TrafficReports.MinPriorityOf | source/disruption/traffic_reports_api.cpp:96-105 | the result is at most every present severity's priority and is one of them, or INT_MAX when no impact has a severity |
| TrafficReports.LowestPriorityIsLeast | source/disruption/traffic_reports_api.cpp:96-105 | the running minimum over the impacts is their least priority, or INT_MAX |
| TrafficReports.MinPriority | source/disruption/traffic_reports_api.cpp:96-105 | the loop computes `MinPriorityOf` |
| TrafficReports.GatheredContents | source/disruption/traffic_reports_api.cpp:155-159 | an object's messages are its own and its parts' publishable messages, and they are empty iff all of those are |
| TrafficReports.CollectMessages | source/disruption/traffic_reports_api.cpp:155-159 | the loop over the parts computes `Gathered` |
| TrafficReports.NoServiceImpacts | source/disruption/traffic_reports_api.cpp:193-198 | exactly the publishable NO_SERVICE impacts of a vehicle journey are kept |
| TrafficReports.FindNetwork | source/disruption/traffic_reports_api.cpp:109-112 | the result is the first entry of that network, or none when there is no such entry |
| TrafficReports.FindItem | source/disruption/traffic_reports_api.cpp:157-160 | the result is the first item of that object, or none |
| TrafficReports.Created | source/disruption/traffic_reports_api.cpp:108-121 | an existing entry is returned unchanged; otherwise an empty entry with index equal to the old size is appended and returned |
| TrafficReports.CreatedShape | source/disruption/traffic_reports_api.cpp:108-121 | `find_or_create` keeps entries unique and indexed and adds its network to the networks listed |
| TrafficReports.MergedUnions | source/disruption/traffic_reports_api.cpp:160-164 | merging keeps one item per object, lists the object, and adds the impacts to its set only |
| TrafficReports.RecordedShape | source/disruption/traffic_reports_api.cpp:154-165 | recording impacts for an object keeps entries unique and indexed and lists its network |
| TrafficReports.RecordedItems | source/disruption/traffic_reports_api.cpp:154-165 | after recording, exactly that network, category and object gains the impacts; nothing else changes |
| TrafficReports.NetworksWithMessage | source/disruption/traffic_reports_api.cpp:219-226 | exactly the given networks that have a publishable message |
| TrafficReports.NetworksAddedEffect | source/disruption/traffic_reports_api.cpp:215-227 | `add_networks` lists exactly the networks with a message, keeps entries unique and indexed, and leaves every item list unchanged |
| TrafficReports.NetworkReportedEffect | source/disruption/traffic_reports_api.cpp:220-225 | one network is listed iff it has a message, and no item changes |
| TrafficReports.NetworksAddedImpacts | source/disruption/traffic_reports_api.cpp:215-227 | after `add_networks`, each network's own disruptions are what it had plus its publishable messages if it is among the networks with a message; no other network's disruptions change |
| TrafficReports.NetworkReportedImpacts | source/disruption/traffic_reports_api.cpp:220-225 | one network with a publishable message gains exactly those messages as its `network_disruptions`; nothing else changes |
| TrafficReports.EntryUnique | source/disruption/traffic_reports_api.cpp:44-52 | each entry of a well-formed report has one item per object in every category |
| TrafficReports.Sightings | source/disruption/traffic_reports_api.cpp:150-160 | each queried object is paired with its network and its collected impacts |
| TrafficReports.SightedNetworks | source/disruption/traffic_reports_api.cpp:159 | a network is sighted iff some object of it has impacts |
| TrafficReports.ContributionContents | source/disruption/traffic_reports_api.cpp:159-164 | the impacts a pass adds for an object are the union over its sightings |
| TrafficReports.AppliedShape | source/disruption/traffic_reports_api.cpp:150-166 | a whole pass keeps entries unique and indexed and lists exactly the sighted networks more |
| TrafficReports.AppliedListed | source/disruption/traffic_reports_api.cpp:150-166 | after a pass an object is listed iff it was before or the pass found impacts for it |
| TrafficReports.AppliedImpacts | source/disruption/traffic_reports_api.cpp:150-166 | after a pass an object's impacts are its old ones plus everything the pass found for it |
| TrafficReports.Caught | source/disruption/traffic_reports_api.cpp:133-143 | parsing and ptref errors are swallowed as an empty result; other errors escape |
| TrafficReports.ScopedFilter | source/disruption/traffic_reports_api.cpp:130-133 | the per-network filter starts with `network.uri=<uri>` and ends with ` and <filter>` when a filter is given |
| TrafficReports.SwallowedAddsNothing | source/disruption/traffic_reports_api.cpp:135-143 | a swallowed query error leaves the report unchanged |
| TrafficReports.SwallowedLinesAddNothing | source/disruption/traffic_reports_api.cpp:233-241 | a swallowed line-query error leaves the report unchanged |
| TrafficReports.PerNetworkStageErrors | source/disruption/traffic_reports_api.cpp:127-167 | any error escaping a per-network pass is one that is not caught |
| TrafficReports.PerNetworkStageShape | source/disruption/traffic_reports_api.cpp:127-167 | a per-network pass keeps entries unique and indexed |
| TrafficReports.PerNetworkStageStopsAt | source/disruption/traffic_reports_api.cpp:127-167 | an escaping error ends the pass over the networks |
| TrafficReports.CollectedErrors | source/disruption/traffic_reports_api.cpp:289-306 | an escaping error is the network query's own or one no stage catches |
| TrafficReports.CollectedShape | source/disruption/traffic_reports_api.cpp:289-306 | the whole collection keeps entries unique and indexed |
| TrafficReports.Sort | source/disruption/traffic_reports_api.cpp:283-285 | the result is sorted by the strict weak order and a permutation of the input |
| TrafficReports.Inserted | source/disruption/traffic_reports_api.cpp:283-285 | inserting an element after every lesser-or-equal one keeps a sorted sequence sorted |
| TrafficReports.NetworkBeforeIsStrictWeakOrder | source/disruption/traffic_reports_api.cpp:265-267 | ordering entries by network index is a strict weak order |
| TrafficReports.LineOrderIsStrictWeakOrder | source/disruption/traffic_reports_api.cpp:269-280 | ordering lines by (minimum priority, code, name) is a strict weak order |
| TrafficReports.KeyLessTransitive | source/disruption/traffic_reports_api.cpp:269-280 | the line key order is transitive |
| TrafficReports.KeyLessTotal | source/disruption/traffic_reports_api.cpp:269-280 | of two distinct line keys one is less than the other |
| TrafficReports.SortedEntries | source/disruption/traffic_reports_api.cpp:264-287 | sorting networks and then each line list gives a report ordered by network index, with every entry matched to an original one except for the order of its lines |
| TrafficReports.SortedEntriesMatch | source/disruption/traffic_reports_api.cpp:264-287 | every sorted entry has an original counterpart and every original entry a sorted one |
| TrafficReports.SortedReportAscends | source/disruption/traffic_reports_api.cpp:265-266 | in a sorted report with one entry per network, the entries ascend strictly by network index, whatever order they were created in |
| TrafficReports.SortedNetworksDistinct | source/disruption/traffic_reports_api.cpp:264-287 | after sorting, no network appears twice |
| TrafficReports.SortedItemsUnique | source/disruption/traffic_reports_api.cpp:283-285 | after sorting, each entry still has one item per object |
| TrafficReports.PermutedUnique | source/disruption/traffic_reports_api.cpp:283-285 | a permutation of a list with one item per object has one item per object |
| TrafficReports.TrafficReport.constructor | source/disruption/traffic_reports_api.cpp:80 | a new report is empty |
| TrafficReports.TrafficReport.Size | source/disruption/traffic_reports_api.cpp:91-93 | the number of network entries |
| TrafficReports.TrafficReport.FindOrCreate | source/disruption/traffic_reports_api.cpp:108-121 | the list and the returned position are `Created` of the old list |
| TrafficReports.TrafficReport.Record | source/disruption/traffic_reports_api.cpp:154-165 | non-empty impacts are merged into the object's item of its network's entry, creating both as needed |
| TrafficReports.TrafficReport.Collect | source/disruption/traffic_reports_api.cpp:150-159 | the impacts gathered for one object, as `ImpactsFor` gives them |
| TrafficReports.TrafficReport.AddObjects | source/disruption/traffic_reports_api.cpp:150-166 | recording every queried object of one network gives `ObjectsAdded` |
| TrafficReports.TrafficReport.AddNetworks | source/disruption/traffic_reports_api.cpp:215-227 | the list becomes `NetworksAdded` of the old one |
| TrafficReports.TrafficReport.AddLines | source/disruption/traffic_reports_api.cpp:229-262 | the list becomes the line stage's result, or the escaping error is returned |
| TrafficReports.TrafficReport.AddForNetwork | source/disruption/traffic_reports_api.cpp:127-167 | one network's stop-area or vehicle-journey pass, or its escaping error |
| TrafficReports.TrafficReport.AddPerNetwork | source/disruption/traffic_reports_api.cpp:123-213 | `add_stop_areas` and `add_vehicle_journeys` over all networks, stopping at an escaping error |
| TrafficReports.TrafficReport.SortDisruptions | source/disruption/traffic_reports_api.cpp:264-287 | keeps the report well formed and leaves it sorted as `SortedReport` states |
| TrafficReports.TrafficReport.DisruptionsList | source/disruption/traffic_reports_api.cpp:289-306 | without impacts nothing changes; otherwise the report is the collected stages' result, sorted, or the escaping error |

## Left out

- The bike-share availability provider manager. Its Python sources are not part of this model.
- `PercentDecoding.Decode` requires every `%` that has two following characters to be followed
  by two hex digits. For other input the source's result depends on state left in its
  `std::stringstream` after a failed hex read, which is library behaviour.
  `WebService.BaseWorker.Dispatch` carries the same requirement for the path, the raw
  parameters and the body. `WebService.BaseWorker.RunQuery` carries it for the path and the
  raw parameters it splits off at the first `?`.
- `WebService.BaseWorker.Dispatch` drops the `Data&` argument of the handlers, and handlers are
  pure functions of the request. It leaves out `parse_parameters`,
  `check_manadatory_parameters`, `pre_compute`/`post_compute` and the per-API timing
  statistics.
- `WebService.BaseWorker.RunQuery` returns the response. The execution-time line that the
  source prints before it is left out because it is a clock reading.
- The HTML bodies of the `help`, `stats` and `analyze` handlers are left out. They are
  parameters of `AddDefaultApi`.
- `Text.ToLower` lowercases ASCII letters only. The source's locale-dependent `to_lower` is not
  modelled.
- `PtQuery.FilterLookup` states only the generic and unknown-method branches. These lookups are
  abstract lookups in `PtData`:
  - DWITHIN, HAVING, AFTER and the `has_headsign`, `has_disruption` and `has_code` methods;
  - the URI maps and the journey-pattern id lookups.

  The geometry, the recursion into the raptor data and the code tables are not part of this
  model.
- The `Filter` record comes from `ptreferential.h`, which is not part of this model. AFTER's
  object is taken as `journey_pattern_point`.
- `PtQuery.MakeQuery` returns indexes as a set. The final `std::sort` of networks and lines by
  their `operator<` is left out, because the ordering of those objects is not part of this
  model. As a consequence the traffic-report stages visit networks and lines in ascending index
  order (`TrafficReports.Ascending`), not in `operator<` order. That order decides only the
  `idx` field that `find_or_create` gives each network entry, which nothing reads after the
  sort, and the order of lines with equal sort keys before the sort. The sorted report itself
  ascends strictly by network whatever the visit order (`TrafficReports.SortedReportAscends`).
- `PtQuery.GetIndexes` assumes that `find_path`'s predecessor map leads every type to a type
  that is its own predecessor, along a rank that decreases at each step (`PtQuery.PathsDescend`,
  required by `FollowPath`, `WalkPath`, `GetIndexes`, `Combined`, `Query`, `MakeQuery` and the
  traffic-report query stages). `find_path` itself is not modelled. Without that property the
  source's `while` loop would not end.
- The WHERE comparison on strings is lexicographic on characters. The `unknown_member` case is
  the `hasCode` flag of a type.
- `PtQuery.FilterImpactsOnPeriod` takes an impact that no longer exists as an impact without application
  periods. Weak-reference locking itself is not modelled.
- Times are whole seconds and dates are day numbers. Calendar arithmetic and `ptime` precision
  are left out.
- `TrafficReports.NoServiceImpacts` drops an impact without severity. The source dereferences
  that null severity, which is undefined behaviour.
- `TrafficReports.TrafficReport.SortDisruptions` sorts with a stable insertion sort where the
  source calls `std::sort`, which is unstable. The proved properties are ordering, permutation
  and per-entry uniqueness. The relative order of equivalent elements is not promised.
- `get_publishable_messages`, `has_publishable_message`, `is_publishable` and `get_impacts` are
  taken as functions of the object and the instant.
- Logging, the protobuf response filling and pagination of `traffic_reports` are left out.
- Object identity: references to networks, lines, stop areas and vehicle journeys are their
  indexes.
