# Employee onboarding client: decision logic

This project models the deterministic decision logic of the React client of the employee
onboarding agent fabric, and proves properties of it. The client's five pieces of logic are:

- **NlpService** (`nlpService.js`): the intent and entity classifier. It tokenises the text,
  scores each intent of a fixed, ordered table (three per matching pattern, one per keyword
  found) and picks the first intent with the highest score. It also merges, de-duplicates
  and sorts entities, computes a clamped confidence, and looks up explanations.
  `processText` assembles the result, or returns the fallback when a library throws.
- **NlpChat** (`NLPChat.js`): the chat dispatch rules. `executeAction` maps an intent and
  its entities to at most one backend call; each call is returned as a descriptor.
  `handleSendMessage` appends the user message and one AI message to the conversation.
- **McpClient** (`mcpClientService.js`): the MCP client.
  - A registry of four tools and two resources, and the guards of `callMCPTool` and
    `accessMCPResource`.
  - Argument validation. It checks only the `required` keyword of JSON Schema draft 2020-12
    (section 6.5.3 of the Validation vocabulary) and ignores `type`, `enum` and `oneOf`.
  - The prioritised substring intent detector and the intent-to-tool map.
  - Argument extraction with onboarding defaults.
- **McpService** (`mcpService.js`): the MCP service helpers.
  - Default assets by department and position.
  - Normalising form data into employee records.
  - The orchestration payload defaults and the status guard.
  - The health aggregation.
  - Resolving and updating the base URL, and `createEmployee`.
- **EnvironmentContext** (`EnvironmentContext.js`): the environment state machine. It holds
  the current environment, the persisted choice and a duplicate-free list of refresh
  callbacks.

Two support modules model the JavaScript semantics the code relies on:

- **JsText**: `toLowerCase` on ASCII letters, `text.length` in UTF-16 code units, `\s`, `indexOf`, `split(' ')`/`join`, `replace` of the first
  occurrence, `trim`, and whitespace splitting.
- **JsObject**: property lookup on an object literal, including the members inherited from
  `Object.prototype`; the `||` fallback on strings; and a `Map` with insertion order.

**Inputs in place of libraries.** What compromise, the stopword list and the sentiment
analyser return becomes a parameter. Regular expressions become parameters too: a test
`(pattern, text) -> bool`, a `matchAll`, or the match itself. Backend responses, the clock
(`today`, `tomorrow`), `localStorage` and `process.env` are also parameters. Confidences are
integer tenths.

## Model

| member | source | states |
|---|---|---|
| JsObject.Lookup | employee-onboarding-agent-fabric/react-client/src/services/nlpService.js:304 | `OBJ[key]` finds an own value exactly for own keys, and an inherited member exactly for `Object.prototype` names that are not own keys |
| JsObject.Or | employee-onboarding-agent-fabric/react-client/src/services/mcpService.js:285-295 | `a \|\| b` is `a` when it is a non-empty string, and `b` otherwise |
| JsObject.MapGet | employee-onboarding-agent-fabric/react-client/src/services/mcpClientService.js:141 | `Map.get` finds a value exactly when the key is present |
| JsObject.MapSetGet | employee-onboarding-agent-fabric/react-client/src/services/mcpClientService.js:39-108 | after `Map.set`, `get` of that key gives the new value and every other key is unchanged |
| JsText.SplitJoin | employee-onboarding-agent-fabric/react-client/src/services/mcpClientService.js:542-548 | `split(c)` followed by `join(c)` gives back the string |
| JsText.SplitFirstAndRest | employee-onboarding-agent-fabric/react-client/src/services/mcpService.js:285-286 | `split(' ')[0]` is the text before the first space; there are more parts exactly when there is a space; the other parts joined by `' '` are the text after it |
| JsText.ReplaceFirstSpec | employee-onboarding-agent-fabric/react-client/src/components/NLPChat.js:112 | `replace(' ', '.')` with a string pattern replaces only the first occurrence and leaves everything else in place |
| JsText.Trim | employee-onboarding-agent-fabric/react-client/src/components/NLPChat.js:154 | `trim` removes exactly the leading and trailing whitespace; the result is empty exactly when the text is all whitespace |
| NlpService.Clean | employee-onboarding-agent-fabric/react-client/src/services/nlpService.js:141 | every character other than a word character, whitespace, `@`, `.` or `-` becomes a space; the length is kept |
| NlpService.TokenizeSound | employee-onboarding-agent-fabric/react-client/src/services/nlpService.js:139-144 | every token is non-empty, lower-case, free of whitespace, made of word characters, `@`, `.` and `-`, and a substring of the lower-cased text |
| NlpService.TokenizeJoin | employee-onboarding-agent-fabric/react-client/src/services/nlpService.js:139-144 | tokenising tokens joined by single spaces gives back those tokens |
| NlpService.CleanedSlice | employee-onboarding-agent-fabric/react-client/src/services/nlpService.js:140-142 | a space-free slice of the cleaned lower-cased text is a slice of the lower-cased text itself |
| NlpService.RemoveStopwords | employee-onboarding-agent-fabric/react-client/src/services/nlpService.js:146-148 | the cleaned tokens are exactly the tokens that are not stopwords |
| NlpService.PatternHits | employee-onboarding-agent-fabric/react-client/src/services/nlpService.js:218-222 | at most one hit per pattern |
| NlpService.KeywordHits | employee-onboarding-agent-fabric/react-client/src/services/nlpService.js:224-229 | each keyword counts at most once |
| NlpService.ScoreBound | employee-onboarding-agent-fabric/react-client/src/services/nlpService.js:214-230 | an intent scores at most three per pattern plus one per keyword |
| NlpService.Scores | employee-onboarding-agent-fabric/react-client/src/services/nlpService.js:214-236 | one score per intent of the table, in declaration order |
| NlpService.KeywordHitsBySubstring | employee-onboarding-agent-fabric/react-client/src/services/nlpService.js:226-230 | the cleaned-token test adds nothing when every cleaned token is a substring of the lower-cased text: the keyword count equals the substring count |
| NlpService.CleanedTokensAreSubstrings | employee-onboarding-agent-fabric/react-client/src/services/nlpService.js:139-148 | every cleaned token is a substring of the lower-cased text |
| NlpService.IntentScore | employee-onboarding-agent-fabric/react-client/src/services/nlpService.js:214-230 | the loop computes three per matching pattern plus one per keyword found |
| NlpService.BestIntent | employee-onboarding-agent-fabric/react-client/src/services/nlpService.js:210-239 | the selection loop with a strict `>` returns `UNKNOWN` exactly when every rule scores 0, and otherwise the intent of the first rule with the maximal score |
| NlpService.ClassifyIntent | employee-onboarding-agent-fabric/react-client/src/services/nlpService.js:210-239 | `UNKNOWN` exactly when every intent scores 0; otherwise the first intent in declaration order with the maximal score |
| NlpService.Tagged | employee-onboarding-agent-fabric/react-client/src/services/nlpService.js:158-185 | one entity per library result, with the given label and confidence, in order |
| NlpService.MatchEntities | employee-onboarding-agent-fabric/react-client/src/services/nlpService.js:188-198 | one entity per pattern match, with trimmed text, the rule's label and confidence 0.7 |
| NlpService.RuleEntitiesTagged | employee-onboarding-agent-fabric/react-client/src/services/nlpService.js:188-198 | every entity from a pattern rule has confidence 0.7 |
| NlpService.PatternEntitiesTagged | employee-onboarding-agent-fabric/react-client/src/services/nlpService.js:186-198 | every entity from the pattern table has confidence 0.7 |
| NlpService.RawEntitiesTagged | employee-onboarding-agent-fabric/react-client/src/services/nlpService.js:158-199 | entity confidences come only from {0.9 for PERSON from compromise, 0.8 for PLACE and ORGANIZATION, 0.7 for pattern matches} |
| NlpService.FindKey | employee-onboarding-agent-fabric/react-client/src/services/nlpService.js:203-205 | `findIndex` over (lower-cased text, label): the first index with that key, or the length when there is none |
| NlpService.UniqueUpToSound | employee-onboarding-agent-fabric/react-client/src/services/nlpService.js:202-205 | the filtered prefix has no two entities with the same key and keeps every key of the prefix |
| NlpService.UniqueUpToFirst | employee-onboarding-agent-fabric/react-client/src/services/nlpService.js:202-205 | every entity the filtered prefix keeps is the first occurrence of its key in the input |
| NlpService.UniqueSound | employee-onboarding-agent-fabric/react-client/src/services/nlpService.js:202-205 | after de-duplication no two entities share text and label, every key survives, and each kept entity is its key's first occurrence |
| NlpService.SnocKeys | employee-onboarding-agent-fabric/react-client/src/services/nlpService.js:202-205 | appending an entity adds its key, and a new key keeps the keys distinct |
| NlpService.Insert | employee-onboarding-agent-fabric/react-client/src/services/nlpService.js:207 | insertion adds exactly the one entity |
| NlpService.SortByConfidence | employee-onboarding-agent-fabric/react-client/src/services/nlpService.js:207 | sorting is a permutation |
| NlpService.SortByConfidenceSorted | employee-onboarding-agent-fabric/react-client/src/services/nlpService.js:207 | the result is ordered by non-increasing confidence and is a permutation of the input |
| NlpService.ConsKeys | employee-onboarding-agent-fabric/react-client/src/services/nlpService.js:202-207 | consing an entity adds its key; distinctness holds exactly when the tail is distinct and the key is new |
| NlpService.SortKeepsKeys | employee-onboarding-agent-fabric/react-client/src/services/nlpService.js:207 | sorting keeps the key set and keeps keys distinct |
| NlpService.EntityPipelineSound | employee-onboarding-agent-fabric/react-client/src/services/nlpService.js:202-207 | after de-duplication and sorting the entities are distinct by key, sorted, keep every key, and come from the raw list |
| NlpService.PushTagged | employee-onboarding-agent-fabric/react-client/src/services/nlpService.js:158-185 | the `forEach` pushes exactly the tagged entities, in order |
| NlpService.PushMatches | employee-onboarding-agent-fabric/react-client/src/services/nlpService.js:191-196 | the inner `forEach` pushes one entity per match, in order |
| NlpService.PushRule | employee-onboarding-agent-fabric/react-client/src/services/nlpService.js:189-197 | the loop over a rule's patterns pushes that rule's entities, in order |
| NlpService.PushPatterns | employee-onboarding-agent-fabric/react-client/src/services/nlpService.js:188-198 | the loop over the pattern table pushes all pattern entities, in order |
| NlpService.ExtractEntities | employee-onboarding-agent-fabric/react-client/src/services/nlpService.js:154-208 | the result is the de-duplicated, sorted raw list: distinct by key, sorted by confidence, every key kept, each entity from the raw list with an allowed confidence |
| NlpService.CountLabelled | employee-onboarding-agent-fabric/react-client/src/services/nlpService.js:274-277 | at most one per entity |
| NlpService.CalculateConfidence | employee-onboarding-agent-fabric/react-client/src/services/nlpService.js:259-290 | the confidence lies in [0, 1]; it is at least 0.5 for a known intent; for `UNKNOWN` it is only the length bonus, 0 or 0.1, where the length is counted in UTF-16 code units |
| NlpService.LengthCountsCodeUnits | employee-onboarding-agent-fabric/react-client/src/services/nlpService.js:284-286 | nine letters and one emoji are ten characters but eleven code units, so they earn the length bonus |
| NlpService.ConfidenceUnclamped | employee-onboarding-agent-fabric/react-client/src/services/nlpService.js:259-290 | the confidence is the minimum of 1 and 0.5 + entity bonus + length bonus for a known intent |
| NlpService.NoBonusForListings | employee-onboarding-agent-fabric/react-client/src/services/nlpService.js:267-287 | `GET_ASSETS` and `GET_EMPLOYEES` never receive an entity bonus |
| NlpService.NoRelevantLabels | employee-onboarding-agent-fabric/react-client/src/services/nlpService.js:267-281 | an intent with no mapped labels counts no entities |
| NlpService.BonusIgnoresIrrelevant | employee-onboarding-agent-fabric/react-client/src/services/nlpService.js:267-281 | an entity whose label is not mapped for the intent does not change its bonus |
| NlpService.BonusCountsRelevant | employee-onboarding-agent-fabric/react-client/src/services/nlpService.js:275-277 | the relevant-entity count is additive over concatenation |
| NlpService.ExplanationInheritedKey | employee-onboarding-agent-fabric/react-client/src/services/nlpService.js:293-305 | the lookup as written returns the inherited `toString` and `constructor` members for those keys |
| NlpService.IntentExplanation | employee-onboarding-agent-fabric/react-client/src/services/nlpService.js:293-305 | the explanation is non-empty; it is the table entry for a listed key and the `UNKNOWN` text for any other key |
| NlpService.ExplanationsTotal | employee-onboarding-agent-fabric/react-client/src/services/nlpService.js:293-305 | all seven labels have a non-empty explanation, each known intent's differs from `UNKNOWN`'s, and the corrected lookup agrees with the code for every key that is not a prototype name |
| NlpService.Phrases | employee-onboarding-agent-fabric/react-client/src/services/nlpService.js:241-255 | one key phrase per library result, with its kind, in order |
| NlpService.KeyPhrases | employee-onboarding-agent-fabric/react-client/src/services/nlpService.js:241-257 | the key phrases are the first ten of nouns, then verbs, then adjectives |
| NlpService.Fallback | employee-onboarding-agent-fabric/react-client/src/services/nlpService.js:123-136 | when processing fails the result is `UNKNOWN` with confidence 0 and no tokens, entities or key phrases, and it carries the error message |
| NlpService.ProcessText | employee-onboarding-agent-fabric/react-client/src/services/nlpService.js:87-137 | the fallback on error. Otherwise: sound tokens and the stopword-free tokens; the entities are the de-duplicated, sorted raw entities; the intent is `UNKNOWN` exactly when all scores are 0 and otherwise the first best-scoring intent; the confidence formula; the key phrases of the library's nouns, verbs and adjectives (at most ten); the sentiment passed through |
| NlpChat.FirstIndex | employee-onboarding-agent-fabric/react-client/src/components/NLPChat.js:108 | `find` by label: the first entity with that label, or the length when there is none |
| NlpChat.FirstText | employee-onboarding-agent-fabric/react-client/src/components/NLPChat.js:108-140 | `find(...)?.text` is `undefined` exactly when no entity has the label; otherwise it is the first such entity's text |
| NlpChat.EmailForShape | employee-onboarding-agent-fabric/react-client/src/components/NLPChat.js:112 | the e-mail address is the name's length plus `@company.com`, has no upper-case letter, and contains a space exactly when the name had two or more spaces |
| NlpChat.ActionCall | employee-onboarding-agent-fabric/react-client/src/components/NLPChat.js:104-146 | a call is made exactly when the intent has a case and its required entity is present and non-empty. CREATE_EMPLOYEE uses the first PERSON and the derived address. ALLOCATE_ASSET needs an EMPLOYEE_ID and defaults the asset to `laptop`. GET_ASSETS always calls. GET_EMPLOYEE_STATUS needs an EMPLOYEE_ID. SEND_NOTIFICATION always calls, defaulting to `welcome` |
| NlpChat.ExecuteAction | employee-onboarding-agent-fabric/react-client/src/components/NLPChat.js:104-151 | the call is the dispatch rule's; no text (`undefined`) exactly when a handled intent lacks its entity; the default reply for unhandled intents; the error text when the call throws |
| NlpChat.FallThroughIntents | employee-onboarding-agent-fabric/react-client/src/components/NLPChat.js:144-145 | GET_EMPLOYEES and UNKNOWN make no call and give the fixed default reply |
| NlpChat.CreateWithoutPerson | employee-onboarding-agent-fabric/react-client/src/components/NLPChat.js:107-116 | without a (non-empty) PERSON entity, CREATE_EMPLOYEE makes no call and returns no text |
| NlpChat.IrrelevantEntitiesIgnored | employee-onboarding-agent-fabric/react-client/src/components/NLPChat.js:104-146 | entities of labels no case reads do not change the outcome |
| NlpChat.EntityListingMentionsEach | employee-onboarding-agent-fabric/react-client/src/components/NLPChat.js:177 | the clarification lists every entity as `label: text` |
| NlpChat.AnswerCases | employee-onboarding-agent-fabric/react-client/src/components/NLPChat.js:167-197 | the answer comes from the AI. It is the error text when processing threw. For UNKNOWN it is the clarification and no action is executed. Otherwise it is `executeAction`'s outcome |
| NlpChat.ChatSession.constructor | employee-onboarding-agent-fabric/react-client/src/components/NLPChat.js:33-37 | no messages, empty input, not loading, no results |
| NlpChat.ChatSession.SetInput | employee-onboarding-agent-fabric/react-client/src/components/NLPChat.js:315 | only the input text changes |
| NlpChat.ChatSession.SendMessage | employee-onboarding-agent-fabric/react-client/src/components/NLPChat.js:153-201 | blank input changes nothing and calls nothing. Otherwise the classification is that of the input being sent, and exactly two messages are appended, the user's and then one AI message. The input is cleared and loading ends |
| McpClient.Values | employee-onboarding-agent-fabric/react-client/src/services/mcpClientService.js:409-418 | `Array.from(map.values())`: the values in insertion order |
| McpClient.RegisteredTools | employee-onboarding-agent-fabric/react-client/src/services/mcpClientService.js:38-109 | registering on an empty map gives exactly the four tools in order, with distinct names |
| McpClient.RegisteredResources | employee-onboarding-agent-fabric/react-client/src/services/mcpClientService.js:114-130 | registering on an empty map gives exactly the two resources in order, with distinct URIs |
| McpClient.RegisteredToolLookup | employee-onboarding-agent-fabric/react-client/src/services/mcpClientService.js:38-109 | the listed tools are the tool table, and each is found by its name |
| McpClient.FirstMissing | employee-onboarding-agent-fabric/react-client/src/services/mcpClientService.js:573-578 | the first required field, in list order, that is not an own property |
| McpClient.Validation | employee-onboarding-agent-fabric/react-client/src/services/mcpClientService.js:571-581 | passes exactly when every required field is present; otherwise the error names the first missing field |
| McpClient.ValidateArguments | employee-onboarding-agent-fabric/react-client/src/services/mcpClientService.js:571-581 | the loop over `required` returns what the validation rule says |
| McpClient.NoRequiredAlwaysPasses | employee-onboarding-agent-fabric/react-client/src/services/mcpClientService.js:571-581 | a schema without `required` always passes, whatever its `oneOf` |
| McpClient.ExecuteTool | employee-onboarding-agent-fabric/react-client/src/services/mcpClientService.js:181-317 | the onboarding tool succeeds exactly when `email` is a string, because `generateEmployeeId` calls `substring` on it; otherwise it fails with the `TypeError` message. The status tool succeeds exactly when it has a truthy `employeeId` or a string `email`. Retry and health always succeed. Any other name fails as not implemented |
| McpClient.Invoke | employee-onboarding-agent-fabric/react-client/src/services/mcpClientService.js:149-175 | success exactly when validation passes and execution succeeds; a validation failure gives `success: false` with its message |
| McpClient.FetchResource | employee-onboarding-agent-fabric/react-client/src/services/mcpClientService.js:381-404 | only the two known URIs have content |
| McpClient.RegisteredResourcesFetch | employee-onboarding-agent-fabric/react-client/src/services/mcpClientService.js:381-404 | every registered resource can be fetched |
| McpClient.AnalyzeQuery | employee-onboarding-agent-fabric/react-client/src/services/mcpClientService.js:479-508 | the first keyword group, in priority order, that occurs in the lower-cased query decides the intent; confidence 0.8, or 0.2 for `unknown`; the matches are passed through |
| McpClient.UnknownMeansNoKeyword | employee-onboarding-agent-fabric/react-client/src/services/mcpClientService.js:483-494 | the intent is `unknown` exactly when no keyword occurs |
| McpClient.SelectTool | employee-onboarding-agent-fabric/react-client/src/services/mcpClientService.js:513-529 | total: always one of the four tools; health checks and anything unmapped select `check-system-health`; the confidence is carried over |
| McpClient.SelectToolInjective | employee-onboarding-agent-fabric/react-client/src/services/mcpClientService.js:514-519 | distinct known intents select distinct tools |
| McpClient.AddEmail | employee-onboarding-agent-fabric/react-client/src/services/mcpClientService.js:538-540 | sets `email` exactly when an address matched, and nothing else |
| McpClient.AddName | employee-onboarding-agent-fabric/react-client/src/services/mcpClientService.js:542-548 | `firstName` is the part before the first space; `lastName` is set only when there is a space, as the rest; nothing else changes |
| McpClient.AddUser | employee-onboarding-agent-fabric/react-client/src/services/mcpClientService.js:551-554 | with a current user, `manager` and `managerEmail` come from it; nothing else changes |
| McpClient.AddDefaults | employee-onboarding-agent-fabric/react-client/src/services/mcpClientService.js:557-563 | the five onboarding defaults are added; nothing else changes |
| McpClient.BaseArgumentsKeys | employee-onboarding-agent-fabric/react-client/src/services/mcpClientService.js:534-554 | the arguments before defaults hold only e-mail, name and manager keys, each set exactly under its condition |
| McpClient.ArgumentsForSpec | employee-onboarding-agent-fabric/react-client/src/services/mcpClientService.js:534-566 | the extracted arguments hold the e-mail exactly when one matched, the first name exactly when a name matched, and the last name exactly when that name has a space. They never hold `employeeId` or `step`. Defaults are added only for onboarding |
| McpClient.ExtractArguments | employee-onboarding-agent-fabric/react-client/src/services/mcpClientService.js:534-566 | the field-by-field construction builds the arguments the rules describe |
| McpClient.FirstMissingOfThree | employee-onboarding-agent-fabric/react-client/src/services/mcpClientService.js:573-578 | with three required fields the first missing one is found in list order |
| McpClient.OnboardingValidation | employee-onboarding-agent-fabric/react-client/src/services/mcpClientService.js:534-581 | an onboarding query passes validation exactly when an address matched and the matched name contains a space (U+0020; a name joined by a tab or another separator gets no `lastName`); otherwise the error names `firstName`, `lastName` or `email`, in that order |
| McpClient.RetryAlwaysFails | employee-onboarding-agent-fabric/react-client/src/services/mcpClientService.js:534-581 | a retry query always fails with "Missing required field: employeeId" |
| McpClient.StatusNeedsEmail | employee-onboarding-agent-fabric/react-client/src/services/mcpClientService.js:232-255 | a status query's call succeeds exactly when an address matched |
| McpClient.QueryToolSucceeds | employee-onboarding-agent-fabric/react-client/src/services/mcpClientService.js:437-581 | the selected tool is registered. Its call succeeds for onboarding exactly with an address and a name containing a space (U+0020), and for status exactly with an address. It never succeeds for retry and always succeeds for health or unknown queries |
| McpClient.McpClientService.constructor | employee-onboarding-agent-fabric/react-client/src/services/mcpClientService.js:8-33 | a new client is connected and holds the registered tools and resources |
| McpClient.McpClientService.InitializeConnection | employee-onboarding-agent-fabric/react-client/src/services/mcpClientService.js:18-33 | registers tools and resources and marks the client connected |
| McpClient.McpClientService.RegisterTools | employee-onboarding-agent-fabric/react-client/src/services/mcpClientService.js:38-109 | only the tool map changes, by setting the four tools |
| McpClient.McpClientService.RegisterResources | employee-onboarding-agent-fabric/react-client/src/services/mcpClientService.js:114-130 | only the resource map changes, by setting the two resources |
| McpClient.McpClientService.Status | employee-onboarding-agent-fabric/react-client/src/services/mcpClientService.js:423-431 | reports the connection flag and the two map sizes |
| McpClient.McpClientService.ListTools | employee-onboarding-agent-fabric/react-client/src/services/mcpClientService.js:409-411 | lists every registered tool, position by position in insertion order |
| McpClient.RegisteredListings | employee-onboarding-agent-fabric/react-client/src/services/mcpClientService.js:405-418 | a newly connected client lists exactly the four tools and the two resources of the tables, in registration order |
| McpClient.McpClientService.ListResources | employee-onboarding-agent-fabric/react-client/src/services/mcpClientService.js:416-418 | lists every registered resource, position by position in insertion order |
| McpClient.McpClientService.CallTool | employee-onboarding-agent-fabric/react-client/src/services/mcpClientService.js:135-176 | throws when the client is not connected, then when the tool is unknown, before the `try`; otherwise it validates and executes |
| McpClient.McpClientService.AccessResource | employee-onboarding-agent-fabric/react-client/src/services/mcpClientService.js:344-376 | throws when the client is not connected or the URI is unregistered; a registered URI gives `success: true` with exactly the fetched content and the resource's MIME type, or `success: false` with the fetch error |
| McpClient.McpClientService.ProcessNLPQuery | employee-onboarding-agent-fabric/react-client/src/services/mcpClientService.js:437-474 | analyse, select, extract and call; a thrown guard error becomes an unprocessed outcome with its message |
| McpClient.NewClientStatus | employee-onboarding-agent-fabric/react-client/src/services/mcpClientService.js:423-431 | a new client reports connected, 4 tools and 2 resources |
| McpService.GetDefaultAssets | employee-onboarding-agent-fabric/react-client/src/services/mcpService.js:303-364 | the list is non-empty; its first asset is a HIGH-priority LAPTOP; tags and categories are distinct |
| McpService.DefaultAssetCategories | employee-onboarding-agent-fabric/react-client/src/services/mcpService.js:303-364 | Engineering or IT gets LAPTOP, PHONE, MONITOR. Sales or Marketing gets LAPTOP, PHONE, TABLET. Otherwise a manager position gets two assets. Otherwise only LAPTOP-001 |
| McpService.DepartmentDecidesFirst | employee-onboarding-agent-fabric/react-client/src/services/mcpService.js:306-339 | for a technical or customer-facing department the position does not matter |
| McpService.ManagerTestIgnoresCase | employee-onboarding-agent-fabric/react-client/src/services/mcpService.js:341 | the manager test ignores the case of the position |
| McpService.FirstWord | employee-onboarding-agent-fabric/react-client/src/services/mcpService.js:285 | `name?.split(' ')[0]` is the text before the first space |
| McpService.OtherWords | employee-onboarding-agent-fabric/react-client/src/services/mcpService.js:286 | `name?.split(' ').slice(1).join(' ')` is the text after the first space, or empty |
| McpService.CreateEmployeeData | employee-onboarding-agent-fabric/react-client/src/services/mcpService.js:283-298 | first and last names fall back to the name's words, then `''`; the company name is never empty; assets default to the department and position choice; e-mail and department pass through |
| McpService.NameSplitRoundTrip | employee-onboarding-agent-fabric/react-client/src/services/mcpService.js:285-286 | without explicit names, first name, a space and last name give back the full name |
| McpService.DefaultAssetsIgnoreRole | employee-onboarding-agent-fabric/react-client/src/services/mcpService.js:283-298 | the record's position falls back to the role, but the default assets use only the given position |
| McpService.InterceptedMessage | employee-onboarding-agent-fabric/react-client/src/services/mcpService.js:27-43 | a server error gives its message or the generic server text; no response gives the unreachable text; otherwise the request's own message |
| McpService.OrchestrationPayload | employee-onboarding-agent-fabric/react-client/src/services/mcpService.js:54-73 | `managerName` is `managerName`, then `manager`, then "Sarah Johnson"; every field has a non-empty fallback |
| McpService.PayloadKeepsGivenValues | employee-onboarding-agent-fabric/react-client/src/services/mcpService.js:54-73 | every given non-empty field is kept |
| McpService.PayloadFallbacks | employee-onboarding-agent-fabric/react-client/src/services/mcpService.js:54-73 | the payload of an empty request is exactly the fixed fallbacks |
| McpService.OrchestrateEmployeeOnboarding | employee-onboarding-agent-fabric/react-client/src/services/mcpService.js:49-95 | sends the payload; success exactly when the request succeeded, otherwise the intercepted error |
| McpService.StatusParams | employee-onboarding-agent-fabric/react-client/src/services/mcpService.js:100-108 | fails exactly when neither an id nor an e-mail is truthy; otherwise the parameters hold those given |
| McpService.GetOnboardingStatus | employee-onboarding-agent-fabric/react-client/src/services/mcpService.js:100-129 | with neither an id nor an e-mail, no request is sent and the error is "Either employeeId or email must be provided". Otherwise the request carries exactly the truthy id and e-mail; a reply gives the success message with its data, and an error gives the intercepted message |
| McpService.HealthEntryOf | employee-onboarding-agent-fabric/react-client/src/services/mcpService.js:180-187 | an entry names its service, is UP exactly when its check was fulfilled, and is `mcpManaged` only at index 0 |
| McpService.HealthReport | employee-onboarding-agent-fabric/react-client/src/services/mcpService.js:172-187 | exactly four entries in the fixed order |
| McpService.HealthyIffAllUp | employee-onboarding-agent-fabric/react-client/src/services/mcpService.js:189-194 | the overall status is HEALTHY exactly when all four are UP, and DEGRADED otherwise |
| McpService.OnlyBrokerManaged | employee-onboarding-agent-fabric/react-client/src/services/mcpService.js:186 | only the broker entry is `mcpManaged` |
| McpService.CheckSystemHealth | employee-onboarding-agent-fabric/react-client/src/services/mcpService.js:163-211 | succeeds exactly when the broker answered, with the report and the overall status; otherwise the broker-down failure |
| McpService.CheckHealth | employee-onboarding-agent-fabric/react-client/src/services/mcpService.js:417-420 | the report's four entries, or `[]` on failure |
| McpService.BaseURLInheritedKey | employee-onboarding-agent-fabric/react-client/src/services/mcpService.js:238-256 | as written, a stored `constructor` yields an inherited function instead of a URL |
| McpService.GetBaseURL | employee-onboarding-agent-fabric/react-client/src/services/mcpService.js:238-256 | the environment variable wins. Otherwise the stored environment's URL, with production as the default. An unknown name falls back to the production URL |
| McpService.BaseURLCorrectionAgrees | employee-onboarding-agent-fabric/react-client/src/services/mcpService.js:238-256 | the corrected lookup agrees with the code for every stored name that is not a prototype name |
| McpService.AfterUpdate | employee-onboarding-agent-fabric/react-client/src/services/mcpService.js:261-278 | an unchanged URL changes nothing; otherwise the base URL and a fresh client take the new value |
| McpService.UpdateIdempotent | employee-onboarding-agent-fabric/react-client/src/services/mcpService.js:261-278 | updating twice with the same URL is the same as once, and the base URL is then that URL |
| McpService.McpServiceClient.constructor | employee-onboarding-agent-fabric/react-client/src/services/mcpService.js:8-25 | the base URL is resolved once, with the corrected lookup (see Findings), and one client is created with it |
| McpService.McpServiceClient.UpdateBaseURL | employee-onboarding-agent-fabric/react-client/src/services/mcpService.js:261-278 | the new state is the update rule applied to the old state |
| McpService.CreateEmployee | employee-onboarding-agent-fabric/react-client/src/services/mcpService.js:372-389 | orchestrates with the normalised record; success exactly when the request succeeded, with the new id, full name, e-mail and `CREATED` status |
| McpService.CreateEmployeePayload | employee-onboarding-agent-fabric/react-client/src/services/mcpService.js:372-389 | the payload carries the normalised names and defaults |
| McpService.CreatedNameRoundTrip | employee-onboarding-agent-fabric/react-client/src/services/mcpService.js:372-389 | an employee created from a full name alone reports that name back |
| EnvironmentContext.FallbackURLsAgainstTable | employee-onboarding-agent-fabric/react-client/src/contexts/EnvironmentContext.js:4-29 | the service's fallback URLs have the same environment names as the context table and agree for development and production, but its staging URL differs from the context's |
| EnvironmentContext.InitialEnvironmentInheritedKey | employee-onboarding-agent-fabric/react-client/src/contexts/EnvironmentContext.js:51-54 | as written, a saved `constructor` becomes the current environment, though it is not an environment |
| EnvironmentContext.InitialEnvironmentAsWritten | employee-onboarding-agent-fabric/react-client/src/contexts/EnvironmentContext.js:51-54 | as written, the initial environment is not a key of the table exactly when the saved value is a prototype name |
| EnvironmentContext.InitialEnvironment | employee-onboarding-agent-fabric/react-client/src/contexts/EnvironmentContext.js:51-54 | the initial environment is the saved value when it is a key of the table, and `production` otherwise |
| EnvironmentContext.InitialEnvironmentCorrectionAgrees | employee-onboarding-agent-fabric/react-client/src/contexts/EnvironmentContext.js:51-54 | the corrected choice agrees with the code for every saved value that is not a prototype name |
| EnvironmentContext.SwitchAcceptsInheritedKey | employee-onboarding-agent-fabric/react-client/src/contexts/EnvironmentContext.js:62-65 | as written, the guard accepts exactly the table's names and the prototype names, `toString` among them |
| EnvironmentContext.SwitchReason | employee-onboarding-agent-fabric/react-client/src/contexts/EnvironmentContext.js:89 | `failover` exactly when the new environment equals the previous one, `user-switch` otherwise |
| EnvironmentContext.Notifications | employee-onboarding-agent-fabric/react-client/src/contexts/EnvironmentContext.js:75-81 | one invocation per callback, in registration order, with the new environment |
| EnvironmentContext.Raised | employee-onboarding-agent-fabric/react-client/src/contexts/EnvironmentContext.js:76-80 | the errors caught are those of the callbacks that raise |
| EnvironmentContext.EachNotifiedOnce | employee-onboarding-agent-fabric/react-client/src/contexts/EnvironmentContext.js:75-81 | with no duplicate callbacks, each is invoked exactly once |
| EnvironmentContext.Registered | employee-onboarding-agent-fabric/react-client/src/contexts/EnvironmentContext.js:95-107 | a non-function changes nothing; a new function is appended; a present one is not added again; no duplicates arise |
| EnvironmentContext.Without | employee-onboarding-agent-fabric/react-client/src/contexts/EnvironmentContext.js:109-111 | removes exactly that callback |
| EnvironmentContext.WithoutKeepsOrder | employee-onboarding-agent-fabric/react-client/src/contexts/EnvironmentContext.js:109-111 | removal distributes over concatenation, so the others keep their order |
| EnvironmentContext.WithoutAbsent | employee-onboarding-agent-fabric/react-client/src/contexts/EnvironmentContext.js:109-111 | removing a callback that is not registered leaves the list as it is |
| EnvironmentContext.WithoutNoDuplicates | employee-onboarding-agent-fabric/react-client/src/contexts/EnvironmentContext.js:109-111 | removal keeps the list free of duplicates |
| EnvironmentContext.RegisterThenUnregister | employee-onboarding-agent-fabric/react-client/src/contexts/EnvironmentContext.js:95-111 | registering a new callback and then unregistering it restores the list |
| EnvironmentContext.EnvironmentProvider.Config | employee-onboarding-agent-fabric/react-client/src/contexts/EnvironmentContext.js:59 | the configuration is the table entry of the current environment |
| EnvironmentContext.EnvironmentProvider.constructor | employee-onboarding-agent-fabric/react-client/src/contexts/EnvironmentContext.js:51-57 | starts in the initial environment, chosen by the corrected lookup (see Findings), with no callbacks |
| EnvironmentContext.EnvironmentProvider.SwitchEnvironment | employee-onboarding-agent-fabric/react-client/src/contexts/EnvironmentContext.js:61-93 | an unknown name changes nothing. A known name becomes current and persisted. Every callback is invoked once in order, and errors do not stop later ones. One event is dispatched with its reason. The current environment stays a key of the table |
| EnvironmentContext.EnvironmentProvider.NotifyCallbacks | employee-onboarding-agent-fabric/react-client/src/contexts/EnvironmentContext.js:75-81 | the loop invokes every callback in order and records each raised error |
| EnvironmentContext.EnvironmentProvider.RegisterRefreshCallback | employee-onboarding-agent-fabric/react-client/src/contexts/EnvironmentContext.js:95-107 | the callback list becomes the registered list; nothing else changes |
| EnvironmentContext.EnvironmentProvider.UnregisterRefreshCallback | employee-onboarding-agent-fabric/react-client/src/contexts/EnvironmentContext.js:109-111 | the callback list loses that callback; nothing else changes |

## Left out

- compromise (people, places, organisations, nouns, verbs, adjectives), the stopword list and the sentiment analyser are foreign libraries; their outputs are parameters.
- Regular expressions are abstract. The intent patterns are tested through a given predicate, and the entity patterns through a given `matchAll`. The e-mail and name matches of `analyzeNLPQuery` are given as inputs, so their patterns are not modelled.
- McpClient.AddName: the name match is an input, because the regular expression that captures it is abstract. Given the match, the `split(' ')`, `slice(1)` and `join(' ')` steps are reproduced exactly, empty parts included.
- JsText.ToLower: `toLowerCase` maps only the ASCII letters A–Z. JavaScript maps every Unicode capital, and a few (such as `İ`) become two characters. Every lower-cased text in the model inherits this gap.
- NlpService.FindKey: the de-duplication key lower-cases ASCII letters only, so `ÉMILE` and `émile` are two keys here but one in JavaScript.
- NlpChat.EmailForShape: "no upper-case letter" means no ASCII capital, and "length plus 12" holds only where `toLowerCase` keeps the length; a non-ASCII capital stays in the address.
- NlpChat.ActionCall: the CREATE_EMPLOYEE address keeps non-ASCII capitals (`josé.Álvarez@company.com` where JavaScript gives `josé.álvarez@company.com`).
- NlpService.CalculateConfidence: confidence is in exact integer tenths. The source's floating-point sums can differ in the last bit (0.5 + 0.2 + 0.1 gives 0.7999999999999999).
- The clock, random ids and timestamps are not modelled. This covers `Date.now`, `Math.random`, the value of `generateEmployeeId` (its `substring` error is modelled), the orchestration and retry ids, `processingTime` and `new Date()` in messages. `today` and `tomorrow` are parameters.
- HTTP is replaced by a descriptor of the request and a parameter for the reply. This covers the axios clients (beyond the URL they use), the simulated delay of `sendMCPRequest`, `Promise.allSettled`, and `apiService.js`.
- Console logging, `window.dispatchEvent` (an appended event record), `localStorage` and `process.env` (parameters and a stored field) are not modelled as real effects.
- NlpChat.ChatSession.SendMessage: React state updates are sequential assignments. The render timing and the closures of `useCallback` over stale state are not modelled. Speech recognition, suggestions and scrolling are UI.
- EnvironmentContext.EnvironmentProvider.SwitchEnvironment: a callback is an identifier. Whether it raises is a parameter; what it does is not modelled.
- `getEmployees`, `getMCPServerInfo` and `retryFailedStep` of `mcpService.js` are plain requests with no decision logic.
- The sentiment result and the salary field are passed through unchanged.
- The presentation-only components are not part of this model: Dashboard, Navbar, App, EnvironmentSelector, AssetAllocation, EmployeeOnboarding and Analytics. Neither are the Python scripts.

## Findings

| source | as written | input that shows it | evidently intended | confidence | as-written member | corrected member |
|---|---|---|---|---|---|---|
| employee-onboarding-agent-fabric/react-client/src/services/nlpService.js:304 | `explanations[intent] \|\| explanations.UNKNOWN` looks the key up on an object literal | key `"toString"` returns the inherited function, not a string | every unknown key gets the `UNKNOWN` text | not executed | NlpService.ExplanationInheritedKey | NlpService.IntentExplanation |
| employee-onboarding-agent-fabric/react-client/src/contexts/EnvironmentContext.js:52-53 | `saved && ENVIRONMENTS[saved]` accepts inherited members | saved value `"constructor"` becomes the current environment, with no configuration | only keys of the table are accepted, otherwise `production` | not executed | EnvironmentContext.InitialEnvironmentInheritedKey | EnvironmentContext.InitialEnvironment |
| employee-onboarding-agent-fabric/react-client/src/contexts/EnvironmentContext.js:62 | `!ENVIRONMENTS[newEnvironment]` lets inherited members through | `switchEnvironment("toString")` is accepted and persisted | unknown names change nothing | not executed | EnvironmentContext.SwitchAcceptsInheritedKey | EnvironmentContext.EnvironmentProvider.SwitchEnvironment |
| employee-onboarding-agent-fabric/react-client/src/services/mcpService.js:255 | `urls[environment] \|\| urls.production` returns inherited members | stored environment `"constructor"` yields a function as the base URL | unknown names fall back to the production URL | not executed | McpService.BaseURLInheritedKey | McpService.GetBaseURL |
