# A verified model of the bank dashboard's state machines and scoring rules

The repository is a browser dashboard for a demonstration bank, organised in numbered
"phases". Under its page rendering sit many small rules: a login lockout, a second-factor
challenge, a command console, several status machines and a set of scores and rating
ladders. This project restates those rules in Dafny and proves what they promise. Each
source script is one module under `src/`:

- `AuthController` (`bank-main/js/login.js`)
  - Credentials are checked against the fixed user table.
  - The persisted `{count, lockUntil}` attempt record locks the account for five minutes after five failures.
  - A session is written only after a credential match.
  - The second-factor provider is optional.
- `TwoFactor` (`js/security_2fa.js`)
  - The one-time code has six digits; only the lowercase hex of its digest is stored.
  - The code expires after 60 s; three wrong codes lock the engine for 60 s.
  - Clicks on the protected phases are gated.
- `CommandConsole` (`bank-main/js/search.js`): relevance scoring, the top-eight ranking, command parsing, the input gate, keyboard selection, and the bounded most-recent-first history.
- `Consent` (`bank-main/js/phase10.js`): the open-finance consent lifecycle with its token watcher and the actions offered per status.
- `Rollout` (`bank-main/js/phase8.js`): the blue/green traffic shift.
- `CbdcLedger` (`bank-main/js/phase19.js`): the wallet's mint, burn and convert operations, and the KHQR payload.
- `Governance` (`bank-main/js/phase16.js`): counting the organisation tree, the governance score and verdict, and the structure lock.
- `PhaseRegistry` (`js/phase_core.js`): descriptor validation and the append-only registry.
- `LicensingAuthority` (`js/soc_defense.js`, Phase 21): the readiness audit, the classification, and the licence's issue and revocation.
- `RiskMatrix` (`bank-main/js/phase4.js`): the impact clamp, the averaged risk level, and saving and restoring.
- `ApprovalChecklist` (`js/phase2.js`): the completion percentage, and saving and restoring.
- `GuardianAi` (`js/ai_core.js`): the greeting, mood precedence, the alert memory and the strategic insight.
- `GlobalAudit` (`bank-main/js/phase6.js`): the four-pillar audit, its progress, and the status and rating ladders.
- `SupervisoryReview` (`js/phase14.js`, Phase 17): the signals, the weighted composite, the rating, the enforcement risk and certification.
- `InvestorRelations` (`js/phase18.js`): the report figures, the market confidence index and rating, and the disclosure lock.
- `EsgScore` (`js/phase12.js`, Phase 15): the weighted ESG score, the carbon penalty, and the rating and commentary.
- `RegTechReporting` (`js/phase11.js`): metric colours, the compliance health score, and the four-step transmission.
- `JsText` is shared by the other modules. It models the JavaScript primitives they use: `includes`, `startsWith`, `toLowerCase` (on ASCII letters), `trim`, `split`, `replace`, `parseInt`, `toFixed`, `Math.floor`, `Math.round` and the decimal rendering of naturals.

How the model is written:

- Where a script updates state in place, the model has two parts.
  - A value datatype for the state, with pure step functions. The lemmas are proved about these functions.
  - A class with the script's fields. Each method ensures that its new state (and what it returns) is the step function applied to the old state.
- Loops in the source are methods with loop invariants, proved against a recursive specification function. Examples are the score accumulation in `relevanceScore`, `countGovernance`, the summing loop of the risk matrix and the audit's pillar loop.
- Numbers used as amounts or scores are exact `real`s.
- `Math.random()` draws, clocks and the SHA-256 digest are parameters.
- `parseFloat`/`parseInt` results that can be NaN are `Option`s, with `None` for NaN.

Where the repository's description and its code disagree, the model follows the code:

- A failed login shows the attempt count out of five, not the attempts remaining.
- A successful `validateOTP` does not clear the stored digest.
- `validateOTP` never consults the lockout; only `trigger2FA` is gated by it.
- A licence survives a later failed audit, because `denyLicense` writes no state.

Facts about the code that the proofs make explicit (not errors, so they are not Findings):

- `phase11.js:84`'s comment says the LCR lies in 100–160. The draw gives 100–159 (`GeneratedMetrics`).
- In `phase12.js`, a carbon intensity above 50 costs ten points. So the ESG score never exceeds 90, and the "warning even at AAA" order of the commentary can never matter (`HighCarbonNeverAAA`).
- In `phase18.js`, the confidence index of a compiled report lies in [22.3, 62.5). So the ratings Premier and Strong are never shown (`ReportBounds`).
- In `phase8.js`, a rollback does not stop the shifting interval. A timer that keeps ticking makes green live again (`RollbackLeavesTimerRunning`).
- In `ai_core.js:101`, the duplicate check compares a message string with stored alert records, so it never blocks a repeat (`RememberAppends`).
- In `phase6.js`, nothing resets `isAuditing`, so only the first audit runs.

## Model

| member | source | states |
|---|---|---|
| PhaseRegistry.FirstMissingMeaning | js/phase_core.js:14-22 | the check passes exactly when every required field is truthy, and otherwise names the first one that is not |
| PhaseRegistry.ValidIffRequiredTruthy | js/phase_core.js:12-25 | a descriptor is accepted exactly when id, name, status and description are all truthy |
| PhaseRegistry.Stamped | js/phase_core.js:32-35 | the stored copy has every field of the descriptor, plus `registeredAt` set to the stamp, and no other field |
| PhaseRegistry.FindById | js/phase_core.js:48-50 | an entry is found exactly when some entry has that id, and it is the first such entry |
| PhaseRegistry.InvalidIsDropped | js/phase_core.js:39-41 | a rejected descriptor leaves the registry as it was |
| PhaseRegistry.ValidIsAppended | js/phase_core.js:30-35 | an accepted descriptor adds exactly one stamped entry at the end and keeps the earlier entries in order |
| PhaseRegistry.RegisterKeepsAllValid | js/phase_core.js:27-42 | every registry entry passed validation, before and after a registration |
| PhaseRegistry.AppendOnly | js/phase_core.js:27-42 | over a run of registrations, the registry grows by at most one entry per call and the old registry stays a prefix |
| PhaseRegistry.DuplicateIdFindsOlder | js/phase_core.js:27-50 | a duplicate id is accepted, and lookup then still returns the older entry |
| PhaseRegistry.FindPrefix | js/phase_core.js:49 | a match among earlier entries is found before anything appended later |
| PhaseRegistry.Registry.constructor | js/phase_core.js:10 | the registry starts empty |
| PhaseRegistry.Registry.ValidatePhase | js/phase_core.js:12-25 | the loop returns the first missing field, and nothing exactly when the descriptor is valid |
| PhaseRegistry.Registry.RegisterPhase | js/phase_core.js:27-42 | the entries become `Register` of the old ones; it reports registration exactly when an entry was added |
| PhaseRegistry.Registry.GetPhases | js/phase_core.js:44-46 | returns every registered entry, in registration order |
| PhaseRegistry.Registry.GetPhaseById | js/phase_core.js:48-50 | the scan returns `FindById` of the entries |
| AuthController.FindUser | bank-main/js/login.js:104 | the first table entry with that username; `None` exactly when no user has it |
| AuthController.LogoutStore | bank-main/js/login.js:233-235 | logging out removes the session key and leaves the attempt record alone |
| AuthController.SessionOf | bank-main/js/login.js:242-251 | a session is returned exactly when the key is present and parses, and it is the stored one |
| AuthController.EmptyInputTouchesNothing | bank-main/js/login.js:94-97 | an empty username or password is refused before storage is read or written |
| AuthController.LockedRefusesAnyCredentials | bank-main/js/login.js:99-102 | while the lock holds, even correct credentials are refused and nothing changes |
| AuthController.ExpiredLockCountsFromZero | bank-main/js/login.js:65-118 | an expired lock deletes the record, so the next failure is counted as the first |
| AuthController.FailureCounts | bank-main/js/login.js:106-121 | a failure raises the count by one; the fifth locks the account for five minutes; the session is untouched |
| AuthController.MatchClearsAndOpensSession | bank-main/js/login.js:123-132 | a match clears the attempts; without a 2FA hand-off the session holds the user's name and role |
| AuthController.SessionWrittenOnlyOnMatch | bank-main/js/login.js:89-133 | the session key changes only after a credential match that logs in |
| AuthController.FailuresBelowThreshold | bank-main/js/login.js:106-118 | k < 5 consecutive failures from an empty record leave `{count: k, lockUntil: null}` |
| AuthController.FifthFailureLocks | bank-main/js/login.js:108-114 | the fifth consecutive failure locks until five minutes after that attempt |
| AuthController.FailureAfter | bank-main/js/login.js:108-118 | one failure on an unlocked record of k counts k + 1, locking at five |
| AuthController.LockoutWindow | bank-main/js/login.js:65-133 | after five failures, correct credentials are refused inside the window and accepted after it |
| AuthController.LogoutEndsSession | bank-main/js/login.js:233-251 | after logout there is no session, and logging out twice is logging out once |
| AuthController.OneFactorScenario | bank-main/js/login.js:27-32 | the one-factor account gets a session with role "cybersecurity" at once |
| AuthController.AdminScenario | bank-main/js/login.js:127-132 | the admin account hands off to 2FA when a provider exists and logs in directly otherwise |
| AuthController.Controller.constructor | bank-main/js/login.js:8-13 | both storage keys start absent |
| AuthController.Controller.GetAttempts | bank-main/js/login.js:50-55 | the stored record, or `{0, null}` when the key is absent |
| AuthController.Controller.SetAttempts | bank-main/js/login.js:57-59 | stores the record and leaves the session key alone |
| AuthController.Controller.ClearAttempts | bank-main/js/login.js:61-63 | removes the record and leaves the session key alone |
| AuthController.Controller.IsLocked | bank-main/js/login.js:65-75 | agrees with `CheckLock` on the answer and on the new store |
| AuthController.Controller.LockAccount | bank-main/js/login.js:77-83 | stores `{count: 5, lockUntil: now + 5 min}` |
| AuthController.Controller.HandleLogin | bank-main/js/login.js:89-133 | the new store and the outcome are those of `LoginStep` |
| AuthController.Controller.FinalizeLogin | bank-main/js/login.js:139-151 | writes the session of the user's name and role with the given time and token |
| AuthController.Controller.Logout | bank-main/js/login.js:233-236 | the store becomes `LogoutStore` of the old one |
| AuthController.Controller.GetSession | bank-main/js/login.js:242-251 | returns `SessionOf` the store, which is the stored session when present |
| TwoFactor.HexByte | js/security_2fa.js:98 | two lowercase hex digits, high nibble first, whose value is the byte |
| TwoFactor.HexEncode | js/security_2fa.js:97-99 | twice as many characters as bytes, all lowercase hex digits |
| TwoFactor.HexDecode | js/security_2fa.js:97-99 | the reading of a lowercase hex string back into bytes, one byte per two characters (partner of `HexEncode`) |
| TwoFactor.HexRoundTrip | js/security_2fa.js:97-99 | decoding the hex rendering of a digest gives the digest back |
| TwoFactor.HexInjective | js/security_2fa.js:97-99 | two digests render to the same hex text exactly when they are equal |
| TwoFactor.HashValue | js/security_2fa.js:93-100 | the stored hash is the hex rendering of the digest: 2 characters per byte, all hex digits |
| TwoFactor.HashesMatchIffCodesMatch | js/security_2fa.js:59-61 | with an injective digest, the stored hashes of two codes agree exactly when the codes do |
| TwoFactor.DigestIs64Chars | js/security_2fa.js:96-99 | a 32-byte SHA-256 digest is kept as 64 hex characters |
| TwoFactor.GenerateOTP | js/security_2fa.js:44-46 | six decimal digits, with a value between 100000 and 999999 |
| TwoFactor.WithModal | js/security_2fa.js:106-108 | afterwards a modal is open; an already open modal is kept as it was |
| TwoFactor.CloseStep | js/security_2fa.js:140-143 | afterwards no modal is open |
| TwoFactor.FirstContained | js/security_2fa.js:179-181 | the first protected caption the text contains; `None` exactly when it contains none |
| TwoFactor.TriggerWhileLocked | js/security_2fa.js:22-25 | while locked, a trigger changes nothing |
| TwoFactor.TriggerIssuesChallenge | js/security_2fa.js:27-37 | otherwise a six-digit code is issued; only its hash is stored; it expires in 60 s; attempts restart at 0; the lock is kept |
| TwoFactor.TriggerKeepsOpenModal | js/security_2fa.js:37 | a trigger while a modal is open keeps the old modal and its old continuation |
| TwoFactor.ValidateExpired | js/security_2fa.js:54-57 | an expired code fails, changes nothing and runs nothing |
| TwoFactor.ValidateMatch | js/security_2fa.js:61-65 | a hash match closes the modal and runs the continuation; attempts and lock are kept |
| TwoFactor.ValidateMismatch | js/security_2fa.js:67-77 | a mismatch counts one attempt; the third sets a 60 s lock; nothing else changes |
| TwoFactor.ValidateIgnoresLock | js/security_2fa.js:52-78 | the validation outcome does not depend on the lock field |
| TwoFactor.CorrectCodeAcceptedWhileLocked | js/security_2fa.js:52-65 | the right code is accepted even while the engine is locked |
| TwoFactor.ChallengeAcceptsOnlyItsCode | js/security_2fa.js:20-65 | within its minute, a fresh challenge accepts an input exactly when it is the issued code |
| TwoFactor.WrongCodesCounted | js/security_2fa.js:69-76 | fewer than three wrong codes from a fresh count are only counted |
| TwoFactor.ThirdWrongCodeLocks | js/security_2fa.js:69-73 | the third wrong code locks for 60 s from that attempt |
| TwoFactor.LockBlocksNewChallenge | js/security_2fa.js:85-87 | after that lock, a trigger is refused exactly until the lock time |
| TwoFactor.VerifyAtMostOnce | js/security_2fa.js:128-143 | after a verification the modal is gone, so a second press handled after the first cannot run the continuation again |
| TwoFactor.ClickGate | js/security_2fa.js:173-194 | a list item is intercepted exactly when it names Phase 14 or 16; otherwise nothing changes; the challenge carries that phase's renderer |
| TwoFactor.ProtectedEffects | js/security_2fa.js:187-192 | each protected phase's continuation renders that phase and only that phase |
| TwoFactor.LoginHandoff | js/security_2fa.js:20-65 | a login awaiting the second factor, then the correct code in time, runs the continuation that opens that user's session |
| TwoFactor.Engine.constructor | js/security_2fa.js:6-14 | the engine starts with no hash, no expiry, 0 attempts, no lock and no modal |
| TwoFactor.Engine.IsLocked | js/security_2fa.js:85-87 | locked exactly when the lock time is set and not yet reached |
| TwoFactor.Engine.Trigger | js/security_2fa.js:20-38 | the new state and the outcome are those of `TriggerStep` |
| TwoFactor.Engine.ShowModal | js/security_2fa.js:106-138 | the new state is `WithModal` of the old one |
| TwoFactor.Engine.CloseModal | js/security_2fa.js:140-143 | the new state is `CloseStep` of the old one |
| TwoFactor.Engine.Validate | js/security_2fa.js:52-78 | the new state and the outcome are those of `ValidateStep` |
| TwoFactor.Engine.PressVerify | js/security_2fa.js:128-132 | the new state and the outcome are those of `PressVerifyStep` |
| TwoFactor.Engine.Click | js/security_2fa.js:173-194 | the new state and the intercepted phase are those of `ClickStep` |
| CommandConsole.CountContained | bank-main/js/search.js:122-124 | the number of query words found is at most the number of words |
| CommandConsole.CountPositiveIffSomeWord | bank-main/js/search.js:121-126 | the word count is positive exactly when some word of the query occurs in the text |
| CommandConsole.Relevance | bank-main/js/search.js:114-127 | 10 exactly when the lower-cased text contains the whole query; otherwise 3 per contained word |
| CommandConsole.RelevancePositive | bank-main/js/search.js:114-127 | the score is positive exactly when the whole query or one of its words occurs |
| CommandConsole.OneWordMiss | bank-main/js/search.js:118-126 | a one-word query that does not occur scores 0 |
| CommandConsole.RelevanceScore | bank-main/js/search.js:114-127 | the accumulator loop computes `Relevance` |
| CommandConsole.Scored | bank-main/js/search.js:101-108 | one scored copy of every table entry, in table order, with key and description scores added |
| CommandConsole.Positive | bank-main/js/search.js:109 | keeps exactly the entries scoring above 0, a sub-multiset of the input |
| CommandConsole.Insert | bank-main/js/search.js:110 | inserting adds exactly the new entry to the multiset |
| CommandConsole.InsertStable | bank-main/js/search.js:110 | the inserted entry lands after every entry of its own score, and entries of each score keep their order |
| CommandConsole.InsertSorted | bank-main/js/search.js:110 | inserting into a best-first list keeps it best first |
| CommandConsole.SortDesc | bank-main/js/search.js:110 | a permutation of the input, sorted best first |
| CommandConsole.SortDescStable | bank-main/js/search.js:110 | the sort is stable, like `Array.prototype.sort`: the entries of each score come out in their input order |
| CommandConsole.PositiveKeepsOrder | bank-main/js/search.js:109 | the filter keeps every positive score's entries in table order |
| CommandConsole.Top | bank-main/js/search.js:111 | the first at most eight entries; all of them when there are at most eight |
| CommandConsole.FuzzySearch | bank-main/js/search.js:99-112 | at most eight results, best first |
| CommandConsole.FuzzySearchTieOrder | bank-main/js/search.js:99-112 | ties are broken by table order: for each positive score, the results hold the first entries of `searchableData` with that score, in table order, and all of them when at most eight entries match |
| CommandConsole.FuzzySearchRanks | bank-main/js/search.js:99-112 | results are positive-scoring table entries drawn from the candidates; all are kept when at most eight; nothing cut off outscores a kept one |
| CommandConsole.PrefixDominates | bank-main/js/search.js:110-111 | a prefix of a best-first list is a sub-multiset of it and outscores or ties what it leaves out |
| CommandConsole.ParseCommand | bank-main/js/search.js:133-152 | a target exactly for "go X", "check lcr" and "open swift": X, Phase 11 and Phase 9 |
| CommandConsole.Remember | bank-main/js/search.js:220-225 | the command is put first and the oldest is dropped past twenty; the result is a prefix of `[cmd] + history` |
| CommandConsole.HistoryNewestFirst | bank-main/js/search.js:220-225 | storing commands in turn keeps the newest twenty, newest first, then the old history |
| CommandConsole.KeyStepAsWritten | bank-main/js/search.js:185-206 | the keyboard handler as written, including the `items[selectedIndex].click()` on a missing item |
| CommandConsole.EnterPastEndAsWritten | bank-main/js/search.js:194-201 | with no results, ArrowUp selects 0 and Enter then clicks an item that does not exist |
| CommandConsole.KeyStep | bank-main/js/search.js:185-206 | the keyboard handler with Enter acting only on an existing item |
| CommandConsole.KeyStepAgreesUnlessCrash | bank-main/js/search.js:185-206 | the corrected handler agrees with the written one wherever the written one does not throw, and never throws |
| CommandConsole.KeyboardSelection | bank-main/js/search.js:189-201 | ArrowDown gives `min(i+1, n-1)` and ArrowUp `max(i-1, 0)`, both inside a non-empty list, and neither changes the list or the history; Enter navigates exactly when the selection names an existing item, its target then heading the history, and otherwise does nothing, including on a selection the list has outgrown |
| CommandConsole.StepsKeepInvariant | bank-main/js/search.js:64-206 | typing and keys keep the selection at or above -1 and the history at most twenty |
| CommandConsole.ShortQueryListsNothing | bank-main/js/search.js:66-71 | a query trimming to under two characters lists nothing and resets the selection |
| CommandConsole.CommandSkipsSearch | bank-main/js/search.js:74 | a command query navigates and is not searched |
| CommandConsole.QuerySearched | bank-main/js/search.js:76-92 | any other query lists its fuzzy-search matches, at most eight, with no selection |
| CommandConsole.Console.constructor | bank-main/js/search.js:6-27 | no selection, no results, an empty history |
| CommandConsole.Console.HandleSearchInput | bank-main/js/search.js:64-93 | the new state and the navigation are those of `SearchInputStep` |
| CommandConsole.Console.StoreCommand | bank-main/js/search.js:220-231 | the history becomes `Remember` of the old one; nothing else changes |
| CommandConsole.Console.ExecuteNavigation | bank-main/js/search.js:158-162 | the new state is `NavigateStep` of the old one |
| CommandConsole.Console.HandleKeyboardNav | bank-main/js/search.js:185-206 | the new state and the outcome are those of the corrected `KeyStep` |
| Consent.FindApp | bank-main/js/phase10.js:159 | the index of the first app with the id; `None` exactly when no app has it |
| Consent.SetStatus | bank-main/js/phase10.js:159-163 | the app list keeps its length |
| Consent.OfferedActions | bank-main/js/phase10.js:105-133 | pending offers authorize and deny; active offers revoke; denied and expired offer authorize; any other status offers nothing |
| Consent.StatusClass | bank-main/js/phase10.js:238-246 | green exactly for active; red exactly for denied and revoked; no class exactly for an unknown status |
| Consent.UnknownIdChangesNothing | bank-main/js/phase10.js:159-160 | authorising, denying or revoking an id no app has changes nothing |
| Consent.ActionsTouchOnlyTheirApp | bank-main/js/phase10.js:157-200 | each action rewrites only the first app with the id; authorising gives a token expiring 15 s from now; deny and revoke drop the token |
| Consent.WatcherExpiresOnlyPastTokens | bank-main/js/phase10.js:206-225 | a watcher tick expires the app exactly when a token is set and its time has passed; otherwise nothing changes |
| Consent.InitialAppsConsistent | bank-main/js/phase10.js:10-25 | the two initial pending apps hold no token |
| Consent.TransitionsKeepTokenIffActive | bank-main/js/phase10.js:157-225 | every action and watcher tick keeps the invariant "an app holds a token exactly when it is active" |
| Consent.RevokedIsTerminal | bank-main/js/phase10.js:105-200 | a revoked app offers no button, and every offered button leads to active, denied or revoked |
| Consent.ConsentManager.constructor | bank-main/js/phase10.js:6-26 | starts with the two pending apps and the invariant |
| Consent.ConsentManager.AuthorizeApp | bank-main/js/phase10.js:157-172 | the list becomes `Authorize` of the old one; the invariant holds |
| Consent.ConsentManager.DenyApp | bank-main/js/phase10.js:174-185 | the list becomes `Deny` of the old one; the invariant holds |
| Consent.ConsentManager.RevokeApp | bank-main/js/phase10.js:187-200 | the list becomes `Revoke` of the old one; the invariant holds |
| Consent.ConsentManager.TokenWatcherTick | bank-main/js/phase10.js:208-224 | the list and the outcome are those of `WatcherTick`; the invariant holds |
| Rollout.Finalize | bank-main/js/phase8.js:140-143 | green becomes live and the rollout ends; the traffic share is kept |
| Rollout.Rollback | bank-main/js/phase8.js:163-167 | everything returns to the initial blue state with 0 % traffic |
| Rollout.StartGuard | bank-main/js/phase8.js:91-95 | starting during a rollout does nothing; otherwise it raises the flag and starts the timer |
| Rollout.TickCases | bank-main/js/phase8.js:119-133 | below 100 % a tick adds exactly 25 and changes nothing else; at 100 % it finalises instead |
| Rollout.RollbackIdempotent | bank-main/js/phase8.js:163-167 | rollback resets any state, and a second rollback changes nothing |
| Rollout.OperationsKeepTrafficOnGrid | bank-main/js/phase8.js:91-167 | every operation keeps the traffic share among 0, 25, 50, 75 and 100 |
| Rollout.TicksNeverExceed100 | bank-main/js/phase8.js:119-133 | however many ticks run, the traffic share stays on that grid, so never above 100 % |
| Rollout.RolloutFromZero | bank-main/js/phase8.js:121-127 | from 0 %, tick n of the first four gives 25·n % with the rollout still running |
| Rollout.FifthTickFinalizes | bank-main/js/phase8.js:121-124 | the fifth tick finds 100 % and makes green live with the rollout over |
| Rollout.RollbackLeavesTimerRunning | bank-main/js/phase8.js:163-187 | rollback does not clear the timer, so five further ticks make green live again |
| Rollout.DeploymentEngine.constructor | bank-main/js/phase8.js:6-13 | not deploying, 0 % traffic, blue live |
| Rollout.DeploymentEngine.StartDeployment | bank-main/js/phase8.js:91-111 | the new state and the started flag are those of `Start` |
| Rollout.DeploymentEngine.ProgressiveTrafficShiftTick | bank-main/js/phase8.js:119-133 | the new state and the outcome are those of `Tick` |
| Rollout.DeploymentEngine.FinalizeDeployment | bank-main/js/phase8.js:140-157 | the new state is `Finalize` of the old one |
| Rollout.DeploymentEngine.RollbackDeployment | bank-main/js/phase8.js:163-187 | the new state is `Rollback` of the old one |
| CbdcLedger.MintEffect | bank-main/js/phase19.js:80-93 | a mint happens exactly for a positive amount and adds it to the balance and the minted total; otherwise nothing changes |
| CbdcLedger.BurnEffect | bank-main/js/phase19.js:95-110 | a burn happens exactly for a positive amount within the balance; it lowers only the balance, never below 0 |
| CbdcLedger.ConvertEffect | bank-main/js/phase19.js:112-128 | a conversion needs a positive balance and moves all of it to KHR at 4100 per dollar |
| CbdcLedger.ApplyKeepsSound | bank-main/js/phase19.js:80-128 | each operation keeps the balance between 0 and the minted total; KHR and the minted total never fall |
| CbdcLedger.RunKeepsSound | bank-main/js/phase19.js:80-128 | from the zero wallet, any sequence of operations keeps the ledger sound, and the KHR balance only grows |
| CbdcLedger.KhqrFields | bank-main/js/phase19.js:132 | the payload splits at bars into BAKONG, KHMERBANK, the time and the KHR text, and the time field reads back as the time |
| CbdcLedger.KhqrShownId | bank-main/js/phase19.js:136 | the 18 characters shown are the fixed prefix and the first digit of the time |
| CbdcLedger.Ledger.constructor | bank-main/js/phase19.js:6-12 | the wallet starts at zero |
| CbdcLedger.Ledger.MintCBDC | bank-main/js/phase19.js:80-93 | the new wallet and the flag are those of `Mint`; KHR is unchanged |
| CbdcLedger.Ledger.BurnCBDC | bank-main/js/phase19.js:95-110 | the new wallet and the flag are those of `Burn`; KHR and the minted total are unchanged |
| CbdcLedger.Ledger.ConvertFX | bank-main/js/phase19.js:112-128 | the new wallet and the flag are those of `Convert`; KHR does not fall |
| CbdcLedger.Ledger.GenerateKHQR | bank-main/js/phase19.js:130-141 | returns the payload, which starts with `BAKONG|KHMERBANK|` |
| Governance.Count | bank-main/js/phase16.js:174-192 | the counts of a node and its subtree (recursive definition) |
| Governance.FlatCountsMeaning | bank-main/js/phase16.js:176-179 | counting a list of nodes gives its length, two tallies bounded by it, and the risk officer flag exactly when some node is named "Chief Risk Officer" |
| Governance.CountIsFlatCount | bank-main/js/phase16.js:174-192 | counting the tree equals counting the list of all its nodes |
| Governance.CountMeaning | bank-main/js/phase16.js:174-192 | `total` is the number of nodes; the two tallies never exceed it; the flag holds exactly when some node is the risk officer |
| Governance.CountGovernance | bank-main/js/phase16.js:174-192 | the recursive walk with its accumulators and loop over the children computes `Count` |
| Governance.IndependenceRatio | bank-main/js/phase16.js:134-136 | the independence percentage rounded to one decimal lies between 0 and 100 |
| Governance.Score | bank-main/js/phase16.js:140-143 | the governance score lies between 10 and 100 |
| Governance.VerdictOf | bank-main/js/phase16.js:156-165 | STRONG exactly above 80, ADEQUATE exactly in (60, 80], HIGH RISK exactly at or below 60 |
| Governance.WeakStructureIsHighRisk | bank-main/js/phase16.js:140-165 | with no risk officer and fewer than three committees the verdict is always HIGH RISK |
| Governance.FourChildren | bank-main/js/phase16.js:181-188 | a node with four children counts itself and each child's subtree |
| Governance.LeafCounts | bank-main/js/phase16.js:176-179 | a childless member counts one, its independence, its committee-ness and its risk-officer flag |
| Governance.ShippedShapeCounts | bank-main/js/phase16.js:11-43 | any tree shaped like the shipped one counts 9 members, 5 independent, 3 committees and a risk officer |
| Governance.ExecutiveShapeCounts | bank-main/js/phase16.js:31-41 | the CEO subtree counts 5 members, 1 independent, no committee and the risk officer |
| Governance.ShippedVerdict | bank-main/js/phase16.js:134-161 | those counts give a ratio of 55.6, a score of 77.8 and the verdict ADEQUATE |
| Governance.ShippedStructure | bank-main/js/phase16.js:11-43 | the shipped structure counts (9, 5, 3, risk officer) and is ADEQUATE |
| Governance.StructureLock.constructor | bank-main/js/phase16.js:6-9 | the structure starts unlocked |
| Governance.StructureLock.LockStructure | bank-main/js/phase16.js:198-209 | afterwards the structure is locked; the call reports a change exactly when it was unlocked before |
| LicensingAuthority.Classify | js/soc_defense.js:124-130 | Tier 1 exactly at 90 or more, Tier 2 exactly in [80, 90), Restricted exactly in [70, 80), Provisional exactly below 70 |
| LicensingAuthority.ScoreCheck | js/soc_defense.js:113-122 | each check scores an integer from 70 to 99 |
| LicensingAuthority.WeightedBetween | js/soc_defense.js:86-92 | the weights sum to 1, so the readiness score lies between the lowest and the highest check |
| LicensingAuthority.Issue | js/soc_defense.js:136-150 | afterwards the institution is licensed and holds a truthy licence id |
| LicensingAuthority.AuditOutcome | js/soc_defense.js:78-111 | the score lies in [70, 99] and is classified (never Provisional); at 75 or more the institution is licensed; below 75 the licence state is kept |
| LicensingAuthority.IssueKeepsId | js/soc_defense.js:138-141 | an id already held is kept; a new one is minted only when there is none; score and rating are untouched |
| LicensingAuthority.RevokeEffect | js/soc_defense.js:164-177 | revoking an unlicensed institution does nothing; otherwise the licence and its id are dropped and nothing else changes |
| LicensingAuthority.OperationsKeepConsistent | js/soc_defense.js:78-177 | issue, deny, revoke and audit keep "licensed exactly when a licence id is held" |
| LicensingAuthority.LicensedIdStable | js/soc_defense.js:103-107 | once licensed, re-auditing never changes the licence or its id, whatever the scores |
| LicensingAuthority.DecimalSuffix | js/soc_defense.js:140 | the last k digits of a number's decimal rendering read back as the number modulo 10^k |
| LicensingAuthority.NewIdShape | js/soc_defense.js:139-140 | a new id for a timestamp of eight or more digits is `NBC-` and eight digits reading back as the time modulo 10^8 |
| LicensingAuthority.Authority.constructor | js/soc_defense.js:6-12 | unlicensed, no id, score 0, no rating |
| LicensingAuthority.Authority.RunFullAudit | js/soc_defense.js:78-111 | the new state is `Audit` of the old one; it reports the licence branch exactly when the score is at least 75 |
| LicensingAuthority.Authority.IssueLicense | js/soc_defense.js:136-150 | the new state is `Issue` of the old one |
| LicensingAuthority.Authority.RevokeLicense | js/soc_defense.js:164-177 | the new state is `Revoke` of the old one |
| RiskMatrix.ClampCases | bank-main/js/phase4.js:118-123 | NaN and values below 1 become "1"; above 5 become "5"; 1..5 stay as typed; the result always parses into 1..5, and clamping twice is clamping once |
| RiskMatrix.LevelOf | bank-main/js/phase4.js:146-158 | SECURE exactly at or below 2, MONITORING exactly in (2, 3.5], CRITICAL exactly above 3.5 |
| RiskMatrix.TotalBounds | bank-main/js/phase4.js:134-139 | with every input in 1..5 the total lies between n and 5n |
| RiskMatrix.AssessBounds | bank-main/js/phase4.js:129-141 | there is no assessment exactly when there are no inputs; otherwise the average lies in [1, 5] |
| RiskMatrix.AverageBounds | bank-main/js/phase4.js:141 | a total between n and 5n averages to a value in [1, 5] |
| RiskMatrix.LevelMonotone | bank-main/js/phase4.js:146-158 | a higher average never shows a lower level |
| RiskMatrix.Restore | bank-main/js/phase4.js:182-184 | restoring keeps the number of inputs |
| RiskMatrix.RestoreOnlyTruthy | bank-main/js/phase4.js:182-184 | an input takes the saved text exactly when that entry exists and is non-empty, and is untouched otherwise |
| RiskMatrix.SaveRestoreRoundTrip | bank-main/js/phase4.js:165-184 | saving non-empty inputs and restoring onto as many inputs gives them back |
| RiskMatrix.RiskTable.constructor | bank-main/js/phase4.js:85-112 | one fresh input per scenario, each holding "1" |
| RiskMatrix.RiskTable.CalculateTotalRisk | bank-main/js/phase4.js:129-159 | the summing loop computes `Assess` of the inputs |
| RiskMatrix.RiskTable.SaveRiskState | bank-main/js/phase4.js:165-171 | the stored array is the inputs' texts |
| RiskMatrix.RiskTable.RestoreRiskState | bank-main/js/phase4.js:173-189 | nothing changes without a stored array; otherwise the inputs become `Restore` of the old ones |
| RiskMatrix.RiskTable.HandleRiskInput | bank-main/js/phase4.js:118-127 | only input k changes, to its clamped text, which is in 1..5; the assessment and the stored array follow the new inputs |
| ApprovalChecklist.CountChecked | js/phase2.js:101 | the number of ticked boxes is at most the number of boxes |
| ApprovalChecklist.PercentageBounds | js/phase2.js:102 | the rounded percentage lies in [0, 100] |
| ApprovalChecklist.PercentageMonotone | js/phase2.js:102 | ticking more boxes never lowers the percentage |
| ApprovalChecklist.CompleteIffAllChecked | js/phase2.js:102-113 | with fewer than 200 boxes the percentage is 100 exactly when every box is ticked |
| ApprovalChecklist.ChecklistCompleteIffAllChecked | js/phase2.js:96-116 | for the five documents, "all verified" is shown exactly when every box is ticked |
| ApprovalChecklist.AllCheckedIffCount | js/phase2.js:101 | every box is ticked exactly when the count equals the number of boxes |
| ApprovalChecklist.Restore | js/phase2.js:140-142 | restoring keeps the number of boxes |
| ApprovalChecklist.RestoreOnlyTicks | js/phase2.js:140-142 | restoring only ever ticks boxes, so the count never drops |
| ApprovalChecklist.CountPointwise | js/phase2.js:101 | a pointwise larger tick set has at least as many ticks |
| ApprovalChecklist.SaveRestoreRoundTrip | js/phase2.js:122-142 | saving, then restoring onto an unticked form, gives back the ticked set |
| ApprovalChecklist.ChecklistForm.constructor | js/phase2.js:66-90 | one fresh unticked box per document |
| ApprovalChecklist.ChecklistForm.UpdateComplianceProgress | js/phase2.js:96-116 | the counting loop computes `Progress` of the boxes; it reports completion exactly at 100 % |
| ApprovalChecklist.ChecklistForm.SaveProgress | js/phase2.js:122-129 | the stored array is the boxes' flags |
| ApprovalChecklist.ChecklistForm.RestoreProgress | js/phase2.js:131-147 | nothing changes without a stored array; otherwise the boxes become `Restore` of the old ones |
| ApprovalChecklist.ChecklistForm.HandleChange | js/phase2.js:86-89 | only box k changes; the percentage and the stored array follow the new boxes |
| GuardianAi.Greeting | js/ai_core.js:19-23 | morning before 12, afternoon from 12 to 17, evening from 18 |
| GuardianAi.MoodPrecedence | js/ai_core.js:39-66 | a security score below 70 wins over a CRITICAL risk text, which wins over a ratio below 100; STABLE exactly when none applies |
| GuardianAi.MissingRatioIsHealthy | js/ai_core.js:41 | with no ratio on the page the ratio reads as 100 and raises no liquidity alert |
| GuardianAi.ParseHundred | js/ai_core.js:41 | the fallback text "100" parses to 100 |
| GuardianAi.AlertFor | js/ai_core.js:76-92 | a mood records an alert exactly when it is not STABLE |
| GuardianAi.LinePrefix | js/ai_core.js:74-91 | every line opens with the greeting and the persona sentence |
| GuardianAi.RememberAppends | js/ai_core.js:99-110 | the duplicate check never matches a record, so every alert is appended; past ten the oldest is dropped; the rest keep their order |
| GuardianAi.RefreshRecordsAlerts | js/ai_core.js:17-33 | a refresh keeps at most ten records; STABLE leaves the memory alone; any other mood records its alert, which the strategic insight then reports |
| GuardianAi.StressedRefreshes | js/ai_core.js:99-108 | n stressed refreshes from an empty memory leave min(n, 10) records |
| GuardianAi.RecordsAfterStress | js/ai_core.js:107-108 | any number of stressed refreshes keeps the memory at ten records or fewer |
| GuardianAi.AiCore.constructor | js/ai_core.js:6-11 | mood STABLE and an empty memory |
| GuardianAi.AiCore.RememberAlert | js/ai_core.js:99-110 | the memory becomes `Remember` of the old one; the mood is unchanged |
| GuardianAi.AiCore.GetSentientGreeting | js/ai_core.js:17-33 | the new state and the line are those of `Refresh` |
| GuardianAi.AiCore.GetStrategicInsight | js/ai_core.js:149-159 | returns `StrategicInsight` of the memory |
| GlobalAudit.ComplianceScore | bank-main/js/phase6.js:131-133 | each pillar scores an integer from 80 to 100 |
| GlobalAudit.StatusOf | bank-main/js/phase6.js:135-143 | fully compliant exactly at 95 or more, partially exactly in [85, 95), remediation exactly below 85 |
| GlobalAudit.RatingOf | bank-main/js/phase6.js:158-167 | excellence exactly at 95 or more, acceptable exactly in [85, 95), critical gaps exactly below 85 |
| GlobalAudit.RatingMatchesStatus | bank-main/js/phase6.js:135-167 | the overall rating uses the pillar thresholds: each rating matches one pillar status |
| GlobalAudit.Scores | bank-main/js/phase6.js:99-104 | one score per draw, each the pillar score of its draw |
| GlobalAudit.SumBounds | bank-main/js/phase6.js:104 | scores in [lo, hi] sum to between lo·n and hi·n |
| GlobalAudit.ReportFacts | bank-main/js/phase6.js:97-120 | the progress bar shows 25, 50, 75, 100; the average lies in [80, 100] and is rated; each row's status follows its score |
| GlobalAudit.UniformPillars | bank-main/js/phase6.js:119-167 | four fully compliant pillars rate excellence; four pillars needing remediation rate critical gaps |
| GlobalAudit.OnlyFirstRunAudits | bank-main/js/phase6.js:81-83 | nothing lowers the auditing flag, so only the first of two runs produces a report |
| GlobalAudit.AuditEngine.constructor | bank-main/js/phase6.js:10 | not auditing, nothing saved |
| GlobalAudit.AuditEngine.RunGlobalAudit | bank-main/js/phase6.js:79-125 | the flag and the report are those of `Run`; a report saves its average, and no report saves nothing |
| GlobalAudit.AuditEngine.ScorePillars | bank-main/js/phase6.js:97-120 | the pillar loop's total is the sum of the scores, and its rows and progress values are the report's |
| GlobalAudit.AuditEngine.FinalizeAudit | bank-main/js/phase6.js:150-180 | the score shown and saved is the average given; the flag is unchanged |
| GlobalAudit.AuditEngine.RestorePhase6State | bank-main/js/phase6.js:189-203 | a rating is shown exactly when a completed audit was saved, and it is that score's rating |
| SupervisoryReview.DetermineRating | js/phase14.js:115-122 | AAA exactly at 90 or more, AA in [80, 90), A in [70, 80), BBB in [60, 70), B below 60 |
| SupervisoryReview.RatingMonotone | js/phase14.js:115-122 | a higher score never gets a worse rating |
| SupervisoryReview.DetermineEnforcementRisk | js/phase14.js:124-130 | LOW exactly at 85 or more, MODERATE in [70, 85), ELEVATED in [60, 70), HIGH below 60 |
| SupervisoryReview.SignalClass | js/phase14.js:137-139 | green exactly at 85 or more, yellow in [70, 85), red below 70 |
| SupervisoryReview.OverallBetween | js/phase14.js:85-89 | the weights sum to 1, so the composite lies between the lowest and the highest signal |
| SupervisoryReview.InspectionRange | js/phase14.js:75-92 | with the four signal ranges the composite lies in [62.75, 96.55], so an inspection never rates B nor finds HIGH risk |
| SupervisoryReview.CertifyNeedsInspection | js/phase14.js:152-155 | certifying before any inspection is refused and changes nothing |
| SupervisoryReview.InspectThenCertify | js/phase14.js:72-170 | after an inspection, certification succeeds and issues that score's rating and enforcement risk |
| SupervisoryReview.SupervisoryEngine.constructor | js/phase14.js:6-9 | no inspection, no score |
| SupervisoryReview.SupervisoryEngine.RunSupervisoryInspection | js/phase14.js:72-109 | the new state is `Inspect` of the old one; returns the drawn signals and their classes |
| SupervisoryReview.SupervisoryEngine.CertifyInstitution | js/phase14.js:150-170 | the new state and the flag are those of `Certify` |
| JsText.RandomBetween | js/phase18.js:175-177 | an integer between min and max inclusive (the same helper as `randomScore` at js/phase14.js:142-144) |
| InvestorRelations.Pick | js/phase18.js:179-181 | an element of the array |
| InvestorRelations.ConfidenceMonotone | js/phase18.js:129-136 | confidence rises with ROE and the capital ratio and falls with the cost-to-income ratio, strictly when one of them moves |
| InvestorRelations.DetermineMarketRating | js/phase18.js:138-145 | Premier exactly above 90, Strong in (75, 90], Stable in (60, 75], Moderate in (45, 60], Speculative at or below 45 |
| InvestorRelations.MarketRatingMonotone | js/phase18.js:138-145 | a higher confidence never gets a worse rating |
| InvestorRelations.ProfitBounds | js/phase18.js:78-80 | the profit, rounded to one decimal, lies in [153, 448] for the drawn revenue and margin |
| InvestorRelations.RoeBounds | js/phase18.js:85 | the ROE, rounded to one decimal, lies in [17, 74.7] for a profit in range and the drawn equity |
| InvestorRelations.ProfitRoeBounds | js/phase18.js:78-85 | profit and ROE together stay in those ranges |
| InvestorRelations.FiguresBounds | js/phase18.js:78-105 | for figures in the drawn ranges the confidence lies in [22.3, 62.5) and the rating is Stable or worse |
| InvestorRelations.ReportBounds | js/phase18.js:76-123 | every compiled report has profit in [153, 448], ROE in [17, 74.7], confidence in [22.3, 62.5), a rating of Stable or worse and an ESG grade from the list |
| InvestorRelations.Disclosure.constructor | js/phase18.js:6-9 | nothing compiled yet |
| InvestorRelations.Disclosure.CompileInvestorReport | js/phase18.js:76-123 | afterwards the report is marked compiled and returned as `Compile` of the draws |
| InvestorRelations.Disclosure.LockDisclosure | js/phase18.js:151-165 | filed exactly when a report was compiled |
| InvestorRelations.LockNeedsCompile | js/phase18.js:151-156 | a fresh disclosure cannot be locked, and it can be after a compilation |
| EsgScore.WeightedBetween | js/phase12.js:109-114 | the weights sum to one: with every slider in [lo, hi] the weighted score lies in [lo, hi] |
| EsgScore.CarbonPenalty | js/phase12.js:116 | the penalty is 10 exactly above 50, 5 exactly in (30, 50], and 0 at or below 30 or for an unreadable value |
| EsgScore.PenaltyMonotone | js/phase12.js:116 | a higher carbon intensity never gets a smaller penalty |
| EsgScore.FinalScoreBounds | js/phase12.js:101-118 | the final score lies in [0, 100 - penalty]; it is the weighted score less the penalty when that is not negative, and 0 otherwise |
| EsgScore.FinalScoreMonotone | js/phase12.js:101-118 | raising any slider never lowers the final score; raising the carbon intensity never raises it |
| EsgScore.RatingOf | js/phase12.js:135-150 | AAA exactly above 90, AA exactly in (75, 90], A in (60, 75], B in (45, 60], C at or below 45 |
| EsgScore.RatingMonotone | js/phase12.js:135-150 | a higher score never gets a worse rating |
| EsgScore.CommentaryFor | js/phase12.js:156-169 | the carbon warning appears exactly above 50; the green bond label exactly for AAA without the warning |
| EsgScore.HighCarbonNeverAAA | js/phase12.js:101-169 | through the sliders the carbon warning and AAA never meet, and the green bond is logged exactly when the score is above 90 |
| EsgScore.GreenBondReachable | js/phase12.js:156-164 | full sliders with carbon at most 30 reach the green bond label |
| RegTechReporting.MetricClass | js/phase11.js:100-103 | a metric is green exactly at or above its threshold and red exactly below it |
| RegTechReporting.ScoreClass | js/phase11.js:115-118 | the health score is green exactly above 85, yellow exactly in (70, 85], red at or below 70 |
| RegTechReporting.ScoreMonotone | js/phase11.js:108 | the score is `lcr / 3 + 2.5 * car` and never falls when either metric rises |
| RegTechReporting.GeneratedMetrics | js/phase11.js:82-91 | the drawn LCR lies in [100, 159] and the CAR in [12, 20]; both metrics always show green; the health score lies in [190/3, 103] |
| RegTechReporting.LowestMetricsAreRed | js/phase11.js:106-118 | the lowest metrics the draws can give rate the health score red |
| RegTechReporting.OperationsKeepValid | js/phase11.js:125-174 | starting and ticking keep an interval running exactly while a transmission is in progress, at 0, 25, 50 or 75 |
| RegTechReporting.TransmitIgnoredWhileTransmitting | js/phase11.js:127 | a click while transmitting changes nothing and starts nothing |
| RegTechReporting.TransmissionRun | js/phase11.js:125-174 | from an idle link the interval fires four times, showing 25, 50, 75, 100 and the three step lines in order; the fourth tick finalizes with its id and leaves the link idle again |
| RegTechReporting.Transmitter.constructor | js/phase11.js:13-14 | nothing has been transmitted and no transmission runs |
| RegTechReporting.Transmitter.TransmitData | js/phase11.js:125-138 | the new state and the started flag are those of `Transmit` |
| RegTechReporting.Transmitter.Tick | js/phase11.js:138-154 | the new state and the output are those of one `Advance` |
| RegTechReporting.Transmitter.FinalizeTransmission | js/phase11.js:157-174 | success exactly when the draw exceeds 0.1; the matching status line; the id is recorded and the transmission ends |

## Left out

- Page rendering is not modelled: `innerHTML` templates, CSS classes, `alert`, scrolling, the org-chart HTML, `renderRoleView`/`showDashboard` after login, `navigateToPhase`'s DOM lookup, and each phase list item's own `onclick` handler (`showPhaseDetail`, bank-main/js/login.js:200), which fires before the 2FA click gate sees the bubbling click. Where a class name encodes a classification, the classification is modelled as a value.
- `localStorage`/`sessionStorage` and JSON text are replaced by fields and datatypes.
  - The login's `getSession` keeps its parse-failure case, as `Store.session` holding an unparsable text.
  - The restores from storage that copy a saved object over a script's state are not modelled. These are the `Object.assign` restores of `phase8.js` (which also finalizes when the saved environment is green), `phase11.js`, `phase12.js`, `phase14.js`, `phase16.js`, `phase18.js`, `phase19.js`, `soc_defense.js` and `ai_core.js`. The model also leaves out the app list restore of `phase10.js` and the command history restore of `search.js`. Each model starts from the script's initial state, and its invariants are stated for states the operations reach, not for arbitrary stored ones.
- Timers are modelled as one explicit call per tick. The interleaving of several live timers is not modelled: for example a second rollout timer in `phase8.js`, the 2FA countdown display, or a consent watcher still holding an app object after a restore.
- `Math.random()`, `Date.now()`, `new Date()` and `toISOString()` are parameters. So are the transmission id of `phase11.js` and the time of its history entry.
- SHA-256 and `TextEncoder` are the parameter `sha`; a property that needs it to separate codes requires it to be injective. `generateToken` (`btoa` of random text) and `generateHash` in `phase19.js` are left out, as their values are random and display only.
- `phase19.js`'s node health display (`nodeStatus`, `simulateNodeHealth`) is left out, as it is random display state. The KHR balance's text rendering inside the KHQR payload is a parameter.
- Floating point is replaced by exact reals.
  - `toFixed` is modelled only where its result feeds later arithmetic (the governance independence ratio, the phase 18 figures, the `phase11.js` CAR draw). Display-only `toFixed`/`toLocaleString` is left out.
  - IEEE rounding in weighted scores is not modelled.
- Input sanitisation and `async` sequencing are not modelled. The login's second-factor hand-off (`start2FA`) is a boolean "provider present" input, because no script of the repository defines that hook.
- DOM-missing early returns are left out. The model takes the page's elements to exist, as they do in the shipped markup; for example `runGlobalAudit` on a page without its container would leave `isAuditing` raised.
- The phase registry's object values: object identity is not modelled. A JavaScript object is a map from property names to values, and all object-valued properties compare equal. `NaN` is not a value of the model.
- PhaseRegistry.Registry.GetPhases: returns the entries as a value. `getPhases` hands out the live array, so a caller that mutates it changes the registry; that aliasing is not modelled.
- The registry's single-instance guard (`window.PhaseRegistry` already defined) is not modelled: the module is loaded once.
- Global name collisions between scripts (`safeLog`, `updateUI`, `finalizeDeployment`, `finalizeTransmission`, `updateProgress`) are not modelled. Each script is its own module.
- JsText.ToLower: lowers only the ASCII letters `A`..`Z`. JavaScript's `toLowerCase` also lowers other letters (`Ä`, the Kelvin sign, which becomes `k`) and turns `İ` into two code units. The console's table texts are ASCII, so only a typed query with such a letter behaves differently: for example, `chec` followed by the Kelvin sign and ` lcr` is the command "check lcr" in the browser but a search in the model.
- The presentation-only scripts `master_loader.js`, `phase1.js`, `phase3.js`, `phase5.js`, `phase7.js` and `phase9.js` are not part of this model.

## Findings

| source | as written | input that shows it | evidently intended | confidence | as-written member | corrected member |
|---|---|---|---|---|---|---|
| bank-main/js/search.js:194-201 | ArrowUp sets `max(selectedIndex - 1, 0)` even when the result list is empty, and Enter then calls `items[selectedIndex].click()` | with no results (`selectedIndex` -1), press ArrowUp, then Enter: `items[0]` is undefined and `.click()` throws a TypeError | Enter acts only on an item that exists | not executed | CommandConsole.EnterPastEndAsWritten | CommandConsole.KeyStepAgreesUnlessCrash |
