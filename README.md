# LLM-assisted mutation and seed validation for a smart-contract fuzzer

This project models the part of an LLM-assisted smart-contract fuzzer (built on
ConFuzzius) that sits between the language model and the genetic fuzzer, and it
proves properties of that model in Dafny:

- **The seed generator** (`LLMGenerator`, `src/llm_generator.py`). It keeps two
  name tables built from the contract ABI: `function_name_to_hash` and
  `function_info`. It validates the model's JSON reply, transaction by
  transaction:
  - it resolves the function identifier by name or by interface key;
  - it checks the argument count against the interface;
  - it coerces integer and bool arguments;
  - it counts every rejected candidate under exactly one reason in
    `filter_stats`.
- **The LLM mutator** (`LLMMutator`, `src/llm_mutator.py`):
  - the numbered listing of state-changing functions;
  - the clean-up of a fenced JSON reply;
  - the fuzzy (Levenshtein distance at most 2) reconciliation of the model's
    `{function: [parameters]}` feedback with the real names;
  - the bounded retry loop that asks for a strategy.
- **The mutation operator** (`Mutation`, `src/mutation.py`):
  - the strategy cache, refreshed at most once per generation;
  - the selector-keyed `function_info_map`;
  - the baseline argument loop;
  - `get_else_mutation_info` over the transaction, block, balance and
    address-keyed fields;
  - the LLM-guided loop, which redraws targeted parameters with probability
    0.8 and the others with `pm`.
- **Three aggregation scripts:**
  - `analyze_stats` over the filter-statistics log;
  - the per-contract, per-phase token-usage fold;
  - the row filter that collects contract paths from a CSV file.

External collaborators become parameters:

- **Keccak-256** is a function `Abi.Keccak`. A selector is "0x" plus the hex of
  the first four bytes of the hash, as in the Solidity Contract ABI
  Specification, section "Function Selector".
- **`json.loads`** is a function from text to `Json.Parsed`, which holds a
  value or a decode error.
- **The language model** is `ask: (attempt, reminder) -> Reconciler.ModelReply`.
- **`random.random()`** is `draws: nat -> real`, indexed by the number of
  draws made so far.
- **The generator's `get_random_*` producers** are the uninterpreted functions
  of `GeneMutator.Producers`.

Gene dicts and the operator's fields are updated in place in the source, so
`GeneMutator.Gene` and `GeneMutator.Mutation` are classes and their methods
are proved against specification functions. Two more classes follow the same
pattern:

- `SeedSanitizer.LlmGenerator`, whose `filter_stats` and name tables are
  fields;
- `Reconciler.LlmMutator`.

The scripts' loops are methods proved equal to folds. The folds' meaning is
proved separately: sums, key sets, and what each total adds up to.

Where the code and its description differ, the model follows the code:

- `total_generated` is only an upper bound on accepted plus rejected. A batch
  dropped by an exception keeps the counts it had made, and a string or dict
  of "transactions" adds its length without deciding anything. Equality holds
  for a completed list (`SeedSanitizer.CompletedBatchAccountsForEveryCase`).
- `get_mutation_strategy` returns `json.loads` of the first reply that
  parses. The validator after that `return` (src/llm_mutator.py:209-216) is
  unreachable. The strategy is therefore any JSON value, and
  `Reconciler.ValidateFeedback` is modelled on its own, with the ground truth
  given as the ordered dict it is meant to be. The source's `state_functions`
  is a string, on which `.items()` would raise.
- `reason_distribution` raises `ZeroDivisionError` only when something was
  rejected, nothing was generated AND some record lists a rejection reason.
  With an empty reasons dict the loop body never runs.
- `llm_guided_mutation` with a strategy that is not a dict raises at the first
  gene whose selector is known. A list or a string survives `in` and fails at
  `.get`. A number, a boolean or null already fails at `in`.

## Model

| member | source | states |
|---|---|---|
| Abi.Types | src/mutation.py:276 | the input types in declaration order, one per input |
| Abi.Names | src/mutation.py:277 | the parameter names in declaration order, one per input |
| Abi.HexOf | src/llm_generator.py:229 | hex rendering is two lower-case hex digits per byte |
| Abi.HexOfPrefix | src/mutation.py:288 | the hex of the first bytes is the matching prefix of the full hex, which the `[2:10]` slice relies on |
| Abi.Selector | src/llm_generator.py:229 | a selector is "0x" followed by exactly eight lower-case hex digits |
| Abi.SelectorIsNotSpecial | src/llm_generator.py:239-242 | no selector equals "constructor" or "fallback", so the identity entries cannot collide with a hashed one |
| Abi.JoinInjective | src/mutation.py:280 | joining non-empty comma-free type names with "," loses no information |
| Abi.SignatureTextInjective | src/llm_generator.py:218-226 | the signature text `name(t1,t2,...)` determines the name and the type list |
| SignatureIndex.BuildSignature | src/llm_generator.py:218-226 | the loop that appends each type and a comma unless it is the last builds the canonical signature, and collects the types |
| SignatureIndex.NameHashesKeys | src/llm_generator.py:212-214 | the name table has a key exactly for the names of `type == 'function'` entries |
| SignatureIndex.NameHashesLastWins | src/llm_generator.py:231 | a name maps to the selector of its last function entry |
| SignatureIndex.NameHashesValues | src/llm_generator.py:229-231 | every value is the selector of a function entry of that name, never "constructor" or "fallback" |
| SignatureIndex.NameInfosAgree | src/llm_generator.py:232-236 | `function_info` has the same keys as the name table, each holding the same selector and that entry's signature and types |
| SignatureIndex.SpecialEntries | src/llm_generator.py:209-210 | "constructor"/"fallback" map to themselves exactly when the ABI is non-empty and they are interface keys |
| SignatureIndex.NameToHashOrdinary | src/llm_generator.py:209-236 | any other name is a key exactly when the ABI is non-empty and declares such a function, holding the name table's selector |
| SignatureIndex.MutationSelectorIsSelector | src/mutation.py:287-290 | the mutator's slice-and-prefix rendering gives the same selector as the generator's, so the two tables agree on keys |
| SignatureIndex.TargetsKeys | src/mutation.py:270-293 | `function_info_map` has a key exactly for the selectors of the function entries |
| SignatureIndex.TargetsKeyStep | src/mutation.py:272-293 | one more ABI entry adds its selector exactly when it is a function entry |
| SignatureIndex.TargetsKeysAreSelectors | src/mutation.py:290 | every key is "0x" and eight hex digits |
| SignatureIndex.TargetsLastWins | src/mutation.py:293-296 | a selector's entry is the name and ordered parameter names of the last function entry with that selector |
| SignatureIndex.LastWithSelector | src/mutation.py:270-296 | every function entry's selector has a last entry at or after it carrying it |
| SignatureIndex.ResolvedSelectorIsIndexed | src/llm_generator.py:329-331 | a selector resolved from a function name is a key of the mutator's table, and the key names that function when there is no cross-name collision |
| SignatureIndex.OverloadsHaveDistinctSignatures | src/llm_generator.py:218-231 | two overloads of one name have different signature texts; the name table keeps only the later one |
| SeedSanitizer.Truncate | src/llm_generator.py:368-370 | `int()` on a float truncates toward zero |
| SeedSanitizer.IntOf | src/llm_generator.py:368-370 | Python `int()` on a JSON value: numbers truncate, booleans give 0/1, strings are read in base 10, and null, lists and dicts raise |
| SeedSanitizer.Coerce | src/llm_generator.py:410-425 | one argument's coercion: "0x" strings in base 16 and other strings in base 10 for integer types; `lower() == 'true'` for bool types; the rest unchanged; a failed parse is an arity mismatch exactly when the phrase "Argument count mismatch" lies within the first 199 characters of the text, which is all that `int()`'s message quotes, and a type failure otherwise |
| SeedSanitizer.CoerceIdempotent | src/llm_generator.py:410-425 | a coerced argument coerces to itself |
| SeedSanitizer.CoerceAllShape | src/llm_generator.py:410-425 | coercion of a list succeeds exactly when each argument does, then holds each coercion; its error is a type or count failure |
| SeedSanitizer.CoerceAllFirstError | src/llm_generator.py:410-425 | the first argument that fails decides the error |
| SeedSanitizer.CoerceAllPointwise | src/llm_generator.py:410-425 | arguments that coerce one by one coerce as a whole |
| SeedSanitizer.Sanitize | src/llm_generator.py:389-425 | a selector missing from the interface is a type failure; a count differing from the declared types is an arity failure; on success the selector stays first and the length is the declared count plus one |
| SeedSanitizer.SanitizeIdempotent | src/llm_generator.py:389-425 | sanitizing sanitized arguments changes nothing |
| SeedSanitizer.Resolve | src/llm_generator.py:329-342 | a name in the name table wins; otherwise an interface key is kept as it is; a list or dict is unhashable; anything else is unknown |
| SeedSanitizer.ClassifyCase | src/llm_generator.py:318-377 | a rejection is never a JSON failure, and an accepted candidate is a dict with "arguments" |
| SeedSanitizer.ExtendCounts | src/llm_generator.py:321-377 | one outcome leaves the generated total alone; a rejection raises its reason and the rejected total; an acceptance adds one seed and one accepted |
| SeedSanitizer.RejectionBumpsOneReason | src/llm_generator.py:321-361 | a rejection raises exactly one reason counter and the rejected total by one, and nothing else |
| SeedSanitizer.RunCasesCounts | src/llm_generator.py:317-377 | over a run, decided candidates grow by at most the number of candidates (exactly when not dropped); the rejected total moves with the reasons; accepted grows by the seeds |
| SeedSanitizer.ParseAndValidateConsistent | src/llm_generator.py:307-387 | validating a reply keeps accepted + rejected <= generated and rejected = the sum of the four per-case reasons |
| SeedSanitizer.CompletedBatchAccountsForEveryCase | src/llm_generator.py:310-380 | a list of transactions run to its end adds as many decided candidates as it has, and returns exactly the accepted ones |
| SeedSanitizer.ListReplyIsRun | src/llm_generator.py:310-317 | a dict reply whose transactions are a list counts its length as generated, then runs the candidates |
| SeedSanitizer.DecodeErrorCountsOnlyParseFailure | src/llm_generator.py:381-384 | a decode failure raises only "json_parse_fail" and returns no seed |
| SeedSanitizer.AbortIsFinal | src/llm_generator.py:385-387 | once an exception drops the batch, later candidates change nothing |
| SeedSanitizer.MissingArgumentsDropsRun | src/llm_generator.py:319 | a dict candidate without "arguments" raises `KeyError` at the first check and drops the run |
| SeedSanitizer.MissingArgumentsDiscardsBatch | src/llm_generator.py:319-387 | such a reply yields no seed at all |
| SeedSanitizer.AcceptedCase | src/llm_generator.py:325-377 | an accepted seed has its identifier resolved and written into `arguments[0]`, the interface's arity, and block fields from the candidate or the defaults 0, 1, 0 |
| SeedSanitizer.RunCasesSeedsWellFormed | src/llm_generator.py:317-377 | every seed of a run is well formed |
| SeedSanitizer.SeedsComeFromRun | src/llm_generator.py:309-317 | a reply with seeds is a dict whose transactions are a list, and the seeds are the run's |
| SeedSanitizer.WellFormedSeedIsSanitized | src/llm_generator.py:389-425 | a well-formed seed's arguments sanitize to themselves |
| SeedSanitizer.ValidatedSeedsWellFormed | src/llm_generator.py:307-380 | every returned seed is well formed, and sanitizing it again changes nothing |
| SeedSanitizer.UnindexedSelectorIsTypeFailure | src/llm_generator.py:329-396 | a name resolving to a selector the interface lacks is counted as "type_sanitize_fail", not "abi_mismatch" |
| SeedSanitizer.UnknownIdentifierIsAbiMismatch | src/llm_generator.py:338-342 | an identifier that is neither a known name nor an interface key is an ABI mismatch |
| SeedSanitizer.AcceptedByNameCarriesLastSelector | src/llm_generator.py:329-345 | a seed accepted by function name carries the selector of the last function entry of that name |
| SeedSanitizer.AddressIsUntyped | src/llm_generator.py:414-423 | "address" arguments are neither integer nor bool typed and are kept as they are |
| SeedSanitizer.Uint256IsInt | src/llm_generator.py:414 | "uint256" takes the integer branch |
| SeedSanitizer.QuotedPart | src/llm_generator.py:352 | the part of a failed text that `int()`'s message repeats: its first 199 characters, or all of a shorter text |
| SeedSanitizer.LatePhraseIsTypeFailure | src/llm_generator.py:352-355 | an unparsable "uint256" text of 180 'x's followed by the phrase contains the phrase, yet counts as a type failure |
| SeedSanitizer.HexAmountCoerced | src/llm_generator.py:416-417 | the text "0x1f" for a uint256 becomes 31 |
| SeedSanitizer.ExampleSanitized | src/llm_generator.py:389-425 | a transfer's address stays text and its hex amount becomes 31 |
| SeedSanitizer.ExampleFields | src/llm_generator.py:368-370 | missing block fields take the defaults 0, 1 and 0 |
| SeedSanitizer.ExampleAccepted | src/llm_generator.py:325-377 | a candidate naming `transfer` is accepted with the selector in front |
| SeedSanitizer.ExampleUnknownName | src/llm_generator.py:338-342 | a candidate naming an undeclared function is an ABI mismatch |
| SeedSanitizer.LlmGenerator.constructor | src/llm_generator.py:36-58 | the counters start at zero and both name tables are built |
| SeedSanitizer.LlmGenerator.ResetFilterStats | src/llm_generator.py:190-203 | every counter is back to zero, the tables untouched |
| SeedSanitizer.LlmGenerator.BuildFunctionMappings | src/llm_generator.py:205-242 | the loop leaves exactly `NameToHash` and `FunctionInfoTable` |
| SeedSanitizer.LlmGenerator.SanitizeArgumentTypes | src/llm_generator.py:389-425 | in-place coercion succeeds exactly when `Sanitize` does and then leaves its result; on failure the selector is untouched and every argument is either original or coerced |
| SeedSanitizer.LlmGenerator.CoerceInPlace | src/llm_generator.py:410-425 | the array loop equals `CoerceAll` on success and leaves a partly coerced array on failure |
| SeedSanitizer.LlmGenerator.ProcessCase | src/llm_generator.py:318-377 | one loop body's outcome is `ClassifyCase` |
| SeedSanitizer.LlmGenerator.RunCasesLoop | src/llm_generator.py:317-377 | the loop's seeds, counters and drop flag are `RunCases` |
| SeedSanitizer.LlmGenerator.ParseAndValidateResponse | src/llm_generator.py:307-387 | the seeds returned and the counters left are `ParseAndValidate` of what `json.loads` made of the stripped text |
| Json.Get | src/llm_generator.py:310 | `dict.get` finds a key exactly when some pair has it, and gives the value of the last pair with that key |
| Json.Keys | src/llm_mutator.py:104 | the dict's keys, each once, exactly those present, no more than the pairs |
| Json.FirstIndex | src/llm_mutator.py:104 | the position of a key's first pair: it holds the key and no earlier pair does |
| Json.KeysInFirstOccurrenceOrder | src/llm_mutator.py:104 | iteration over the dict visits the keys in the order of their first pairs |
| Json.FirstIndexOfPrefix | src/llm_mutator.py:104 | a key of a prefix of the pairs has its first pair at the same position in the whole list |
| Json.AsDictAgrees | src/mutation.py:224-225 | dict membership is `HasKey` and lookup is `Get` |
| Json.Len | src/llm_generator.py:313 | `len` is defined on strings, lists and dicts, and is zero exactly for falsy ones |
| Json.In | src/mutation.py:237 | `in` is key membership on dicts, element equality on lists and substring on strings, and raises otherwise |
| Numerals.Render | src/llm_generator.py:417-419 | rendered digits are non-empty and decimal in base 10 |
| Numerals.RenderValue | src/llm_generator.py:417-419 | reading rendered digits back gives the number |
| Numerals.ParseDecimal | src/llm_generator.py:419 | a successful parse of a non-empty text has the sign of its first character |
| Numerals.ParseDecimalOfIntText | src/llm_generator.py:419 | `int(str(i)) == i` |
| Numerals.ParseHexOfRender | src/llm_generator.py:416-417 | `int("0x" + hex, 16)` reads a rendered number back |
| Levenshtein.DistanceBounds | src/llm_mutator.py:71-73 | the distance lies between the length difference and the longer length |
| Levenshtein.DistanceZeroIffEqual | src/llm_mutator.py:71-73 | distance zero exactly for equal texts |
| Levenshtein.DistanceSymmetric | src/llm_mutator.py:105-128 | the distance does not depend on the argument order, so the two call orders in the validator agree |
| Levenshtein.DistanceOneEdit | src/llm_mutator.py:71-73 | one deletion, one insertion or one substitution is at distance at most one |
| Levenshtein.DistanceOneDeletion | src/llm_mutator.py:71-73 | deleting one character is at distance at most one |
| Levenshtein.DistanceOneSubstitution | src/llm_mutator.py:71-73 | replacing one character is at distance at most one |
| Levenshtein.DistanceAtMostEveryScript | src/llm_mutator.py:71-73 | no edit script that turns one text into the other costs less than `_calculate_edit_distance` |
| Levenshtein.CheapestScript | src/llm_mutator.py:71-73 | an edit script that turns one text into the other at exactly the distance |
| Levenshtein.DistanceIsCheapestScript | src/llm_mutator.py:71-73 | the distance is the least number of insertions, deletions and substitutions that turn one text into the other |
| Reconciler.ParamTexts | src/llm_mutator.py:36-38 | each input written as "type name" |
| Reconciler.StateEntries | src/llm_mutator.py:32-33 | only non-constant function entries are listed, in order |
| Reconciler.StateEntriesMembers | src/llm_mutator.py:32-33 | an entry is listed exactly when it is a state function of the ABI |
| Reconciler.FirstConstructor | src/llm_mutator.py:46-55 | the position of the first constructor entry, or none |
| Reconciler.StateFunctionLines | src/llm_mutator.py:28-57 | the listing numbers the state functions from 1 in ABI order, then the first constructor under the next number |
| Reconciler.CleanJsonString | src/llm_mutator.py:59-69 | the clean-up leaves no single quote and no white space at either end, and never lengthens the text |
| Reconciler.UnfencedFenced | src/llm_mutator.py:61-64 | the "```json" and "```" fences come off a fenced text |
| Reconciler.CleanFencedBody | src/llm_mutator.py:59-69 | a fenced, padded body without single quotes comes back as itself |
| Reconciler.StripPadded | src/llm_mutator.py:66 | `strip` removes exactly the padding around a body |
| Reconciler.FirstWithinSpec | src/llm_mutator.py:104-107 | the match is the first candidate within distance 2, or none when no candidate is |
| Reconciler.NonStringSplit | src/llm_mutator.py:123-128 | a list has a non-string exactly when its front or last element does |
| Reconciler.CheckParamsShape | src/llm_mutator.py:121-137 | every suggestion is accepted or reported; only real non-empty names are accepted; the check raises exactly when there are real parameters and some suggestion is not a string |
| Reconciler.CheckFunction | src/llm_mutator.py:103-140 | a function yields at most one strategy entry; without issues it is the function's name with real parameter names |
| Reconciler.CheckAllShape | src/llm_mutator.py:100-140 | without issues every ground-truth function has its entry in order, holding only its real parameter names |
| Reconciler.NeverIncomplete | src/llm_mutator.py:147-148 | the completeness check after the loop can never fail |
| Reconciler.AcceptedStrategyShape | src/llm_mutator.py:143-151 | an accepted strategy has exactly the ground-truth names as keys, in order, with real parameter names only |
| Reconciler.NoBracesNoObject | src/llm_mutator.py:84-87 | the "no JSON object" verdict holds exactly when the text lacks "{" or "}" |
| Reconciler.ExampleParameterRepaired | src/llm_mutator.py:127-135 | the misspelt parameter "amout" is stored as "amount" |
| Reconciler.ExampleSpellingRepaired | src/llm_mutator.py:103-140 | a misspelt function name and parameter are both mapped back to the contract's spelling |
| Reconciler.CheckParamsCrashIsFinal | src/llm_mutator.py:123-128 | once a comparison has raised, later suggestions change nothing |
| Reconciler.CheckAllCrashIsFinal | src/llm_mutator.py:100-140 | once a comparison has raised, later functions change nothing |
| Reconciler.ReminderFor | src/llm_mutator.py:218-220 | the reminder after an exception is never empty |
| Reconciler.StrategyStep | src/llm_mutator.py:159-220 | one attempt: a reply that parses ends the loop with its value; a failure or a decode error moves on with a reminder |
| Reconciler.StrategyComesFromAReply | src/llm_mutator.py:154-223 | the strategy is `{}` or `json.loads` of some reply within the attempts; the first attempt carries no reminder and every later one does |
| Reconciler.AllAttemptsFailGiveEmpty | src/llm_mutator.py:222-223 | when no reply parses, the strategy is `{}` |
| Reconciler.NoAttemptsGiveEmpty | src/llm_mutator.py:159-223 | with no attempts the model is never asked and the strategy is `{}` |
| Reconciler.LlmMutator.constructor | src/llm_mutator.py:13-18 | the listing is built from the ABI, the reminder history is empty and the bound is 2 |
| Reconciler.LlmMutator.ParamList | src/llm_mutator.py:35-38 | the inner loop gives `ParamTexts` |
| Reconciler.LlmMutator.FormatLine | src/llm_mutator.py:41 | one listing item is `Line` |
| Reconciler.LlmMutator.NumberStateFunctions | src/llm_mutator.py:28-43 | the first loop gives the numbered state functions |
| Reconciler.LlmMutator.NumberEntry | src/llm_mutator.py:33-43 | one entry: a state function gets its line under the counter, which moves on |
| Reconciler.LlmMutator.ConstructorLine | src/llm_mutator.py:46-55 | the second loop gives the first constructor's line or nothing |
| Reconciler.LlmMutator.ExtractStateFunctions | src/llm_mutator.py:23-57 | the listing is the lines joined by "," |
| Reconciler.LlmMutator.MatchFirst | src/llm_mutator.py:104-107 | the loop with `break` finds `FirstWithin` |
| Reconciler.LlmMutator.CheckParamList | src/llm_mutator.py:121-137 | the parameter loop computes `CheckParams` |
| Reconciler.LlmMutator.CheckOneFunction | src/llm_mutator.py:103-140 | one round of the ground-truth loop computes `CheckFunction` |
| Reconciler.LlmMutator.ReviewFunctions | src/llm_mutator.py:100-140 | the ground-truth loop computes `CheckAll` |
| Reconciler.LlmMutator.ValidateAndParseFeedback | src/llm_mutator.py:75-151 | the validator's verdict is `ValidateFeedback` |
| Reconciler.LlmMutator.GetMutationStrategy | src/llm_mutator.py:154-223 | the retry loop's result is `MutationStrategy` |
| GeneMutator.TransactionFieldsFrame | src/mutation.py:136-142 | only account, amount and gas limit can change, at most one of them, none appears or disappears, one draw per present field until one is replaced |
| GeneMutator.RefreshDrawn | src/mutation.py:145-162 | a block or balance field is present afterwards; a present value changes only on a draw at most `pm`; only a present value costs a draw |
| GeneMutator.RedrawnKeepsAddresses | src/mutation.py:165-167 | redrawing a map keeps its addresses in place and changes only values whose draw passes |
| GeneMutator.RefreshEntriesShape | src/mutation.py:164-192 | a map is present afterwards; an existing one keeps its addresses at one draw each; a new one holds at most one entry, under a truthy address |
| GeneMutator.Trace | src/mutation.py:136-192 | the intermediate states of `get_else_mutation_info`, each one more step applied |
| GeneMutator.BlockStagesFrame | src/mutation.py:144-162 | timestamp, block number and balance change alone and are all present afterwards |
| GeneMutator.MapStageFrame | src/mutation.py:164-192 | one map stage changes only that map |
| GeneMutator.ElseMutationFrame | src/mutation.py:114-192 | arguments and other keys never change; at most one transaction field does; block, balance and the three maps are present afterwards, existing maps with the same addresses in order, new ones with at most one entry |
| GeneMutator.PassUpToNext | src/mutation.py:99-106 | one more index of a baseline pass: redrawn when its draw passes and its type is known, kept otherwise |
| GeneMutator.PassUpToShape | src/mutation.py:99-106 | a pass keeps the selector and the length, and replaces only drawn indices |
| GeneMutator.PassesShape | src/mutation.py:97-106 | any number of passes keeps the selector and the length and does not go back in draws |
| GeneMutator.PassesCrashIsFinal | src/mutation.py:97-106 | once a pass has raised, further passes change nothing |
| GeneMutator.BaselineGeneShape | src/mutation.py:94-108 | a gene without arguments raises; otherwise the baseline keeps the gene's shape |
| GeneMutator.GuidedBound | src/mutation.py:228-232 | the guided loop stops at the end of the arguments or past the last parameter name |
| GeneMutator.GuidedUpToNext | src/mutation.py:228-248 | one more guided index: redrawn when the parameter is decided, its draw passes its threshold (0.8 if targeted, `pm` otherwise) and its type is known |
| GeneMutator.GuidedUpToShape | src/mutation.py:228-248 | the guided loop keeps the selector and the length and leaves later indices alone |
| GeneMutator.GuidedGeneSkips | src/mutation.py:211-225 | the guided treatment raises on a gene without arguments, an unhashable selector, or a known selector with a non-dict strategy; it leaves an unknown selector's gene unchanged with no draw |
| GeneMutator.GuidedGeneShape | src/mutation.py:210-251 | a successful guided treatment keeps the gene's shape and never touches an argument past the last parameter name |
| GeneMutator.Sweep | src/mutation.py:94-210 | a sweep over the genes keeps their number |
| GeneMutator.SweepStep | src/mutation.py:94-210 | one more gene extends the sweep by that gene's treatment |
| GeneMutator.SweepCrashIsFinal | src/mutation.py:94-210 | once a gene has raised, the genes after it change nothing |
| GeneMutator.BaselineAllShape | src/mutation.py:93-111 | the baseline path keeps the shape of every gene |
| GeneMutator.GuidedAllShape | src/mutation.py:198-254 | the guided path keeps every gene's shape and leaves genes with unknown selectors exactly as they were |
| GeneMutator.CacheAsksOncePerGeneration | src/mutation.py:60-81 | within one generation the model is asked at most once; without a context no strategy survives |
| GeneMutator.States | src/mutation.py:94 | the gene states, one per gene |
| GeneMutator.Gene.constructor | src/mutation.py:94 | a gene holds the given state |
| GeneMutator.Mutation.constructor | src/mutation.py:28-35 | the fields as `__init__` sets them |
| GeneMutator.Mutation.Create | src/mutation.py:25-26 | an operator exists exactly when 0 < pm <= 1 |
| GeneMutator.Mutation.BuildFunctionInfoMap | src/mutation.py:257-298 | the loop builds `TargetsBySelector` |
| GeneMutator.Mutation.RedrawEntries | src/mutation.py:165-167 | the address loop of an existing map is `RefreshEntries` |
| GeneMutator.Mutation.NewEntries | src/mutation.py:169-172 | a missing map is created as `RefreshEntries` says |
| GeneMutator.Mutation.GetElseMutationInfo | src/mutation.py:114-192 | the gene's new state and draw count are `ElseMutation` |
| GeneMutator.Mutation.BlockStep | src/mutation.py:145-162 | one block field is `ApplyStage` |
| GeneMutator.Mutation.MapStep | src/mutation.py:164-192 | one map is `ApplyStage` |
| GeneMutator.Mutation.TransactionStep | src/mutation.py:136-142 | the `if`/`elif` chain is `TransactionFields` |
| GeneMutator.Mutation.ArgumentPass | src/mutation.py:99-106 | one baseline pass succeeds exactly when `Pass` does and leaves its arguments; nothing else of the gene changes |
| GeneMutator.Mutation.PassIndex | src/mutation.py:100-106 | one index of a pass is `PassUpTo` one step further |
| GeneMutator.Mutation.RunArgumentPasses | src/mutation.py:97-106 | the passes loop is `Passes` |
| GeneMutator.Mutation.BaselineGeneStep | src/mutation.py:95-108 | one gene of the baseline loop is `BaselineGene` |
| GeneMutator.Mutation.GuidedArguments | src/mutation.py:228-248 | the guided argument loop is `GuidedPass`; nothing else of the gene changes |
| GeneMutator.Mutation.GuidedIndex | src/mutation.py:229-248 | one guided index is `GuidedUpTo` one step further |
| GeneMutator.Mutation.GuidedGeneStep | src/mutation.py:211-251 | one gene of the guided loop is `GuidedGene` |
| GeneMutator.Mutation.BaselineMutation | src/mutation.py:93-111 | the baseline loop leaves the genes as `BaselineAll` says |
| GeneMutator.Mutation.BaselineSweepStep | src/mutation.py:94-108 | gene `i` extends the baseline sweep, other genes untouched |
| GeneMutator.Mutation.LlmGuidedMutation | src/mutation.py:198-254 | the guided loop leaves the genes as `GuidedAll` says |
| GeneMutator.Mutation.GuidedSweepStep | src/mutation.py:210-251 | gene `i` extends the guided sweep, other genes untouched |
| GeneMutator.Mutation.InitializeLlmHelper | src/mutation.py:44-50 | the helper is built once, from the ABI, and kept afterwards |
| GeneMutator.Mutation.RefreshStrategy | src/mutation.py:60-81 | the cache becomes `NextCache` with the model's strategy |
| GeneMutator.Mutation.Mutate | src/mutation.py:54-111 | the cache is refreshed in LLM modes; the selector table is built once; then the guided or baseline path runs as `UsesGuidedPath` says |
| GeneMutator.Mutation.MutateGenes | src/mutation.py:89-111 | the dispatch between the guided and baseline loops |
| ContractPaths.KeptRows | scripts/data_process/copy_filtered_contracts.py:13-21 | the indices of the kept rows are row indices |
| ContractPaths.KeptPathsFollowKeptRows | scripts/data_process/copy_filtered_contracts.py:13-21 | one path per kept row, each the stripped first cell of its row |
| ContractPaths.KeptCounts | scripts/data_process/copy_filtered_contracts.py:13-21 | there are as many paths as kept rows |
| ContractPaths.KeptPathAt | scripts/data_process/copy_filtered_contracts.py:13-21 | the `k`-th path is the stripped first cell of the `k`-th kept row |
| ContractPaths.KeptRowsIncrease | scripts/data_process/copy_filtered_contracts.py:12-22 | the paths follow row order |
| ContractPaths.KeptRowsComplete | scripts/data_process/copy_filtered_contracts.py:13-21 | no kept row is missed |
| ContractPaths.AtMostOnePathPerRow | scripts/data_process/copy_filtered_contracts.py:12-22 | there are never more paths than rows |
| ContractPaths.PathsAreSolidityFiles | scripts/data_process/copy_filtered_contracts.py:19-21 | each path is non-empty, ends in ".sol" and has no white space at either end |
| ContractPaths.CollectContractPaths | scripts/data_process/copy_filtered_contracts.py:8-22 | the loop with its `continue` guards returns `KeptPaths` |
| ContractPaths.HeaderDropped | scripts/data_process/copy_filtered_contracts.py:17-18 | the header row is skipped |
| ContractPaths.CommentDropped | scripts/data_process/copy_filtered_contracts.py:17-18 | a "//" row is skipped though it names a ".sol" file |
| ContractPaths.IndentedCommentKept | scripts/data_process/copy_filtered_contracts.py:17-21 | the comment test reads the unstripped cell, so an indented "//" row is kept |
| ContractPaths.TrailingSpaceStripped | scripts/data_process/copy_filtered_contracts.py:19-21 | surrounding white space is stripped and further columns are ignored |
| FilterStatsAnalysis.ReasonTotalsAreSums | scripts/analyze_filter_stats.py:41-45 | `rejection_reasons` has exactly the reasons some record lists, each holding that reason's sum over all records |
| FilterStatsAnalysis.MergeReasons | scripts/analyze_filter_stats.py:43-45 | the inner loop adds a record's counts under their reasons |
| FilterStatsAnalysis.RejectionReasons | scripts/analyze_filter_stats.py:41-45 | the outer loop gives `ReasonTotals` |
| FilterStatsAnalysis.ReasonDistribution | scripts/analyze_filter_stats.py:51-58 | the distribution loop gives `Distribution`, raising at its first reason when nothing was generated |
| FilterStatsAnalysis.PerContractKeys | scripts/analyze_filter_stats.py:62-69 | `per_contract_stats` has an entry for exactly the contracts of the records, "unknown" standing for a missing one |
| FilterStatsAnalysis.PerContractSums | scripts/analyze_filter_stats.py:62-72 | each entry holds the totals of that contract's records |
| FilterStatsAnalysis.AddToEntry | scripts/analyze_filter_stats.py:70-72 | adding to one contract's entry adds the same to the sum over contracts |
| FilterStatsAnalysis.PerContractAddsUp | scripts/analyze_filter_stats.py:36-72 | summing the per-contract entries over the contracts gives the three global totals |
| FilterStatsAnalysis.ContractsAtMostRecords | scripts/analyze_filter_stats.py:76-80 | there are at most as many contracts as records |
| FilterStatsAnalysis.PerContractStats | scripts/analyze_filter_stats.py:61-72 | the loop gives `PerContract` |
| FilterStatsAnalysis.AnalyzeStats | scripts/analyze_filter_stats.py:30-92 | the step-by-step analysis is `AnalysisOf` |
| FilterStatsAnalysis.AnalysisCrashes | scripts/analyze_filter_stats.py:51-58 | the analysis raises exactly when records exist, something was rejected, nothing was generated and some record lists a reason |
| FilterStatsAnalysis.AnalysisSummary | scripts/analyze_filter_stats.py:32-92 | sessions = records = their number; contracts at most that; totals are the sums and what the entries add up to; filter rate 0 when nothing was generated; reasons as summed; the distribution repeats each count when something was rejected and is empty otherwise |
| UsageSummary.ContractKeys | scripts/summarize_llm_usage.py:19-25 | `stats` has an entry for exactly the contracts of the records, "unknown" standing for a missing one |
| UsageSummary.PhaseKeys | scripts/summarize_llm_usage.py:7-31 | every entry holds the "total", "init" and "mutation" buckets, plus a bucket for exactly the other phases its records name |
| UsageSummary.FreshIsEmpty | scripts/summarize_llm_usage.py:7-11 | a new contract's buckets are all zero |
| UsageSummary.RecordBucket | scripts/summarize_llm_usage.py:25-35 | one record adds its usage to its contract's "total" bucket and to its phase bucket |
| UsageSummary.BucketsAreSums | scripts/summarize_llm_usage.py:19-35 | the "total" bucket holds the usage of all the contract's records plus once more that of its "total"-phase records; every other bucket holds its phase's usage, with the defaults phase "init" and total = prompt + completion |
| UsageSummary.CallsCountRecords | scripts/summarize_llm_usage.py:28-35 | a bucket counts one call per record it adds up |
| UsageSummary.BumpPhaseCalls | scripts/summarize_llm_usage.py:30-35 | counting into a phase bucket adds one call to the phase buckets unless the phase is "total" |
| UsageSummary.PhaseCallsCount | scripts/summarize_llm_usage.py:25-35 | the phase buckets hold one call per record of the contract, less those whose phase is "total" |
| UsageSummary.TotalCalls | scripts/summarize_llm_usage.py:25-35 | `total.calls` is the record count plus the "total"-phase records, and it equals the phase buckets' sum exactly when no record names "total" as its phase |
| UsageSummary.SummarizeUsage | scripts/summarize_llm_usage.py:15-42 | the loop gives `Summarize`, and `num_contracts` is the number of contract keys |
| Sums.SumOverRemove | scripts/analyze_filter_stats.py:61-72 | a sum over dict keys does not depend on the order the keys are taken in |
| Sums.SumOverAgree | scripts/analyze_filter_stats.py:61-72 | functions that agree on the keys have the same sum |
| Sums.SumOverZero | scripts/summarize_llm_usage.py:7-11 | zero buckets sum to zero |
| Text.StripStart | src/llm_mutator.py:66 | `lstrip` removes exactly the leading white space |
| Text.StripEnd | src/llm_mutator.py:66 | `rstrip` removes exactly the trailing white space |
| Text.Strip | scripts/data_process/copy_filtered_contracts.py:19 | `strip` cuts only white space, and what is left neither starts nor ends with it |
| Text.Find | src/llm_mutator.py:84 | `find` gives the first position of the character, or -1 when it is absent |
| Text.RFind | src/llm_mutator.py:85 | `rfind` gives the last position of the character, or -1 |
| Text.ReplaceChar | src/llm_mutator.py:68 | `replace("'", '"')` changes exactly the single quotes |
| Text.AsciiLower | src/llm_generator.py:425 | `lower()` keeps the length, maps each ASCII capital to its small letter, and leaves every other character as it is |
| Text.LowerIsTrue | src/llm_generator.py:425 | `s.lower() == 'true'` holds exactly for four-character texts that spell "true" in any mix of cases |

## Left out

- The OpenAI client, prompt templates, dotenv and `generate_with_llm`
  (src/llm_generator.py:71-141, 249-302) are network calls. The model's reply
  arrives as an oracle, so the mode-dispatch condition at
  src/llm_generator.py:88 is not part of this model.
- `json.loads` is an oracle returning a value or a decode error. JSON text is
  not parsed.
- Keccak-256 is an uninterpreted parameter.
- `random.random()` is an oracle indexed by the draw count. No probabilistic
  claim is made.
- The generator's `get_random_*` producers are uninterpreted.
  `individual.decode()` and the `solution` it sets are left out.
- `export_token_usage`, `export_filter_stats`, `load_filter_stats`, the report
  text, the logger and the `print` calls are file, log and console output.
  This includes the message at src/mutation.py:241.
- The rounding of percentages and the token mean
  (`mean_total_tokens_per_contract`) are float formatting. Rates are exact
  reals, and the mean is left out.
- `contract_source`, `contract_relative_path` and `hero_info`'s texts are
  prompt material only. The hero context becomes the `ask` oracle's input.
- `copy_contracts` and the CSV reader are file I/O. Rows arrive already split
  into cells.
- The remaining scripts (variance, coverage and CSV merging) are not part of
  this model.
- SeedSanitizer.IntOf: Python `int()` also accepts surrounding white space,
  underscores and non-ASCII digits. The model accepts only an optional sign
  and ASCII digits, and treats anything else as `ValueError`.
- SeedSanitizer.IntOf: the interpreter's limit of 4300 digits for decimal
  text (CPython 3.11 and later, and its 2022 security releases) is not
  modelled. Longer text raises `ValueError` there, but here it is read. This
  touches `Coerce`, and it touches `IntOf` on amount, block number and
  timestamp, where the source then discards the batch.
- SeedSanitizer.Coerce: the base-16 path has the same gaps as `IntOf`.
  `int("0x1a ", 16)` and `int("0x_1a", 16)` are 26 in Python, but
  `ParseHexPrefixed` rejects both.
- SeedSanitizer.Coerce: the quoted start of the text is taken as its first
  199 characters. That is exact for a text that `repr` writes without
  escapes. A text with backslashes, control or other non-printable
  characters, or both kinds of quote, has a longer `repr`, so fewer of its
  characters reach the message than the model reads.
- Reconciler.CheckParamsShape: `Levenshtein.distance` is taken to be the
  str-only function of python-Levenshtein, which raises on anything but two
  strings. The newer `Levenshtein` package, built on rapidfuzz, also compares
  sequences of hashables. With it, a list-of-strings suggestion is compared
  at src/llm_mutator.py:127 instead of raising.
- Text.AsciiLower: lower-cases ASCII letters only. Non-ASCII case mapping is
  left out.
- SeedSanitizer.Truncate: NaN and infinite floats, which make `int()` raise,
  are not JSON values here.
- ABI entries with missing keys (`KeyError`) are not represented. Every entry
  has a type, a name, inputs and a constant flag.
- GeneMutator.Mutation.Mutate: genes are assumed pairwise distinct objects
  (`Distinct`). The same dict appearing twice in a chromosome is not
  modelled.
- GeneMutator.Mutation.Mutate: when an exception stops the operator, the model
  reports failure and does not describe the partly mutated genes. A gene's
  keys beyond the ones the operator reads are a count.
- FilterStatsAnalysis.AnalyzeStats: a record whose counter is present but not
  a number (Python `TypeError`) is not represented. Fields are integers or
  absent.
- UsageSummary.SummarizeUsage: `int()` on token fields given as text is not
  modelled. Token counts are integers or absent.
