# Local-to-global attribute mapper, modelled in Dafny

This project models the engine of a WooCommerce plugin. The engine moves a product's free-text ("local") attributes onto shared global attributes: `pa_`-prefixed taxonomies whose values are terms. For each local attribute the caller names a target taxonomy and one term per local value. The engine can preview the result (`dry_run`) or carry it out (`apply`). Carrying it out means:

- resolving or creating the global attribute and its terms;
- replacing the product's local attribute object with a taxonomy-backed one;
- assigning the terms to the product;
- moving every child variation's meta value from `attribute_<local>` to `attribute_pa_<taxonomy>`.

The model covers the services and the parts of the REST controller, the WP-CLI command and the admin wizard that carry logic.

## Modules

The modules follow the plugin's source files.

| module | file | models |
|---|---|---|
| `PhpCore` | php_core.dfy | `null`-able values (`Option`), the two kinds of `Throwable` the code tells apart (`RuntimeError` for a `\RuntimeException`, `FatalError` for any other `Error`), and results carrying one of them |
| `PhpString` | php_string.dfy | `trim`, ASCII `strtolower`, `explode`, `strpos`, `str_starts_with`, PHP's "empty" test (`""` and `"0"`) and integer-to-string conversion, over Dafny strings |
| `PhpArray` | php_array.dfy | PHP's ordered arrays as sequences of key/value pairs: lookup, assignment in place or at the end, `unset`, `array_merge`, `array_unique` (the first occurrence is kept), `array_pad` |
| `Sanitize` | sanitize.dfy | the test bootstrap's `sanitize_title`, `sanitize_key`, `sanitize_text_field`, `wc_clean` and `wc_get_text_attributes` |
| `ValueNormalizer` | value_normalizer.dfy | `Value_Normalizer::normalize`, with or without the intl extension |
| `Host` | host.dfy | the WordPress/WooCommerce state as one `HostState` value held by the `Store` object. It holds products, variations and their meta, attribute objects, registered taxonomies, global attributes, terms, term assignments, options and titles. Each foreign call the engine makes is a transition on that value |
| `TermResolver` | term_resolver.dfy | `Term_Service` and its per-instance term cache |
| `Mapping` | mapping.dfy | `Mapping_Service`: `dry_run`, `apply`, `replace_attribute`, `sanitize_taxonomy`, `normalize_local_value` |
| `VariationRemap` | variation_remap.dfy | `Variation_Service::update_variations`: its four strategies, the candidate searches, the counters, the reason histogram and the percentage |
| `Discovery` | discovery.dfy | `Discovery_Service` |
| `Rollback` | rollback.dfy | `Rollback_Service`: backups kept in post meta, and their restoration |
| `Templates` | templates.dfy | `Templates_Service` |
| `Logger` | logger.dfy | the `Logger` context stack and `prepare_context` |
| `Wizard` | wizard.dfy | the pure helpers of `assets/js/admin.js`: slugs, the `pa_` prefix, the Levenshtein similarity and its matrix loop, automatic term matching, building and serialising a mapping |
| `Cli` | cli.dfy | the argument handling of `wp local2global map` and `simulate`, and what `simulate` writes |
| `Rest` | rest.dfy | the request validation of `POST /map` and `POST /variations/update`, the choice between `apply` and `dry_run`, and the translation of exceptions into `WP_Error` codes |

## Conventions

- **Form.** Code that changes state in place is imperative Dafny:
  - the host `Store`, `TermService` (its term cache), `Logger` (its context stack) and the wizard's `WizardState` are classes whose methods carry `modifies` clauses;
  - loops are `while`/`for` loops with invariants.
  Each such method is proved against a pure function of the old state. The properties the source promises are lemmas about that function.
- **Failure.** A PHP throw is a `Result` that fails with a `Throwable`. A method that throws part-way leaves the store exactly as the code would have left it at that point. In particular, `apply` does not roll back attributes already replaced and terms already assigned.
- **Outside values.** Values that come from outside the plugin are parameters:
  - the correlation id (`uniqid`);
  - the backup id and timestamp (`wp_generate_uuid4`, `time`);
  - the products `WP_Query` finds;
  - the post ids `wp_insert_post` returns;
  - the intl extension's NFD decomposition and Unicode mark test;
  - `mb_strtolower`, the `\b` word match and the numeric tokens of the PCRE patterns in `infer_candidates`.
- **Integers and fractions.** Integers are unbounded. Fractions are exact: the similarity is a `real` and the percentage is an exact decimal rounding.

## Where the model follows the code

These points describe the code as it stands, not the behaviour its callers or the plugin's own tests expect.

- **Legacy attributes.** `replace_attribute` skips every legacy array entry (src/Services/Mapping_Service.php:171-173). The model skips them too, so when the only match is a legacy entry, `apply` throws the "local attribute not found" `RuntimeException`. The plugin's tests expect a legacy entry to be converted to a `pa_cor` attribute instead (tests/run-tests.php:186-202).
- **Attribute key.** `replace_attribute` stores the new attribute under the array key the local attribute had (src/Services/Mapping_Service.php:189), for example `cor`. The plugin's tests expect it under the taxonomy's key, `pa_cor` (tests/run-tests.php:175). `Mapping.ReplacedAttributesFirstMatch` states the key the code uses.
- **Constructor arguments.** `Mapping_Service` takes five constructor arguments. The plugin bootstrap passes three.
- **Extra arguments.** `apply` and `dry_run` take three parameters. Their callers pass a fourth, the correlation id, which PHP ignores for a user function. The model does not take it.
- **`update_variations_only`.** The REST controller and the CLI call `update_variations_only`, which `Mapping_Service` does not define. The model therefore makes those calls end in a fatal `Error`.
- **Errors from `apply`.** `apply` reports errors by throwing `RuntimeException`, not by returning `WP_Error`. The REST controller turns such an exception into `l2g_validation`/400.
- **`already_ok`.** The `already_ok` outcome of the direct-meta strategy keeps the old meta key.
- **Title/SKU inference.**
  - It writes the first candidate even when there are several.
  - It leaves the old key in place, so a child can end up with both keys. `VariationRemap.InferenceLeavesBothKeys` shows an example.
- **Slug-map keys.** The keys are built with `strtolower(trim())`, but lookups go through `Value_Normalizer::normalize`. An accented value therefore misses (`Mapping.AccentedValueMissesSlugMap`).
- **Undefined attribute methods.** `replace_attribute` calls `set_is_taxonomy` and `restore_backup` calls `set_props`. `WC_Product_Attribute` has neither method. These are the two entries under "## Findings". The rest of the model uses the evidently intended behaviour.

## Model

| member | source | states |
|---|---|---|
| PhpString.LowerIsLower | src/Utils/Value_Normalizer.php:9 | `strtolower` leaves no ASCII capital letter and changes nothing in a string that has none |
| PhpString.Lower | src/Services/Templates_Service.php:51 | `strtolower` keeps the length and lower-cases each character on its own, touching only `A`-`Z` |
| PhpString.Trim | src/Services/Templates_Service.php:51 | `trim` leaves neither end on a white-space character, keeps an already trimmed string and adds no character |
| PhpString.TrimDashes | tests/stubs/woocommerce.php:253 | `trim($s, '-')` leaves no dash at either end, keeps a string that has none there and adds no character |
| PhpString.TrimDashesAround | tests/stubs/woocommerce.php:253 | `trim($s, '-')` removes exactly the leading and trailing dashes: any run of dashes on either side of a value with no dash at either end is dropped and the value is returned whole |
| PhpString.Strpos | src/Services/Variation_Service.php:433 | `strpos` answers the first position where the pattern occurs, and `false` exactly when it occurs nowhere |
| PhpString.Explode | tests/stubs/woocommerce.php:282 | `explode` on one character gives at least one piece, and no piece holds the separator |
| PhpString.ExplodeImplode | tests/stubs/woocommerce.php:282 | splitting what `implode` joined, with a separator no piece contains, gives the pieces back |
| PhpString.SplitFirst | src/Cli/CLI_Command.php:76 | `array_pad(explode(':', $s, 2), 2, '')`: the head holds no separator; with a separator the string is head, separator, tail; without one the tail is `''` |
| PhpString.IntCastOfDigits | src/Rest/Rest_Controller.php:112 | `(int)` of a run of decimal digits is the number they spell |
| PhpArray.Find | src/Utils/Logger.php:52 | the position of a key is the first entry carrying it, and there is none exactly when no entry carries it |
| PhpArray.FirstWhere | src/Services/Templates_Service.php:24-35 | the first position whose element passes the test, or none exactly when no element passes |
| PhpArray.Get | src/Utils/Logger.php:52 | `$a[$k] ?? null` finds a value exactly when the key is present, and the value is one stored under that key |
| PhpArray.Put | src/Utils/Logger.php:56 | `$a[$k] = $v` makes `k` map to `v` and leaves every other key's value alone; an existing key keeps its place, a new one is appended, and keys stay distinct |
| PhpArray.Remove | src/Services/Rollback_Service.php:62 | `unset($a[$k])` removes the key, leaves every other key's value alone, keeps keys distinct and adds no entry |
| PhpArray.RenameEntry | src/Services/Variation_Service.php:284-286 | removing one key and setting another maps the new key to the value, leaves the removed key absent unless it is the new one, and keeps every other key |
| PhpArray.MergeTakesLater | src/Utils/Logger.php:52 | a key present in the second array of `array_merge` takes the second array's value |
| PhpArray.MergeKeepsOthers | src/Utils/Logger.php:52 | a key absent from the second array keeps the first array's value (or stays absent) |
| PhpArray.MergeLastWins | src/Utils/Logger.php:55 | when the second array repeats a key, the last entry carrying it decides the merged value |
| PhpArray.Unique | src/Services/Mapping_Service.php:115 | `array_unique` lists each element once, exactly the elements of the input, and never more of them |
| PhpArray.UniqueKeepsFirstSeenOrder | src/Services/Variation_Service.php:447 | `array_unique` keeps the elements in the order of their first occurrence |
| PhpArray.UniqueFirst | src/Services/Variation_Service.php:447 | `array_unique` keeps the first element first, so `$candidates[0]` is still the first raw candidate |
| Sanitize.ReplaceDisallowedRuns | tests/stubs/woocommerce.php:252 | the replacement leaves only `[a-z0-9_-]` and changes nothing in a string already made of them |
| Sanitize.ReplaceDisallowedRunsKeepsPrefix | tests/stubs/woocommerce.php:252 | characters of `[a-z0-9_-]` in front of the string are kept as they are, and the replacement goes on with the rest |
| Sanitize.ReplaceDisallowedRunsOfRun | tests/stubs/woocommerce.php:252 | a maximal run of characters outside `[a-z0-9_-]` at the front becomes exactly one `-`, and the replacement goes on with the rest |
| Sanitize.ReplaceDisallowedRunsSplit | tests/stubs/woocommerce.php:252 | for every string cut as clean part, maximal run of other characters, rest: the result is the clean part, one `-`, and the replacement of the rest |
| Sanitize.SanitizeTitleShape | tests/stubs/woocommerce.php:250-254 | a sanitized title holds only `[a-z0-9_-]` and begins and ends with no dash |
| Sanitize.SanitizeTitleIdempotent | tests/stubs/woocommerce.php:250-254 | sanitizing a sanitized title changes nothing |
| Sanitize.SanitizeTitleOfWords | tests/stubs/woocommerce.php:250-254 | two lower-case words of `[a-z0-9_]` around a run of spaces or punctuation become the words joined by one `-`, as `Cor Azul` becomes `cor-azul` once lowered |
| Sanitize.Filter | tests/stubs/woocommerce.php:258 | deleting characters keeps only characters that pass, keeps a string whose every character passes, and never lengthens |
| Sanitize.FilterAppend | tests/stubs/woocommerce.php:258 | the deletion works on each part of a concatenation separately |
| Sanitize.SanitizeKey | tests/stubs/woocommerce.php:256-259 | a sanitized key holds only `[a-z0-9_]` |
| Sanitize.SanitizeKeyIdempotent | tests/stubs/woocommerce.php:256-259 | sanitizing a sanitized key changes nothing |
| Sanitize.SanitizeKeyOfKeyChars | tests/stubs/woocommerce.php:256-259 | a key already made of `[a-z0-9_]` is returned unchanged |
| Sanitize.SanitizeTextField | tests/stubs/woocommerce.php:261-263 | the result has no character below U+0020, only characters of the input, and no white space at either end |
| Sanitize.WcClean | tests/stubs/woocommerce.php:269-275 | a cleaned string has no white space at either end, and an already trimmed one is unchanged |
| Sanitize.TrimAll | tests/stubs/woocommerce.php:282 | `array_map('trim', ...)` trims each part in place |
| Sanitize.NonEmptyParts | tests/stubs/woocommerce.php:283 | the filter keeps only non-empty parts of the input, keeps a list with no empty part whole, drops a lone `''` and keeps a lone non-empty part |
| Sanitize.NonEmptyPartsAppend | tests/stubs/woocommerce.php:283 | filtering a concatenation filters each part separately, so every non-empty part is kept, in order |
| Sanitize.WcGetTextAttributes | tests/stubs/woocommerce.php:277-284 | `''` gives no value; every value is non-empty, trimmed and free of `\|` |
| Sanitize.WcGetTextAttributesOfPieces | tests/stubs/woocommerce.php:277-284 | for any pieces joined by `\|`, the values are the pieces trimmed, with the empty ones dropped and the order kept; so `a\|\|b` gives `a`, `b` |
| Sanitize.TextAttributesRoundTrip | tests/stubs/woocommerce.php:277-284 | splitting values joined with `' \| '` gives the values back when each is non-empty, trimmed and free of `\|` |
| ValueNormalizer.FallbackChar | src/Utils/Value_Normalizer.php:14 | the table maps each of its thirteen accented letters to a letter outside the table and leaves everything else, ASCII included, unchanged |
| ValueNormalizer.Strtr | src/Utils/Value_Normalizer.php:15 | `strtr` with one-character keys replaces each character independently, keeping the length |
| ValueNormalizer.StripMarks | src/Utils/Value_Normalizer.php:12 | no combining mark survives |
| ValueNormalizer.Normalize | src/Utils/Value_Normalizer.php:8-17 | with or without the intl extension, no character of the accent table is left in the key |
| ValueNormalizer.NormalizeAscii | src/Utils/Value_Normalizer.php:9-15 | on ASCII input the key is `strtolower(trim($value))`, with or without intl |
| ValueNormalizer.NormalizeAzul | tests/run-tests.php:219-234 | `normalize("Azul")` is `"azul"`, the key the seeded variation test maps |
| ValueNormalizer.NormalizeIdempotentWithoutIntl | src/Utils/Value_Normalizer.php:9-16 | without intl, normalising a key again changes nothing |
| ValueNormalizer.NormalizeNotIdempotentWithIntl | src/Utils/Value_Normalizer.php:9-12 | with intl, `strtolower` runs before decomposition, so `"É"` becomes `"E"` and normalising again gives `"e"`: the key is not idempotent |
| Host.UpdateMeta | tests/stubs/woocommerce.php:155-157 | `get_meta` then reads the new value under the key, and every other non-empty key reads as before |
| Host.DeleteMeta | tests/stubs/woocommerce.php:159-161 | the key then reads as `''`, and every other non-empty key reads as before |
| Host.FindTerm | src/Services/Term_Service.php:117-130 | `get_term` (by id) and `get_term_by('slug', …)`: a found term is in the store and has the id, or the slug, and the taxonomy asked for; `None` means no term in the store has both |
| Host.RegisterAttributeTaxonomies | src/Services/Term_Service.php:77 | afterwards every global attribute's `pa_` taxonomy is registered |
| Host.VariationAttributeMeta | tests/stubs/woocommerce.php:413-436 | nothing for an id that is not a variation; otherwise exactly the meta entries whose key starts with `attribute_`, with their values |
| Host.Store.constructor | tests/stubs/woocommerce.php:401-405 | the store starts from the state given |
| Host.Store.UpdateMetaData | tests/stubs/woocommerce.php:155-157 | only that product's meta changes, as `UpdateMeta` says |
| Host.Store.DeleteMetaData | tests/stubs/woocommerce.php:159-161 | only that product's meta changes, as `DeleteMeta` says |
| Host.Store.UpsertMeta | src/Services/Variation_Service.php:623-678 | the forced save: afterwards the key holds the value, and nothing else changes |
| Host.Store.SetAttributes | tests/stubs/woocommerce.php:87-89 | only that product's attributes change |
| Host.Store.Save | tests/stubs/woocommerce.php:99-101 | only that product's `saved` flag changes, to true |
| Host.Store.SetObjectTerms | tests/stubs/woocommerce.php:296-305 | the call is appended to the recorded assignments, and nothing else changes |
| Host.Store.InsertTermCall | src/Services/Term_Service.php:145 | the result and new state are those of `InsertTerm` |
| Host.Store.CreateAttributeCall | src/Services/Term_Service.php:59-67 | the result and new state are those of `CreateAttribute` |
| Host.Store.RegisterAttributeTaxonomiesCall | src/Services/Term_Service.php:77 | the new state is `RegisterAttributeTaxonomies` |
| Host.Store.RegisterTaxonomy | src/Services/Term_Service.php:82-90 | the taxonomy is added to the registered ones, and nothing else changes |
| Host.Store.UpdateBackups | src/Services/Rollback_Service.php:32 | only that product's backups meta changes |
| Host.Store.UpdateTemplates | src/Services/Templates_Service.php:40 | only the templates option changes |
| Host.Store.Sync | tests/stubs/woocommerce.php:136-138 | the product id is appended to the synced list, and nothing else changes |
| TermResolver.GlobalTaxonomyName | src/Services/Term_Service.php:44-47 | the taxonomy worked on always starts with `pa_` and holds only `sanitize_key` characters |
| TermResolver.GlobalTaxonomyNameIdempotent | src/Services/Term_Service.php:44-47 | passing a resulting taxonomy back in returns it unchanged, so a `pa_` key is never prefixed twice |
| TermResolver.EmptyTermSlugIsKept | src/Services/Term_Service.php:112 | `??` falls through only on null, so an explicit empty `term_slug` asks for the empty slug; it does not fall back to the name or value |
| TermResolver.ResolveOne | src/Services/Term_Service.php:110-169 | one term goes cache, then id, then slug, then insert: a found term is reused uncreated and the store is untouched; a missing term with neither `create` nor `allow_creation` throws `Termo "…" não existe na taxonomia …` and changes nothing; the result is marked created exactly when nothing was found, creation was permitted and the insert succeeded; a successful result is cached under its own slug |
| TermResolver.ResolveStopsAtFailure | src/Services/Term_Service.php:110-172 | the first exception ends the loop, and later configs change nothing |
| TermResolver.ResolveOnePerConfig | src/Services/Term_Service.php:110-172 | a completed run returns one result per config, in order, each with its config's `local_value`; a failed run returns fewer |
| TermResolver.ResolveCreatesOnlyWhenAllowed | src/Services/Term_Service.php:138-142 | a result is marked created only when its config's `create` flag or `allow_creation` allowed it |
| TermResolver.ResolveInsertsOnlyCreated | src/Services/Term_Service.php:145-155 | the store changes only by terms appended at the end, exactly one per created result, and keeps every earlier term |
| TermResolver.ResolveCreatedInCache | src/Services/Term_Service.php:110-172 | every result marked created carries its own config's requested slug, and that slug stays cached for the rest of the run; the cache only grows |
| TermResolver.CreatedOnlyWhenUncached | src/Services/Term_Service.php:113-138 | an iteration creates a term only when its requested slug is not cached yet |
| TermResolver.ResolveCreatesEachSlugOnce | src/Services/Term_Service.php:110-172 | within one run, two configs that ask for the same slug are never both created: the cache turns the later one into a reuse |
| TermResolver.LookupMonotone | src/Services/Term_Service.php:113-136 | lookups only add cache entries and terms, so a lookup that succeeded keeps succeeding |
| TermResolver.ResolveOneMakesResolvable | src/Services/Term_Service.php:159 | after a successful iteration, its config is found without inserting |
| TermResolver.ResolveMakesAllResolvable | src/Services/Term_Service.php:110-170 | after a completed run, every config of the run is found without inserting |
| TermResolver.ResolveResolvableCreatesNothing | src/Services/Term_Service.php:113-136 | when every config is found, the run neither fails nor inserts, and no result is marked created |
| TermResolver.RepeatedResolveCreatesNothing | src/Services/Term_Service.php:110-170 | repeating the same request after a successful run, with or without creation allowed, creates nothing and leaves the store as it was |
| TermResolver.GlobalAttributeEffect | src/Services/Term_Service.php:43-96 | a returned taxonomy is the `pa_` key, registered afterwards and backed by the returned attribute id; an existing attribute is reused; a missing one without creation throws `Atributo global … não existe.` and changes nothing; a creation `WP_Error` is rethrown with its message and changes nothing; only taxonomies, attributes and the id counter change |
| TermResolver.GlobalAttributeFrame | src/Services/Term_Service.php:43-96 | only taxonomies, global attributes and the id counter change |
| TermResolver.GlobalAttributeRegistered | src/Services/Term_Service.php:73-95 | a returned taxonomy is registered and backed by the attribute whose id is returned |
| TermResolver.GlobalAttributeCases | src/Services/Term_Service.php:51-79 | an existing attribute is reused unchanged; a missing one fails without creation, or when creation fails |
| TermResolver.TermsResultEffect | src/Services/Term_Service.php:102-173 | an unregistered taxonomy throws `Taxonomia … não registrada.` before any lookup and changes nothing; otherwise the call returns one result per config, in order, and changes only the store's terms and id counter |
| TermResolver.TermService.constructor | src/Services/Term_Service.php:36-38 | a new resolver starts with an empty term cache |
| TermResolver.TermService.EnsureGlobalAttribute | src/Services/Term_Service.php:43-96 | the returned value and the new store are those of `GlobalAttributeResult` |
| TermResolver.TermService.CachedTerm | src/Services/Term_Service.php:175-180 | a term is returned exactly when the (taxonomy, slug) pair is cached, and it is the cached entry |
| TermResolver.TermService.SetCachedTerm | src/Services/Term_Service.php:182-184 | only the (taxonomy, slug) entry changes |
| TermResolver.TermService.EnsureTerms | src/Services/Term_Service.php:102-173 | the results, the new cache and the new store are those of `TermsResult` |
| Mapping.SanitizeTaxonomyShape | src/Services/Mapping_Service.php:205-216 | `sanitize_taxonomy` is empty exactly when `sanitize_key` empties its input, can never be `"0"`, and otherwise is the taxonomy `ensure_global_attribute` settles on |
| Mapping.SanitizeTaxonomyIdempotent | src/Services/Mapping_Service.php:205-216 | sanitising a sanitised taxonomy changes nothing |
| Mapping.NormalizeLocalValueAscii | src/Services/Mapping_Service.php:201-203 | on ASCII values the slug-map key (`strtolower(trim(wc_clean()))`) equals `Value_Normalizer::normalize`, the key the variation lookups use |
| Mapping.AccentedValueMissesSlugMap | src/Services/Mapping_Service.php:121-122 | on an accented value the two keys differ: `"café"` is stored under `"café"`, looked up as `"cafe"` and not found |
| Mapping.PlanTermsCounts | src/Services/Mapping_Service.php:53-65 | each term lands in exactly one of `create`, `existing` and the errors |
| Mapping.PlanTermsWithoutAttribute | src/Services/Mapping_Service.php:56-61 | when the target attribute does not exist, every term is planned for creation under its requested slug, in order, and none is existing or an error |
| Mapping.PlanTermsAutoCreate | src/Services/Mapping_Service.php:60 | with `auto_create_terms` no term is reported as an error |
| Mapping.ExistingVerdict | src/Services/Mapping_Service.php:56-59 | when the attribute exists and `term_exists` finds the slug, the term is reported existing |
| Mapping.PlanTermsExisting | src/Services/Mapping_Service.php:53-65 | when every slug exists in the existing attribute, every term is reported existing, in order, and none is planned for creation |
| Mapping.HeadErrors | src/Services/Mapping_Service.php:40-51 | "Taxonomia alvo não informada." appears exactly when the target is empty in PHP's sense; "Atributo global … não existe …" appears exactly when the attribute is missing and creation is off; at most two errors |
| Mapping.Plans | src/Services/Mapping_Service.php:33-77 | one report entry per mapping, in order |
| Mapping.AllErrorsContains | src/Services/Mapping_Service.php:76 | every error of an entry is in the report's errors |
| Mapping.ReportAppend | src/Services/Mapping_Service.php:67-76 | one more mapping appends its entry and then its errors to the report |
| Mapping.MissingAttributeIsReported | src/Services/Mapping_Service.php:44-51 | an unregistered target with creation off is reported as an error of its entry and of the whole report |
| Mapping.ClassifyTerms | src/Services/Mapping_Service.php:53-65 | the loop's `create`, `existing` and errors are those of `PlanTerms` |
| Mapping.PlanOne | src/Services/Mapping_Service.php:34-74 | the entry is `PlanAttribute` |
| Mapping.DryRun | src/Services/Mapping_Service.php:21-80 | an unknown product throws "Produto inválido."; otherwise the report is `DryRunResult`, and the method has no write access to the store |
| Mapping.TermOptions | src/Services/Mapping_Service.php:183 | the options are the term ids, in order, one per id |
| Mapping.ReplacedAttributesNone | src/Services/Mapping_Service.php:166-199 | `replace_attribute` returns `false` exactly when no attribute object's `sanitize_title`'d name equals the local name's |
| Mapping.ReplacedAttributesFirstMatch | src/Services/Mapping_Service.php:170-192 | only the first match is rewritten, at its own key: it gets the id, the taxonomy as name and the term ids, keeps visibility, variation flag and position, and is a taxonomy attribute when the name starts with `pa_` and the id is positive; every other entry is unchanged |
| Mapping.ReplacedAttributesKeepsLegacy | src/Services/Mapping_Service.php:171-173 | a legacy array entry is never rewritten |
| Mapping.AsWrittenFailsOnEveryMatch | src/Services/Mapping_Service.php:180-191 | as written, the method fails exactly when the intended version would replace an attribute, and otherwise agrees with it |
| Mapping.AsWrittenCannotConvertCor | src/Services/Mapping_Service.php:187 | the local attribute `Cor` cannot be converted as written; the intended version turns it into `pa_cor` with the term ids as options |
| Mapping.ReplaceAttribute | src/Services/Mapping_Service.php:166-199 | returns whether `ReplacedAttributes` found a match; writes the array back only then, and changes nothing else |
| Mapping.ResultIds | src/Services/Mapping_Service.php:115 | one id per result, in order |
| Mapping.TermIdsOfShape | src/Services/Mapping_Service.php:115 | `$term_ids` holds each resolved id exactly once, in order of first appearance |
| Mapping.SlugPairs | src/Services/Mapping_Service.php:120-122 | the slug-map writes, one per result, in order |
| Mapping.SlugMapOfLookup | src/Services/Mapping_Service.php:120-122 | a normalised value maps to the slug of the last result carrying it |
| Mapping.SlugMapOfKeys | src/Services/Mapping_Service.php:120-122 | the slug map's keys are exactly the normalised local values |
| Mapping.ResultSlugs | src/Services/Mapping_Service.php:120-128 | one slug per result, in order |
| Mapping.SlugPartition | src/Services/Mapping_Service.php:123-127 | `$created` and `$existing` split the result slugs by the `created` flag, with nothing lost or added (as multisets) |
| Mapping.SlugPartitionMembers | src/Services/Mapping_Service.php:123-127 | a created result's slug is listed as created, and a found one's as existing |
| Mapping.TemplatePairs | src/Services/Mapping_Service.php:145-148 | one (local value, slug) pair per result, in order |
| Mapping.TemplateTermsLookup | src/Services/Mapping_Service.php:145-148 | the saved template maps each local value to the slug of its last result |
| Mapping.CollectTermResults | src/Services/Mapping_Service.php:116-128 | the loop's slug map, created list and existing list are `SlugMapOf`, `CreatedSlugs` and `ExistingSlugs` |
| Mapping.Finished | src/Services/Mapping_Service.php:137-154 | ending a mapping touches only product attributes and meta (plus templates), and leaves the resolver cache as it was |
| Mapping.MapStep | src/Services/Mapping_Service.php:101-155 | one iteration never adds or removes products |
| Mapping.ApplyFrom | src/Services/Mapping_Service.php:101-155 | the loop never adds or removes products |
| Mapping.SanitizedIsGlobal | src/Services/Mapping_Service.php:102-112 | a non-empty sanitised target is the taxonomy `ensure_global_attribute` returns |
| Mapping.RecordedEffect | src/Services/Mapping_Service.php:139-154 | `$results` after a mapping hold its created and existing slugs and variation report under its taxonomy, keep every other taxonomy's entries, and append the taxonomy to `updated_attrs` |
| Mapping.FinishedFrame | src/Services/Mapping_Service.php:137-150 | the variation update and template save change no `saved` flag and make no term assignment; a completed one appends the taxonomy to `updated_attrs` |
| Mapping.AfterTermsFrame | src/Services/Mapping_Service.php:115-154 | after its terms are resolved, a mapping either misses its local attribute (throws, changes nothing) or assigns its term ids to the product exactly once; no `saved` flag changes |
| Mapping.AssignedFrame | src/Services/Mapping_Service.php:130-135 | the attribute swap and the term assignment save nothing and add one assignment |
| Mapping.MapStepFrame | src/Services/Mapping_Service.php:101-155 | one iteration never saves the product and assigns terms at most once, to the product, on the sanitised target taxonomy; a completed one assigns exactly once and appends that taxonomy to `updated_attrs` |
| Mapping.MapStepIncomplete | src/Services/Mapping_Service.php:108-110 | an empty sanitised `target_tax` or an empty `local_attr` throws "Mapeamento incompleto." before any resolver call and changes nothing |
| Mapping.ApplyFromEffect | src/Services/Mapping_Service.php:101-155 | the loop never saves a product; earlier mappings' assignments stay made, in order; a completed loop has assigned once per mapping and lists each sanitised taxonomy in `updated_attrs`, in order |
| Mapping.ApplyFromSaved | src/Services/Mapping_Service.php:101-155 | the loop changes no product's `saved` flag |
| Mapping.ApplyFromAssigns | src/Services/Mapping_Service.php:101-155 | the loop's assignments follow the store's, one per mapping of a prefix, in order; a completed loop makes one per mapping |
| Mapping.ApplyFromUpdated | src/Services/Mapping_Service.php:154 | a completed loop lists each mapping's sanitised taxonomy in `updated_attrs`, in order |
| Mapping.ApplyInvalidProduct | src/Services/Mapping_Service.php:83-86 | an unknown product throws "Produto inválido." and changes nothing |
| Mapping.BackupFrame | src/Services/Mapping_Service.php:90-92 | the backup touches only the stored backups |
| Mapping.ApplyResultKeepsProducts | src/Services/Mapping_Service.php:82-164 | however `apply` ends, the set of products is the same |
| Mapping.ApplyResultAssignsInOrder | src/Services/Mapping_Service.php:101-155 | however `apply` ends, its term assignments come after the store's, one per mapping of a prefix, in order |
| Mapping.ApplyResultThrowUnsaved | src/Services/Mapping_Service.php:101-157 | an `apply` that throws leaves the product's `saved` flag as it was, because `save()` runs only after the loop |
| Mapping.ApplyResultSuccess | src/Services/Mapping_Service.php:101-163 | a completed `apply` has saved the product, made one term assignment per mapping and returns each sanitised taxonomy in `updated_attrs`, in order |
| Mapping.ApplyLegacyBackupFails | src/Services/Mapping_Service.php:90-92 | with `create_backup`, a legacy array attribute makes the backup raise its `TypeError` before any mapping runs, and nothing changes |
| Mapping.ApplyFromStopsAtFailure | src/Services/Mapping_Service.php:101-155 | after the first exception, later mappings change nothing |
| Mapping.FinishMapping | src/Services/Mapping_Service.php:137-154 | the outcome and new store are those of `Finished` |
| Mapping.ResolvedMapping | src/Services/Mapping_Service.php:115-154 | the outcome and new store are those of `AfterTerms` |
| Mapping.ApplyOne | src/Services/Mapping_Service.php:102-154 | the outcome, cache and store are those of `MapStep` |
| Mapping.ApplyMappings | src/Services/Mapping_Service.php:101-155 | the outcome, cache and store are those of `ApplyFrom` |
| Mapping.Apply | src/Services/Mapping_Service.php:82-164 | the result, cache and store are those of `ApplyResult` |
| VariationRemap.LocalKey | src/Services/Variation_Service.php:33 | the local meta key starts with `attribute_` and is never empty |
| VariationRemap.TargetKey | src/Services/Variation_Service.php:34 | the target meta key starts with `attribute_` and is never empty |
| VariationRemap.DirectMetaStatusCases | src/Services/Variation_Service.php:181-232 | strategy 1, both directions of each case: `missing_source_meta` exactly when both meta values are empty; `no_slug_match` exactly when the local value has no slug-map entry; `already_ok` exactly when only the target is set, or the target already equals the mapped slug; `updated`, with the mapped slug, otherwise |
| VariationRemap.MovedMetaEffect | src/Services/Variation_Service.php:212-228 | after the move the target key holds the slug, a distinct local key reads empty, and every other key is unchanged |
| VariationRemap.MoveMeta | src/Services/Variation_Service.php:212-228 | the store is the old one with that variation's meta moved |
| VariationRemap.DirectMetaEffect | src/Services/Variation_Service.php:181-232 | on success the target holds the mapped slug, a distinct local key reads empty and all else is kept; `already_ok` (even with a local value still present) and the failures leave the meta untouched |
| VariationRemap.TryDirectMetaUpdate | src/Services/Variation_Service.php:172-233 | the status is `DirectMetaStatus` of the old meta, and only that variation's meta changes, as `DirectMetaResult` says |
| VariationRemap.FirstLocalAttribute | src/Services/Variation_Service.php:250-256 | finds the first entry whose `sanitize_title`'d key is the local slug and whose value is not `''`, with none before it; `None` exactly when there is no such entry |
| VariationRemap.AttributesUpdateFailure | src/Services/Variation_Service.php:244-312 | strategy 2 reports `updated`, `missing_source_meta`, `no_slug_match` or an error, and changes the variation only when it updates |
| VariationRemap.AttributesUpdateWrites | src/Services/Variation_Service.php:280-300 | a successful strategy 2 removes the local entry, adds the taxonomy entry with the slug, and moves the meta |
| VariationRemap.AttributesUpdateEffect | src/Services/Variation_Service.php:284-296 | on success the taxonomy entry holds the slug, the local entry is gone, and every other attribute is kept |
| VariationRemap.AttributesUpdateMetaEffect | src/Services/Variation_Service.php:289-300 | on success the target meta holds the slug, the local meta reads empty, and every other key is kept |
| VariationRemap.AttributesUpdateOrigin | src/Services/Variation_Service.php:250-281 | the written slug is the mapping of a usable entry's value, and that entry's key sanitises to the local slug |
| VariationRemap.RewriteAttributes | src/Services/Variation_Service.php:289-300 | only that variation's attributes and meta change, to the given values |
| VariationRemap.TryVariationAttributesUpdate | src/Services/Variation_Service.php:244-312 | the status and the variation afterwards are those of `AttributesUpdate` |
| VariationRemap.PregQuote | src/Services/Variation_Service.php:426 | quoting never shortens a string, and leaves a string without special characters unchanged |
| VariationRemap.AllTextMeans | src/Services/Variation_Service.php:411-412 | `AllText` holds exactly when no option is a term id |
| VariationRemap.OptionCandidate | src/Services/Variation_Service.php:412-443 | an option yields a slug only when its normalised value is a slug-map key, and then it yields that key's value |
| VariationRemap.RawCandidatesMembers | src/Services/Variation_Service.php:411-444 | a slug is a raw candidate exactly when some text option yields it: every matching option adds its slug, and nothing else is added |
| VariationRemap.RawCandidatesInValues | src/Services/Variation_Service.php:415-419 | every raw candidate is a value of the slug map |
| VariationRemap.RawCandidatesSingle | src/Services/Variation_Service.php:429-441 | one text option contributes its own candidate, when it has one, and nothing otherwise |
| VariationRemap.RawCandidatesAppend | src/Services/Variation_Service.php:411-444 | the raw candidates of two option lists in turn are those of the first list followed by those of the second: candidates follow the order of the options |
| VariationRemap.RawCandidatesFirst | src/Services/Variation_Service.php:411-444 | the first raw candidate is the slug of the first option that yields one; the options before it yield none |
| VariationRemap.FirstAttributeCandidate | src/Services/Variation_Service.php:407-447 | `candidates[0]`, the slug strategy 3 writes, is the slug of the first parent option that yields a candidate |
| VariationRemap.RawCandidates | src/Services/Variation_Service.php:411-444 | the call succeeds exactly when every option is text (`AllText`); a term-id option throws the strict-typing `TypeError` of `normalize` |
| VariationRemap.FindAttributeCandidates | src/Services/Variation_Service.php:407-448 | succeeds exactly when every option is text; a slug is a candidate exactly when some option yields it, so every matching option contributes; candidates are distinct slug-map values, listed in the order of their first occurrence among the raw candidates |
| VariationRemap.ParentVariationAttribute | src/Services/Variation_Service.php:338-346 | a found attribute is the first object named exactly the local name and used for variations; a non-object met before it raises the `get_name()` `Error` |
| VariationRemap.InferenceUpdateEffect | src/Services/Variation_Service.php:324-396 | strategy 3 reports `updated`, `missing_source_meta`, `no_slug_match` or an error; `missing_source_meta` exactly when the parent has no variation attribute of that name or it has no options; otherwise, with `FindAttributeCandidates` on the variation's title and `_sku`, its error is rethrown, no candidate gives `no_slug_match`, and otherwise `candidates[0]` is written under the target key, the only key that changes |
| VariationRemap.WriteTargetMeta | src/Services/Variation_Service.php:376-379 | only the target key of that variation changes |
| VariationRemap.TryInferenceUpdate | src/Services/Variation_Service.php:324-396 | the status and the new meta are those of `InferenceUpdate` |
| VariationRemap.NativeStatus | src/Services/Variation_Service.php:459-522 | strategy 4 never reports `already_ok` |
| VariationRemap.NativeRepeatsDirectMeta | src/Services/Variation_Service.php:467-495 | strategy 4 reads the same meta entry as strategy 1, so after strategy 1 fails it fails the same way |
| VariationRemap.TryWcNativeUpdate | src/Services/Variation_Service.php:459-522 | the status is `NativeStatus` and the meta changes as in strategy 1 |
| VariationRemap.ChainFrame | src/Services/Variation_Service.php:54-121 | the chain changes only the variation's attributes and meta, and nothing unless some strategy updated |
| VariationRemap.RemapChildFrame | src/Services/Variation_Service.php:39-137 | one child changes only its own attributes and meta, and changes nothing unless some strategy updated it |
| VariationRemap.ChainOutcome | src/Services/Variation_Service.php:54-121 | strategy 1 decides `updated by 1` and `already_ok` both ways; strategies 2, 3 and 4 each win exactly when every earlier one passed without updating; a skip is `missing_source_meta` exactly when strategy 1 said so and 2 to 4 did not update, and `no_slug_match` for every other strategy-1 status |
| VariationRemap.RemapChildOutcome | src/Services/Variation_Service.php:39-121 | `not a variation` exactly for ids that do not load as variations; updated by strategy 1, or skipped as `already_ok`, exactly when strategy 1 says so; an updating strategy is numbered 1 to 4; the skip reason is `missing_source_meta` exactly when strategy 1 reported it and strategies 2 to 4 passed without updating, and `no_slug_match` exactly when strategy 1 reported `no_slug_match` and 2 to 4 passed |
| VariationRemap.NativeNeverUpdates | src/Services/Variation_Service.php:101-113 | strategy 4 never updates a variation |
| VariationRemap.InferenceLeavesBothKeys | src/Services/Variation_Service.php:87-98 | a variation updated by inference keeps its old local key, still non-empty, next to the new target key, which holds a slug-map value |
| VariationRemap.ChainByInference | src/Services/Variation_Service.php:87-98 | when inference wins, strategy 3 updated, and the state is its meta |
| VariationRemap.CountStep | src/Services/Variation_Service.php:57-121 | counting one outcome keeps the reasons balanced and counts each variation once |
| VariationRemap.FallbackStep | src/Services/Variation_Service.php:76-106 | excluding strategy 4, `fallback_updated` grows exactly for strategies 2 and 3 |
| VariationRemap.RemapChildren | src/Services/Variation_Service.php:39-137 | the loop changes only product attributes and meta |
| VariationRemap.RemapLast | src/Services/Variation_Service.php:39-137 | the last iteration changes only product attributes and meta |
| VariationRemap.RemapChildrenCounts | src/Services/Variation_Service.php:39-137 | a completed loop counts every child that loads as a variation exactly once as updated or skipped; the three skip reasons add up to `skipped`, and fallbacks are a part of `updated` |
| VariationRemap.RemapChildrenNoNativeUpdates | src/Services/Variation_Service.php:73-113 | `fallback_updated` is the number of children updated by strategies 2 and 3 |
| VariationRemap.Percent | src/Services/Variation_Service.php:142 | 0 with no children; otherwise within half a hundredth of `updated / total * 100`, between 0 and 100, and exactly 100 when all are updated |
| VariationRemap.RoundedHundredths | src/Services/Variation_Service.php:142 | rounding `10000 * updated / total` half up to a whole number of hundredths is off from the exact percentage by more than -0.005 and at most 0.005 |
| VariationRemap.UpdateVariationsResult | src/Services/Variation_Service.php:25-161 | a non-variable parent gives the bare zero result and changes nothing; a report has `total_variations` equal to the number of children and the percentage of `updated` |
| VariationRemap.UpdateVariationsReport | src/Services/Variation_Service.php:30-160 | in a variable parent's report, `updated + skipped` is the number of children that load as variations and at most `total_variations`; the reasons add up to `skipped`; `fallback_updated` is at most `updated`; and the percentage lies in [0, 100] |
| VariationRemap.VariationCountBound | src/Services/Variation_Service.php:36-43 | at most every child loads as a variation |
| VariationRemap.UpdateVariationsFrame | src/Services/Variation_Service.php:25-161 | `update_variations` changes nothing but product attributes and meta; the parent is never synced or saved |
| VariationRemap.UpdateVariations | src/Services/Variation_Service.php:25-161 | the result and the new store are those of `UpdateVariationsResult` |
| VariationRemap.ChildStrategies | src/Services/Variation_Service.php:40-136 | the outcome and new store for one child are those of `RemapChild` |
| VariationRemap.FallbackStrategies | src/Services/Variation_Service.php:73-121 | strategies 2 to 4 in order, as `Fallbacks` |
| VariationRemap.LastStrategiesCall | src/Services/Variation_Service.php:87-121 | strategies 3 and 4 in order, as `LastStrategies` |
| VariationRemap.RemapStopsAtFailure | src/Services/Variation_Service.php:39-137 | once an error escapes a child, later children change nothing |
| VariationRemap.CollectEntries | src/Services/Variation_Service.php:574-579 | keeps what was collected, adds only slug-map values, and never passes the maximum |
| VariationRemap.CollectTokens | src/Services/Variation_Service.php:595-603 | keeps what was collected, adds only slug-map values, and never passes the maximum |
| VariationRemap.InferCandidates | src/Services/Variation_Service.php:554-611 | at most three candidates, all distinct, each a slug-map value |
| VariationRemap.InferCandidatesIgnoresLongTitle | src/Services/Variation_Service.php:568 | a title over 160 characters is left out of the word search |
| Discovery.CleanOption | src/Services/Discovery_Service.php:42 | `wc_clean` trims a text option and passes a term id through unchanged |
| Discovery.CleanOptions | src/Services/Discovery_Service.php:42 | one cleaned option per option, in order |
| Discovery.NotUsedWithoutChildren | src/Services/Discovery_Service.php:58-66 | a non-variable or childless parent is never reported as used in variations |
| Discovery.DiscoverFrom | src/Services/Discovery_Service.php:33-53 | at most one report per attribute entry |
| Discovery.DiscoverConcat | src/Services/Discovery_Service.php:33-53 | discovery is an order-preserving filter: the reports for `a + b` are those for `a`, then those for `b` |
| Discovery.DiscoverNoLocal | src/Services/Discovery_Service.php:34-40 | a product without a local attribute object reports nothing |
| Discovery.DiscoverAllLocal | src/Services/Discovery_Service.php:33-53 | when every entry is a local attribute object, there is one report per entry, in order |
| Discovery.DescribedShape | src/Services/Discovery_Service.php:42-52 | a report carries the name as name and label, the cleaned options, the variation use and no suggestion |
| Discovery.DiscoverMembers | src/Services/Discovery_Service.php:33-53 | every report comes from a local attribute object of the product with that name and those cleaned options, and carries no suggestion |
| Discovery.AttributeUsedInVariations | src/Services/Discovery_Service.php:58-83 | the search's answer is `UsedInVariations`: the parent is variable, and some child that loads as a variation has a non-empty value under `attribute_<sanitize_title(name)>` |
| Discovery.Discover | src/Services/Discovery_Service.php:25-56 | the reports are `Discovered`: nothing for an unknown product, else the filter over its attributes |
| Rollback.AttributeData | src/Services/Rollback_Service.php:24 | succeeds exactly when every entry is an attribute object, keeping each key and object; otherwise the typed callback's `TypeError` |
| Rollback.ExportFromContents | src/Services/Rollback_Service.php:70-88 | the export holds exactly the children that load as variations, each once, with its current attributes |
| Rollback.CreatedBackupEffect | src/Services/Rollback_Service.php:20-36 | a backup is created exactly when every original entry is an attribute object; it is stored under its id after the product's earlier backups (anything but an array counts as none), and nothing else changes |
| Rollback.Reindex | src/Services/Rollback_Service.php:50-55 | the backed-up objects come back in order under the keys `0`, `1`, … |
| Rollback.RestoreFromEffect | src/Services/Rollback_Service.php:91-99 | exactly the listed ids that load as variations get their backed-up attributes and are saved; nothing but products changes |
| Rollback.RestoredBackupEffect | src/Services/Rollback_Service.php:38-68 | in the intended version, with `set_props` setting every saved field (see "## Findings"), the restore succeeds exactly when the backup and the product exist; the product then gets the backed-up objects in order, each backed-up variation gets its attributes back, that backup is dropped and the other backups are kept |
| Rollback.BackupThenRestore | src/Services/Rollback_Service.php:20-68 | in the intended version (see "## Findings"), backing up and then restoring straight away brings back the same attribute objects in the same order, keeps every other product's attributes, and leaves the product's backups as they were |
| Rollback.RemoveLast | src/Services/Rollback_Service.php:62 | removing a key that was just appended gives the array back |
| Rollback.ExportVariations | src/Services/Rollback_Service.php:70-88 | the export is `ExportedVariations`, and the store is not written |
| Rollback.CreateBackup | src/Services/Rollback_Service.php:20-36 | the result and new store are those of `CreatedBackup` |
| Rollback.RestoreVariations | src/Services/Rollback_Service.php:90-104 | the new store is `RestoredVariations` |
| Rollback.RestoreBackup | src/Services/Rollback_Service.php:38-68 | the result and new store are those of `RestoredBackup`, the intended version (see "## Findings") |
| Rollback.AsWrittenRestoreFailsWithAttributes | src/Services/Rollback_Service.php:50-54 | as written, `restore_backup` fails with the undefined-method `Error` for `set_props` and leaves the store as it was, exactly when the backup and the product exist and the backup holds an attribute; otherwise it agrees with the intended version |
| Rollback.BackupThenRestoreAsWrittenFails | src/Services/Rollback_Service.php:20-68 | as written, backing up a product that has an attribute and restoring the backup straight away ends in that `Error`, with the backup still stored and nothing restored |
| Templates.NormaliseLabelIdempotent | src/Services/Templates_Service.php:50-52 | normalising a normalised label changes nothing |
| Templates.TemplateForLabelFirstMatch | src/Services/Templates_Service.php:24-35 | the lookup returns the config of the first stored label, in stored order, that normalises like the query, and `null` exactly when none does |
| Templates.SaveTemplateEffect | src/Services/Templates_Service.php:37-40 | the config is stored under its exact label, and every other label keeps its entry |
| Templates.SaveThenLookup | src/Services/Templates_Service.php:24-40 | saving then looking up the same label gives the saved config, unless another stored label normalises to the same key |
| Templates.SavedLabelsFromStored | src/Services/Templates_Service.php:38-39 | every label other than the saved one was stored before, at the same position |
| Templates.SaveShadowedByEarlierLabel | src/Services/Templates_Service.php:28-31 | a stored `"Cor"` shadows a later save under `"cor "`: looking up `"cor "` still returns the config stored under `"Cor"` |
| Templates.SaveTemplate | src/Services/Templates_Service.php:37-48 | only the templates option changes, to `SavedTemplates` |
| Logger.StackedLookup | src/Utils/Logger.php:50-53 | merging the layers in push order makes the most recently pushed layer that holds a key decide its value |
| Logger.PrepareContextSource | src/Utils/Logger.php:56 | every emitted context has `source = 'local2global'`, whatever the caller or the layers said |
| Logger.PrepareContextLookup | src/Utils/Logger.php:50-55 | any key other than `source`, `exception` and `trace` gets the call's own value when the call passes it, and otherwise the latest layer's |
| Logger.PrepareContextException | src/Utils/Logger.php:58-67 | a `Throwable` under `exception` is replaced by its class and message, and its trace is added exactly in debug mode; any other value passes through, and no trace is added |
| Logger.Popped | src/Utils/Logger.php:33-35 | popping an empty stack leaves it empty; otherwise it removes exactly the top layer |
| Logger.PopUndoesPush | src/Utils/Logger.php:29-35 | `pop_context` undoes `push_context` |
| Logger.ScopedRestores | src/Utils/Logger.php:19-27 | a callback that leaves the stack as it found it, whether it returns or throws, makes `scoped` restore the caller's stack exactly |
| Logger.Logger.constructor | src/Utils/Logger.php:13-17 | the stack starts empty |
| Logger.Logger.PushContext | src/Utils/Logger.php:29-31 | the layer goes on top |
| Logger.Logger.PopContext | src/Utils/Logger.php:33-35 | the stack becomes `Popped` of the old one |
| Logger.Logger.Scoped | src/Utils/Logger.php:19-27 | the callback sees the stack with the layer on top; its value or exception is passed on, and the pop runs in both cases |
| Logger.Logger.PrepareContextOf | src/Utils/Logger.php:49-70 | the loop's result is `PrepareContext` of the current stack |
| Wizard.ReplaceRuns | assets/js/admin.js:591 | the result holds only `[a-z0-9-]` with no `--`, is empty exactly when the input is, and starts with a dash exactly when the input starts outside `[a-z0-9]` |
| Wizard.ReplaceRunsKeepsPrefix | assets/js/admin.js:591 | characters of `[a-z0-9]` in front of the string are kept as they are, and the replacement goes on with the rest |
| Wizard.ReplaceRunsOfRun | assets/js/admin.js:591 | a maximal run of characters outside `[a-z0-9]` at the front becomes exactly one `-`, and the replacement goes on with the rest |
| Wizard.ReplaceRunsSplit | assets/js/admin.js:591 | for every string cut as `[a-z0-9]` part, maximal run of other characters, rest: the result is that part, one `-`, and the replacement of the rest |
| Wizard.ReplaceRunsOfSlug | assets/js/admin.js:591 | a string of `[a-z0-9-]` without `--` is left as it is |
| Wizard.CollapseDashes | assets/js/admin.js:593 | a string without `--` is left as it is |
| Wizard.SlugifyShape | assets/js/admin.js:585-594 | `slugify` returns only `[a-z0-9-]`, never a dash at either end and never `--` |
| Wizard.SlugifyOfSlug | assets/js/admin.js:585-594 | a slug is its own slug, when the decomposition leaves such strings alone |
| Wizard.SlugifyIdempotent | assets/js/admin.js:585-594 | slugifying a slug changes nothing |
| Wizard.NormalizeString | assets/js/admin.js:625-627 | the normalised string holds only `[a-z0-9]` |
| Wizard.EnsurePaPrefixShape | assets/js/admin.js:575-583 | `''` stays `''`; anything else becomes `pa_` followed by a slug, of the rest after a leading `pa_` when there is one, so no `_` follows the prefix |
| Wizard.EnsurePaPrefixIdempotent | assets/js/admin.js:575-583 | applying `ensurePaPrefix` to its own result changes nothing |
| Wizard.SanitizeKeyOfPaSlug | tests/stubs/woocommerce.php:256-259 | `sanitize_key` keeps the `pa_` of a wizard taxonomy and deletes the dashes of its slug |
| Wizard.WizardTaxonomyOnServer | src/Services/Mapping_Service.php:205-216 | the server's taxonomy for a wizard taxonomy is `pa_` plus the slug without its dashes, so the taxonomy is kept exactly when its slug has no dash |
| Wizard.LevStep | assets/js/admin.js:640-648 | the distance between non-empty prefixes is the cheapest of a deletion, an insertion and a substitution |
| Wizard.LevBound | assets/js/admin.js:633-650 | the edit distance never exceeds the longer length |
| Wizard.LevZero | assets/js/admin.js:633-650 | the edit distance is zero exactly between equal prefixes |
| Wizard.LevPositive | assets/js/admin.js:633-650 | prefixes of different lengths are at distance at least one |
| Wizard.LevSymmetric | assets/js/admin.js:633-650 | the edit distance does not depend on the order of its arguments |
| Wizard.SimilarityRange | assets/js/admin.js:629-652 | the similarity lies in `[0, 1]`, is symmetric, and is 1 exactly for equal non-empty strings |
| Wizard.SimilarityThreshold | assets/js/admin.js:617 | `similarity > 0.5` holds exactly when both strings are non-empty and twice the distance is below the longer length |
| Wizard.FillRow | assets/js/admin.js:641-648 | filling one row makes every cell of it the distance between the two prefixes, and leaves the first column of later rows alone |
| Wizard.FillCell | assets/js/admin.js:642-647 | one cell becomes the distance between its two prefixes and no other cell changes |
| Wizard.SimilarityOf | assets/js/admin.js:629-652 | the matrix computation returns the similarity defined by the edit distance |
| Wizard.BuiltMappingShape | assets/js/admin.js:437-464 | the mapping creates its global attribute exactly when no taxonomy is suggested; each term keeps its value as name and takes the suggested slug or else the value's slug; `create` follows the option without a suggested term list, and otherwise holds exactly when the list has no slug for the value |
| Wizard.BuiltWithoutSuggestion | assets/js/admin.js:437-464 | an attribute without a suggestion maps to a new attribute with an empty taxonomy and the local label, and every term is created by the option with the value's slug |
| Wizard.BuildMappingFromAttribute | assets/js/admin.js:437-464 | the object literal followed by the `forEach` builds exactly the mapping described above |
| Wizard.OptionScoreRange | assets/js/admin.js:604-616 | every option's score lies in `[0, 1]` |
| Wizard.BestOfIsMax | assets/js/admin.js:600-616 | the best score is the highest score any option earns, 0 with no option, and nothing is chosen exactly when it is 0 |
| Wizard.BestStepKeepsMax | assets/js/admin.js:604-616 | one option never lowers the best score and the best score reaches that option's score |
| Wizard.BestOfWitness | assets/js/admin.js:604-616 | the chosen option is one of the options and the best score is its own |
| Wizard.BestOfLastExact | assets/js/admin.js:606-610 | when several options match outright the last of them wins, with score 1 |
| Wizard.AutoMappedTermRewrites | assets/js/admin.js:596-623 | a term is rewritten exactly when some option is close enough (an outright match, or under the distance threshold), and then to a close-enough option's slug and name with `create = false`; otherwise it is left alone |
| Wizard.AutoMappedExact | assets/js/admin.js:596-623 | an outright match always rewrites the term, to the last option that matches outright |
| Wizard.AutoMappedNoOptions | assets/js/admin.js:597-599 | without term options the mapping is left as it is |
| Wizard.SerializeMapping | assets/js/admin.js:558-573 | one posted entry per mapping, in order |
| Wizard.SerializedBuilt | assets/js/admin.js:558-573 | a built mapping posts its local name and values unchanged, the suggested taxonomy through `ensurePaPrefix` once (applying it again changes nothing), `save_template` from the options, and each term's slug and `create` flag as built |
| Wizard.BestMatchOf | assets/js/admin.js:601-616 | the loop over the options ends with the best option and score the specification picks |
| Wizard.WizardState.constructor | assets/js/admin.js:12-25 | the wizard starts with no mapping and all four options on |
| Wizard.WizardState.MapAttributes | assets/js/admin.js:433 | the mapping becomes one built mapping per discovered attribute, in order, with the options unchanged |
| Wizard.WizardState.AutoMapAttributeTerms | assets/js/admin.js:596-623 | only the mapping at the given position changes, to its auto-mapped form |
| Wizard.WizardState.AutoMapAll | assets/js/admin.js:256 | every mapping is replaced by its auto-mapped form, in place, with the options unchanged |
| Cli.ParsePair | src/Cli/CLI_Command.php:76-79 | a pair is accepted exactly when the input has a `:` with something on both sides; the left side then holds no `:` and the input is left side, `:`, right side |
| Cli.SplitAtFirstColon | src/Cli/CLI_Command.php:76 | the split happens at the first `:`, so the right side keeps any later one |
| Cli.ParsePairJoin | src/Cli/CLI_Command.php:76-79 | `a:b` with a colon-free, non-empty `a` and a non-empty `b` parses back to `(a, b)` |
| Cli.PairsFold | src/Cli/CLI_Command.php:75-87 | the pair loop never yields more entries than inputs |
| Cli.PairsFoldEmpty | src/Cli/CLI_Command.php:89-108 | nothing comes out exactly when no input is a valid pair |
| Cli.PairsFoldAll | src/Cli/CLI_Command.php:75-87 | when every input is a valid pair there is one entry per input, in order |
| Cli.PairsFoldMember | src/Cli/CLI_Command.php:75-87 | every entry comes from a valid pair of the input |
| Cli.PairsFoldJoined | src/Cli/CLI_Command.php:173-182 | a list of inputs written `a:b` from valid pairs gives one entry per pair, in order |
| Cli.TermConfigsShape | src/Cli/CLI_Command.php:73-87 | every term config comes from an input `value:slug`: the value is its own term name, the slug is the right side, and `create` is the `--create-missing` flag |
| Cli.MappingsShape | src/Cli/CLI_Command.php:89-104 | every mapping comes from an input `local:taxonomy`: the left side is its local attribute, local label and target label, the right side its taxonomy, and it carries the shared term list and flags |
| Cli.CollectPairs | src/Cli/CLI_Command.php:75-87 | the loop over the inputs yields the valid pairs in order |
| Cli.MapPlanErrors | src/Cli/CLI_Command.php:48-108 | `map` stops at the first problem, in order: no usable `--product`, no `--attr`, no valid `--attr` pair, each exactly in its case |
| Cli.MapPlanAccepted | src/Cli/CLI_Command.php:48-116 | an accepted plan gives every mapping the `--term` list and `create_attribute = false`; `create` and `auto_create_terms` follow `--create-missing`; `create_backup` is the negation of `--dry-run`; `all` means the queried products and anything else the single product |
| Cli.Map | src/Cli/CLI_Command.php:48-117 | the command with its two input loops yields exactly the plan described above |
| Cli.VariationsUpdateOutcome | src/Cli/CLI_Command.php:295-304 | without a positive `--product` the command stops with its message; with one it ends in the fatal Error of the undefined `update_variations_only` |
| Cli.VariationCount | src/Cli/CLI_Command.php:165-169 | the variation count is at least 1, defaults to 2, and takes a given value of 1 or more as it is |
| Cli.LocalValues | src/Cli/CLI_Command.php:215 | the local values of the terms, one per term, in order |
| Cli.AttrPairs | src/Cli/CLI_Command.php:214-224 | one meta entry per mapping, built from the mapping and its index |
| Cli.AttrMetaEntry | src/Cli/CLI_Command.php:214-224 | the meta under a mapping's sanitised name holds that mapping's name, joined values and index, unless a later mapping's name sanitises to the same key |
| Cli.SimAttributeValuesReadBack | src/Cli/CLI_Command.php:218 | the joined values are read back unchanged by `wc_get_text_attributes` when none is empty, padded or holds `\|` |
| Cli.SimVariations | src/Cli/CLI_Command.php:228-246 | as many variations as the smaller of the count and the number of values, each built from the value at its position |
| Cli.PlanVariations | src/Cli/CLI_Command.php:228-246 | the loop that stops at the count creates exactly those variations |
| Cli.SimulatePlanErrors | src/Cli/CLI_Command.php:184-210 | `simulate` stops exactly when no `--attr` pair is valid, and then exactly when the test product cannot be created |
| Cli.SimulateMappingShape | src/Cli/CLI_Command.php:173-196 | every mapping of `simulate` creates its attribute, saves a template and carries the whole term list, whose terms are all created when missing |
| Cli.SimulatePlanShape | src/Cli/CLI_Command.php:227-254 | the plan creates `min(max(1, --variations), number of values)` variations on the first attribute's meta key, in value order, and runs with terms and variations updated and a backup unless it is a dry run |
| Cli.DefaultTerms | src/Cli/CLI_Command.php:164 | the default `--val` list gives the terms `Azul:azul` and `Vermelho:vermelho`, both created when missing |
| Cli.DefaultMapping | src/Cli/CLI_Command.php:163 | the default `--attr` list maps `Cor` to `pa_cor` |
| Cli.SimulateDefaults | src/Cli/CLI_Command.php:162-254 | with no arguments `simulate` maps `Cor` to `pa_cor` with the values `Azul` and `Vermelho` and creates two variations |
| Cli.BuildAttrMeta | src/Cli/CLI_Command.php:213-224 | the loop over the mappings and their indexes builds exactly the attribute meta described above |
| Cli.Simulate | src/Cli/CLI_Command.php:162-256 | `simulate` up to its call into the mapping service yields exactly the plan described above |
| Rest.RestErrorData | src/Rest/Rest_Controller.php:225-229 | the error keeps its code and message, its data carries `status` and `corr_id` whatever the details say, and every other detail key is unchanged |
| Rest.LoggedMode | src/Rest/Rest_Controller.php:168 | the logged mode is never empty |
| Rest.LoggedModeMismatch | src/Rest/Rest_Controller.php:127-179 | with no mode (or `"0"`) the request is logged as `apply` but runs `dry_run`; otherwise the logged mode is `apply` exactly when `apply` runs |
| Rest.MapValidationOrder | src/Rest/Rest_Controller.php:129-145 | `map` rejects, in this order, a product id that is not positive, a mapping that is not a non-empty array, and options present but neither array nor object, each exactly in its case, all with status 400 and the request's `corr_id`; a request passing all three is not rejected |
| Rest.Requests | src/Rest/Rest_Controller.php:176-178 | the service is given one mapping per request item, in order |
| Rest.ThrowableErrorClassified | src/Rest/Rest_Controller.php:200-220 | a `RuntimeException` becomes `l2g_validation`/400 with its message; any other `Throwable` becomes `l2g_apply_failed`/500 with a fixed prefix before its message; both carry the bare message as `details` and the request's `corr_id` |
| Rest.MapRejectedChangesNothing | src/Rest/Rest_Controller.php:129-145 | a rejected request reaches no service: it answers the failed validation's error and leaves the store and the term cache alone |
| Rest.MapDispatch | src/Rest/Rest_Controller.php:173-199 | a request passing the validations runs `apply` with every option off exactly when its mode is `apply`, and answers its results; any other mode runs `dry_run` and changes nothing; an unknown product answers `l2g_validation`/400 with the service's message in both modes |
| Rest.SentStep | src/Rest/Rest_Controller.php:149 | filtering a non-empty key list looks at its first key, then at the rest |
| Rest.SentDeprecatedInListOrder | src/Rest/Rest_Controller.php:148-149 | the reported legacy options are those of the six fixed keys that were sent, in the fixed order |
| Rest.MappingFlagsShape | src/Rest/Rest_Controller.php:150-155 | each reported item has at least one of its two flags set, and nothing is reported exactly when no item sets `save_template` or `term_name` |
| Rest.MapEndpoint | src/Rest/Rest_Controller.php:118-223 | the endpoint answers, and leaves the cache and the store, exactly as specified above, and gives the logger's context stack back as it found it |
| Rest.VariationsUpdateOutcome | src/Rest/Rest_Controller.php:263-280 | `variations_update` rejects, in order, a product id that is not positive and a `taxonomies` that is neither absent nor an array, both with status 400 and the request's `corr_id`; every other request ends in the fatal Error of the undefined `update_variations_only` |

## Left out

- Log output. `wc_get_logger()`, the log entries every service writes and exception traces are I/O. Only the logger's context stack and the context it prepares are modelled.
- The write and verify machinery of `Variation_Service` (src/Services/Variation_Service.php:529-768). This covers disabling and restoring hooks, `$wpdb` SQL, the object cache, transients and the read-back check. It is one meta upsert, `Host.Store.UpsertMeta`: afterwards the key holds the value and nothing else changes. Caches and hooks are host internals with no counterpart in the model. `wc_delete_product_transients` is left out for the same reason.
- `VariationRemap.Percent`: computes `round(updated / total * 100, 2)` over exact rationals, with halves rounded up. Binary floating point is not modelled, so a value whose float product lands just below a half may round differently in PHP. The contract states the rounding bound, the range and the two end cases.
- `Wizard.SimilarityOf`: the similarity is an exact `real`, not a JavaScript double. The threshold `score > 0.5` is proved equivalent to `2 * distance < max length`, so the decisions it drives are not affected.
- Unicode in `Value_Normalizer` and the wizard. NFD decomposition, the Unicode mark category, `mb_strtolower` and the PCRE `\b` and `\d` matches are parameters. Properties that depend on them take their assumptions as `requires` clauses, for example that NFD keeps ASCII slugs as they are.
- `VariationRemap.InferCandidates`: the `apply_filters` hooks on the title-length and candidate limits are not modelled. Their defaults, 160 and 3, are the model's constants.
- `Host.TermExists`: `term_exists` is modelled as a lookup by slug. WordPress also matches a term by its name.
- WordPress's own handling. Integer-like array keys (PHP turns `"12"` into `12`) are not modelled. Nor is WordPress making an inserted slug unique by adding a suffix.
- `WP_Query`, `wp_insert_post`, `uniqid`, `wp_generate_uuid4` and `time`. They are nondeterministic or belong to the host, so they are parameters.
- The REST endpoints `discover` and `terms`.
  - `discover` only wraps `Discovery_Service::discover`, which is modelled as `Discovery.Discover`.
  - `terms` is a `get_terms` query with no logic of its own.
- `permissions_check` and `register_routes` of the REST controller. They are WordPress capability checks and route registration.
- `WP_CLI::log`, `success`, `error` and table output. This is terminal I/O. The model keeps what each command decides, including which of those outcomes it reaches.
- The DOM rendering, event handlers, `apiFetch` calls and modal navigation of `assets/js/admin.js`. They are browser UI and network.
- src/Plugin.php, src/Admin/UI.php, src/Admin/Settings.php, src/Setup/Activator.php and local2global-attribute-mapper.php. They do hook registration, page rendering, settings pages, activation and bootstrap, and state nothing beyond that.
- tests/run-tests.php is not part of this model. Several rows of the table cite it as the expected behaviour they match.
- `WC_Product_Attribute` methods the engine calls that the test bootstrap's class (tests/stubs/woocommerce.php:184-248) lacks. That class has only the `set_`/`get_` pairs for id, name, options, position, visible and variation, plus `is_taxonomy` and `get_taxonomy`. For each call the model follows one class:
  - `get_data()` (src/Services/Discovery_Service.php:44, src/Services/Rollback_Service.php:24): WooCommerce's class, where it returns the attribute's fields. In the test bootstrap these calls would fail. So `Discovery.Described` takes the label from the `name` field, and `Rollback.AttributeData` saves the attribute object as it is.
  - `is_taxonomy()`: the test bootstrap's class, which requires the `pa_` prefix and a positive id. WooCommerce's class checks only the id.
  - `set_is_taxonomy()` (src/Services/Mapping_Service.php:187) and `set_props()` (src/Services/Rollback_Service.php:53): neither class defines them. Both are entries under "## Findings". The rest of the model uses their evidently intended effect.
  - `wc_get_product_variation_attributes` (`Host.VariationAttributeMeta`): the test bootstrap's definition, the variation's `attribute_` meta. WooCommerce's version works from the parent's variation attributes instead.
- `Rollback.RestoredBackup`: takes `set_props($attribute_data)` to set every field that `get_data()` saved. `Rollback.RestoredBackupAsWritten` is the code as it stands.
- `PhpString.IntCast`: reads only an optional sign and leading decimal digits, as an unbounded integer. PHP 8 also reads numeric strings with a fraction or an exponent: `(int)"1e3"` is 1000, where the model gives 1. On 64-bit PHP a digit run beyond the integer range saturates: `(int)"99999999999999999999"` is 9223372036854775807 (`PHP_INT_MAX`), where the model gives the digits' exact value. This matters for `--product=` and the REST `product_id`.
- `PhpString.IntCastOfDigits`: the value of the digits agrees with PHP's `(int)` only up to `PHP_INT_MAX`, because of the saturation above.
- `Rest.Mode`, `Rest.LoggedMode`: the request the model takes is what `map` receives. WordPress first runs the route's `sanitize_callback` and `type` checks (src/Rest/Rest_Controller.php:46-63): `absint` on `product_id` and `sanitize_text_field` on `mode`. So a raw `" apply"`, which reaches `map` as `"apply"`, is not modelled.
- `Cli.Map`: the per-product loop (src/Cli/CLI_Command.php:118-142) is not modelled. For each product in the plan's order, it calls `dry_run` or `apply` with a fresh `uniqid` correlation id and prints the result. An exception from either escapes the loop and leaves the remaining products untouched. The `is_wp_error` warnings there are never reached, since both methods return arrays. `Mapping.DryRun` and `Mapping.Apply` model one iteration.
- `Cli.Simulate`: every `wp_insert_post` of a variation is taken to succeed. src/Cli/CLI_Command.php:240 silently skips the meta of a variation whose insert failed, and the model does not capture that, because the post ids are parameters.
- The `is_wp_error($result)` branches of the REST `map` and `variations_update` (src/Rest/Rest_Controller.php:181-188, 281-289), and the `taxonomies` argument at line 280. No input reaches them: `apply` and `dry_run` return arrays, and `update_variations_only` is undefined. PHP raises that error before it evaluates the call's arguments.

## Findings

| source | as written | input that shows it | evidently intended | confidence | as-written member | corrected member |
|---|---|---|---|---|---|---|
| src/Services/Mapping_Service.php:187 | `replace_attribute` calls `set_is_taxonomy(true)` on the new attribute object. `WC_Product_Attribute` has no such method (tests/stubs/woocommerce.php:190-248), so every matching attribute ends in a fatal `Error`: "Call to undefined method WC_Product_Attribute::set_is_taxonomy()" | local attribute object `Cor` mapped to `pa_cor`, attribute id 7, term ids `[11]` | replace the attribute with a `pa_cor` object whose positive id makes `is_taxonomy()` true | not executed | Mapping.AsWrittenFailsOnEveryMatch, Mapping.AsWrittenCannotConvertCor (over `Mapping.ReplacedAttributesAsWritten`) | Mapping.ReplacedAttributesFirstMatch (over `Mapping.ReplacedAttributes`, used by `apply`) |
| src/Services/Rollback_Service.php:53 | `restore_backup` calls `set_props($attribute_data)` on a new `WC_Product_Attribute`. Neither the test bootstrap's class (tests/stubs/woocommerce.php:184-248) nor WooCommerce's defines it, so every backup holding an attribute ends in a fatal `Error` ("Call to undefined method WC_Product_Attribute::set_props()") before anything is restored or the backup is dropped | a product with one local attribute object `Cor`, backed up by `create_backup` and then restored by `restore_backup` | give the product back the saved attribute objects, restore the variations and drop the backup | not executed | Rollback.AsWrittenRestoreFailsWithAttributes, Rollback.BackupThenRestoreAsWrittenFails (over `Rollback.RestoredBackupAsWritten`) | Rollback.RestoredBackupEffect, Rollback.BackupThenRestore (over `Rollback.RestoredBackup`, used by `Rollback.RestoreBackup`) |
