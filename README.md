# a8e: extension-config migration and the Paean AI provider, in Dafny

This project models two parts of the a8e agent's core and proves properties of them.

1. **Configuration-extension migration** (`crates/a8e-core/src/config/migrations.rs`).
   `run_migrations` updates the user's configuration mapping in place. It makes two passes over the `"extensions"` sub-map:
   - The platform pass inserts each platform extension. It also rewrites an entry that is missing, unparseable, the wrong variant or stale, and a rewrite keeps the user's `enabled` flag.
   - The builtin pass adds the default `"developer"` entry, but only when that key is absent.

   `ConfigDocument` is the mapping. Its methods `MigratePlatformExtensions`, `MigrateBuiltinExtensions` and `RunMigrations` are the source's functions, with loops and invariants. Each is proved against a specification function (`PlatformMigrated`, `BuiltinMigrated`, `Migrated`).
2. **Paean AI provider decision logic** (`crates/a8e-core/src/providers/paean_ai.rs`). This covers:
   - the metadata declarations;
   - `from_env` with its host fallback;
   - the interpretation of the model-listing response: error envelope, `data` array, id extraction and sorting;
   - the injection of the session id as `"user"` into the completion request.

Files:
- `wrappers.dfy`: `Option` and `Result`.
- `extensions.dfy`: the YAML `Value`, `ExtensionEntry` and its serialisation. `ToValue` and `Parse` stand for `serde_yaml::to_value` and `from_value`, and `ParseToValue` proves the round trip.
- `migrations.dfy`: the migration.
- `json_value.dfy`: the JSON `Value`.
- `string_order.dfy`: the order of Rust strings and a sort specified by "sorted and a permutation".
- `paean_ai.dfy`: the provider.

Abstractions:
- **Serialisation.** The YAML shape of an extension entry is defined with `ExtensionEntry`/`ExtensionConfig`, which are not part of this model. The model encodes an entry as a mapping with a `"type"` tag, the variant's fields and `"enabled"`. The migration relies only on two facts: `Parse` is partial, and `Parse(ToValue(e)) == Some(e)`.
- **`PLATFORM_EXTENSIONS`** is a hash map defined elsewhere. It is a parameter here: a sequence of (key, definition) pairs with distinct keys, in the map's unspecified iteration order. `PlatformLoopOrderIndependent` shows that the order does not matter.
- **`BUILTIN_EXTENSIONS`** is `BuiltinTable(displayName, timeout)`. Its name is `"developer"` and it is enabled by default. The values of `DEFAULT_DISPLAY_NAME` and `DEFAULT_EXTENSION_TIMEOUT` are defined elsewhere, so they are parameters.
- **Collaborators of `from_env` and of the listing become inputs.** These are `ModelConfig::with_fast`, the configuration lookups, `ApiClient::new`, the HTTP response and its JSON parse.
- **String order.** Rust's `String` order compares UTF-8 bytes, which equals comparing code points. `StringOrder.Le` is lexicographic order on Dafny `char`s, which are code points.

Behaviour of the code worth noting:
- `fetch_supported_models` does not look at the HTTP status. Any parsed body with an `"error"` key is a `RequestFailed`, even `"error": null`.
- A body that is not JSON is a `RequestFailed` that carries the parser's message.
- A missing or non-array `data` is a `UsageError`.
- `from_env` propagates the lookup error of the API key unchanged. It does not classify the error itself.

## Model

| member | source | states |
|---|---|---|
| `Extensions.ParseToValue` | crates/a8e-core/src/config/migrations.rs:71-88 | Reading back a serialised extension entry gives the same entry. |
| `Migrations.ExtensionsMap` | crates/a8e-core/src/config/migrations.rs:34-42 | The extensions sub-map is empty unless `"extensions"` is present and holds a mapping, in which case it is that mapping. |
| `Migrations.NeedsMigrationOfEntry` | crates/a8e-core/src/config/migrations.rs:50-68 | A stored entry in the entry format needs migration exactly when it is not a `Platform` entry with the definition's description and display name. |
| `Migrations.MigratedEnabledOfEntry` | crates/a8e-core/src/config/migrations.rs:71-74 | A rewrite keeps the `enabled` flag of a stored entry that parses. A missing or unparseable entry gets the definition's default. |
| `Migrations.RewriteSettles` | crates/a8e-core/src/config/migrations.rs:76-88 | The rewritten `Platform` entry reads back as itself and never needs another rewrite. |
| `Migrations.BuiltinEntryRoundTrip` | crates/a8e-core/src/config/migrations.rs:123-136 | The inserted entry reads back as a `Builtin` with the definition's name, display name and timeout, an empty description, bundled, no tools, and the definition's default `enabled`. |
| `Migrations.PlatformLoop` | crates/a8e-core/src/config/migrations.rs:46-92 | After the platform loop, the keys are the old keys plus every table key. A loop that reports no change leaves the map as it was. |
| `Migrations.PlatformMigrated` | crates/a8e-core/src/config/migrations.rs:31-99 | The platform pass changes no key other than `"extensions"`. Afterwards the extensions read as the loop's result, and a pass that reports no change leaves the configuration as it was. |
| `Migrations.BuiltinLoop` | crates/a8e-core/src/config/migrations.rs:116-139 | After the builtin loop, the keys are the old keys plus every builtin name. Existing keys keep their values. A loop that reports no change leaves the map as it was. |
| `Migrations.BuiltinMigrated` | crates/a8e-core/src/config/migrations.rs:101-146 | The builtin pass changes no key other than `"extensions"`. Afterwards the extensions read as the loop's result, and a pass that reports no change leaves the configuration as it was. |
| `Migrations.Migrated` | crates/a8e-core/src/config/migrations.rs:24-29 | `run_migrations` changes no key other than `"extensions"`. When it reports no change, the configuration is as it was. |
| `Migrations.ConfigDocument.MigratePlatformExtensions` | crates/a8e-core/src/config/migrations.rs:31-99 | The new mapping and the returned flag are those of the platform pass. The loop invariant is the pass folded over the table entries done so far. The sub-map is written back only when something was inserted. |
| `Migrations.ConfigDocument.MigrateBuiltinExtensions` | crates/a8e-core/src/config/migrations.rs:101-146 | The new mapping and the returned flag are those of the builtin pass. Existing keys are skipped. |
| `Migrations.ConfigDocument.RunMigrations` | crates/a8e-core/src/config/migrations.rs:24-29 | Both passes always run. The result is the OR of both flags. It is true exactly when the mapping changed. |
| `Migrations.PlatformLoopPointwise` | crates/a8e-core/src/config/migrations.rs:46-92 | Each platform key ends up with its rewritten entry when the stored entry needed migration, and with its old entry otherwise. Keys outside the table are untouched. The pass reports a change exactly when some entry needed migration. |
| `Migrations.PlatformLoopSettles` | crates/a8e-core/src/config/migrations.rs:50-85 | After the platform pass, no platform entry needs migration. |
| `Migrations.PlatformRewrittenIff` | crates/a8e-core/src/config/migrations.rs:50-68 | A platform entry changes exactly when it is absent, unparseable, not `Platform`, or has a stale description or display name. |
| `Migrations.PlatformLoopChangedIff` | crates/a8e-core/src/config/migrations.rs:44-98 | The platform pass reports a change exactly when its map differs from the one it read. |
| `Migrations.PlatformLoopOrderIndependent` | crates/a8e-core/src/config/migrations.rs:46 | Iterating the platform table in any order gives the same map and the same flag. |
| `Migrations.BuiltinLoopPointwise` | crates/a8e-core/src/config/migrations.rs:116-139 | Existing keys keep their value. Each absent table name gets the entry of the first definition with that name. No other key appears. The pass reports a change exactly when some table name was absent. |
| `Migrations.BuiltinLoopCovers` | crates/a8e-core/src/config/migrations.rs:116-139 | After the builtin pass, every builtin name has an entry. |
| `Migrations.BuiltinLoopChangedIff` | crates/a8e-core/src/config/migrations.rs:114-145 | The builtin pass reports a change exactly when its map differs from the one it read. |
| `Migrations.MigratedExtensions` | crates/a8e-core/src/config/migrations.rs:34-42 | A missing or non-mapping `"extensions"` reads as empty. The extensions afterwards are the two loops applied in turn. No other configuration key changes. |
| `Migrations.MigratedChangedIff` | crates/a8e-core/src/config/migrations.rs:24-29 | `run_migrations` returns true exactly when it changed the mapping. |
| `Migrations.MigratedIdempotent` | crates/a8e-core/src/config/migrations.rs:197-204 | A second run reports no change and leaves the mapping as it is. |
| `Migrations.MigratedLeavesOthers` | crates/a8e-core/src/config/migrations.rs:86-96 | Extension entries whose names are in neither table are untouched. |
| `Migrations.MigratedPlatformEntry` | crates/a8e-core/src/config/migrations.rs:70-90 | A platform entry is rewritten exactly when it needs migration. The new entry parses as a `Platform` with the definition's description and display name. Its `enabled` is the old entry's when that parsed, and the definition's default otherwise. |
| `Migrations.MigratedKeepsBuiltin` | crates/a8e-core/src/config/migrations.rs:116-121 | An existing builtin entry, such as a disabled `developer` with timeout 600, is kept unchanged. |
| `Migrations.MigratedEmptyConfig` | crates/a8e-core/src/config/migrations.rs:206-220 | On an empty configuration, the run reports a change, creates `"extensions"`, and adds an enabled `Builtin` entry named `"developer"`. |
| `PaeanAi.Metadata` | crates/a8e-core/src/providers/paean_ai.rs:72-92 | `PAEAN_AI_API_KEY` is required and secret, with no default. `PAEAN_AI_HOST` is neither, and its default equals the `from_env` fallback host. The default model and the fast model are among the known models. Unlisted models are allowed. |
| `PaeanAi.ResolvedHost` | crates/a8e-core/src/providers/paean_ai.rs:53-55 | A successful host lookup is used as is. A failed one gives the default host that the metadata declares for `PAEAN_AI_HOST`. |
| `PaeanAi.FromEnv` | crates/a8e-core/src/providers/paean_ai.rs:48-66 | A failed `with_fast` or API-key lookup aborts construction with that error, in that order. A failed host lookup falls back to `https://api.paean.ai`. On success the client gets a bearer token, and the provider is named `paean_ai` and streams. |
| `PaeanAi.FetchSupportedModels` | crates/a8e-core/src/providers/paean_ai.rs:112-154 | Transport and parse failures are `RequestFailed`. An `"error"` key takes precedence over everything else. Without it, a missing or non-array `data` is a `UsageError`. The listing succeeds exactly when the body parsed, has no `"error"` and has an array `data`. On success the list is sorted, is a permutation of the entries' string ids, and is no longer than `data`. |
| `PaeanAi.ErrorMessage` | crates/a8e-core/src/providers/paean_ai.rs:130-133 | The reported message is the error object's `message` when that is a string, and `unknown error` otherwise. |
| `PaeanAi.IdOf` | crates/a8e-core/src/providers/paean_ai.rs:147 | An entry has an id exactly when it is an object whose `"id"` is a string, and the id is that string. |
| `PaeanAi.UnknownErrorMessage` | crates/a8e-core/src/providers/paean_ai.rs:129-138 | An error object without a string `message`, including `null`, is reported as `unknown error`. |
| `PaeanAi.ModelIds` | crates/a8e-core/src/providers/paean_ai.rs:144-150 | An id is extracted exactly when some entry has it as its string `id`. There are at most as many ids as entries. |
| `PaeanAi.ModelIdsAppend` | crates/a8e-core/src/providers/paean_ai.rs:144-150 | The ids of concatenated entries are the concatenation of their ids, so each entry contributes independently of the others, in order. |
| `PaeanAi.ModelIdsOfOne` | crates/a8e-core/src/providers/paean_ai.rs:146-149 | One entry yields its string id, or nothing when it has none. With `ModelIdsAppend`, this fixes the list, duplicates included. |
| `PaeanAi.ModelIdsKeepsAll` | crates/a8e-core/src/providers/paean_ai.rs:144-150 | When every entry has a string id, none is dropped and duplicates are kept, in entry order. |
| `PaeanAi.FetchedModelsDetermined` | crates/a8e-core/src/providers/paean_ai.rs:152-153 | A successful listing equals every sorted permutation of the ids, so sorting fixes the result. |
| `StringOrder.Sort` | crates/a8e-core/src/providers/paean_ai.rs:152 | The result is sorted in Rust's string order and is a permutation of the input. |
| `StringOrder.SortedPermutationUnique` | crates/a8e-core/src/providers/paean_ai.rs:152 | Two sorted permutations of the same strings are equal. |
| `PaeanAi.WithSessionUser` | crates/a8e-core/src/providers/paean_ai.rs:173-177 | `"user"` is set to the session id exactly when the id is non-empty and the payload is an object. Every other field is kept. Otherwise the payload is unchanged. |
| `PaeanAi.PrepareStreamPayload` | crates/a8e-core/src/providers/paean_ai.rs:164-177 | The payload mutated in place is the request with the session user injected. |
| `PaeanAi.PayloadsDifferOnlyInUser` | crates/a8e-core/src/providers/paean_ai.rs:173-177 | Two calls that differ only in the session id send payloads that agree on every field except `"user"`. |

## Left out

- The HTTP transport: `ApiClient` requests, `response_get` and `response_post`. Their outcomes are inputs (`ModelsResponse`, `newClient`).
- Retry and backoff (`with_retry`), status handling (`handle_status_openai_compat`) and stream decoding (`stream_openai_compat`). These are asynchronous collaborators whose code is not part of this model.
- Request construction (`create_request`) is not modelled. Its output is taken as an opaque JSON value.
- `RequestLog` is not modelled, including the error of `RequestLog::start`.
- Everything in `stream` after the payload is prepared is not modelled.
- `ModelConfig::with_fast`, `Config::global().get_secret`/`get_param` and `ApiClient::new` are inputs. Their own logic is not part of this model.
- `get_name` and `get_model_config` only return the `name` and `model` fields of the `Provider` value.
- `ProviderDef::from_env` ignores its extensions argument and forwards to `FromEnv`.
- The serde derives of `ExtensionEntry` and `ExtensionConfig` are not part of this model. `ToValue`/`Parse` are a model of that encoding, and only their round trip and partiality are relied on.
- The variants of `ExtensionConfig` other than `Platform` and `Builtin` keep only their tag and name.
- The failure branch of `serde_yaml::to_value` (lines 87 and 135 of `migrations.rs`) is not modelled. `ToValue` is total because serialising these plain records does not fail.
- The key order of `serde_yaml::Mapping` is not modelled. It is an insertion-ordered map, and the model uses a `map`, so where a new key is placed in the written file is not captured.
- JSON numbers are modelled as integers, since this core never inspects them.
- `Extensions.Value` keys every YAML `Mapping` by string and has no `Tagged` or floating-point variant. A configuration with non-string keys (`1: x`, `true: y`) or tagged values cannot be represented. So "no other configuration key changes" (`MigratedExtensions`, `Migrated`) is shown only for string keys.
- Process bootstrap (`crates/a8e-cli/src/main.rs`) is not modelled.
- The server factory (`crates/a8e-acp/src/server_factory.rs`) is not modelled.
- The no-op telemetry stubs (`crates/a8e-core/src/posthog.rs`) are not modelled.
- The Homebrew formula (`packaging/homebrew/a8e.rb`) is not modelled.
