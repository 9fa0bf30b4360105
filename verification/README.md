# hyper-mcp plugin service core, modelled in Dafny

This project models the orchestration core of hyper-mcp. hyper-mcp is a tool-calling protocol server. It loads sandboxed WebAssembly plugins and exposes each plugin's tools to remote callers. The model covers the `PluginService` of `src/plugins.rs` and the configuration records of `src/config.rs`:

- **Source classification and cache naming** (`sources.dfy`, module `Sources`). A configured plugin path is an HTTP URL, an OCI registry reference (`oci://…`) or a local file. A registry plugin is pulled into `<cache dir>/hyper-mcp/<name>-<7 hex digits of SHA-256(reference)>.wasm`, and its signature is checked unless `insecure_skip_signature` is set.
- **Manifest building** (`manifest.dfy`, module `Manifests`). A pure fold turns the optional `RuntimeConfig` into the sandbox capability descriptor: allowed hosts, identity path mappings and config keys.
- **Service state** (`services.dfy`, module `Services`). The state is two finite maps: `plugins` (plugin name to instantiated plugin) and `toolIndex` (tool name to plugin name). Two insertion loops fill the index: the checked one used at startup, and the overwriting one used by `list_tools`.
- **Startup load sequence** (`loading.dfy`, module `Loading`). `LoadOne` is one iteration of the `load_plugins` loop. `LoadAll` is the whole loop as a fold. `LoadPlugins` is the loop itself, written as a method whose loop invariant ties the state after each plugin to the fold over the configuration loaded so far; that the index points only at loaded plugins follows after the loop from `LoadAllConsistent`.
- **Dispatch** (`handler.dfy`, module `Handler`). `CallTool` and `ListTools` are each one atomic step on the service state.

Everything outside the core is a given input, an oracle:

- `Fetcher`: HTTP GET, file reads, the platform cache directory, directory creation, SHA-256 in hex, and the registry pull.
- `Host`: sandbox instantiation and the plugin's `describe` call.
- The `call` function passed to `CallTool`.

A plugin is its manifest plus its sandbox memory. Every `describe` or `call` oracle returns the module's memory after the call, so "nothing else changes" is a real statement about the other plugins.

The model follows the code as written; in particular:

- The HTTP test is a bare `"http"` prefix, not `http://` or `https://`.
- The registry test is an `"oci"` prefix. A path such as `oci-tools.wasm` then fails at the `strip_prefix("oci://").unwrap()` instead of being read as a local file (`Sources.OciPrefixWithoutScheme`).
- `list_tools` has no collision check. A later plugin in the map's iteration order overwrites an earlier plugin's route.
- `list_tools` unwraps the parse of each successful `describe` call, so one plugin whose description does not parse ends the whole request.
- Panics (`unwrap`, the collision `panic!`) are modelled as error results.

## Model

| member | source | states |
|---|---|---|
| Configuration.FromFields | src/config.rs:6-11 | an absent `insecure_skip_signature` field means signatures are verified; skipping happens only when the field is explicitly true |
| Sources.ParseSource | src/plugins.rs:35-43 | every "http" path is classified, and as a URL; a classified path is a URL exactly when it starts with "http" and a registry reference exactly when it starts with "oci://" |
| Sources.ParseSourceRejects | src/plugins.rs:35-43 | a path fails classification exactly when it does not start with "http", starts with "oci" and lacks the full "oci://" scheme; the error names the path |
| Sources.ParseSourceLossless | src/plugins.rs:35-43 | every classified path is well formed for its kind and is exactly the path the source denotes, with "oci://" removed only from registry references |
| Sources.ParseSourcePathRoundTrip | src/plugins.rs:35-43 | conversely, every well-formed source is recovered by classifying its path |
| Sources.OciPrefixWithoutScheme | src/plugins.rs:41-43 | a local-looking path that starts with "oci" but lacks "oci://" is rejected, not read from disk |
| Sources.CacheFileName | src/plugins.rs:45-58 | the cache file name is the plugin name, a dash, the first 7 lower-case hex digits of the reference's SHA-256, and ".wasm" |
| Sources.CacheFileNameInjective | src/plugins.rs:45-58 | two equal cache file names come from equal plugin names and references whose digests agree on 7 hex digits; distinct plugin names never give the same cache file name |
| Sources.PullRequestFor | src/plugins.rs:57-69 | the registry is asked for the stripped reference and "/plugin.wasm", written to a file directly inside the cache directory whose name is the plugin's cache file name, with signature verification exactly when it is not skipped |
| Sources.CachePathStable | src/plugins.rs:45-80 | the cache file depends only on the plugin name and reference: two successful acquisitions of the same registry plugin read back the same bytes, whatever the verification flag |
| Sources.Acquire | src/plugins.rs:34-83 | a misclassified path fails with the classification error; HTTP and local sources yield exactly the bytes fetched or read, and fail exactly when that fetch or read fails |
| Sources.RegistryAcquisition | src/plugins.rs:43-80 | a registry source fails without a cache directory or when the directory cannot be created; otherwise the registry is asked for the stripped reference and "/plugin.wasm" into the plugin's cache file, with signature verification exactly when it is not skipped; a failed pull is an error carrying its cause, and success means the pull and the read-back of the cache file both succeeded, yielding the bytes read |
| Manifests.WithAllowedHosts | src/plugins.rs:88-92 | hosts are appended verbatim and in order; nothing else in the manifest changes |
| Manifests.WithAllowedPaths | src/plugins.rs:93-98 | every listed path becomes a key mapped to itself, earlier unlisted mappings survive, and nothing else changes |
| Manifests.WithConfigKeys | src/plugins.rs:101-105 | every environment entry becomes a config key with its value, whatever the iteration order; other keys survive |
| Manifests.BuildManifest | src/plugins.rs:85-106 | no policy grants no hosts, paths or config; a policy grants exactly its hosts in order, its paths each at the identical path, and its environment as config |
| Manifests.EmptyPolicyIsMinimal | src/plugins.rs:85-106 | a policy declaring nothing grants the same as no policy |
| Services.RegisterTools | src/plugins.rs:113-131 | the startup insertion succeeds exactly when no declared tool is routed to a different plugin, and then routes exactly the declared names to the plugin |
| Services.RegisterToolsCollision | src/plugins.rs:115-128 | a collision names the first offending tool, its existing owner from the index and the incoming plugin, and the two differ |
| Services.InsertTools | src/plugins.rs:221-223 | the re-enumeration insertion routes every declared name to the plugin, overwriting earlier routes |
| Services.RegisterAgreesWithInsert | src/plugins.rs:113-131 | where the startup check passes, it routes exactly as the unchecked insertion does |
| Services.ReRegisterOwnTools | src/plugins.rs:116-130 | a plugin re-declaring tools it already owns is not an error and changes nothing |
| Loading.Instantiate | src/plugins.rs:34-107 | acquisition failures become the plugin's load error; once the bytes are acquired, instantiation succeeds exactly when the engine accepts the manifest built from those bytes and the plugin's trust policy, and the plugin then has that manifest and the memory the engine gave it |
| Loading.LoadOne | src/plugins.rs:34-139 | one load iteration adds exactly this plugin's name; when its description parses, it succeeds exactly when none of the declared tools is routed to another plugin, and then routes exactly the declared names to this plugin on top of the old index; when `describe` fails or does not parse it still loads the plugin and routes nothing; the stored plugin has the memory left by `describe`; it keeps the index consistent, blames this plugin for any error, and reports a collision against the index's existing owner |
| Loading.LoadAll | src/plugins.rs:34-142 | a failed load always blames one of the configured plugins: the one being acquired, instantiated or registered when it stopped |
| Loading.LoadAllRoutesDeclared | src/plugins.rs:110-131 | after a successful load every tool a configured plugin's description declares is routed to that plugin |
| Loading.LoadAllOkIffLoadable | src/plugins.rs:34-142 | the startup load succeeds exactly when every plugin instantiates, none of its declared tools is routed to another plugin beforehand, and no two differently named plugins declare the same tool |
| Loading.LoadAllSucceeds | src/plugins.rs:34-142 | the success direction alone: loadable plugins always load |
| Loading.LoadAllSnoc | src/plugins.rs:34-141 | loading one more plugin continues from the state the prefix reached, and an earlier error stands |
| Loading.LoadAllNames | src/plugins.rs:34-141 | after a successful load the plugin map holds exactly the configured names, including plugins whose description failed |
| Loading.LoadAllKeepsRoutes | src/plugins.rs:113-130 | startup never shadows a tool: every route present before the load survives unchanged |
| Loading.LoadAllConsistent | src/plugins.rs:110-139 | after a successful load every routed tool points at a plugin in the plugin map |
| Loading.LoadAllFailFast | src/plugins.rs:34-83 | a failed load is the error of some plugin whose predecessors all loaded, met while loading it on top of them |
| Loading.LoadAllIgnoresRest | src/plugins.rs:34-83 | once a plugin fails, the plugins after it play no part in the result |
| Loading.CollisionOnSecond | src/plugins.rs:113-128 | two plugins declaring the same tool fail the load on the second one, naming the first as the existing owner |
| Loading.LoadPlugins | src/plugins.rs:22-143 | the load loop computes the fold over the configuration from an empty service; on success every configured name is loaded and the index points only at loaded plugins |
| Handler.CallTool | src/plugins.rs:160-199 | not-found exactly when the tool is unrouted or its plugin is missing, and then the state is unchanged; otherwise the plugin's failure carries the plugin name, a bad answer is a deserialize error, and only the called plugin's memory changes |
| Handler.NotFoundIffUnrouted | src/plugins.rs:175-198 | with a consistent index, not-found means exactly that the tool is not in the index, and a call keeps the index consistent |
| Handler.RebuildIndex | src/plugins.rs:213-231 | the rebuild loop panics only on a plugin whose description did not parse, carrying that parse failure |
| Handler.RebuildProgress | src/plugins.rs:213-230 | the rebuild describes only plugins of the iteration; it panics exactly when some description does not parse, and then on such a plugin |
| Handler.RebuildRoutes | src/plugins.rs:213-225 | every rebuilt route points at a described plugin whose description lists the tool |
| Handler.RebuildCovers | src/plugins.rs:215-223 | without a panic, every tool some described plugin lists is routed |
| Handler.RebuildListsExactly | src/plugins.rs:215-226 | without a panic, the listed tools are exactly those the plugins' descriptions list |
| Handler.RebuildListsInOrder | src/plugins.rs:215-225 | without a panic, the listed tools are each plugin's listed tools concatenated in iteration order, duplicates included |
| Handler.RebuildLastWriter | src/plugins.rs:220-223 | without a panic, each route names the last plugin in iteration order that lists the tool |
| Handler.ListTools | src/plugins.rs:201-234 | the plugin key set and manifests are unchanged and the rebuilt index is consistent; the answer fails exactly when some description does not parse; otherwise index keys and listed tools are exactly those of plugins whose `describe` succeeded, and the answer is their tool lists concatenated in iteration order |
| Handler.ListToolsLastWriterWins | src/plugins.rs:215-223 | a tool listed by several plugins is routed to the last of them in iteration order |
| Handler.ListToolsOrderIndependent | src/plugins.rs:215-233 | up to ordering the answer does not depend on the map's iteration order: same success, same routed names, the same listed tools with the same multiplicities, same plugins |
| Handler.ListedToolsAreCallable | src/plugins.rs:176-177 | a tool that was just listed routes to a loaded plugin, so invoking it is never not-found |

## Left out

- HTTP fetching, file reads and writes, and cache directory creation are I/O. They are given results in `Sources.Fetcher`.
- `Sources.Acquire`: the filesystem is not shared state. The pull's write to the cache path and the later read of that path are independent oracle answers.
- The registry pull and signature-verification cryptography (the `oci` module) are foreign network and crypto code. It is not part of this model. Only the request (reference, target file, output path, verify flag) and its success or failure are kept.
- SHA-256 and hex encoding are a function parameter returning 64 lower-case hex digits. Only its 7-digit prefix and determinism are used.
- Sources.CacheFileNameInjective: it is about cache file names, not the files they denote. Path joining (`PathBuf::join`) is plain concatenation with "/", so the model does not see that names such as `x` and `./x` reach the same file, or that an absolute plugin name replaces the cache directory.
- The `to_str().unwrap()` panic on non-UTF-8 paths is not modelled, because strings here are always valid.
- The Extism engine (`Manifest`, `Plugin::new`, `plugin.call`) is foreign. The manifest is a plain record, with hosts as a sequence and paths and config as maps. Instantiation and calls are oracles.
- JSON handling with `serde_json`: the `{"params": request}` envelope is a datatype. The `expect` on serialising it is not modelled. Parsing a `ListToolsResult` or `CallToolResult` is folded into the oracle's outcome: failed, malformed or parsed.
- Error message text: errors are structured values (plugin name, cause) instead of the formatted strings given to `McpError::internal_error` and `anyhow!`.
- `RwLock`, `Arc` and async/await: each operation is one atomic step on the two maps. During a load, the index is written before the plugin is inserted; that intermediate state is not observable in the model.
- What a panic does to the process is not modelled; a panic is an error result. After a `list_tools` panic the model keeps the partly rebuilt index and the memories of the plugins already described.
- `get_info`, `initialize`, `ping`, `on_initialized`, `on_cancelled`, `on_progress` and `complete` are trivial protocol methods with no effect on the core state. Logging and tracing are left out too.
- `load_config` is file I/O plus parsing. Only its datatypes and the serde default of `insecure_skip_signature` are modelled.
- The pagination parameter of `list_tools` is ignored, as in the source.
- The `HashMap` iteration order of `list_tools` is unspecified, so it is a parameter: any sequence that lists each plugin name once.
