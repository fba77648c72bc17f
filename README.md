# sscan scan pipeline, modelled in Dafny

This project models the sequential core of sscan, a scanning framework whose
components are actors driven by Lua userscripts:

- **Data items** (`DataItems`): a `RawDatum` is realized to its name, no path and its
  bytes. A `File` item is realized to its file name (or `"<unknown filename>"`), its path
  and the file's bytes, or to an I/O error.
- **The item queue** (`ItemQueue`): a FIFO. `Enqueue` pushes at the back. `Dequeue` pops the
  front item and realizes it, and gives `QueueEmpty` on an empty queue.
- **The user engine registry** (`UserEngines`): maps names to Lua predicates over bytes.
  Registering a name replaces its entry. A scan runs every engine on the same bytes and
  returns the names of the engines that matched.
- **The scan manager** (`ScanManager`): `InvokeScan` drains the queue. For each item it adds one
  result per matching engine. An item that cannot be loaded or scanned gets a warning and is
  skipped.
- **The YARA-X engine** (`YaraEngines`): holds a list of rule sources and, after a
  successful compilation, a compiled rule set to scan with.
- **The help system** (`HelpSystems`): a topic registry keyed by name, plus the
  `help 'topic'` lookup, which trims the request.
- **The userscript API contract** (`UserscriptApi`): every API object's name must be a valid
  Lua identifier, and the default `init_script` does nothing.

Actor mechanics are not modelled. Mailboxes, `tell`/`ask` and weak references become plain
calls on objects. Each message handler runs atomically. "Actor X can be reached" is modelled
as X belonging to a `running: set<object>` parameter.

The Lua virtual machine is class `LuaHosts.LuaHost`. It has two parts:
- `globals`: the API objects registered by name;
- `warnings`: an append-only log of warning text.

Whether setting a global fails is a parameter. So are the file system (`fs: Path -> Result`)
and the YARA-X library (`YaraX`, a pair of functions). Lua engines are pure Dafny functions
`Bytes -> CallResult`.

A `HashMap` is iterated in an unspecified order, so `UserEngines.UserEngine.ScanBytes` picks
its next engine with `:|`. Its specification, `UserEngines.ScanReply`, therefore describes the
matches as a set without duplicates, not as a fixed sequence. When several engines raise, it
allows any one of them to be the one reported.

`ScanManager.ScanMgr.InvokeScan` returns a ghost record of each dequeued item's outcome.
`ScanManager.Explains` ties each outcome to the item it came from. The results and the
warnings are functions of these outcomes (`Results`, `Warnings`), and the lemmas about those
functions prove the ordering and exactness properties.

## Model

| member | source | states |
|---|---|---|
| DataItems.FileName | src/actors/queue/data_item.rs:122 | The final component of a Unix path as `Path::file_name` gives it. A trailing `/` and `.` segments are skipped. `..`, `/` and the empty path have none. Any name it returns is nonempty, contains no `/`, and is neither `.` nor `..`. |
| DataItems.FileNameOfJoin | src/actors/queue/data_item.rs:121-127 | The file name of `dir/name`, of `dir/name/` and of a bare `name` is `name`, for any normal component `name`. |
| DataItems.NoFileName | src/actors/queue/data_item.rs:122-126 | `dir/..`, `/` and the empty path have no file name, so they fall back to the sentinel. |
| DataItems.NewRawDatum | src/actors/queue/data_item.rs:61-69 | A raw datum's name is the name it was given, and its path is `None`. |
| DataItems.NewFile | src/actors/queue/data_item.rs:111-117 | A file item stores only its path. Its path is `Some(path)`. Its name is the path's file name, or `"<unknown filename>"` when there is none. |
| DataItems.Name | src/actors/queue/data_item.rs:121-127 | A file item's name is never empty and contains no `/`. |
| DataItems.PathOf | src/actors/queue/data_item.rs:129-131 | An item has a path exactly when it is a file item. |
| DataItems.Realize | src/actors/queue/data_item.rs:81-138 | A raw datum always realizes to exactly `(dname, None, content)`. A file item realizes to `(name, Some(path), bytes read)` exactly when the read succeeds. Otherwise it fails with that read error wrapped as `IOError`. Only file items fail. |
| DataItems.RealizeReadsOnlyItsPath | src/actors/queue/data_item.rs:133-137 | Realizing a file item depends on the file system only through its own path. |
| ItemQueue.Queue.New | src/actors/queue.rs:71-76 | A new queue has no items. |
| ItemQueue.Queue.WithCapacity | src/actors/queue.rs:80-85 | A new queue has no items, whatever the capacity. |
| ItemQueue.Queue.OnStart | src/actors/queue.rs:52-60 | If the VM cannot be reached: `NoLuaVm`, and no API is registered. Otherwise the queue API is registered under `queue`, and a registration error is passed on. |
| ItemQueue.Queue.Enqueue | src/actors/queue/messages.rs:53-55 | The item is appended at the back. Earlier items are unchanged and keep their order. |
| ItemQueue.Queue.Dequeue | src/actors/queue/messages.rs:106-112 | On an empty queue: `QueueEmpty`, and the queue is unchanged. Otherwise the front item is removed, the rest keep their order, and the reply is the front item's realization. A failed realization is returned, and the item is not put back. |
| ItemQueue.Queue.GetLength | src/actors/scanmgr/messages.rs:61 | The number of items in the queue. It cannot fail. |
| ItemQueue.Queue.Ping | src/macros.rs:201-204 | The queue is unchanged. |
| UserEngines.UserEngine.Ping | src/macros.rs:197-204 | The registered engines are unchanged. |
| ScanManager.ScanMgr.Ping | src/macros.rs:197-204 | The queue, the Lua globals and the warnings are unchanged. |
| ItemQueue.EnqueueThenDequeue | src/actors/queue/messages.rs:54-108 | An item enqueued on an empty queue and dequeued comes back as its realization. |
| ItemQueue.FirstInFirstOut | src/actors/queue/messages.rs:54-110 | Two items leave in the order they arrived, then the queue reports `QueueEmpty`. |
| ItemQueue.HelloWorldRoundTrip | src/actors/queue/messages.rs:88-97 | `RawDatum("hello_world", "blablabla-Hello World-blablabla")` enqueued and then dequeued gives `("hello_world", None, those bytes)`. |
| LuaHosts.LuaHost.RegisterUserApi | src/actors/lua_vm/messages.rs:62-69 | If setting the global succeeds, the API is bound under its name. If it fails, the error is returned and the globals are unchanged. |
| LuaHosts.LuaHost.RegisterUserApiAsDocumented | src/userscript_api.rs:146-160 | The API's startup script runs before the global is set. If it fails, its error is returned and the globals are unchanged. Otherwise the API is registered as `RegisterUserApi` does. The three services register their APIs this way, with the default startup script. |
| LuaHosts.StartupFailureIgnored | src/actors/lua_vm/messages.rs:62-69 | For any API and any startup error, registering as written succeeds, while the documented registration fails with that error. |
| LuaHosts.LuaHost.SendWarning | src/actors/scanmgr/messages.rs:66-70 | The warning is appended to the log. |
| UserEngines.UserEngine.Spawn | src/actors/user_engine.rs:70-76 | No engines are registered. |
| UserEngines.UserEngine.SpawnWithCapacity | src/actors/user_engine.rs:80-86 | No engines are registered, whatever the capacity. |
| UserEngines.UserEngine.OnStart | src/actors/user_engine.rs:51-59 | Startup always succeeds, even when the VM cannot be reached. When the VM is reachable, the engine API is registered. |
| UserEngines.UserEngine.Register | src/actors/user_engine/messages.rs:46-48 | The name is bound to the engine, replacing any earlier binding. Other entries are unchanged, and registration cannot fail. |
| UserEngines.UserEngine.ScanBytes | src/actors/user_engine/messages.rs:86-107 | If the VM cannot be reached: `NoLuaVm`, and no engine is run. Otherwise every engine runs on the same bytes. On success the reply holds exactly the engines that returned true, each once. On failure it reports `EngineInvocation` for a registered engine that raised, with that engine's error and no partial results. |
| UserEngines.ScanSucceedsIffAllReturn | src/actors/user_engine/messages.rs:93-103 | With the VM reachable, a scan succeeds exactly when no engine raises. |
| UserEngines.ScanReplyCount | src/actors/user_engine/messages.rs:93-103 | A successful reply has as many names as there are matching engines. |
| UserEngines.ScanReplyOfMatchSet | src/actors/user_engine/messages.rs:93-103 | If no engine matches, the reply is `[]`. If exactly `n` matches, the reply is `[n]`. |
| UserEngines.RegisterReplaces | src/actors/user_engine/messages.rs:46-48 | After a name is registered again, only its latest engine decides whether that name matches. All other names match as before. |
| UserEngines.TestMatchSet | tests/register_user_engines.rs:32-34 | With the test engines alwaysfalse, alwaystrue and helloworld, the matches are `alwaystrue`, plus `helloworld` exactly when the payload contains `Hello World`. |
| UserEngines.NoGreetingMatchSet | tests/register_user_engines.rs:32-34 | For a payload without `Hello World`, only `alwaystrue` matches. |
| UserEngines.GreetingMatchSet | tests/register_user_engines.rs:32-34 | For the payload containing `Hello World`, both `alwaystrue` and `helloworld` match. |
| UserEngines.RegisterUserEnginesScenario | tests/register_user_engines.rs:30-69 | The three test payloads give 1, 2 and 1 matches. |
| ScanManager.ScanMgr.Spawn | src/actors/scanmgr.rs:78-89 | The three given references are stored, and none of them is checked. |
| ScanManager.ScanMgr.OnStart | src/actors/scanmgr.rs:62-72 | If the VM cannot be reached: `NoLuaVm`. Otherwise the scan manager API is sent for registration and startup succeeds. |
| ScanManager.ScanMgr.ScanNextItem | src/actors/scanmgr/messages.rs:62-94 | Exactly one item is taken from the front of the queue, even when loading it fails. A load or scan failure sends exactly one warning and adds no result. A successful scan adds one result per name in the engines' reply, and sends no warning. |
| ScanManager.ScanMgr.InvokeScan | src/actors/scanmgr/messages.rs:45-97 | Checks the VM, the queue and the user engine in that order. The first one missing gives `NoLuaVm`, `NoQueue` or `NoUserEngine`, and nothing changes. Otherwise the queue is drained to empty and every item gets an outcome. The reply is `Ok` with the results of all outcomes in dequeue order, or `Ok([])` on an empty queue. The warnings are appended in the same order. |
| ScanManager.ScanMgr.Drain | src/actors/scanmgr/messages.rs:61-95 | With every service reachable, the loop ends with the queue empty and one outcome per item it held, each explaining that item. The results are those outcomes' results in order, and their warnings are appended in order. |
| ScanManager.EscapeDebug | src/actors/scanmgr/messages.rs:77 | A path with no double quote, single quote, backslash, `\n`, `\r`, `\t` or `\0` is printed as it is. A path's `Debug` text escapes each character as `char::escape_debug` does, so both quotes are escaped. |
| ScanManager.EscapeRoundTrip | src/actors/scanmgr/messages.rs:77 | The escaped path text reads back as the path itself, so escaping loses nothing. |
| ScanManager.DebugOptionPath | src/actors/scanmgr/messages.rs:77 | `None` prints as `None`, and nothing else does. A path prints as `Some("...")`, and the text between the quotes reads back as the path. |
| ScanManager.DebugOptionPathInjective | src/actors/scanmgr/messages.rs:77 | Two different optional paths never print alike. |
| ScanManager.SingleQuoteEscaped | src/actors/scanmgr/messages.rs:77 | The path `it's` is written as `it\'s`, with a backslash before the single quote. |
| ScanManager.LoadWarning | src/actors/scanmgr/messages.rs:66 | A load warning ends with the load error's own message. |
| ScanManager.ScanWarning | src/actors/scanmgr/messages.rs:77 | A scan warning holds the item's name right after its opening text, and ends with the `Debug` text of the item's optional path. |
| ScanManager.WarningsTellFailureKind | src/actors/scanmgr/messages.rs:66-77 | A load warning and a scan warning never coincide, so a warning tells which step failed. |
| ScanManager.Tag | src/actors/scanmgr/messages.rs:86-94 | An item contributes as many results as there are engine names in its reply. |
| ScanManager.TagAt | src/actors/scanmgr/messages.rs:86-94 | The j-th result of an item names the j-th engine of its reply, together with the item's name and path. |
| ScanManager.Snoc | src/actors/scanmgr/messages.rs:58-93 | Each further item appends its own results and warnings to those already gathered. |
| ScanManager.ResultsPrefix | src/actors/scanmgr/messages.rs:58-93 | Results are never removed: the results of the first i items are a prefix of all the results. |
| ScanManager.ResultsBlock | src/actors/scanmgr/messages.rs:86-94 | An item's results appear together and in reply order, starting right after the results of all earlier items. |
| ScanManager.OffsetMonotone | src/actors/scanmgr/messages.rs:61-94 | The results of an item dequeued earlier come before the results of any item dequeued later. |
| ScanManager.ResultsMembership | src/actors/scanmgr/messages.rs:63-94 | A result appears in the reply exactly when some item produced it. Skipped items produce none. |
| ScanManager.ProducingItem | src/actors/scanmgr/messages.rs:63-94 | Every result in the reply comes from some dequeued item's own results. |
| ScanManager.ProducedIsReported | src/actors/scanmgr/messages.rs:86-94 | Every result an item produces is in the reply. |
| ScanManager.ItemResultsExact | src/actors/scanmgr/messages.rs:86-94 | For an item that loaded and scanned, an engine appears among its results exactly when it matched, and at most once. Every result carries the item's name and path. |
| ScanManager.LoadFailuresAreIoErrors | src/actors/scanmgr/messages.rs:63-72 | An item is skipped at load only if it is a file whose read failed. The warning reports that I/O error. |
| ScanManager.InlineOutcome | src/actors/scanmgr/messages.rs:76-94 | A raw datum on which every engine returns gets no warning. It gets one result per matching engine, however many engines match. The results are exact when at most one engine matches. Otherwise they are exact up to order, since the order is the engines' run order. |
| ScanManager.InlineSingleMatch | src/actors/scanmgr/messages.rs:76-94 | A raw datum that exactly one engine matches gets exactly that engine's result and no warning. |
| ScanManager.InlineNoMatch | src/actors/scanmgr/messages.rs:76-94 | A raw datum that no engine matches gets no result and no warning. |
| ScanManager.InlineReply | src/actors/scanmgr/messages.rs:63-94 | A raw datum on which every engine returns always loads and scans. Its reply lists the matching engines once each, and it gets no warning. |
| ScanManager.SameNamesSameResults | src/actors/scanmgr/messages.rs:86-94 | Two duplicate-free listings of the same engines give an item the same results, up to order. |
| ScanManager.TagCount | src/actors/scanmgr/messages.rs:86-94 | A result occurs among an item's results exactly as often as its engine occurs in the reply. Results for any other item never occur. |
| ScanManager.ThreeItemScan | src/actors/scanmgr/messages.rs:45-97 | Three inline items, engine A matching items 1 and 3 and engine B matching none. The scan gives `(A, item1), (A, item3)`, sends no warning, and leaves the queue empty. |
| YaraEngines.FirstRejected | src/yara_engine/messages.rs:26-30 | The first source the compiler rejects, given every source before it, or none when all are accepted. |
| YaraEngines.YaraEngine.Default | src/yara_engine/mod.rs:56-63 | There are no rules and nothing is compiled. |
| YaraEngines.YaraEngine.AddRule | src/yara_engine/messages.rs:13-15 | The source is appended, the order of the sources is kept, and the compiled set is untouched. |
| YaraEngines.YaraEngine.CompileRules | src/yara_engine/messages.rs:24-33 | If a source is rejected: that source's `CompilationError` for the first one, and the previous compiled set is kept. Otherwise the compiled set becomes the current sources. The sources are never cleared. |
| YaraEngines.YaraEngine.ScanBytes | src/yara_engine/messages.rs:42-61 | With nothing compiled: `NoCompiledRules` with the bytes. On a scanner error: `ScanError` with the bytes. Otherwise the scanner's matching rules are each converted, in the scanner's order and with none dropped. The engine's state is never changed. |
| YaraEngines.ToMatchedRule | src/yara_engine/result.rs:18-51 | Identifier, namespace and tags are copied, with the tags in order. The metadata map is built by inserting each entry's text under its key, in order. |
| YaraEngines.MetadataLookup | src/yara_engine/result.rs:25-35 | A key is in the converted metadata exactly when some entry has it. Its text is that of the last entry with that key. |
| YaraEngines.Digits | src/yara_engine/result.rs:31 | An integer's text is one or more decimal digits, with no leading zero. |
| YaraEngines.DigitsRoundTrip | src/yara_engine/result.rs:31 | An integer's text reads back as its value. |
| YaraEngines.CompileFailure | src/yara_engine/result.rs:76-81 | A compile failure carries the rejected source, the library's error, and that error's code and title. |
| YaraEngines.AddedRuleTakesEffectOnlyOnCompile | src/yara_engine/messages.rs:13-15 | On any engine, compiled or not, adding a rule does not change what a scan reports until the next compilation. |
| YaraEngines.ScanWithoutCompiling | src/yara_engine/mod.rs:182-193 | Scanning before any compilation fails with `NoCompiledRules`. |
| YaraEngines.CompileInvalidRuleFails | src/yara_engine/mod.rs:166-180 | A rule the compiler rejects makes compilation fail with that rule's error. A later scan still has no compiled rules. |
| YaraEngines.CompileThenScan | src/yara_engine/mod.rs:115-164 | Once an accepted rule is compiled, a scan reports what the scanner matches with that one rule, converted rule by rule. |
| YaraEngines.FailedCompileKeepsEarlierRules | src/yara_engine/messages.rs:25-31 | A rejected source leaves the last successfully compiled set in use. |
| HelpSystems.Trim | src/macros.rs:140 | The trimmed name starts and ends with a character that is not Unicode white space. |
| HelpSystems.TrimPadded | src/macros.rs:140 | Trimming removes exactly the white space around a name and nothing else. |
| HelpSystems.Printed | src/macros.rs:141-145 | The printed text starts with the topic content and always ends with a blank line. |
| HelpSystems.Builtins | src/userscript_api/help_system.rs:37-44 | There are six built-in topics. |
| HelpSystems.RegisteredKeepsAll | src/userscript_api/help_system.rs:109-110 | When topic names are distinct, no registration overwrites another. The registry holds exactly those names, each mapped to its topic. |
| HelpSystems.BuiltinsComply | src/userscript_api/help_system.rs:37-44 | The built-in topics have distinct names, and they follow the naming and description advice. |
| HelpSystems.BuiltinNamesComply | src/userscript_api/help_system.rs:104-114 | Each built-in name has at most 16 characters, is lowercase snake case (words of lowercase letters and digits, the first starting with a letter, joined by single underscores), and is not `topics`. |
| HelpSystems.BuiltinDescriptionsComply | src/userscript_api/help_system.rs:127-128 | Each built-in description is a single line of fewer than 50 characters. |
| HelpSystems.DefaultTopics | src/macros.rs:177-185 | The default registry holds exactly about, fs, path, queue, scanmgr and user_engines, each as declared. |
| HelpSystems.HelpSystem.New | src/macros.rs:122-126 | There are no topics. |
| HelpSystems.HelpSystem.Default | src/macros.rs:177-185 | The built-in topics are registered in declaration order. |
| HelpSystems.HelpSystem.Topic | src/macros.rs:129-132 | The topic is registered under its name, replacing a same-named topic. The system itself is returned for chaining. |
| HelpSystems.HelpSystem.Call | src/macros.rs:138-154 | With no topic: the generic help. Otherwise the lookup uses the trimmed name and prints that topic. An unknown topic gives `TopicNotFound` with the name as it was requested. |
| HelpSystems.PaddedRequestFindsTopic | src/macros.rs:140 | A request with white space around a registered name prints that topic. |
| HelpSystems.RegisterThenLookup | src/macros.rs:129-146 | In any registry, a topic just registered under a name without surrounding white space is what `help` prints for that name, whatever was registered under it before. A name with surrounding white space is never found, because `help` trims the request. |
| UserscriptApi.ApiObject.Name | src/userscript_api.rs:94-98 | Every API object's name is a valid Lua 5.4 identifier. |
| UserscriptApi.ApiNamesDistinct | src/actors/lua_vm/messages.rs:67 | No two API objects claim the same global. |
| UserscriptApi.DocumentedExamples | src/userscript_api.rs:100-110 | `myfunc`, `my_func2` and `_myFunc_3` are valid. `5myfunc`, `4_my_function` and `$myfunc` are not. |
| UserscriptApi.CaseSensitive | src/userscript_api.rs:96-98 | Validity depends on the exact spelling: `And` and `NIL` are names, `and` and `nil` are not. |
| UserscriptApi.UnderscorePrefixIsName | src/userscript_api.rs:96-98 | An underscore followed by any letters, digits and underscores is a valid identifier. |
| UserscriptApi.GotoAcceptedAsDocumented | src/userscript_api.rs:119-130 | The documented keyword list accepts `goto`, which Lua 5.4 reserves. |
| UserscriptApi.DocumentedRuleDiffersOnlyOnGoto | src/userscript_api.rs:119-130 | Apart from `goto`, the documented rule and the Lua 5.4 rule accept the same names. |
| UserscriptApi.DefaultInitScript | src/userscript_api.rs:179-181 | The default startup script always succeeds. |

## Left out

- Actor runtime: spawning, mailboxes, `tell`/`ask`, `link` and weak-reference upgrade races are concurrency. Liveness is the `running` set, and each handler runs atomically.
- Concurrent producers during `InvokeScan` are not modelled. The drain is proved for a queue that only the scan manager touches, which is what makes the queue length a termination measure.
- `ScanManager.ScanMgr.InvokeScan`: the capacity hint (16384) of the result vector only affects allocation, so it is not modelled.
- `ScanManager.ScanMgr.OnStart` and `UserEngines.UserEngine.OnStart` send the registration with `tell`, so its outcome is never seen. A failure of the mailbox send itself is not modelled.
- `ScanManager.ScanMgr.InvokeScan`'s drain loop is written as its own method, `ScanManager.ScanMgr.Drain`. The loop's body is another method, `ScanManager.ScanMgr.ScanNextItem`. Otherwise the loop is as in the source, re-reading the queue length on each pass.
- `ScanManager.EscapeDebug`: the `Debug` text of a path escapes double quotes, single quotes, backslashes, `\n`, `\r`, `\t` and `\0`. The `\u{...}` escapes for other non-printable and grapheme-extending characters are not modelled. Neither are the `\xNN` escapes for bytes of a file name that are not UTF-8, since paths are character strings here.
- `DataItems.FileName` follows Unix path rules. Windows prefixes and separators, and the lossy conversion of non-UTF-8 file names, are not modelled; paths are strings.
- The Lua virtual machine (`mlua`, chunk execution and evaluation, and `init_script` hooks other than the default) is a foreign library. What a startup script reports is a parameter of `LuaHosts.LuaHost.RegisterUserApiAsDocumented`. The globals such a script sets are not modelled, because `globals` holds only API objects. Registration failure is a parameter, and engines are pure functions of the bytes. An engine's return value is converted by Lua truthiness: `nil` and `false` are no match, and any other value is a match. Only a Lua error is `Raised`.
- The `help:topics()` listing and the generic help text only print, so they are not modelled. The topic contents are read from files at build time and are a parameter of `HelpSystems.HelpSystem.Default`.
- YARA-X compilation and matching belong to the library, so they are the `YaraX` parameter. `YaraEngines.MetaText` covers the metadata text of booleans, integers and strings. A float's and a byte string's `to_string` text is kept as the library reports it, because float formatting is not modelled.
- The `process` API (Windows only), the file-system API, the about API and the Lua-side adapters of the queue, user engine and scan manager are not part of this model. They forward to the operations modelled here or to I/O.
- `UserEngines.HelloWorld`: the Lua source of the `helloworld` test engine is not part of this model. Its behaviour (a match on `Hello World`) is taken from its name and from the test's expected counts.
- Sizes are unbounded integers; `usize` overflow cannot happen at these sizes.

## Findings

| source | as written | input that shows it | evidently intended | confidence | as-written member | corrected member |
|---|---|---|---|---|---|---|
| src/userscript_api.rs:119-130 | The list of Lua 5.4 reserved keywords that API names must avoid has 21 entries. | `goto`: the documented rule accepts it as an API name, but Lua 5.4 reserves it (section 3.1 of the Lua 5.4 Reference Manual), so a global named `goto` cannot be referred to by name. | All 22 reserved words of Lua 5.4, including `goto`. | not executed | UserscriptApi.GotoAcceptedAsDocumented | UserscriptApi.DocumentedRuleDiffersOnlyOnGoto |
| src/actors/lua_vm/messages.rs:62-69 | The `RegisterUserApi` handler only sets the global. It never calls the API's `init_script`, although src/userscript_api.rs:146-147 says the startup script runs when an API is loaded through `RegisterUserApi`. | The about API (src/userscript_api/about_api.rs:116): its `init_script` sets `_VERSION`, `_LICENSE` and the other information globals, but it never runs, and a startup error is never reported. | Call `init_script` first, return its error, and set the global only when it succeeds. | not executed | LuaHosts.StartupFailureIgnored | LuaHosts.LuaHost.RegisterUserApiAsDocumented |
