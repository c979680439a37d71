# PersonalSite interactive demos: a Dafny model

The personal site runs several interactive demos. The cryptographic and CPU
code behind them is compiled to WebAssembly and reached through
Emscripten's `ccall`. The site's own TypeScript around those binaries is
modelled here:

- **The WebAssembly module registry** (`useWasmLoader`). It keeps two
  page-lifetime maps: name to loaded instance, and name to the promise of
  that name's one load. Each component that asks for a module either
  reuses the cached instance, attaches to the load in flight, or starts
  the load by injecting a script. The module is a state machine over a
  `State` value, with one transition per event. The `Registry` class holds
  the same maps as fields. Each event method is proved equal to its
  corresponding transition (`OnScriptLoad` to `ScriptLoaded`, `Settle` to
  `Fulfill`, `Fail` to `Reject`, and so on), and the queries `Lookup` and
  `IsLoaded` are proved to agree with `GetWasmModule` and
  `IsWasmModuleLoaded`. A started load completes through explicit
  events: the script's load or error event, and the factory's promise
  resolving or rejecting. Each caller has its own `loading / error / ready`
  record.
- **The DES demo's predecessor loader**, which keeps one module in two
  module-level singletons. Also the guard sequences of its encryption and
  decryption cards around the 64-bit block and key of FIPS 46-3.
- **The RSA demo.** The conversions between the text typed or shown and
  the integer used: ASCII character codes written one after another,
  decimal, hexadecimal and binary. The decimal-to-ASCII loop is a method
  proved against its specification function. Also the guards of the three
  cards, and textbook encryption `m^e mod n`, which is the RSAEP primitive
  of section 5.1.1 of RFC 8017 for `0 <= m < n`.
- **The emulator demo.** The `[DEBUG]` filter and line splitting of the
  console output, and the run/step/input/reset state machine. That state
  machine includes the `while (true)` fast-finish loop, modelled as a
  method with loop invariants. Every value the compiled emulator returns
  is an input: step codes, load results, register read-backs and console
  text.
- **The image carousels** of the capstone page (six images) and of the
  capstone project card (four images).

JavaScript's `parseInt`, `Number.prototype.toString(radix)`, `trim`,
`indexOf`, `split`, `replace(/\0/g, '')` and ASCII case mapping are
modelled in `JsNumber` and `JsString`, with their own round-trip lemmas.
Numbers are unbounded integers, and NaN and `null` are `None`/`Null`.

Files:

- `wrappers.dfy`: `Option`.
- `ccall.dfy`: the result of a `ccall`.
- `js_string.dfy` and `js_number.dfy`: the JavaScript built-ins.
- `wasm_loader.dfy`: the registry.
- `des_demo.dfy`: the DES demo.
- `rsa_demo.dfy`: the RSA demo.
- `emulator_demo.dfy`: the emulator demo.
- `carousel.dfy`: the carousels.

## Model

| member | source | states |
|---|---|---|
| WasmLoader.EffectiveExportName | src/ts/hooks/useWasmLoader.ts:28 | the global name read is the export name when one is given and non-empty, the module name otherwise |
| WasmLoader.InitialCaller | src/ts/hooks/useWasmLoader.ts:25-27 | a new caller is loading exactly when the module is not cached, ready exactly when it is, with no error |
| WasmLoader.Mount | src/ts/hooks/useWasmLoader.ts:25-27 | a component using the hook mounts and gets its own caller record; pinned by MountStartsCaller |
| WasmLoader.Request | src/ts/hooks/useWasmLoader.ts:30-126 | the hook's effect: reuse the cached instance, attach to the load in flight, or register the one promise and inject the script; pinned by RequestCached, RequestAttaches, RequestAfterFailure and RequestStartsLoad |
| WasmLoader.Fulfill | src/ts/hooks/useWasmLoader.ts:79-83 | a load resolves: the instance is registered and every waiter becomes ready; pinned by PlainExportStored and FactoryInstanceStored |
| WasmLoader.Reject | src/ts/hooks/useWasmLoader.ts:99-108 | a load rejects: nothing is registered and every waiter reports the failure; pinned by MissingExportRejects and ScriptErrorRejects |
| WasmLoader.ScriptLoaded | src/ts/hooks/useWasmLoader.ts:65-103 | the script's onload: a callable export is invoked and awaited, another truthy one stored, a falsy one rejects; pinned by CallableExportInvoked, PlainExportStored and MissingExportRejects |
| WasmLoader.ScriptError | src/ts/hooks/useWasmLoader.ts:105-108 | the script's onerror rejects with "Script load failed"; pinned by ScriptErrorRejects |
| WasmLoader.FactoryResolved | src/ts/hooks/useWasmLoader.ts:76-83 | the factory's promise resolves: the instance is registered and replaces the global; pinned by FactoryInstanceStored |
| WasmLoader.FactoryRejected | src/ts/hooks/useWasmLoader.ts:84-89 | the factory's promise rejects: the starting caller shows the init message until the outer catch overwrites it; pinned by FactoryRejectionRejects |
| WasmLoader.GetWasmModule | src/ts/hooks/useWasmLoader.ts:134-137 | `getWasmModule(name)`; pinned by LookupOnlyAfterSuccess |
| WasmLoader.IsWasmModuleLoaded | src/ts/hooks/useWasmLoader.ts:142-145 | `isWasmModuleLoaded(name)`; pinned by LookupOnlyAfterSuccess |
| WasmLoader.Enabled | src/ts/hooks/useWasmLoader.ts:30-126 | when each event can happen: requests from mounted callers, each completion only while its load waits for it |
| WasmLoader.Step | src/ts/hooks/useWasmLoader.ts:30-126 | the registry after one event; its invariant and extension are StepInv and StepExtends |
| WasmLoader.InitInv | src/ts/hooks/useWasmLoader.ts:10-11 | the empty registry satisfies the invariant: cached names are exactly the fulfilled ones, one script per registered name, each factory invoked at most once and only after its script loaded, and every pending load's starting caller waits on it |
| WasmLoader.MountInv | src/ts/hooks/useWasmLoader.ts:25-27 | a mounting caller keeps the invariant |
| WasmLoader.RequestInv | src/ts/hooks/useWasmLoader.ts:30-126 | every request (cached, attach or start) keeps the invariant |
| WasmLoader.AttachInv | src/ts/hooks/useWasmLoader.ts:41-56 | attaching a caller to a pending promise keeps the invariant |
| WasmLoader.StartLoadInv | src/ts/hooks/useWasmLoader.ts:59-113 | starting a load (registering the promise and injecting the script together) keeps the invariant |
| WasmLoader.InvokeFactoryInv | src/ts/hooks/useWasmLoader.ts:70-76 | invoking a callable export keeps the invariant: the factory is called once, and only from the script-pending stage |
| WasmLoader.FulfillInv | src/ts/hooks/useWasmLoader.ts:79-83 | resolving a pending load keeps the invariant |
| WasmLoader.RejectInv | src/ts/hooks/useWasmLoader.ts:99-108 | rejecting a pending load keeps the invariant |
| WasmLoader.ReplaceCallersInv | src/ts/hooks/useWasmLoader.ts:80-82 | caller states and overwritten globals do not affect the invariant |
| WasmLoader.ScriptValueInv | src/ts/hooks/useWasmLoader.ts:91-98 | storing a non-callable export keeps the invariant |
| WasmLoader.FactoryResolvedInv | src/ts/hooks/useWasmLoader.ts:76-83 | the factory's resolution keeps the invariant |
| WasmLoader.FactoryRejectedInv | src/ts/hooks/useWasmLoader.ts:84-89 | the factory's rejection keeps the invariant |
| WasmLoader.ScriptLoadedInv | src/ts/hooks/useWasmLoader.ts:65-103 | the script's load event keeps the invariant, whatever the script published |
| WasmLoader.StepInv | src/ts/hooks/useWasmLoader.ts:30-126 | every enabled event keeps the invariant |
| WasmLoader.RunInv | src/ts/hooks/useWasmLoader.ts:30-126 | every run of events from an invariant state ends in an invariant state |
| WasmLoader.AtMostOneScriptPerName | src/ts/hooks/useWasmLoader.ts:59-113 | from page load, over any run, at most one script is injected per name, exactly one for each requested name, and each factory is invoked at most once |
| WasmLoader.MountExtends | src/ts/hooks/useWasmLoader.ts:25-27 | mounting removes nothing from either map |
| WasmLoader.RequestExtends | src/ts/hooks/useWasmLoader.ts:30-126 | a request removes nothing from either map and changes no settled promise or cached instance |
| WasmLoader.ScriptLoadedExtends | src/ts/hooks/useWasmLoader.ts:65-103 | the load event only adds to the maps |
| WasmLoader.ScriptErrorExtends | src/ts/hooks/useWasmLoader.ts:105-108 | the error event only adds to the maps |
| WasmLoader.FactoryResolvedExtends | src/ts/hooks/useWasmLoader.ts:76-83 | the factory's resolution only adds to the maps |
| WasmLoader.FactoryRejectedExtends | src/ts/hooks/useWasmLoader.ts:84-89 | the factory's rejection only adds to the maps |
| WasmLoader.StepExtends | src/ts/hooks/useWasmLoader.ts:10-11 | no event removes an entry from either map or changes a cached instance or a settled promise |
| WasmLoader.RunExtends | src/ts/hooks/useWasmLoader.ts:10-11 | over any run nothing is evicted: cached instances stay unchanged, and a failed name stays failed |
| WasmLoader.MountStartsCaller | src/ts/hooks/useWasmLoader.ts:25-27 | the new caller's loading is "not cached", its ready is "cached", and its error is empty |
| WasmLoader.RequestCached | src/ts/hooks/useWasmLoader.ts:33-38 | a request for a cached name makes its caller ready and not loading, and changes no script, promise, module or other caller |
| WasmLoader.RequestAttaches | src/ts/hooks/useWasmLoader.ts:41-56 | a request during a pending load adds the caller to the waiters, keeps the old waiters, and starts nothing |
| WasmLoader.RequestAfterFailure | src/ts/hooks/useWasmLoader.ts:41-56 | a request for a failed name reports "Failed to load WebAssembly module" without retrying: no script, and the promise stays rejected |
| WasmLoader.RequestStartsLoad | src/ts/hooks/useWasmLoader.ts:59-113 | the first request registers a pending promise with the effective export name and appends exactly one script, in the same step; only that caller waits |
| WasmLoader.CallableExportInvoked | src/ts/hooks/useWasmLoader.ts:70-76 | a callable export is invoked exactly once and the load waits for its promise; nothing is registered and no caller changes |
| WasmLoader.PlainExportStored | src/ts/hooks/useWasmLoader.ts:91-98 | a truthy non-callable export is registered as is, nothing is invoked, every waiter becomes ready and the other callers are unchanged |
| WasmLoader.FactoryInstanceStored | src/ts/hooks/useWasmLoader.ts:76-83 | the factory's instance is registered and overwrites the global export, and every waiter becomes ready together |
| WasmLoader.MissingExportRejects | src/ts/hooks/useWasmLoader.ts:99-102 | a missing export rejects with `Module export name "…" not found`, stores nothing, and every waiter reports the load failure |
| WasmLoader.ScriptErrorRejects | src/ts/hooks/useWasmLoader.ts:105-108 | a script error rejects with "Script load failed", stores nothing, and every waiter reports the load failure |
| WasmLoader.FactoryRejectionRejects | src/ts/hooks/useWasmLoader.ts:84-89 | a rejected factory rejects the load, stores nothing, and every waiter, the starting caller included, ends with the load failure |
| WasmLoader.LookupOnlyAfterSuccess | src/ts/hooks/useWasmLoader.ts:134-145 | `getWasmModule` answers exactly for names whose promise fulfilled, with the registered instance, and `isWasmModuleLoaded` agrees with it |
| WasmLoader.Registry.constructor | src/ts/hooks/useWasmLoader.ts:10-11 | the registry starts empty and valid |
| WasmLoader.Registry.MountCaller | src/ts/hooks/useWasmLoader.ts:25-27 | the new state is `Mount` of the old one, and the caller gets the next index |
| WasmLoader.Registry.RequestModule | src/ts/hooks/useWasmLoader.ts:30-126 | the new state is `Request` of the old one, and the invariant is kept |
| WasmLoader.Registry.Settle | src/ts/hooks/useWasmLoader.ts:115-120 | from a pending load, the new state is `Fulfill` of the old one and the invariant is kept |
| WasmLoader.Registry.Fail | src/ts/hooks/useWasmLoader.ts:121-125 | from a pending load, the new state is `Reject` of the old one and the invariant is kept |
| WasmLoader.Registry.OnScriptLoad | src/ts/hooks/useWasmLoader.ts:65-103 | the new state is `ScriptLoaded` of the old one, and the invariant is kept |
| WasmLoader.Registry.OnScriptError | src/ts/hooks/useWasmLoader.ts:105-108 | the new state is `ScriptError` of the old one, and the invariant is kept |
| WasmLoader.Registry.OnFactoryResolve | src/ts/hooks/useWasmLoader.ts:76-83 | the new state is `FactoryResolved` of the old one, and the invariant is kept |
| WasmLoader.Registry.OnFactoryReject | src/ts/hooks/useWasmLoader.ts:84-89 | the new state is `FactoryRejected` of the old one, and the invariant is kept |
| WasmLoader.Registry.Lookup | src/ts/hooks/useWasmLoader.ts:134-137 | the lookup answers exactly for fulfilled names, agreeing with `GetWasmModule` |
| WasmLoader.Registry.IsLoaded | src/ts/hooks/useWasmLoader.ts:142-145 | `isWasmModuleLoaded` holds exactly when the lookup answers |
| DesLoader.InitInv | src/ts/components/DESEncryptionDemo.tsx:11-12 | the initial singletons satisfy the invariant: module recorded exactly when the promise fulfilled, one script once the promise exists, and the starting caller among the waiters |
| DesLoader.Mount | src/ts/components/DESEncryptionDemo.tsx:16-18 | a card mounts and gets its own caller record; pinned by MountStartsCaller |
| DesLoader.Request | src/ts/components/DESEncryptionDemo.tsx:20-77 | the loader's effect: reuse the module, wait on the promise, or create the promise and inject the script; pinned by RequestCached, RequestWhileLoading and FirstRequestStartsLoad |
| DesLoader.Reject | src/ts/components/DESEncryptionDemo.tsx:57-76 | the promise rejects: every waiter reports "Failed to load WebAssembly module"; pinned by FailureReachesEveryWaiter |
| DesLoader.ScriptLoaded | src/ts/components/DESEncryptionDemo.tsx:48-59 | the script's onload: a published module gets the runtime callback, none rejects with "Module not found" |
| DesLoader.ScriptError | src/ts/components/DESEncryptionDemo.tsx:61-63 | the script's onerror rejects with "Script load failed"; pinned by FailureReachesEveryWaiter |
| DesLoader.RuntimeInitialized | src/ts/components/DESEncryptionDemo.tsx:50-55 | the runtime callback records the module and readies every waiter; pinned by ModuleRecordedOnlyAtRuntime |
| DesLoader.StepInv | src/ts/components/DESEncryptionDemo.tsx:20-77 | every enabled event keeps the invariant |
| DesLoader.RunInv | src/ts/components/DESEncryptionDemo.tsx:20-77 | every run keeps the invariant |
| DesLoader.AtMostOneScript | src/ts/components/DESEncryptionDemo.tsx:43-66 | over any run at most one script is injected, and one is injected exactly when the promise exists |
| DesLoader.MountStartsCaller | src/ts/components/DESEncryptionDemo.tsx:16-18 | a new card is loading exactly when no module is recorded, and ready exactly when one is |
| DesLoader.RequestCached | src/ts/components/DESEncryptionDemo.tsx:22-26 | with the module recorded, a request makes the caller ready at once and injects nothing |
| DesLoader.RequestWhileLoading | src/ts/components/DESEncryptionDemo.tsx:29-40 | with a promise present, a request injects no second script: it waits when the load is pending, and reports "Failed to load WebAssembly module" when it was rejected |
| DesLoader.FirstRequestStartsLoad | src/ts/components/DESEncryptionDemo.tsx:43-66 | the first request assigns the pending promise and injects the one script in the same step, and no module is recorded yet |
| DesLoader.ModuleRecordedOnlyAtRuntime | src/ts/components/DESEncryptionDemo.tsx:50-55 | only the runtime-initialised callback records the module, and it makes every waiter ready |
| DesLoader.FailureReachesEveryWaiter | src/ts/components/DESEncryptionDemo.tsx:56-63 | a missing `window.Module` rejects with "Module not found" and a script error with "Script load failed"; every waiter reports the failure and no module is recorded |
| DesLoader.Singletons.constructor | src/ts/components/DESEncryptionDemo.tsx:11-12 | both singletons start empty |
| DesLoader.Singletons.MountCard | src/ts/components/DESEncryptionDemo.tsx:16-18 | the new state is `Mount` of the old one, and the card gets the next index |
| DesLoader.Singletons.RequestModule | src/ts/components/DESEncryptionDemo.tsx:20-77 | the new state is `Request` of the old one, and the invariant is kept |
| DesLoader.Singletons.Fail | src/ts/components/DESEncryptionDemo.tsx:73-76 | from a pending load, the new state is `Reject` of the old one and the invariant is kept |
| DesLoader.Singletons.OnScriptLoad | src/ts/components/DESEncryptionDemo.tsx:48-59 | the new state is `ScriptLoaded` of the old one, and the invariant is kept |
| DesLoader.Singletons.OnScriptError | src/ts/components/DESEncryptionDemo.tsx:61-63 | the new state is `ScriptError` of the old one, and the invariant is kept |
| DesLoader.Singletons.OnRuntimeInitialized | src/ts/components/DESEncryptionDemo.tsx:50-55 | the new state is `RuntimeInitialized` of the old one, and the invariant is kept |
| DesCards.EncryptCheck | src/ts/components/DESEncryptionDemo.tsx:90-103 | each guard gives its own message in order: "WebAssembly not loaded yet", then "Plaintext must be exactly 8 characters" for a plaintext that is not 8 UTF-16 units, then "Key must be exactly 8 characters"; encryption proceeds exactly when the button's enabling condition holds |
| DesCards.DecryptCheck | src/ts/components/DESEncryptionDemo.tsx:214-227 | each guard gives its own message in order: "WebAssembly not loaded yet", then "Ciphertext is required", then "Key must be exactly 8 characters" for a key that is not 8 UTF-16 units; decryption proceeds exactly when the button's enabling condition holds |
| DesCards.EncryptEnabled | src/ts/components/DESEncryptionDemo.tsx:183 | the Encrypt button is enabled exactly when the module is ready and plaintext and key are 8 UTF-16 units each; EncryptCheck passes exactly then |
| DesCards.DecryptEnabled | src/ts/components/DESEncryptionDemo.tsx:306 | the Decrypt button is enabled exactly when the module is ready, the ciphertext non-empty and the key 8 UTF-16 units; DecryptCheck passes exactly then |
| DesCards.Encrypt | src/ts/components/DESEncryptionDemo.tsx:89-124 | the inputs are untouched; a failed guard only sets its message; otherwise any result but "ERROR" is shown with the error cleared, "ERROR" gives "Encryption failed", an exception gives "Error encrypting: " and its text, and each failure clears the ciphertext |
| DesCards.Decrypt | src/ts/components/DESEncryptionDemo.tsx:213-248 | a failed guard only sets its message; an "ERROR" or empty result gives "Decryption failed", an exception gives "Error decrypting: " and its text, and each failure clears the plaintext; any other result is shown with every NUL character removed |
| DesCards.DecryptShowsCleanResult | src/ts/components/DESEncryptionDemo.tsx:237-242 | a NUL-free result is shown exactly as returned, with no error |
| DesCards.DefaultsFillOneBlock | src/ts/components/DESEncryptionDemo.tsx:83-84 | the default plaintext and key are each exactly one 8-character block, so encryption is enabled once the module is ready |
| DesCards.EncryptionCard.constructor | src/ts/components/DESEncryptionDemo.tsx:83-86 | the card starts with "HELLO123", "SECRET!!" and no ciphertext or error |
| DesCards.EncryptionCard.SetPlaintext | src/ts/components/DESEncryptionDemo.tsx:154 | the typed plaintext is stored upper-cased; nothing else changes |
| DesCards.EncryptionCard.SetKey | src/ts/components/DESEncryptionDemo.tsx:171 | the typed key is stored upper-cased; nothing else changes |
| DesCards.EncryptionCard.HandleEncrypt | src/ts/components/DESEncryptionDemo.tsx:89-124 | the card's new state is `Encrypt` of its old state |
| DesCards.DecryptionCard.constructor | src/ts/components/DESEncryptionDemo.tsx:207-210 | the card starts with an empty ciphertext and the key "SECRET!!" |
| DesCards.DecryptionCard.SetCiphertext | src/ts/components/DESEncryptionDemo.tsx:278 | the typed ciphertext is stored lower-cased |
| DesCards.DecryptionCard.SetKey | src/ts/components/DESEncryptionDemo.tsx:294 | the typed key is stored upper-cased |
| DesCards.DecryptionCard.HandleDecrypt | src/ts/components/DESEncryptionDemo.tsx:213-248 | the card's new state is `Decrypt` of its old state |
| RsaFormats.FromParse | src/ts/components/RSAEncryptionDemo.tsx:21-25 | a parsed number is kept as it is, and NaN stays NaN |
| RsaFormats.CharCodes | src/ts/components/RSAEncryptionDemo.tsx:18 | the joined character codes are all decimal digits, and there is at least one for non-empty text |
| RsaFormats.ConvertInputToDecimal | src/ts/components/RSAEncryptionDemo.tsx:12-32 | the result is null exactly for an unknown format or empty ASCII text; non-empty ASCII text always gives a non-negative number |
| RsaFormats.Chunk | src/ts/components/RSAEncryptionDemo.tsx:43 | `value.slice(i, i + 2)` is one or two characters |
| RsaFormats.ChunkChar | src/ts/components/RSAEncryptionDemo.tsx:43-46 | a chunk yields a character only when its code is printable, 32 to 126 |
| RsaFormats.ChunkText | src/ts/components/RSAEncryptionDemo.tsx:44-46 | a chunk adds at most one character |
| RsaFormats.AsciiFrom | src/ts/components/RSAEncryptionDemo.tsx:42-47 | the decoded text is printable and at most half as long as the digits (rounded up) |
| RsaFormats.AsciiOutputShape | src/ts/components/RSAEncryptionDemo.tsx:40-48 | the ASCII output is either the digits unchanged or non-empty printable text no longer than them |
| RsaFormats.UnchangedFormats | src/ts/components/RSAEncryptionDemo.tsx:49-50 | the decimal format and unknown formats show the value unchanged |
| RsaFormats.OutputReadsBack | src/ts/components/RSAEncryptionDemo.tsx:21-25 | a result shown in hexadecimal (upper case), binary or decimal parses back, in the same format, to the result |
| RsaFormats.DecodeTwoDigitCodes | src/ts/components/RSAEncryptionDemo.tsx:42-47 | decoding the joined codes of text with codes 32 to 99 gives the text back |
| RsaFormats.AsciiRoundTrip | src/ts/components/RSAEncryptionDemo.tsx:15-19 | text whose codes are all 32 to 99 survives encoding to a number and decoding its decimal form; in the source only while the code string stays below 2^53, about seven characters or fewer |
| RsaFormats.ThreeDigitCodeDoesNotRoundTrip | src/ts/components/RSAEncryptionDemo.tsx:42-48 | "d" (code 100) encodes to 100, whose chunks are not printable, so the ASCII output is "100" |
| RsaFormats.ConvertDecimalToOutput | src/ts/components/RSAEncryptionDemo.tsx:34-60 | the method's output is the specification `DecimalToOutput` in every format |
| RsaFormats.DecimalToOutput | src/ts/components/RSAEncryptionDemo.tsx:34-61 | the specification of the output conversion in each format; pinned by OutputReadsBack, AsciiOutputShape and UnchangedFormats |
| RsaFormats.DecodeAscii | src/ts/components/RSAEncryptionDemo.tsx:41-47 | the accumulator loop over two-digit chunks computes `AsciiFrom(value, 0)` |
| RsaFormats.AsciiStep | src/ts/components/RSAEncryptionDemo.tsx:43-46 | one loop turn appends the chunk's character when it is printable, and nothing otherwise |
| RsaCards.KeyInputs | src/ts/components/RSAEncryptionDemo.tsx:85-90 | p, q and e are read exactly when all three parse |
| RsaCards.KeyGen | src/ts/components/RSAEncryptionDemo.tsx:78-128 | p, q and e are untouched; the checks run in order, each with its own message: not loaded, unparsable values, p not prime, then q not prime, then e invalid for lambda; the key is shown exactly when all pass, with n, lambda and d from the module; a failed check keeps the old key |
| RsaCards.KeyGenParsesFirst | src/ts/components/RSAEncryptionDemo.tsx:85-92 | an unparsable p, q or e is reported before the module is asked anything |
| RsaCards.ModPow | src/ts/components/RSAEncryptionDemo.tsx:284 | the BigInt expression throws on a negative exponent or a zero modulus; otherwise, for 0 <= m and n > 0, it is `m^e mod n` in [0, n) |
| RsaCards.EncryptInputs | src/ts/components/RSAEncryptionDemo.tsx:267-272 | e, n and m are read exactly when all three are numbers |
| RsaCards.EncryptCheck | src/ts/components/RSAEncryptionDemo.tsx:256-280 | the checks run in order, each with its own message: not loaded, key missing, unparsable values, then "Plaintext value must be less than n" for m >= n; encryption proceeds exactly when the message is below n, negative messages included |
| RsaCards.Encrypt | src/ts/components/RSAEncryptionDemo.tsx:255-293 | a failed check only sets its message; otherwise the formatted `m^e mod n` is shown with no error, or the BigInt RangeError is reported as "Error encrypting: " and its message and clears the ciphertext |
| RsaCards.EncryptComputesRsaep | src/ts/components/RSAEncryptionDemo.tsx:276-288 | for 0 <= m < n and e >= 0 typed in decimal, the ciphertext read back in its output format is `m^e mod n` |
| RsaCards.NegativeMessageAccepted | src/ts/components/RSAEncryptionDemo.tsx:277-284 | a negative message is not refused: -2 with e = 1 and n = 5 gives -2, outside [0, n) |
| RsaCards.DecryptInputs | src/ts/components/RSAEncryptionDemo.tsx:457-461 | c, d and n are read exactly when all three are numbers |
| RsaCards.DecryptCheck | src/ts/components/RSAEncryptionDemo.tsx:446-464 | the checks run in order, each with its own message: not loaded, a value missing, then "All values must be valid integers" for an unparsable value; decryption proceeds exactly when none fails |
| RsaCards.Decrypt | src/ts/components/RSAEncryptionDemo.tsx:445-486 | a failed check only sets its message; an "ERROR" or empty result gives "Decryption failed", an exception gives "Error decrypting: " and its text, and each failure clears the plaintext; any other result is shown in the output format |
| RsaCards.DecryptChecksFirst | src/ts/components/RSAEncryptionDemo.tsx:446-464 | a refused decryption never reaches the module |
| RsaCards.KeyGenerationCard.constructor | src/ts/components/RSAEncryptionDemo.tsx:65-71 | the card starts with p = 61, q = 53, e = 17 and nothing computed |
| RsaCards.KeyGenerationCard.HandleCalculate | src/ts/components/RSAEncryptionDemo.tsx:78-128 | the card's new state is `KeyGen` of its old state |
| RsaCards.EncryptionCard.constructor | src/ts/components/RSAEncryptionDemo.tsx:242-248 | the card starts with e = 17, n = 3233, m = 10 and decimal formats |
| RsaCards.EncryptionCard.SelectInputFormat | src/ts/components/RSAEncryptionDemo.tsx:355-356 | choosing an input format clears the message |
| RsaCards.EncryptionCard.SelectOutputFormat | src/ts/components/RSAEncryptionDemo.tsx:391 | choosing an output format changes nothing else |
| RsaCards.EncryptionCard.HandleEncrypt | src/ts/components/RSAEncryptionDemo.tsx:255-293 | the card's new state is `Encrypt` of its old state |
| RsaCards.DecryptionCard.constructor | src/ts/components/RSAEncryptionDemo.tsx:432-438 | the card starts empty, with decimal formats |
| RsaCards.DecryptionCard.SelectInputFormat | src/ts/components/RSAEncryptionDemo.tsx:548 | choosing an input format clears the ciphertext |
| RsaCards.DecryptionCard.SelectOutputFormat | src/ts/components/RSAEncryptionDemo.tsx:584 | choosing an output format changes nothing else |
| RsaCards.DecryptionCard.HandleDecrypt | src/ts/components/RSAEncryptionDemo.tsx:445-486 | the card's new state is `Decrypt` of its old state |
| EmulatorConsole.CutDebug | src/ts/components/EmulatorDemo.tsx:138-143 | cutting a line never makes it longer; what a cut line shows is stated by CutMarkedLine and CutDebugRemovesMarker |
| EmulatorConsole.CutDebugRemovesMarker | src/ts/components/EmulatorDemo.tsx:138-143 | a cut line never contains "[DEBUG]", and a line without the marker is kept verbatim |
| EmulatorConsole.FirstMarkerAfter | src/ts/components/EmulatorDemo.tsx:139 | in a line whose text before a marker holds no marker, `indexOf('[DEBUG]')` finds that marker |
| EmulatorConsole.CutMarkedLine | src/ts/components/EmulatorDemo.tsx:139-141 | a line carrying "[DEBUG]" becomes the text before its first marker, trimmed |
| EmulatorConsole.CutAll | src/ts/components/EmulatorDemo.tsx:137-144 | every line is cut, in place |
| EmulatorConsole.NonEmpty | src/ts/components/EmulatorDemo.tsx:145 | the kept lines are non-empty lines of the input, no more of them than the input holds |
| EmulatorConsole.NonEmptyKeepsNonEmpty | src/ts/components/EmulatorDemo.tsx:145 | the `filter` step keeps every non-empty line |
| EmulatorConsole.FilterDebugOutput | src/ts/components/EmulatorDemo.tsx:135-146 | the filtered log is never longer than its input; which lines it shows is stated by FilterShows, MarkedLineShown and PlainLineKept |
| EmulatorConsole.FilterShows | src/ts/components/EmulatorDemo.tsx:135-146 | a line is in the filtered log exactly when it is the non-empty cut of some input line |
| EmulatorConsole.MarkedLineShown | src/ts/components/EmulatorDemo.tsx:135-146 | in place of a marked line the regular console shows the trimmed text before its first marker, or nothing when that text is blank; the lines around it are filtered independently |
| EmulatorConsole.FilterOutputClean | src/ts/components/EmulatorDemo.tsx:135-146 | every filtered line is non-empty and free of "[DEBUG]" |
| EmulatorConsole.CutAllAppend | src/ts/components/EmulatorDemo.tsx:137-144 | the `map` step cuts each line on its own, in order |
| EmulatorConsole.FilterAppend | src/ts/components/EmulatorDemo.tsx:135-146 | filtering a concatenation filters each part, keeping the order |
| EmulatorConsole.FilterKeepsClean | src/ts/components/EmulatorDemo.tsx:135-146 | clean lines pass the filter unchanged |
| EmulatorConsole.FilterIdempotent | src/ts/components/EmulatorDemo.tsx:135-146 | filtering twice is filtering once |
| EmulatorConsole.PlainLineKept | src/ts/components/EmulatorDemo.tsx:138-144 | a line without the marker keeps its place and its text, surrounding whitespace included |
| EmulatorConsole.DropBlank | src/ts/components/EmulatorDemo.tsx:210 | a piece is kept exactly when it is not blank |
| EmulatorConsole.ConsoleLines | src/ts/components/EmulatorDemo.tsx:210 | every console line is non-blank and holds no newline, and every non-blank line of the text is kept |
| EmulatorConsole.DropBlankOne | src/ts/components/EmulatorDemo.tsx:210 | a blank piece is dropped and any other kept |
| EmulatorConsole.DropBlankAppend | src/ts/components/EmulatorDemo.tsx:210 | dropping blank pieces works piece by piece, so the non-blank pieces keep their order |
| EmulatorConsole.ConsoleLinesOfLines | src/ts/components/EmulatorDemo.tsx:210 | lines printed one per line come back as the non-blank ones among them, in order |
| EmulatorConsole.ConsoleLinesOfTerminated | src/ts/components/EmulatorDemo.tsx:210 | output ending every line with a newline, blank lines included, comes back as its non-blank lines, in order |
| EmulatorConsole.ConsoleLinesOfJoin | src/ts/components/EmulatorDemo.tsx:210 | non-blank lines printed one per line come back as those lines |
| EmulatorConsole.Echo | src/ts/components/EmulatorDemo.tsx:566-567 | the echo of a submitted number is a clean line, which the filter keeps |
| EmulatorControl.ShownConsole | src/ts/components/EmulatorDemo.tsx:63 | the console panel shows the debug log in debug mode; otherwise, with the logs in agreement, it shows the filtered debug log, whose every line is clean |
| EmulatorControl.InstructionText | src/ts/components/EmulatorDemo.tsx:163-188 | the instruction shown is never empty: the emulator's text when it has one, "N/A" otherwise |
| EmulatorControl.AddConsole | src/ts/components/EmulatorDemo.tsx:203-218 | the debug log gets the new console lines, the regular log their filtered form, and nothing else changes |
| EmulatorControl.ApplySnapshot | src/ts/components/EmulatorDemo.tsx:148-230 | the register panel is replaced by the emulator's registers, PC and cycles with a non-empty instruction text; the console lines are added; control, prompt and run state are unchanged |
| EmulatorControl.AddConsoleAgrees | src/ts/components/EmulatorDemo.tsx:203-218 | adding a console read-back keeps the regular log equal to the filtered debug log |
| EmulatorControl.EmptyConsoleAddsNothing | src/ts/components/EmulatorDemo.tsx:207-208 | an empty console read-back adds no line to either log |
| EmulatorControl.SelectProgram | src/ts/components/EmulatorDemo.tsx:645-650 | choosing a program records it, marks nothing loaded and not halted, clears the error and changes nothing else |
| EmulatorControl.LoadProgram | src/ts/components/EmulatorDemo.tsx:232-301 | without the emulator module, loading changes nothing; the outcomes, including a throw from `clear_console_output` after `load_program` returned 1, are pinned by LoadSucceeds, LoadFailureOnlyReports and LoadThrewAfterSuccess |
| EmulatorControl.LoadSucceeds | src/ts/components/EmulatorDemo.tsx:278-289 | a successful load marks the program loaded and not halted, starts the log with the program's description and "Ready to execute", clears the error, and restarts both console logs from the emulator's (cleared) console |
| EmulatorControl.LoadFailureOnlyReports | src/ts/components/EmulatorDemo.tsx:250-300 | every other load outcome sets an error, which is never empty; all but a throw after `load_program` returned 1 change nothing else |
| EmulatorControl.LoadThrewAfterSuccess | src/ts/components/EmulatorDemo.tsx:278-299 | when `clear_console_output` throws after `load_program` returned 1, the updates before it stand (loaded, not halted, the new log, empty consoles, cycles 0, no read-back) and the error is "Error loading program: " and the message |
| EmulatorControl.Step | src/ts/components/EmulatorDemo.tsx:303-348 | without a loaded, unhalted program, or on a code other than 1, 2, 0 or -1, a step changes nothing; it never starts or stops a run |
| EmulatorControl.StepAdvances | src/ts/components/EmulatorDemo.tsx:313-317 | a 1 result refreshes the display and logs the PC shown before the step, in upper-case hexadecimal |
| EmulatorControl.StepAsksForInput | src/ts/components/EmulatorDemo.tsx:318-326 | a 2 result opens an empty input prompt marked as a single step and logs "Program waiting for input..." |
| EmulatorControl.StepHaltsOrFails | src/ts/components/EmulatorDemo.tsx:327-340 | 0 halts with "Program halted (TRP 0)"; -1 halts with "Execution error encountered" and "ERROR: Execution failed" |
| EmulatorControl.Settle | src/ts/components/EmulatorDemo.tsx:376-428 | a stopping result ends the run, drops the frame chain and keeps the step count |
| EmulatorControl.RunPausesForInput | src/ts/components/EmulatorDemo.tsx:376-386 | during a run a 2 result stops it and opens the prompt with pausedForInput set |
| EmulatorControl.RunHalts | src/ts/components/EmulatorDemo.tsx:387-396 | a 0 result halts the program, clears the fast-finish request and logs "Program halted after N steps" with the run's count |
| EmulatorControl.RunFails | src/ts/components/EmulatorDemo.tsx:397-428 | -1 and -2 both halt and stop, each with its own error and log line; an exception stops the run without halting |
| EmulatorControl.Animate | src/ts/components/EmulatorDemo.tsx:432-515 | a 1 result counts one step and changes no control flag; another non-stopping code ends the frame chain silently |
| EmulatorControl.BeginRun | src/ts/components/EmulatorDemo.tsx:350-519 | the guard refuses without change; otherwise the run starts and its first frame is taken at once |
| EmulatorControl.RunKeepsGoing | src/ts/components/EmulatorDemo.tsx:448-465 | a first result of 1 leaves the run going with its next frame scheduled and one step counted |
| EmulatorControl.Ones | src/ts/components/EmulatorDemo.tsx:371-375 | the 1 results are no more than the results |
| EmulatorControl.FirstStop | src/ts/components/EmulatorDemo.tsx:366-419 | the loop stops at the first stopping result, and no earlier result stops it |
| EmulatorControl.RunFastFinish | src/ts/components/EmulatorDemo.tsx:362-419 | the `while (true)` loop stops at the first stopping result, having counted exactly the 1 results before it |
| EmulatorControl.FastFinish | src/ts/components/EmulatorDemo.tsx:362-429 | a fast-finish frame ends the run, with the step count raised by the 1 results before the stop |
| EmulatorControl.FirstStopOfLonger | src/ts/components/EmulatorDemo.tsx:366-419 | results after the stopping one are never asked for |
| EmulatorControl.FastFinishIgnoresLaterResults | src/ts/components/EmulatorDemo.tsx:366-419 | a fast finish depends only on the results up to the stop |
| EmulatorControl.FastFinishHaltCounts | src/ts/components/EmulatorDemo.tsx:371-396 | a fast finish that halts reports the animated steps plus the 1 results of the fast loop |
| EmulatorControl.RequestFastFinish | src/ts/components/EmulatorDemo.tsx:690 | the Finish button only sets the fast-finish request |
| EmulatorControl.Reset | src/ts/components/EmulatorDemo.tsx:521-544 | without the emulator module, reset changes nothing |
| EmulatorControl.ResetClears | src/ts/components/EmulatorDemo.tsx:528-543 | a reset leaves the program loaded and not halted, the log holding only "Emulator reset", both consoles empty and no error; an exception only sets "Reset error: …" |
| EmulatorControl.SubmitInput | src/ts/components/EmulatorDemo.tsx:546-596 | without the emulator module, submitting changes nothing; the other cases, including a throw from `provide_input` or `clear_input_request`, are pinned by SubmitRejectsNonNumber and SubmitEchoes |
| EmulatorControl.SubmitRejectsNonNumber | src/ts/components/EmulatorDemo.tsx:551-556 | text that is not an integer only sets "Please enter a valid integer" |
| EmulatorControl.SubmitEchoes | src/ts/components/EmulatorDemo.tsx:563-576 | an accepted number is echoed at the end of both console logs and the prompt closes, even when the emulator then throws; the resume timer is armed with the current pausedForInput only when it does not throw |
| EmulatorControl.EchoAgrees | src/ts/components/EmulatorDemo.tsx:566-567 | the echo keeps the regular log equal to the filtered debug log |
| EmulatorControl.Resume | src/ts/components/EmulatorDemo.tsx:576-595 | the resume timer is consumed; armed during a run it starts the run again (`runProgram`), armed during a single step it takes one more step (`stepInstruction`) |
| EmulatorControl.Enabled | src/ts/components/EmulatorDemo.tsx:653-700 | when each event can happen: the buttons' `disabled` conditions, frames only while scheduled, input only while the prompt is shown |
| EmulatorControl.Apply | src/ts/components/EmulatorDemo.tsx:232-596 | the card after one event, each event handled by its handler's model; its invariant is ApplyInv |
| EmulatorControl.InitialInv | src/ts/components/EmulatorDemo.tsx:43-60 | the initial card satisfies the invariant: the regular log is the filtered debug log, and frames are scheduled only while running |
| EmulatorControl.SnapshotInv | src/ts/components/EmulatorDemo.tsx:148-230 | the display update keeps the invariant |
| EmulatorControl.LoadInv | src/ts/components/EmulatorDemo.tsx:232-301 | loading keeps the invariant |
| EmulatorControl.StepInv | src/ts/components/EmulatorDemo.tsx:303-348 | a single step keeps the invariant |
| EmulatorControl.SettleInv | src/ts/components/EmulatorDemo.tsx:376-428 | ending a run keeps the invariant |
| EmulatorControl.AnimateInv | src/ts/components/EmulatorDemo.tsx:432-515 | an animation frame keeps the invariant |
| EmulatorControl.BeginRunInv | src/ts/components/EmulatorDemo.tsx:350-519 | starting a run keeps the invariant |
| EmulatorControl.ApplyInv | src/ts/components/EmulatorDemo.tsx:232-596 | every enabled event keeps the invariant |
| EmulatorControl.RunInv | src/ts/components/EmulatorDemo.tsx:232-596 | every run of enabled events keeps the invariant |
| EmulatorControl.ReachableRegularClean | src/ts/components/EmulatorDemo.tsx:135-146 | in every reachable card the regular console log holds only non-empty lines without "[DEBUG]" |
| EmulatorControl.EmulatorCard.constructor | src/ts/components/EmulatorDemo.tsx:43-60 | the card starts in the initial state |
| EmulatorControl.EmulatorCard.UpdateRegisterDisplay | src/ts/components/EmulatorDemo.tsx:148-230 | the new state is `ApplySnapshot` of the old one |
| EmulatorControl.EmulatorCard.Select | src/ts/components/EmulatorDemo.tsx:645-650 | the new state is `SelectProgram` of the old one |
| EmulatorControl.EmulatorCard.SetDebugMode | src/ts/components/EmulatorDemo.tsx:711 | only the debug flag changes, and the panel then shows the chosen log |
| EmulatorControl.EmulatorCard.SetInputValue | src/ts/components/EmulatorDemo.tsx:775 | only the typed input changes |
| EmulatorControl.EmulatorCard.LoadExampleProgram | src/ts/components/EmulatorDemo.tsx:232-301 | the new state is `LoadProgram` of the old one, for every outcome including a throw after a successful `load_program` |
| EmulatorControl.EmulatorCard.StepInstruction | src/ts/components/EmulatorDemo.tsx:303-348 | the new state is `Step` of the old one |
| EmulatorControl.EmulatorCard.SettleRun | src/ts/components/EmulatorDemo.tsx:376-428 | the new state is `Settle` of the old one |
| EmulatorControl.EmulatorCard.ExecuteNextStep | src/ts/components/EmulatorDemo.tsx:432-515 | the new state is `Animate` of the old one |
| EmulatorControl.EmulatorCard.RunProgram | src/ts/components/EmulatorDemo.tsx:350-519 | the new state is `BeginRun` of the old one |
| EmulatorControl.EmulatorCard.RunFastFinishFrame | src/ts/components/EmulatorDemo.tsx:362-429 | the new state is `FastFinish` of the old one, computed by the loop method |
| EmulatorControl.EmulatorCard.Finish | src/ts/components/EmulatorDemo.tsx:690 | the new state is `RequestFastFinish` of the old one |
| EmulatorControl.EmulatorCard.ResetEmulator | src/ts/components/EmulatorDemo.tsx:521-544 | the new state is `Reset` of the old one |
| EmulatorControl.EmulatorCard.HandleInputSubmit | src/ts/components/EmulatorDemo.tsx:546-596 | the new state is `SubmitInput` of the old one, whether or not the emulator throws after the echo |
| EmulatorControl.EmulatorCard.ResumeAfterInput | src/ts/components/EmulatorDemo.tsx:576-595 | the new state is `Resume` of the old one |
| Carousel.NextImage | src/ts/pages/Capstone.tsx:33-36 | the next index stays in range, advances by one, and wraps from the last image to the first |
| Carousel.PrevImage | src/ts/pages/Capstone.tsx:38-41 | the previous index stays in range, goes back by one, and wraps from the first image to the last |
| Carousel.Counter | src/ts/pages/Capstone.tsx:99 | for a valid index the counter reads between 1 and the number of images, one more than the index |
| Carousel.NextPrevInverse | src/ts/pages/Capstone.tsx:33-41 | back after forward, and forward after back, return the original index |
| Carousel.NextTimesAdvances | src/ts/pages/Capstone.tsx:35 | up to a full round, k forward presses advance by k, wrapping once |
| Carousel.FullRound | src/ts/pages/Capstone.tsx:35 | a full round of forward presses returns to the start |
| Carousel.BrowseInRange | src/ts/pages/Capstone.tsx:79-99 | after any presses the index is a valid position and the counter reads 1 to the number of images |
| CapstonePage.Shown | src/ts/pages/Capstone.tsx:79-113 | the image shown is always one of the six, and the counter reads 1 to 6 |
| CapstonePage.GalleryShape | src/ts/pages/Capstone.tsx:20-31 | the gallery holds six images and opens on the first, counter 1 |
| CapstonePage.SixNextsReturn | src/ts/pages/Capstone.tsx:35 | six forward presses return to the same image |
| CapstonePage.PrevFromFirst | src/ts/pages/Capstone.tsx:38-41 | back from the first image shows the sixth |
| CapstoneProjectCard.Gallery | src/ts/components/CapstoneProject.tsx:63-93 | the gallery is rendered exactly when the list is non-empty, and then shows one of its images with a counter from 1 to the list's length |
| CapstoneProjectCard.GalleryShape | src/ts/components/CapstoneProject.tsx:11-19 | the card's gallery holds four images, opens on the first, and is shown |
| CapstoneProjectCard.FourNextsReturn | src/ts/components/CapstoneProject.tsx:21-24 | four forward presses return to the same image |
| CapstoneProjectCard.PrevFromFirst | src/ts/components/CapstoneProject.tsx:26-29 | back from the first image shows the fourth |
| JsNumber.ParseInt | src/ts/components/RSAEncryptionDemo.tsx:21-25 | `parseInt` with a radix outside 2 to 36 gives NaN |
| JsNumber.DigitsCorrect | src/ts/components/RSAEncryptionDemo.tsx:52-54 | the printed digits read back to the number, and only zero starts with "0" |
| JsNumber.ToRadixString | src/ts/components/RSAEncryptionDemo.tsx:52-54 | `toString(radix)` is non-empty and starts with "-" exactly for negative numbers |
| JsNumber.DecimalString | src/ts/components/RSAEncryptionDemo.tsx:122-124 | `toString()` is non-empty |
| JsNumber.ParseToRadixString | src/ts/components/RSAEncryptionDemo.tsx:21-25 | `parseInt` reads back what `toString` printed, in every radix, and with the radix omitted for decimal text |
| JsNumber.ParseDecimalDigits | src/ts/components/RSAEncryptionDemo.tsx:19 | a text of decimal digits parses, with the radix omitted, to its value |
| JsNumber.DecimalDigitsUnique | src/ts/components/RSAEncryptionDemo.tsx:19 | printing the value of decimal digits without leading zeros gives the digits back |
| JsNumber.ParseIntIgnoresCase | src/ts/components/RSAEncryptionDemo.tsx:23 | `parseInt` reads upper-case text like the lower-case text |
| JsNumber.FirstCodeUnit | src/ts/components/RSAEncryptionDemo.tsx:18 | `charCodeAt(0)` of a character is the character itself in the Basic Multilingual Plane and its high surrogate above it |
| JsNumber.TruncRem | src/ts/components/RSAEncryptionDemo.tsx:284 | `%` takes the sign of the dividend, its size is below the divisor's, and it agrees with the Euclidean remainder for non-negative operands |
| JsString.Trim | src/ts/components/EmulatorDemo.tsx:141 | `trim()` drops only whitespace, at both ends, and keeps a slice that neither starts nor ends with whitespace; it is empty exactly for all-whitespace text |
| JsString.IndexOf | src/ts/components/EmulatorDemo.tsx:139 | `indexOf` finds the first match, and finds none exactly when the text does not contain the pattern |
| JsString.Split | src/ts/components/EmulatorDemo.tsx:210 | `split` gives at least one piece, no piece holds the separator, and text without it is one piece |
| JsString.JoinSplit | src/ts/components/EmulatorDemo.tsx:210 | joining the pieces of a split gives the text back |
| JsString.SplitJoin | src/ts/components/EmulatorDemo.tsx:210 | splitting joined separator-free pieces gives the pieces back |
| JsString.PrefixBeforeFirstMatch | src/ts/components/EmulatorDemo.tsx:139-141 | the text before the first marker does not contain it |
| JsString.RemoveAll | src/ts/components/DESEncryptionDemo.tsx:241 | `replace(/\0/g, '')` leaves no NUL, adds no character, and leaves NUL-free text unchanged |
| JsString.RemoveAllOne | src/ts/components/DESEncryptionDemo.tsx:241 | one character is removed when it is NUL and kept otherwise |
| JsString.RemoveAllAppend | src/ts/components/DESEncryptionDemo.tsx:241 | removal works character by character, so every other character is kept, in order |
| JsString.ToUpper | src/ts/components/DESEncryptionDemo.tsx:154 | `toUpperCase()` upper-cases each ASCII letter in place and leaves no lower-case letter |
| JsString.ToLower | src/ts/components/DESEncryptionDemo.tsx:278 | `toLowerCase()` lower-cases each ASCII letter in place and leaves no upper-case letter |
| JsString.Utf16Length | src/ts/components/DESEncryptionDemo.tsx:95 | `length` counts UTF-16 code units: between one and two per character, exactly one each in the Basic Multilingual Plane |
| JsString.Utf16LengthOne | src/ts/components/DESEncryptionDemo.tsx:95 | a character counts one code unit in the Basic Multilingual Plane and two above it |
| JsString.Utf16LengthAppend | src/ts/components/DESEncryptionDemo.tsx:95 | the code units of a concatenation are those of its parts |

## Left out

- The compiled WebAssembly code is not modelled: the DES cipher, the RSA number theory (`is_prime`, `calculate_n`, `calculate_lambda`, `validate_e_value`, `calculate_d`, `rsa_decrypt`) and the emulator. Their results are inputs to the handlers.
- Document and network effects are represented only by what they leave behind. Script elements are recorded as appended, with their name and source. The `fetch` of program binaries and the copy into the emulator's heap become the `LoadOutcome` input. A load is treated as one step.
- `requestAnimationFrame`, the 100 ms `Date.now` throttle of the animated run (a `refresh` input), and the `setTimeout` of the input resume are events, not timers. The `refresh` input decides whether a frame reads the display back.
- React's state updates are immediate assignments, with two exceptions. The step log uses the PC displayed before the step. The resume timer carries the `pausedForInput` value seen at submission.
- `EmulatorControl.Animate` checks no `programLoaded` flag. `executeNextStep` reads that flag from the render whose `runProgram` started the run, and that call passed its guard only with the flag true, so the check in a frame never fails. The run's step counter, which the source keeps in the closure, is the `stepCount` field of the run.
- `EmulatorControl.Resume` applies the guards of `runProgram` and `stepInstruction` to the card's current `programLoaded` and `programHalted`. The source's timer calls the handlers of the render that submitted the input, whose guards read that render's values. They differ whenever `programLoaded`, `programHalted` or the displayed PC changes inside the 100 ms before the timer fires: a program choice, a load, a reset, or a step or run that halts the program. The source's timer then steps or runs on the submitting render's flags (a halted program can be stepped again, logging the old PC), and the model does not capture that case.
- `EmulatorControl.Enabled` allows one animation chain at a time: a resume that continues a run fires only when no frame is scheduled. The source does not prevent a second chain.
- `EmulatorControl.RunFastFinish` requires a stopping result among the emulator's answers. Without one the source's `while (true)` loop never ends, and the model does not describe that case.
- `EmulatorControl.LoadProgram` and `EmulatorControl.Reset` set the displayed cycle count to 0 and then let the display read-back overwrite it in the same handler. The model keeps only the final value, which is the emulator's.
- Exceptions thrown inside `updateRegisterDisplay` itself are not modelled; a read-back always succeeds.
- `EmulatorControl.SubmitInput`: the debug-mode `get_pc` call made before the prompt updates could throw and leave the card unchanged; that case is not modelled. A throw from `provide_input`, from the later `get_pc` or from `clear_input_request` is the `threw` input. The exception the handler then lets escape is not represented, and neither is the emulator still waiting for input, which lives outside the card.
- The `cycles || 0` fallback for a NaN cycle count is not modelled.
- The `-0` of JavaScript numbers is not modelled, and the emulator's register-text parsing is not modelled (the parsed registers are an input).
- Numbers are unbounded integers, not IEEE-754 doubles. A long ASCII code string loses precision in the source; here it does not.
- `RsaFormats.AsciiRoundTrip` holds in the model for text of any length. In the source, `parseInt` of the joined codes is a double, so from about eight characters on the value passes 2^53, is rounded, and its digits no longer decode to the text. `BigInt` of such a value is therefore exact here.
- `RsaCards.KeyGen`: the `catch` branch of the Calculate handler is not modelled, because the module functions it calls are total inputs here.
- `RsaCards.Encrypt`: the exception messages are V8's `RangeError` texts, written out as constants. Other engines word them differently.
- `RsaCards.ModPow` does not model V8's BigInt size limit. In the source, `BigInt(m) ** BigInt(e)` throws "RangeError: Maximum BigInt size exceeded" once the power would pass about 2^30 bits (m = 10, e = 1000000000, for example), and `BigInt` of a decimal exponent of 309 or more digits throws because `parseInt` gives Infinity. The model computes the exact power instead.
- `EncryptComputesRsaep` holds in the model for every exponent. In the source it holds only while `m^e` stays within V8's BigInt size limit; past it the card shows "Error encrypting: RangeError: Maximum BigInt size exceeded" and no ciphertext.
- `EmulatorConsole.FilterDebugOutput`: its own contract bounds only the length. Which lines it shows is stated by `FilterShows` (membership), `MarkedLineShown` (a marked line in place) and `PlainLineKept` (an unmarked line in place).
- `EmulatorConsole.CutDebug`: its own contract bounds only the length. What a cut line shows is stated by `CutMarkedLine` (marked lines) and `CutDebugRemovesMarker` (unmarked lines).
- `RsaCards.Decrypt`: a `ccall` exception is modelled as the `Threw` result and reported with "Error decrypting: " and its text.
- `JsString.ToUpper` and `JsString.ToLower` map the ASCII letters only. Full Unicode case mapping, which can change a string's length, is not modelled.
- `JsNumber.ParseInt` stands for an omitted radix with radix 0. Its result is exact where JavaScript rounds values beyond 2^53.
- The `maxLength` of the DES input fields is not modelled. The handlers check the length themselves.
- The emulator's console debug logging and `highlightConsoleLine` are not modelled.
- Initialisation of the emulator module when the card mounts is not modelled: the `present` input says whether it is available.
- JSX and markup are not modelled, apart from the button enabling conditions and the input handlers.
- `src/ts/components/TerminalDemo.tsx` is not part of this model. It is a thin wrapper over the xterm library.
- `src/ts/components/FeedbackForm.tsx` is not part of this model. It is a form POST with a reset timer.
- Routing, styling and the static pages are not part of this model.
