# LLM-test-llama-csharp in Dafny

This project models the two text-generation services of a small C# console
application, and proves properties of them.

- **`LlamaLLMService`** (demo mode). A null, empty or white-space prompt gets
  "Please provide a valid prompt.". Any other prompt is lower-cased and checked
  against a fixed table of eight keywords, in insertion order. The reply of the
  first keyword that occurs as a substring is returned. When no keyword occurs,
  a fixed text that quotes the original prompt is returned. The table is an
  ordered sequence of pairs, because the code enumerates a `Dictionary` that is
  never modified after it is built.
- **`LlamaSharpLLMService`** (production mode). The constructor resolves a
  thread count of 0 to the processor count. `InitializeAsync` loads the first
  `*.gguf` file the directory scan found. It configures the native backend only
  while the process-wide static flag is unset; the flag is read and then set
  without a lock. It then fills the weights,
  context, executor and chat-session fields one after another; the new chat
  history holds only the system prompt. `GenerateTextAsync` and
  `GenerateTextSync` are identical. Each checks for a session first and for a
  blank prompt second. It then sends the prompt, untrimmed, to `ChatAsync` with
  the stored token ceiling and the anti-prompts `"User:"`, `"Human:"` and
  `"\n\n"`. It appends every streamed fragment in order and returns the trimmed
  text. `Dispose` clears the session and executor fields and releases the
  context, then the weights.

The LLamaSharp library is treated as an oracle:

- The file list from the directory scan is an input.
- The step at which the file system or the library throws is an input
  (`FailurePoint`).
- The fragments `ChatAsync` yields, and an exception that ends the stream, are
  an input (`ChatStream`).
- Library handles are values that record what they were made from.
- The static flag lives in a `ProcessState` object that every service of the
  process shares. That object also logs the library calls the services issue:
  backend configuration, `LoadFromFile`, `CreateContext`, `ChatAsync`, and the
  two `Dispose` calls. A backend configuration is logged even when it throws,
  marked as not completed; the flag then stays unset, so the next
  initialisation calls `WithCuda(false)` again. The log is what lets
  "configured once" and "context before weights" be stated.

Some behaviour one might expect is absent from the code, so the model leaves
it out too:

- Model files are not sorted. The first file in scan order is loaded.
- The prompt is checked with `IsNullOrWhiteSpace` but sent untrimmed.
- There is no reentrancy guard and no disposed flag. A disposed service answers
  "Model not loaded. Please initialize the service first.", the same reply as a
  service that was never loaded.
- A second `Dispose` releases the context and the weights again, because those
  two fields are not cleared.
- Temperature is never passed to inference.

Files:

- `Wrappers.dfy`: `Option`.
- `DotNetText.dfy`: the .NET string behaviour both services use
  (`char.IsWhiteSpace`, `IsNullOrWhiteSpace`, `Trim`, `ToLower`, ordinal
  `Contains`, `StringBuilder` appends).
- `LlamaLLMService.dfy`: the demo responder, as functions.
- `LlamaSharp.dfy`: the production service, as a class. Its methods are tied
  to the specification functions `Initialize`, `Reply`, `ChatCalls` and
  `ReleaseCalls`, and the lemmas are stated about those functions.

## Model

| member | source | states |
|---|---|---|
| `DotNetText.IsWhiteSpace` | LlamaLLMService.cs:61 | definition: the characters `char.IsWhiteSpace` accepts, that is U+0009..U+000D, space, U+0085, U+00A0, U+1680, U+2000..U+200A, U+2028, U+2029, U+202F, U+205F and U+3000 |
| `DotNetText.IsNullOrWhiteSpace` | LlamaSharpLLMService.cs:155 | definition of the prompt guard both services use (also LlamaSharpLLMService.cs:202 and LlamaLLMService.cs:61): null, or every character white space, the empty string included |
| `DotNetText.Trim` | LlamaSharpLLMService.cs:184 | the result is the input with white space removed from both ends only: the input is the result wrapped in white space, and the result neither starts nor ends with white space |
| `DotNetText.TrimUnique` | LlamaSharpLLMService.cs:184 | any string related to the input as above equals `Trim` of the input, so the trimmed reply is fully determined by the accumulated text |
| `DotNetText.TrimIdempotent` | LlamaSharpLLMService.cs:184 | a property of the `Trim` model rather than of any call in the code: trimming a trimmed string changes nothing |
| `DotNetText.BlankIffTrimsToEmpty` | LlamaSharpLLMService.cs:155 | a string is white space only exactly when it trims to the empty string |
| `DotNetText.LowerChar` | LlamaLLMService.cs:99 | definition: ASCII A..Z and the Latin-1 capitals U+00C0..U+00DE other than U+00D7 go to the letter 32 code points above; every other character is kept |
| `DotNetText.ToLower` | LlamaLLMService.cs:99 | lower-casing keeps the length and maps each character by `LowerChar`; its independent properties are `ToLowerIdempotent` and `LowerCharKeepsWhiteSpace` |
| `DotNetText.ToLowerIdempotent` | LlamaLLMService.cs:99 | lower-casing an already lower-cased prompt changes nothing: no mapped capital survives |
| `DotNetText.LowerCharKeepsWhiteSpace` | LlamaLLMService.cs:99 | lower-casing a character never turns white space into non-white space or back, so the lower-cased prompt is blank exactly when the prompt is |
| `DotNetText.Contains` | LlamaLLMService.cs:104 | definition of ordinal `Contains`: the key occurs at some offset of the text, the empty key at every offset |
| `DotNetText.MissingCharNotContained` | LlamaLLMService.cs:104 | a text lacking one of a key's characters does not contain that key |
| `DotNetText.Concat` | LlamaSharpLLMService.cs:171-181 | definition: the text of a `StringBuilder` after appending the fragments in order, the last fragment last; its properties are `ConcatAppend` and `ConcatContainsFragment`, and `AppendAll` is the loop proved equal to it |
| `DotNetText.ConcatAppend` | LlamaSharpLLMService.cs:171-181 | the accumulated text of two runs of fragments is the text of the first run followed by the text of the second |
| `DotNetText.ConcatContainsFragment` | LlamaSharpLLMService.cs:174-181 | fragment k appears in the accumulated text verbatim, right after the text of fragments 0..k-1 |
| `LlamaLLMService.FindFrom` | LlamaLLMService.cs:102-108 | the enumeration returns the index of the first key, in table order, that occurs in the text, or nothing when no key occurs |
| `LlamaLLMService.DefaultResponse` | LlamaLLMService.cs:111-114 | definition: the fixed head, the prompt as the caller wrote it, and the fixed tail; `QuotedPrompt` and `DefaultQuotesPrompt` show the prompt can be read back out of it |
| `LlamaLLMService.GenerateDemoResponse` | LlamaLLMService.cs:82-115 | the reply is the value of the first key, in table order, that occurs in the lower-cased prompt, and the fallback for this prompt when no key occurs |
| `LlamaLLMService.GenerateTextAsync` | LlamaLLMService.cs:57-80 | definition: the blank-prompt guard, then `GenerateDemoResponse`; its properties are `InvalidPromptReplyIffBlank`, `ReplyIsFirstHit`, `FallbackIffNoKey`, `ReplyIsFixedOrFallback` and `CannedReplyIgnoresCase` |
| `LlamaLLMService.InvalidPromptReplyIffBlank` | LlamaLLMService.cs:61-64 | the reply is "Please provide a valid prompt." if and only if the prompt is null, empty or white space |
| `LlamaLLMService.ReplyIsFirstHit` | LlamaLLMService.cs:73-74 | for a non-blank prompt the reply is the value of the first key, in table order, that occurs in the lower-cased prompt |
| `LlamaLLMService.FallbackIffNoKey` | LlamaLLMService.cs:110-114 | the reply quotes the original, not lower-cased, prompt if and only if the prompt is non-blank and no key occurs in its lower-cased form |
| `LlamaLLMService.QuotedPrompt` | LlamaLLMService.cs:111-114 | reading a prompt back out of a reply yields a prompt whose fallback reply is that very reply |
| `LlamaLLMService.DefaultQuotesPrompt` | LlamaLLMService.cs:111-114 | the fallback reply embeds the prompt verbatim between the fixed head and tail: it reads back as that prompt |
| `LlamaLLMService.FixedRepliesAreNotQuotes` | LlamaLLMService.cs:87-97 | none of the eight canned replies, nor the invalid-prompt reply, can be mistaken for a fallback reply |
| `LlamaLLMService.ReplyIsFixedOrFallback` | LlamaLLMService.cs:87-114 | every reply is non-empty and is the invalid-prompt reply, one of the eight table values, or the fallback for this prompt |
| `LlamaLLMService.CannedReplyIgnoresCase` | LlamaLLMService.cs:99-106 | two prompts that differ only in letter case and hit a key get the same canned reply |
| `LlamaLLMService.WhatIsBeatsTime` | LlamaLLMService.cs:91-96 | "what is the time" gets the "what is" reply, not the "time" reply |
| `LlamaLLMService.HelloBeatsHelp` | LlamaLLMService.cs:89-93 | "hello, help" gets the "hello" reply, not the "help" reply |
| `LlamaSharp.ResolveThreadCount` | LlamaSharpLLMService.cs:40 | a requested thread count of 0 becomes the processor count; any other value is kept |
| `LlamaSharp.ToUInt32` | LlamaSharpLLMService.cs:106 | the `(uint)` cast keeps a non-negative context size and wraps a negative one modulo 2^32 |
| `LlamaSharp.Initialize` | LlamaSharpLLMService.cs:76-133 | an empty file list fails and changes no field, flag or library state. Success needs files and no throw. A success yields the handles loaded from the first file. A failure never changes the session. The flag ends set once a load gets past the scan and the backend step. A backend configuration is issued whenever the flag is unset and the scan found a file, and none when the flag is set; one completes exactly when the flag goes from unset to set |
| `LlamaSharp.CpuBackendConfiguredAtMostOnce` | LlamaSharpLLMService.cs:93-98 | over any run of initialisations sharing a process, one after another, a backend configuration completes once if the flag went from unset to set and never otherwise, and a set flag stays set; configurations that threw are logged but not counted |
| `LlamaSharp.FailedConfigurationIsRetried` | LlamaSharpLLMService.cs:93-96 | when `WithCuda(false)` throws, the flag stays unset and the next initialisation issues the configuration again: the log holds a failed configuration, then a completed one, and exactly one completed configuration |
| `LlamaSharp.LoadedServiceShape` | LlamaSharpLLMService.cs:100-123 | after a successful load the weights come from the first discovered file with the stored context size (as `uint`), GPU layers and threads, memory map and lock on and batch size 512. The context wraps those weights and is created with the same parameters, the executor that context, the session that executor. The history holds exactly one System message |
| `LlamaSharp.Reply` | LlamaSharpLLMService.cs:150-184 | with no session the reply is the not-loaded message, even for a blank prompt. Otherwise a blank prompt gets the invalid-prompt message. A stream that throws gets "Error generating text: " and the message. Otherwise the reply is the trim of all fragments in order |
| `LlamaSharp.ChatCalls` | LlamaSharpLLMService.cs:164-176 | the library is called only when a session exists and the prompt is not blank. The call carries the prompt untrimmed as a User message, the stored token ceiling, and the anti-prompts "User:", "Human:", "\n\n" |
| `LlamaSharp.StreamedReplyEmptyIffBlank` | LlamaSharpLLMService.cs:171-184 | a reply streamed without error is empty exactly when every streamed character is white space, and never starts or ends with white space |
| `LlamaSharp.ReleaseCalls` | LlamaSharpLLMService.cs:240-241 | disposal releases the context (if set) first and the weights (if set) last, and nothing else |
| `LlamaSharp.ReleaseContextBeforeItsWeights` | LlamaSharpLLMService.cs:236-242 | after a successful load, disposing releases the context and then the very weights that context was created from |
| `LlamaSharp.AppendAll` | LlamaSharpLLMService.cs:171-181 | appending every fragment to the builder in turn yields the in-order concatenation of the fragments |
| `LlamaSharp.ProcessState.constructor` | LlamaSharpLLMService.cs:25 | the static flag starts unset, with no library call issued |
| `LlamaSharp.LlamaSharpLLMService.constructor` | LlamaSharpLLMService.cs:27-41 | the settings are stored, the thread count is resolved, and all four handle fields are null |
| `LlamaSharp.NewDefaultService` | LlamaSharpLLMService.cs:27-41 | a service built with every argument at its default uses the "models" directory, 256 tokens, a 2048-token context, no GPU layers and one thread per processor, with all four handles null |
| `LlamaSharp.LoadSteps` | LlamaSharpLLMService.cs:100-123 | the load completes exactly when no weight, context, executor or session step throws, and then yields the handles loaded from the given file with the system-prompt history; a step that throws leaves the session as it was; loading never configures the backend |
| `LlamaSharp.LlamaSharpLLMService.InitializeAsync` | LlamaSharpLLMService.cs:43-144 | the result, the four fields, the static flag and the library calls issued are exactly those `Initialize` gives for the old fields and flag; the loading steps are delegated to `LoadModel` |
| `LlamaSharp.LlamaSharpLLMService.LoadModel` | LlamaSharpLLMService.cs:100-123 | the loading steps, run in place on the fields: the result, the four fields and the library calls issued are exactly those `LoadSteps` gives for the old fields |
| `LlamaSharp.LlamaSharpLLMService.GenerateTextAsync` | LlamaSharpLLMService.cs:146-190 | the reply is `Reply` for the current session; the only library call issued is `ChatCalls`; no field and not the flag changes |
| `LlamaSharp.LlamaSharpLLMService.GenerateTextSync` | LlamaSharpLLMService.cs:193-234 | the same contract as `GenerateTextAsync` |
| `LlamaSharp.LlamaSharpLLMService.Dispose` | LlamaSharpLLMService.cs:236-242 | session and executor become null. Context and weights keep their values. The calls issued are `ReleaseCalls` of the old context and weights |
| `LlamaSharp.DisposedServiceIsNotLoaded` | LlamaSharpLLMService.cs:150-153 | any service, whatever its settings and state, once disposed answers any prompt, even a blank one, with the not-loaded message from both generate methods, and issues no library call beyond the releases of `Dispose` |
| `LlamaSharp.SharedProcessConfiguresOnce` | LlamaSharpLLMService.cs:93-98 | any two services sharing one process, initialised one after the other from any state and with any step throwing: the flag ends set exactly when it was set before or either load found a model file and got past the directory and backend steps, and the two loads together complete a backend configuration once if they set the flag and never otherwise |

## Left out

- Program.cs: the console loop, the command-line flag check and the choice between the services are terminal I/O.
- Process priority and `ThreadPool` minimum/maximum settings (LlamaSharpLLMService.cs:50-66) are operating-system and runtime tweaks with no effect on the modelled state.
- Directory creation and the recursive `*.gguf` scan: the scan's result is the `modelFiles` input, in scan order. A file-system exception is `FailurePoint.DirectoryAccess`.
- The LLamaSharp library: `LoadFromFile`, `CreateContext`, `InteractiveExecutor`, `ChatSession` and `ChatAsync` are foreign code. Anti-prompt matching and the `MaxTokens` ceiling act inside `ChatAsync`; the model records only that they are passed. Handles are values, so two loads with equal parameters give equal handles and object identity is not modelled.
- The chat history that `ChatAsync` extends on each turn is library state. The model's session keeps the history it was created with.
- Exception messages from `InitializeAsync` and all remediation text are not modelled; a throwing step only makes it return false.
- Exceptions during generation other than one ending the `ChatAsync` stream are not modelled. The demo `GenerateTextAsync` catch block is not modelled because nothing it guards can throw for a non-null prompt.
- All console output, `async`/`await`, `Task.Delay` and `ConfigureAwait`.
- Temperature: a float stored by both services, printed only by the production service (LlamaSharpLLMService.cs:131), and never passed to inference.
- The demo service's constructor, `InitializeAsync` and `Dispose`: the constructor only stores fields; `InitializeAsync` prints, creates the model directory if it is missing and returns true, or false if anything in it throws; `Dispose` does nothing. They touch only the console and the file system.
- The commented-out block of LlamaLLMService.cs (lines 124-237) is not compiled.
- DotNetText.ToLower: only ASCII and Latin-1 capitals are mapped, because it maps each character by `LowerChar`. Culture-specific mappings (the Turkish dotted I) and other scripts (the Kelvin sign U+212A, Greek, Cyrillic) are not modelled.
- DotNetText.LowerChar: maps ASCII A..Z and the Latin-1 capitals U+00C0..U+00DE other than U+00D7 only; every other capital is left unchanged, where .NET's `char.ToLower` would lower it.
- LlamaLLMService.CannedReplyIgnoresCase: "differ only in letter case" means ASCII and Latin-1 case only, as `LowerChar` defines it; two prompts that differ in the case of other letters are not covered.
- LlamaSharp.LlamaSharpLLMService.Dispose: a second call releases the context and weights again. What the library's own `Dispose` does on that second call is not modelled.
- LlamaSharp.CpuBackendConfiguredAtMostOnce: counts completed configurations only. One that throws leaves the flag unset, so the next initialisation calls `WithCuda(false)` again; `FailedConfigurationIsRetried` shows this. It also holds only for initialisations that run one after another. The static flag is read and then set without a lock (LlamaSharpLLMService.cs:93-96), so two `InitializeAsync` calls that overlap on different threads can both configure the backend; concurrent initialisation is not modelled.
- LlamaSharp.SharedProcessConfiguresOnce: covers two initialisations that run one after the other; two that overlap on different threads are not modelled, for the reason given for `CpuBackendConfiguredAtMostOnce`.
- Strings are sequences of Unicode scalar values, while .NET strings are sequences of UTF-16 code units: a lone surrogate, or a streamed fragment that splits a surrogate pair, cannot be represented, and lengths differ for text outside the Basic Multilingual Plane. Nothing modelled depends on this: the white-space set lies in that plane and the keys are ASCII.
