/**
  The production service: it loads a GGUF model through the LLamaSharp
  library, keeps the weights, context, executor and chat session it gets
  back, and streams replies from the session.

  The library itself is an oracle. Its handles are values that record how
  they were made; the calls the service issues to it are appended to a log
  held by the process-wide state, next to the static "native library
  initialised" flag; where it may throw is an input (`FailurePoint`), and
  what `ChatAsync` streams is an input (`ChatStream`).
 */
module LlamaSharp {
  import opened Wrappers
  import opened DotNetText

  /** A C# `int`. */
  type Int32 = x: int | -0x8000_0000 <= x < 0x8000_0000

  const NotLoadedReply := "Model not loaded. Please initialize the service first."
  /** The same text as the demo service's `LlamaLLMService.InvalidPromptReply`;
      each service spells it out on its own. */
  const InvalidPromptReply := "Please provide a valid prompt."
  const GenerationErrorPrefix := "Error generating text: "
  const SystemPrompt := "You are a helpful AI assistant. Provide clear, accurate, and helpful responses to user questions."
  /** Texts at which the library stops a reply. */
  const AntiPrompts: seq<string> := ["User:", "Human:", "\n\n"]
  const BatchSize: nat := 512

  /** The constructor's default arguments. */
  const DefaultModelPath := "models"
  const DefaultMaxTokens: Int32 := 256
  const DefaultContextSize: Int32 := 2048
  const DefaultGpuLayerCount: Int32 := 0
  const DefaultThreadCount: Int32 := 0

  datatype AuthorRole = System | User | Assistant
  datatype Message = Message(role: AuthorRole, content: string)

  /** `ModelParams` as the service fills them in; `contextSize` and
      `batchSize` are `uint` in the library. */
  datatype ModelParams = ModelParams(
    modelFile: string,
    contextSize: nat,
    gpuLayerCount: Int32,
    useMemorymap: bool,
    useMemoryLock: bool,
    threads: Int32,
    batchSize: nat)

  /** Library handles, each recording what it was made from. */
  datatype Weights = Weights(params: ModelParams)
  datatype Context = Context(weights: Weights, params: ModelParams)
  datatype Executor = InteractiveExecutor(context: Context)
  datatype Session = ChatSession(executor: Executor, history: seq<Message>)

  /** `InferenceParams` as the service fills them in. Temperature is not among them. */
  datatype InferenceParams = InferenceParams(maxTokens: Int32, antiPrompts: seq<string>)

  /** The calls into the native library that the service issues. A backend
      configuration records whether it completed: `completed` is false
      when it threw. */
  datatype LibraryCall =
    | ConfigureCpuBackend(completed: bool)
    | LoadFromFile(params: ModelParams)
    | CreateContext(weights: Weights, params: ModelParams)
    | ChatAsync(message: Message, inference: InferenceParams)
    | DisposeContext(context: Context)
    | DisposeWeights(weights: Weights)

  /** The step of `InitializeAsync` at which the file system or the library
      throws, if it is reached. */
  datatype FailurePoint =
    | DirectoryAccess
    | NativeConfiguration
    | WeightLoading
    | ContextCreation
    | ExecutorCreation
    | SessionCreation

  /** What `ChatAsync` yields: the fragments in order, then possibly an
      exception with its message. */
  datatype ChatStream = ChatStream(fragments: seq<string>, failure: Option<string>)

  /** The service's four nullable handle fields. */
  datatype Handles = Handles(weights: Option<Weights>, context: Option<Context>, executor: Option<Executor>, session: Option<Session>)

  /** The settings that loading and inference read. */
  datatype Settings = Settings(maxTokens: Int32, contextSize: Int32, gpuLayerCount: Int32, threadCount: Int32)

  datatype InitResult = InitResult(ok: bool, handles: Handles, nativeInitialized: bool, calls: seq<LibraryCall>)

  /** The constructor's thread count: 0 asks for the processor count. */
  function ResolveThreadCount(requested: Int32, processorCount: Int32): (r: Int32)
    ensures requested == 0 ==> r == processorCount
    ensures requested != 0 ==> r == requested
  {
    if requested == 0 then processorCount else requested
  }

  /** C#'s unchecked `(uint)` cast of an `int`. */
  function ToUInt32(x: Int32): (r: nat)
    ensures r < 0x1_0000_0000
    ensures 0 <= x ==> r == x
    ensures x < 0 ==> r == x + 0x1_0000_0000
  {
    x % 0x1_0000_0000
  }

  function LoadParams(s: Settings, modelFile: string): ModelParams {
    ModelParams(modelFile, ToUInt32(s.contextSize), s.gpuLayerCount, true, true, s.threadCount, BatchSize)
  }

  function InitialHistory(): seq<Message> {
    [Message(System, SystemPrompt)]
  }

  /** The handles a completed load produces from `modelFile`. */
  function LoadedHandles(s: Settings, modelFile: string): Handles {
    var p := LoadParams(s, modelFile);
    var c := Context(Weights(p), p);
    Handles(Some(Weights(p)), Some(c), Some(InteractiveExecutor(c)), Some(ChatSession(InteractiveExecutor(c), InitialHistory())))
  }

  /** The loading steps of `InitializeAsync`, after the backend step: the
      weights, context, executor and session, each assigned as soon as it
      is made. Whether they all complete, the handles afterwards and the
      library calls issued. */
  function LoadSteps(s: Settings, h: Handles, modelFile: string, failAt: Option<FailurePoint>): (r: (bool, Handles, seq<LibraryCall>))
    ensures r.0 <==> failAt.None? || failAt.value.DirectoryAccess? || failAt.value.NativeConfiguration?
    ensures r.0 ==> r.1 == LoadedHandles(s, modelFile)
    ensures r.1.session == h.session || r.0
    ensures CpuBackendConfigurations(r.2) == 0
  {
    var p := LoadParams(s, modelFile);
    var w := Weights(p);
    var c := Context(w, p);
    var e := InteractiveExecutor(c);
    var loads := [LoadFromFile(p), CreateContext(w, p)];
    assert CpuBackendConfigurations(loads[..1]) == 0;
    match failAt
    case Some(WeightLoading) => (false, h, loads[..1])
    case Some(ContextCreation) => (false, h.(weights := Some(w)), loads)
    case Some(ExecutorCreation) => (false, h.(weights := Some(w), context := Some(c)), loads)
    case Some(SessionCreation) => (false, h.(weights := Some(w), context := Some(c), executor := Some(e)), loads)
    case _ => (true, LoadedHandles(s, modelFile), loads)
  }

  /** Whether an initialisation that finds the static flag unset leaves it
      set: it found a model file and neither the directory access nor the
      backend configuration threw. */
  predicate SetsNativeFlag(modelFiles: seq<string>, failAt: Option<FailurePoint>) {
    modelFiles != [] && failAt != Some(DirectoryAccess) && failAt != Some(NativeConfiguration)
  }

  /** `InitializeAsync` from the handles `h` and the static flag: whether it
      succeeds, the handles afterwards, the flag afterwards and the library
      calls it issues. A step that throws leaves the fields assigned by the
      earlier steps in place. */
  function Initialize(s: Settings, h: Handles, nativeInitialized: bool, modelFiles: seq<string>, failAt: Option<FailurePoint>): (r: InitResult)
    ensures modelFiles == [] ==> r == InitResult(false, h, nativeInitialized, [])
    ensures r.ok <==> modelFiles != [] && (failAt.None? || (failAt == Some(NativeConfiguration) && nativeInitialized))
    ensures r.ok ==> r.handles == LoadedHandles(s, modelFiles[0])
    ensures !r.ok ==> r.handles.session == h.session
    ensures r.nativeInitialized <==> nativeInitialized || SetsNativeFlag(modelFiles, failAt)
    ensures CpuBackendConfigurations(r.calls) == if !nativeInitialized && r.nativeInitialized then 1 else 0
    ensures !nativeInitialized && modelFiles != [] && failAt != Some(DirectoryAccess) ==>
              r.calls != [] && r.calls[0].ConfigureCpuBackend?
    ensures nativeInitialized ==> forall i :: 0 <= i < |r.calls| ==> !r.calls[i].ConfigureCpuBackend?
  {
    if failAt == Some(DirectoryAccess) || modelFiles == [] then
      InitResult(false, h, nativeInitialized, [])
    else if !nativeInitialized && failAt == Some(NativeConfiguration) then
      InitResult(false, h, false, [ConfigureCpuBackend(false)])
    else
      var setup := if nativeInitialized then [] else [ConfigureCpuBackend(true)];
      var (ok, handles, loads) := LoadSteps(s, h, modelFiles[0], failAt);
      CpuBackendConfigurationsAppend(setup, loads);
      InitResult(ok, handles, true, setup + loads)
  }

  /** How many backend configurations in `calls` completed. */
  function CpuBackendConfigurations(calls: seq<LibraryCall>): nat {
    if calls == [] then 0
    else CpuBackendConfigurations(calls[..|calls| - 1]) + (if calls[|calls| - 1] == ConfigureCpuBackend(true) then 1 else 0)
  }

  lemma {:induction false} CpuBackendConfigurationsAppend(a: seq<LibraryCall>, b: seq<LibraryCall>)
    ensures CpuBackendConfigurations(a + b) == CpuBackendConfigurations(a) + CpuBackendConfigurations(b)
    decreases |b|
  {
    if b == [] {
      assert a + b == a;
    } else {
      assert (a + b)[..|a + b| - 1] == a + b[..|b| - 1];
      CpuBackendConfigurationsAppend(a, b[..|b| - 1]);
    }
  }

  /** One call of `InitializeAsync`, on any service of the process. */
  datatype Attempt = Attempt(settings: Settings, handles: Handles, modelFiles: seq<string>, failAt: Option<FailurePoint>)

  /** The static flag and the library calls after a run of initialisations,
      in order, that all share the process. */
  function RunInitializations(nativeInitialized: bool, attempts: seq<Attempt>): (bool, seq<LibraryCall>)
    decreases |attempts|
  {
    if attempts == [] then (nativeInitialized, [])
    else
      var (flag, calls) := RunInitializations(nativeInitialized, attempts[..|attempts| - 1]);
      var a := attempts[|attempts| - 1];
      var r := Initialize(a.settings, a.handles, flag, a.modelFiles, a.failAt);
      (r.nativeInitialized, calls + r.calls)
  }

  /** However many services initialise, however often, as long as no two
      initialisations overlap, a backend configuration completes at most once
      per process: once if the flag went from false to true, never if it was
      already set. The flag is never reset. A configuration that throws
      leaves the flag unset and is counted as issued but not completed. */
  lemma {:induction false} CpuBackendConfiguredAtMostOnce(nativeInitialized: bool, attempts: seq<Attempt>)
    ensures var (flag, calls) := RunInitializations(nativeInitialized, attempts);
            && (nativeInitialized ==> flag)
            && CpuBackendConfigurations(calls) == if !nativeInitialized && flag then 1 else 0
    decreases |attempts|
  {
    if attempts != [] {
      var (flag, calls) := RunInitializations(nativeInitialized, attempts[..|attempts| - 1]);
      CpuBackendConfiguredAtMostOnce(nativeInitialized, attempts[..|attempts| - 1]);
      var a := attempts[|attempts| - 1];
      var r := Initialize(a.settings, a.handles, flag, a.modelFiles, a.failAt);
      CpuBackendConfigurationsAppend(calls, r.calls);
    }
  }

  /** A backend configuration that throws is issued again by the next
      initialisation, which configures the backend after all: the log holds
      two configuration calls, the first failed and the second completed. */
  lemma FailedConfigurationIsRetried(s: Settings, h: Handles, modelFiles: seq<string>)
    requires modelFiles != []
    ensures var (flag, calls) := RunInitializations(false, [Attempt(s, h, modelFiles, Some(NativeConfiguration)), Attempt(s, h, modelFiles, None)]);
            && flag
            && |calls| >= 2 && calls[0] == ConfigureCpuBackend(false) && calls[1] == ConfigureCpuBackend(true)
            && CpuBackendConfigurations(calls) == 1
  {
    var a := [Attempt(s, h, modelFiles, Some(NativeConfiguration)), Attempt(s, h, modelFiles, None)];
    assert a[..1][..0] == [];
    assert a[..1][0] == a[0];
    var r0 := Initialize(s, h, false, modelFiles, Some(NativeConfiguration));
    assert r0.calls == [ConfigureCpuBackend(false)] && !r0.nativeInitialized;
    assert RunInitializations(false, a[..1]) == (false, [] + r0.calls);
    assert a[..2] == a;
    CpuBackendConfiguredAtMostOnce(false, a);
  }

  /** The text either generate method returns, given whether a session is
      loaded. The session check comes first, then the prompt check. */
  function Reply(loaded: bool, prompt: Option<string>, stream: ChatStream): (r: string)
    ensures !loaded ==> r == NotLoadedReply
    ensures loaded && IsNullOrWhiteSpace(prompt) ==> r == InvalidPromptReply
    ensures loaded && !IsNullOrWhiteSpace(prompt) && stream.failure.Some? ==>
              r == GenerationErrorPrefix + stream.failure.value
    ensures loaded && !IsNullOrWhiteSpace(prompt) && stream.failure.None? ==>
              IsTrimOf(r, Concat(stream.fragments))
  {
    if !loaded then NotLoadedReply
    else if IsNullOrWhiteSpace(prompt) then InvalidPromptReply
    else if stream.failure.Some? then GenerationErrorPrefix + stream.failure.value
    else Trim(Concat(stream.fragments))
  }

  /** The library call a generate method issues: the prompt, untrimmed, as a
      user message, with the service's token ceiling and the fixed anti-prompts. */
  function ChatCalls(loaded: bool, prompt: Option<string>, maxTokens: Int32): (r: seq<LibraryCall>)
    ensures |r| <= 1
    ensures r != [] <==> loaded && !IsNullOrWhiteSpace(prompt)
    ensures r != [] ==> r[0].ChatAsync? && r[0].message == Message(User, prompt.value)
    ensures r != [] ==> r[0].inference.maxTokens == maxTokens && r[0].inference.antiPrompts == ["User:", "Human:", "\n\n"]
  {
    if loaded && !IsNullOrWhiteSpace(prompt) then
      [ChatAsync(Message(User, prompt.value), InferenceParams(maxTokens, AntiPrompts))]
    else
      []
  }

  /** A reply streamed without error is empty exactly when every streamed
      character is white space; otherwise it starts and ends with a
      character that is not. */
  lemma StreamedReplyEmptyIffBlank(prompt: Option<string>, stream: ChatStream)
    requires !IsNullOrWhiteSpace(prompt) && stream.failure.None?
    ensures Reply(true, prompt, stream) == [] <==> AllWhiteSpace(Concat(stream.fragments))
    ensures HasTrimmedEnds(Reply(true, prompt, stream))
  {
    BlankIffTrimsToEmpty(Concat(stream.fragments));
  }

  /** A successful load opens the first discovered file with the stored
      settings, creates the context with those same settings, chains
      executor, context and weights, and starts a chat
      history holding exactly one message, the system prompt. */
  lemma LoadedServiceShape(s: Settings, h: Handles, nativeInitialized: bool, modelFiles: seq<string>, failAt: Option<FailurePoint>)
    requires Initialize(s, h, nativeInitialized, modelFiles, failAt).ok
    ensures var hs := Initialize(s, h, nativeInitialized, modelFiles, failAt).handles;
            && hs.weights.Some? && hs.context.Some? && hs.executor.Some? && hs.session.Some?
            && hs.session.value.executor == hs.executor.value
            && hs.executor.value.context == hs.context.value
            && hs.context.value.weights == hs.weights.value
            && var p := hs.weights.value.params;
            && p.modelFile == modelFiles[0]
            && p.contextSize == ToUInt32(s.contextSize)
            && p.gpuLayerCount == s.gpuLayerCount
            && p.threads == s.threadCount
            && p.useMemorymap && p.useMemoryLock && p.batchSize == 512
            && hs.context.value.params == p
            && |hs.session.value.history| == 1
            && hs.session.value.history[0].role == System
  {
  }

  /** The library calls `Dispose` issues: the context's release, then the
      weights', each only when the field is set. */
  function ReleaseCalls(context: Option<Context>, weights: Option<Weights>): (r: seq<LibraryCall>)
    ensures |r| == (if context.Some? then 1 else 0) + (if weights.Some? then 1 else 0)
    ensures context.Some? ==> r[0] == DisposeContext(context.value)
    ensures weights.Some? ==> r[|r| - 1] == DisposeWeights(weights.value)
  {
    (if context.Some? then [DisposeContext(context.value)] else []) +
    (if weights.Some? then [DisposeWeights(weights.value)] else [])
  }

  /** After a successful load, disposing releases the context first and then
      the very weights that context was created from. */
  lemma ReleaseContextBeforeItsWeights(s: Settings, h: Handles, nativeInitialized: bool, modelFiles: seq<string>, failAt: Option<FailurePoint>)
    requires Initialize(s, h, nativeInitialized, modelFiles, failAt).ok
    ensures var hs := Initialize(s, h, nativeInitialized, modelFiles, failAt).handles;
            ReleaseCalls(hs.context, hs.weights) == [DisposeContext(hs.context.value), DisposeWeights(hs.context.value.weights)]
  {
  }

  /** The text a `StringBuilder` holds after appending every fragment in turn. */
  method AppendAll(fragments: seq<string>) returns (text: string)
    ensures text == Concat(fragments)
  {
    text := "";
    for i := 0 to |fragments|
      invariant text == Concat(fragments[..i])
    {
      assert fragments[..i + 1][..i] == fragments[..i];
      text := text + fragments[i];
    }
    assert fragments[..|fragments|] == fragments;
  }

  /** The process-wide state: the static flag and the log of library calls. */
  class ProcessState {
    var nativeLibraryInitialized: bool
    var libraryCalls: seq<LibraryCall>

    constructor()
      ensures !nativeLibraryInitialized && libraryCalls == []
    {
      nativeLibraryInitialized := false;
      libraryCalls := [];
    }
  }

  class LlamaSharpLLMService {
    var weights: Option<Weights>
    var context: Option<Context>
    var executor: Option<Executor>
    var session: Option<Session>
    const modelPath: string
    const maxTokens: Int32
    const contextSize: Int32
    const gpuLayerCount: Int32
    const threadCount: Int32
    const process: ProcessState

    function CurrentSettings(): Settings {
      Settings(maxTokens, contextSize, gpuLayerCount, threadCount)
    }

    function State(): Handles
      reads this
    {
      Handles(weights, context, executor, session)
    }

    /** `processorCount` is `Environment.ProcessorCount`; `process` holds the
        static state every service of the process shares. */
    constructor(modelPath: string, maxTokens: Int32, contextSize: Int32, gpuLayerCount: Int32,
                threadCount: Int32, processorCount: Int32, process: ProcessState)
      ensures this.modelPath == modelPath && this.maxTokens == maxTokens
      ensures this.contextSize == contextSize && this.gpuLayerCount == gpuLayerCount
      ensures this.threadCount == ResolveThreadCount(threadCount, processorCount)
      ensures this.process == process
      ensures State() == Handles(None, None, None, None)
    {
      this.modelPath := modelPath;
      this.maxTokens := maxTokens;
      this.contextSize := contextSize;
      this.gpuLayerCount := gpuLayerCount;
      this.threadCount := if threadCount == 0 then processorCount else threadCount;
      this.process := process;
      weights, context, executor, session := None, None, None, None;
    }

    /** `modelFiles` is what the `*.gguf` scan of the model directory found,
        in the order it found them. */
    method InitializeAsync(modelFiles: seq<string>, failAt: Option<FailurePoint>) returns (ok: bool)
      modifies this, process
      ensures var r := Initialize(CurrentSettings(), old(State()), old(process.nativeLibraryInitialized), modelFiles, failAt);
              && ok == r.ok
              && State() == r.handles
              && process.nativeLibraryInitialized == r.nativeInitialized
              && process.libraryCalls == old(process.libraryCalls) + r.calls
    {
      if failAt == Some(DirectoryAccess) || |modelFiles| == 0 {
        return false;
      }
      if !process.nativeLibraryInitialized {
        if failAt == Some(NativeConfiguration) {
          process.libraryCalls := process.libraryCalls + [ConfigureCpuBackend(false)];
          return false;
        }
        process.libraryCalls := process.libraryCalls + [ConfigureCpuBackend(true)];
        process.nativeLibraryInitialized := true;
      }
      ok := LoadModel(modelFiles[0], failAt);
    }

    /** The loading steps of `InitializeAsync` once the backend is
        configured: each handle field is assigned as soon as its step
        completes, so a step that throws leaves the earlier ones in place. */
    method LoadModel(modelFile: string, failAt: Option<FailurePoint>) returns (ok: bool)
      modifies this, process`libraryCalls
      ensures var r := LoadSteps(CurrentSettings(), old(State()), modelFile, failAt);
              && ok == r.0
              && State() == r.1
              && process.libraryCalls == old(process.libraryCalls) + r.2
    {
      var parameters := LoadParams(CurrentSettings(), modelFile);
      process.libraryCalls := process.libraryCalls + [LoadFromFile(parameters)];
      if failAt == Some(WeightLoading) {
        return false;
      }
      var w := Weights(parameters);
      weights := Some(w);
      process.libraryCalls := process.libraryCalls + [CreateContext(w, parameters)];
      if failAt == Some(ContextCreation) {
        return false;
      }
      var c := Context(w, parameters);
      context := Some(c);
      if failAt == Some(ExecutorCreation) {
        return false;
      }
      executor := Some(InteractiveExecutor(c));
      if failAt == Some(SessionCreation) {
        return false;
      }
      var chatHistory: seq<Message> := [];
      chatHistory := chatHistory + [Message(System, SystemPrompt)];
      assert chatHistory == InitialHistory();
      session := Some(ChatSession(executor.value, chatHistory));
      ok := true;
    }

    /** Streams the reply to `prompt` from the session. */
    method GenerateTextAsync(prompt: Option<string>, stream: ChatStream) returns (r: string)
      modifies process`libraryCalls
      ensures r == Reply(session.Some?, prompt, stream)
      ensures process.libraryCalls == old(process.libraryCalls) + ChatCalls(session.Some?, prompt, maxTokens)
    {
      if session.None? {
        return NotLoadedReply;
      }
      if IsNullOrWhiteSpace(prompt) {
        return InvalidPromptReply;
      }
      var inferenceParams := InferenceParams(maxTokens, AntiPrompts);
      process.libraryCalls := process.libraryCalls + [ChatAsync(Message(User, prompt.value), inferenceParams)];
      var response := AppendAll(stream.fragments);
      if stream.failure.Some? {
        return GenerationErrorPrefix + stream.failure.value;
      }
      r := Trim(response);
    }

    /** The same steps as `GenerateTextAsync`. */
    method GenerateTextSync(prompt: Option<string>, stream: ChatStream) returns (r: string)
      modifies process`libraryCalls
      ensures r == Reply(session.Some?, prompt, stream)
      ensures process.libraryCalls == old(process.libraryCalls) + ChatCalls(session.Some?, prompt, maxTokens)
    {
      if session.None? {
        return NotLoadedReply;
      }
      if IsNullOrWhiteSpace(prompt) {
        return InvalidPromptReply;
      }
      var inferenceParams := InferenceParams(maxTokens, AntiPrompts);
      process.libraryCalls := process.libraryCalls + [ChatAsync(Message(User, prompt.value), inferenceParams)];
      var response := AppendAll(stream.fragments);
      if stream.failure.Some? {
        return GenerationErrorPrefix + stream.failure.value;
      }
      r := Trim(response);
    }

    /** Drops the session and executor and releases the context, then the
        weights. The two handle fields themselves are left set. */
    method Dispose()
      modifies this, process`libraryCalls
      ensures session.None? && executor.None?
      ensures context == old(context) && weights == old(weights)
      ensures process.libraryCalls == old(process.libraryCalls) + ReleaseCalls(old(context), old(weights))
    {
      session := None;
      executor := None;
      if context.Some? {
        process.libraryCalls := process.libraryCalls + [DisposeContext(context.value)];
      }
      if weights.Some? {
        process.libraryCalls := process.libraryCalls + [DisposeWeights(weights.value)];
      }
    }
  }

  /** A service built with every constructor argument left at its default:
      the "models" directory, 256 tokens, a 2048-token context, no GPU
      layers, and one thread per processor. */
  method NewDefaultService(processorCount: Int32, process: ProcessState) returns (service: LlamaSharpLLMService)
    ensures service.modelPath == "models" && service.maxTokens == 256 && service.contextSize == 2048
    ensures service.gpuLayerCount == 0 && service.threadCount == processorCount
    ensures service.process == process && service.State() == Handles(None, None, None, None)
  {
    service := new LlamaSharpLLMService(DefaultModelPath, DefaultMaxTokens, DefaultContextSize,
                                        DefaultGpuLayerCount, DefaultThreadCount, processorCount, process);
  }

  /** Once disposed, a service answers every prompt with the not-loaded
      reply from either generate method, whatever state it was in before,
      and issues no library call beyond the releases `Dispose` makes. */
  method DisposedServiceIsNotLoaded(service: LlamaSharpLLMService, prompt: Option<string>, stream: ChatStream)
    returns (asyncReply: string, syncReply: string)
    modifies service, service.process
    ensures asyncReply == NotLoadedReply && syncReply == NotLoadedReply
    ensures service.process.libraryCalls ==
              old(service.process.libraryCalls) + ReleaseCalls(old(service.context), old(service.weights))
  {
    service.Dispose();
    asyncReply := service.GenerateTextAsync(prompt, stream);
    syncReply := service.GenerateTextSync(prompt, stream);
  }

  /** A log extended twice is the old log followed by both extensions. */
  lemma AppendedTwice(log: seq<LibraryCall>, a: seq<LibraryCall>, b: seq<LibraryCall>)
    ensures (log + a + b)[|log|..] == a + b
    ensures log + a + b == log + (a + b)
  {
  }

  /** Two services of one process initialise one after the other, from any
      state and with any step throwing: the flag ends set exactly when it
      was set already or either load got past the backend step, and the two
      loads together complete a backend configuration once if they set the
      flag and never otherwise. */
  method SharedProcessConfiguresOnce(first: LlamaSharpLLMService, second: LlamaSharpLLMService,
                                     firstFiles: seq<string>, firstFail: Option<FailurePoint>,
                                     secondFiles: seq<string>, secondFail: Option<FailurePoint>)
    returns (calls: seq<LibraryCall>)
    requires second.process == first.process
    modifies first, second, first.process
    ensures first.process.libraryCalls == old(first.process.libraryCalls) + calls
    ensures first.process.nativeLibraryInitialized <==>
              old(first.process.nativeLibraryInitialized) || SetsNativeFlag(firstFiles, firstFail) || SetsNativeFlag(secondFiles, secondFail)
    ensures CpuBackendConfigurations(calls) ==
              if !old(first.process.nativeLibraryInitialized) && first.process.nativeLibraryInitialized then 1 else 0
  {
    var process := first.process;
    var start := |process.libraryCalls|;
    ghost var before := process.libraryCalls;
    ghost var flag0 := process.nativeLibraryInitialized;
    ghost var r1 := Initialize(first.CurrentSettings(), first.State(), flag0, firstFiles, firstFail);
    var _ := first.InitializeAsync(firstFiles, firstFail);
    ghost var mid := process.libraryCalls;
    ghost var flag1 := process.nativeLibraryInitialized;
    assert mid == before + r1.calls && flag1 == r1.nativeInitialized;
    ghost var r2 := Initialize(second.CurrentSettings(), second.State(), flag1, secondFiles, secondFail);
    var _ := second.InitializeAsync(secondFiles, secondFail);
    assert process.libraryCalls == mid + r2.calls && process.nativeLibraryInitialized == r2.nativeInitialized;
    AppendedTwice(before, r1.calls, r2.calls);
    calls := process.libraryCalls[start..];
    CpuBackendConfigurationsAppend(r1.calls, r2.calls);
  }
}
