# gocvkit in Dafny

gocvkit is a Go toolkit for live OpenCV video processing. A TOML file
names an ordered list of processing steps. A builder turns each step
table into a processor through a registry of factories, and a pipeline
runs every camera or video frame through those steps using two ping-pong
buffers and per-step timing statistics. The application shows the result,
and it can record the result to video files (a new numbered file whenever
the frame geometry changes) and stream it to browsers as MJPEG. It
watches the configuration file and hot-swaps the pipeline when the file
is written: the replaced pipeline is closed 150 ms later.

This project models that core:

- `Config`: step-table decoding and `Load`'s default.
- `Processor`: the registry and reflection-based auto-configuration.
- `Builder`: the step builder.
- `Pipeline`: the pipeline run, its statistics and its buffer handling.
- `Recorder`: file naming and rotation.
- `Streamer`: multipart framing, rate limiting and client fan-out.
- `App`: start-up, playback timing, the FPS meter, the present stage, keys, and the watcher's debounce, reload and delayed close.
- `Steps`, `Core`, `Blurs` and `Edges`: the parameter validation and the processing of every built-in processor.

OpenCV's image kernels (blur, threshold, warp, JPEG encoding and so on) are
function parameters. A frame is a value: rows, columns, type and data.
Objects that the Go code mutates are classes whose methods are proved
against pure specification functions. Pure logic is functions and lemmas.

The modules and what they hold:

- `Wrappers`: Option, Result and Outcome.
- `Text`: decimal digits and ASCII bytes for the `Content-Length` header.
- `Frames`: the Mat model.
- `Config`, `Processor`, `Builder`, `Pipeline`, `Recorder`, `Streamer` and `App`: one per Go package.
- `Steps`: shared parameter checks.
- `Core`, `Blurs` and `Edges`: one per processor sub-package.

Time is an integer number of nanoseconds, and the zero `time.Time` is `None`.
`float64` is `real`, and `int(x)` on a positive float is `x.Floor`. The op
bits of an fsnotify event are a `bv32` in which `Write` is 2.

## Model

| member | source | states |
|---|---|---|
| Config.DecodeStep | config/config.go:50-69 | A non-table is refused; a table decodes exactly when it has a string `name` key, and the step carries that name and every other key of the table unchanged |
| Config.EncodeStep | config/config.go:50-69 | The table a step is written as: its parameters plus a `name` key holding its name; `DecodeEncode` and `EncodeDecode` prove it inverse to `DecodeStep` |
| Config.DecodeEncode | config/config.go:50-69 | Decoding the table written for a step gives the step back when no parameter is called `name` |
| Config.EncodeDecode | config/config.go:50-69 | Re-encoding a decoded step rebuilds the original table: no key is lost or altered |
| Config.StepConfigVar.constructor | config/config.go:42-45 | A fresh step variable has an empty name and no parameters |
| Config.StepConfigVar.UnmarshalTOML | config/config.go:50-69 | On failure returns the decoding error and leaves the variable untouched; on success stores exactly the decoded name and parameters |
| Config.Load | config/config.go:73-89 | Read and parse errors pass through; a loaded configuration always has a window name, "GoCV Live" when the file gave none, and is otherwise identical to the file |
| Processor.AutoConfig | processor/auto_config.go:46-93 | The factory configures the processor from the step configuration, returns the configuration error when that fails, and otherwise wraps it as a step named after the configuration; `AutoConfigNamesStep` states this |
| Processor.AutoConfigNamesStep | processor/auto_config.go:46-93 | The auto-configured factory succeeds exactly when configuring the processor does, and the step it returns carries the configured name |
| Processor.Lookup | processor/registry.go:51-54 | A name is found exactly when it is registered, and the factory found is the registered one |
| Processor.Registered | processor/registry.go:38-48 | Registering adds the name and leaves every other name's entry unchanged; a processor value is wrapped by auto-configuration, a factory function is stored as is, and anything else is refused with that name |
| Processor.ReRegisterOverwrites | processor/registry.go:38-48 | Registering a name twice is the same as registering it once with the second item |
| Processor.Registry.constructor | processor/registry.go:33 | The registry starts empty |
| Processor.Registry.Register | processor/registry.go:38-48 | Updates the entries exactly as `Registered` says, or reports the refusal and leaves them unchanged |
| Processor.Registry.Get | processor/registry.go:51-54 | Finds exactly the registered names, returning their factories |
| Processor.SobelKernel | processor/sobel.go:17-25 | The kernel size used is always odd and at least 1: odd sizes are kept, even sizes are raised by one, and sizes below 1 become 1 |
| Processor.SobelKernelIdempotent | processor/sobel.go:17-25 | Normalising a normalised kernel size changes nothing |
| Builder.BuildPipeline | builder/builder.go:17-35 | The builder loop returns exactly the recursive reference definition `Build` |
| Builder.BuildFrom | builder/builder.go:20-34 | The build of configurations i onward: stops at the first unknown name or failing factory with that index and cause, else the built steps in order; `BuildFromOk` and `BuildFromFailsAtFirst` state this |
| Builder.Build | builder/builder.go:17-35 | BuildPipeline as a value: the build from index 0; `BuildOk` and `BuildFailsAtFirst` characterise it and `Builder.BuildPipeline` is proved equal to it |
| Builder.BuildOk | builder/builder.go:17-35 | A successful build yields one step per configured step, in order, each the value its registered factory returned for that configuration |
| Builder.BuildFromOk | builder/builder.go:17-35 | The same, for the suffix of the configuration starting at any index |
| Builder.BuildFailsAtFirst | builder/builder.go:21-29 | When every step before index k builds and step k does not, the build fails with `UnknownProcessor(k, name)` for an unregistered name, or with `FactoryFailed(k, name, cause)` carrying the factory's own error |
| Builder.BuildFromFailsAtFirst | builder/builder.go:21-29 | The same, for a suffix starting at any index |
| Builder.BuildEmpty | builder/builder.go:17-35 | An empty step list builds an empty pipeline |
| Pipeline.Record | pipeline/pipeline.go:121-125 | One timed call: the call count goes up by one, the time is added to the total, and the maximum becomes the larger of the two; `RecordExtendsSummary` proves it extends the summary of the step's timings by that one |
| Pipeline.RecordExtendsSummary | pipeline/pipeline.go:121-125 | Recording one more timing into a step's stats gives the summary of the timings with that one appended |
| Pipeline.SummaryBounds | pipeline/pipeline.go:23-28 | A step's max time is one of its timings and at least every timing, it never exceeds the total time, and the call count is the number of timings |
| Pipeline.FreshStats | pipeline/pipeline.go:95-100 | Stats are created with one zeroed entry per step, named after the step |
| Pipeline.Accumulate | pipeline/pipeline.go:121-125 | Accumulating keeps one entry per step |
| Pipeline.AccumulateExt | pipeline/pipeline.go:121-125 | Any stats list whose first k entries recorded their timing and whose other entries are unchanged is the accumulated list |
| Pipeline.NeedsRealloc | pipeline/pipeline.go:80-88 | Both buffers are rebuilt when either is empty or buffer A's rows or cols differ from the source's |
| Pipeline.Resized | pipeline/pipeline.go:80-88 | The buffers after the sizing block: two new matrices of the source's size and type when a rebuild is needed, else the old ones; `ResizedGeometry` states their geometry |
| Pipeline.ResizedGeometry | pipeline/pipeline.go:80-88 | After the buffer check, buffer A has the source's size and is not empty; realloc happens exactly when a buffer is empty or A's size differs from the source, and then both buffers are fresh source-size matrices of the source's type |
| Pipeline.BufBKeepsOtherGeometry | pipeline/pipeline.go:80-88 | Only buffer A's size is compared, so a buffer B of another geometry is kept as is |
| Pipeline.Attempt | pipeline/pipeline.go:106-127 | One loop iteration on the loop state: stopped stays stopped; an empty input, a failing step and an empty output stop at that step with their errors; otherwise the output goes to the other buffer and the roles swap |
| Pipeline.ExecN | pipeline/pipeline.go:106-128 | The loop state after the first n iterations, one `Attempt` each |
| Pipeline.ChainN | pipeline/pipeline.go:106-128 | The reference semantics of the first n steps: the functional composition, halting at the first input-empty, failing or empty-output step; `ExecAgreesWithChain` ties the buffer loop to it |
| Pipeline.Chain | pipeline/pipeline.go:102-130 | The composition of all steps, or where and why it halts |
| Pipeline.ExecAgreesWithChain | pipeline/pipeline.go:106-128 | The ping-pong loop over the first n steps is still running exactly when the functional chain of those steps succeeded, with the chain's frame in the current buffer; when the chain halts, the loop stopped with the same error |
| Pipeline.ChainNeverInputEmpty | pipeline/pipeline.go:106-117 | Starting from a non-empty frame every intermediate frame is non-empty, so the loop's input-empty error can never fire and a halt is a step error or an empty output |
| Pipeline.ExecStoppedStays | pipeline/pipeline.go:106-128 | Once the loop has stopped, running further steps changes nothing |
| Pipeline.ChainHaltStays | pipeline/pipeline.go:106-128 | Once the chain has halted, later steps do not change the result |
| Pipeline.ChainIdentity | pipeline/pipeline.go:106-128 | Steps that return their input unchanged leave the frame unchanged |
| Pipeline.RunSpec | pipeline/pipeline.go:69-132 | Run on values: short-circuits on a missing or empty source and a missing destination, the sizing block, the copy when there are no steps, fresh stats when their count differs, and the loop; `RunShortCircuits`, `RunComposes`, `RunHalts` and `RunMatchesChain` characterise it |
| Pipeline.RunShortCircuits | pipeline/pipeline.go:70-78 | A missing or empty input succeeds without touching buffers, stats or the destination; otherwise a nil destination, and only that, fails with `DstNil`, again touching nothing |
| Pipeline.RunWithoutSteps | pipeline/pipeline.go:90-93 | With no steps, Run copies the input to the destination and succeeds |
| Pipeline.RunComposes | pipeline/pipeline.go:106-130 | When every step succeeds, Run succeeds, the destination holds the composition of all steps applied to the input, the result sits in buffer A after an even number of steps and in B after an odd one, and every step records exactly one more call (on fresh stats when their count did not match) |
| Pipeline.RunHalts | pipeline/pipeline.go:106-128 | When the chain halts at step i, Run reports that step's own error or its empty output, the destination is not written, the steps before i record one more call and the others keep their stats |
| Pipeline.RunMatchesChain | pipeline/pipeline.go:69-132 | For a non-empty input and a destination, Run passes exactly when the chain is done, writing the chain's frame, and otherwise fails with the chain's error |
| Pipeline.RunIdentity | pipeline/pipeline.go:106-130 | Steps that return their input make Run copy the input through |
| Pipeline.PingPong | pipeline/pipeline.go:106-128 | The loop method ends in the state the step-by-step specification `ExecN` reaches and keeps every step's stats equal to the summary of its timings |
| Pipeline.ProcessStep | pipeline/pipeline.go:106-128 | One loop iteration: an empty input stops with the input-empty error, a failing step stops with its error, an empty output stops with the empty-output error, and otherwise the output goes into the other buffer and the buffers swap roles, exactly as the step-by-step specification `Attempt` says |
| Pipeline.StoppedOutcome | pipeline/pipeline.go:106-128 | Stopping at step i with an error yields the final loop outcome: that error, no output, the buffers as they were, and timings recorded for steps 0..i only |
| Pipeline.LoopIsRun | pipeline/pipeline.go:102-130 | The loop outcome on a non-empty input with a destination is exactly what the run specification gives |
| Pipeline.RunValues | pipeline/pipeline.go:69-132 | Run on values: the short-circuits, the buffer reallocation, the empty pipeline and the ping-pong loop together give exactly `RunSpec`'s result, buffers, stats and output |
| Pipeline.AccumulateSummarises | pipeline/pipeline.go:121-125 | If every step's stats summarise its timing history, they still do after the first k steps each record one more timing |
| Pipeline.RunSummarises | pipeline/pipeline.go:95-125 | After any Run, each step's stats are still the summary of its timing history, with fresh stats starting an empty history |
| Pipeline.Pipeline.constructor | pipeline/pipeline.go:40-50 | A new pipeline holds the given steps, two empty buffers, no stats and no close history |
| Pipeline.Pipeline.Run | pipeline/pipeline.go:69-132 | The result, the new buffers, the stats and the destination are exactly those of the specification `RunSpec` on the old state, and the stats stay the summaries of the recorded timings |
| Pipeline.Pipeline.Close | pipeline/pipeline.go:54-61 | Both buffers are released and every step is closed once, in order; stats are kept |
| Recorder.ExtStart | recorder/recorder.go:39 | The extension starts at the last dot after the last slash, or there is none |
| Recorder.Ext | recorder/recorder.go:39 | `filepath.Ext`: a suffix of the path that is empty or is one dot followed by characters that are neither dots nor slashes; empty only when every dot lies before a slash |
| Recorder.TrimSuffix | recorder/recorder.go:40 | Removes the suffix when the string ends with it, and otherwise returns the string |
| Recorder.SplitPath | recorder/recorder.go:39-43 | The base name is the path without `filepath.Ext`'s extension, and the extension defaults to ".mp4"; `SplitPathParts` states this |
| Recorder.SplitPathParts | recorder/recorder.go:39-43 | The base name plus the extension gives the path back; a path without an extension records with ".mp4"; the stored extension always starts with a dot |
| Recorder.SplitPathExtension | recorder/recorder.go:39-43 | "out/clip.avi" gives the base "out/clip" and the extension ".avi" |
| Recorder.SplitPathDottedDirectory | recorder/recorder.go:39-43 | "runs.v2/capture" keeps the whole path as base and records with ".mp4", because a dot in a directory name is not an extension |
| Recorder.SplitPathDefaultOutput | recorder/recorder.go:39-43 | The default output "gocvkit_capture.mp4" gives ("gocvkit_capture", ".mp4") |
| Recorder.FileName | recorder/recorder.go:95 | The n-th file is named `base-N.ext` with N in decimal; `FileNameInjective` proves different counters give different names |
| Recorder.FileNameInjective | recorder/recorder.go:95-96 | Different counters give different file names `base-N.ext` |
| Recorder.Initial | recorder/recorder.go:36-51 | NewRecorder: nothing open, counter 0, 30 fps, "mp4v", and the base and extension `SplitPath` gives |
| Recorder.SetFPSSpec | recorder/recorder.go:55-59 | Only a positive rate replaces the current one |
| Recorder.CloseSpec | recorder/recorder.go:110-115 | The open file, if any, is finalised and nothing is left open; without one nothing changes |
| Recorder.FormatChanged | recorder/recorder.go:75-81 | The frame's cols, rows or channel count differ from the ones the open file was created with |
| Recorder.PutFrame | recorder/recorder.go:105 | The frame is appended to the open file when the write succeeds; otherwise the write error and no change |
| Recorder.OpenSpec | recorder/recorder.go:84-103 | The signature becomes the frame's and the counter advances, even when opening fails; on success the frame goes into the new file `base-N.ext` |
| Recorder.WriteSpec | recorder/recorder.go:64-106 | Write: an empty frame is skipped; a change of format closes the open file; then the frame goes to the open file or to a newly opened one; `WriteSpecInv`, `WriteOpensFile` and `WriteSameFormat` characterise it |
| Recorder.InitialInv | recorder/recorder.go:36-51 | A new recorder satisfies the file invariant and has opened no file |
| Recorder.CloseSpecInv | recorder/recorder.go:110-115 | Close keeps the invariant and the opened files; it leaves no open writer, is idempotent, and keeps the counter and geometry |
| Recorder.PutFrameInv | recorder/recorder.go:105 | Writing to the open file keeps the invariant and every file name |
| Recorder.OpenSpecInv | recorder/recorder.go:84-103 | Opening a file keeps the invariant and only appends to the list of files |
| Recorder.WriteSpecInv | recorder/recorder.go:64-106 | Any write keeps the invariant, never loses an opened file and never renames one |
| Recorder.FileNamesDistinct | recorder/recorder.go:94-96 | Under the invariant no two opened files share a name |
| Recorder.WriteEmptyFrame | recorder/recorder.go:65-67 | An empty frame is ignored without error |
| Recorder.WriteOpensFile | recorder/recorder.go:75-103 | With no writer or a changed geometry, the old file is closed and `base-N.ext` is opened with the frame's size and channels, incrementing the counter even when opening fails; a failure leaves no writer |
| Recorder.WriteSameFormat | recorder/recorder.go:75-105 | A frame of unchanged geometry goes into the current file and the counter stays |
| Recorder.ExampleInitial | recorder/recorder.go:36-51 | "out.mp4" starts with base "out", extension ".mp4", 30 fps, fourcc "mp4v", counter 0 |
| Recorder.ExampleOpen | recorder/recorder.go:84-103 | Opening on a frame creates the counter's file holding that frame |
| Recorder.RotationExample | recorder/recorder.go:75-103 | Big, big, small, big frames give three files, out-0.mp4, out-1.mp4 and out-2.mp4, holding two, one and one frames |
| Recorder.RotationFirstFrame | recorder/recorder.go:75-103 | The first frame opens out-0.mp4 with its format and writes the frame to it |
| Recorder.RotationSameFormat | recorder/recorder.go:75-103 | A frame of the same format is appended to the open file |
| Recorder.RotationSmaller | recorder/recorder.go:75-103 | A frame of another format closes the open file and opens out-1.mp4 for it |
| Recorder.RotationBack | recorder/recorder.go:75-103 | Changing back to the first format rotates again, to out-2.mp4, and does not reopen an old file |
| Recorder.Recorder.constructor | recorder/recorder.go:36-51 | The object's state is the initial state for the path and satisfies the invariant |
| Recorder.Recorder.SetFPS | recorder/recorder.go:55-59 | The state changes exactly as `SetFPSSpec` says: only a positive rate is taken |
| Recorder.Recorder.Close | recorder/recorder.go:110-115 | The state changes exactly as `CloseSpec` says |
| Recorder.Recorder.Write | recorder/recorder.go:64-106 | The new state and the result are exactly `WriteSpec`'s |
| Streamer.ParsePart | streamer/streamer.go:69-81 | A parsed part leaves a strictly shorter remainder |
| Streamer.Part | streamer/streamer.go:69-81 | The bytes writeFrame sends: the part header, the length in decimal, a blank line, the JPEG and CRLF; `PartRoundTrip` proves it parses back |
| Streamer.Stream | streamer/streamer.go:84-102 | The bytes a client receives for a list of JPEGs: their parts in order; `StreamRoundTrip` proves it parses back |
| Streamer.PartRoundTrip | streamer/streamer.go:69-81 | Parsing a multipart frame written by `writeFrame` gives back exactly its JPEG bytes and the bytes after it |
| Streamer.PartTail | streamer/streamer.go:69-81 | After the length digits, the parser finds the blank line, exactly the JPEG's bytes, the closing CRLF and then the rest |
| Streamer.StreamCons | streamer/streamer.go:69-102 | A part written in front of a parsable stream parses to its JPEG in front of that stream's JPEGs |
| Streamer.DigitRunStops | streamer/streamer.go:70 | The decimal `Content-Length` field ends where the `\r\n` starts |
| Streamer.StreamRoundTrip | streamer/streamer.go:69-102 | A client's byte stream parses back to exactly the sequence of frames sent, in order |
| Streamer.Due | streamer/streamer.go:110-112 | A broadcast proceeds unless the previous one was less than one interval ago; the zero time is always long past |
| Streamer.AcceptedTimes | streamer/streamer.go:110-112 | The rate limiter accepts at most the offered broadcasts, and only offered times |
| Streamer.AcceptedSpaced | streamer/streamer.go:110-122 | For increasing broadcast times, consecutive accepted broadcasts are at least one interval apart, and the first is at least one interval after the previous send |
| Streamer.AcceptedExample | streamer/streamer.go:110-112 | With a 100-unit interval, broadcasts at 0, 50, 120 and 140 send at 0 and 120 |
| Streamer.Slot.constructor | streamer/streamer.go:53 | A new client channel holds no frame |
| Streamer.Offer | streamer/streamer.go:123-129 | A slot always holds a frame afterwards; an empty slot takes the new frame, and a full one keeps its frame (slow clients are skipped) |
| Streamer.Greeting | streamer/streamer.go:83-88 | A new client is first sent the cached frame's part when there is one, and nothing otherwise; `SessionStream` and `Streamer.MJPEGStreamer.Connect` use it |
| Streamer.SessionStream | streamer/streamer.go:84-102 | A session's bytes are the latest frame, if any, followed by the received frames, and they parse back to that sequence |
| Streamer.MJPEGStreamer.constructor | streamer/streamer.go:30-35 | No clients, no frame and no send yet; the interval is one fifteenth of a second |
| Streamer.MJPEGStreamer.Broadcast | streamer/streamer.go:108-131 | Sends exactly when the interval has passed since the last send; then stores the send time and the encoded frame and offers it to every client without blocking; otherwise nothing changes |
| Streamer.MJPEGStreamer.Connect | streamer/streamer.go:53-88 | Registers one new empty client and greets it with the latest frame |
| Streamer.MJPEGStreamer.Receive | streamer/streamer.go:91-102 | Takes the client's pending frame, if any, and writes it as one multipart part |
| Streamer.MJPEGStreamer.Disconnect | streamer/streamer.go:62-66 | Removes exactly that client |
| Text.DecimalBytes | streamer/streamer.go:70 | The `%d` bytes of the Content-Length: as many bytes as the decimal rendering has characters, all ASCII digits; `DecimalRoundTrip` proves they read back as the length |
| Text.NatToDecimal | streamer/streamer.go:70 | The `%d` rendering is a non-empty string of digits, with one digit exactly below ten |
| Text.DecimalRoundTrip | streamer/streamer.go:70 | Reading back the decimal bytes of `len(b)` gives `len(b)` |
| Text.DecimalInjective | streamer/streamer.go:70 | Different lengths are written differently |
| Steps.CheckOddKernel | processor/blurs/median_blur.go:19-27 | An odd-kernel parameter is accepted exactly when it is odd and at least the minimum; otherwise the error names the parameter and says whether it was too small or even |
| Steps.Passes | processor/core/dilate.go:50-60 | The number of passes is the iteration count when it is positive, and otherwise 1 |
| Steps.ApplyPasses | processor/core/dilate.go:45-63 | The destination ends as the operation applied `Passes(iterations)` times to the source |
| Core.CheckMorph | processor/core/morph_close.go:22-39 | The kernel and iteration parameters are accepted exactly when the kernel is odd and positive and iterations at least 1, with the source's error for each failure |
| Core.MorphDefaultsValid | processor/core/morph_close.go:77-81 | The default parameters of close (5, 1), dilate (3, 1) and erode (3, 1) validate |
| Core.MorphClose.constructor | processor/core/morph_close.go:77-81 | Stores the parameters, with no kernel and no temporary matrix yet |
| Core.MorphClose.Validate | processor/core/morph_close.go:22-39 | Returns the parameter error, or creates the structuring kernel, failing when OpenCV returns none; the parameters and the temporary matrix are kept |
| Core.MorphClose.Process | processor/core/morph_close.go:42-66 | An empty source is skipped; otherwise the destination is close applied `Passes(iterations)` times, and, with more than one pass, the temporary matrix is reallocated exactly when it is empty or its rows or cols differ from the source's; a change of type alone keeps it |
| Core.MorphClose.Close | processor/core/morph_close.go:68-75 | Releases the kernel and the temporary matrix and keeps the parameters |
| Core.TempStale | processor/core/morph_close.go:53 | The temporary is reallocated when it is empty or its rows or cols differ from the source's, never for a change of type alone |
| Core.TempReused | processor/core/morph_close.go:53-58 | A non-empty temporary with the rows and cols of the source is not reallocated for a later frame of the same rows and cols, whatever the frames' types |
| Core.Dilate.constructor | processor/core/dilate.go:71-75 | Stores the parameters with no kernel |
| Core.Dilate.Validate | processor/core/dilate.go:24-42 | As `MorphClose.Validate`, for dilate |
| Core.Dilate.Process | processor/core/dilate.go:45-63 | An empty source is skipped; otherwise the destination is dilate applied `Passes(iterations)` times |
| Core.Dilate.Close | processor/core/dilate.go:65-69 | Releases the kernel |
| Core.Erode.constructor | processor/core/erode.go:68-72 | Stores the parameters with no kernel |
| Core.Erode.Validate | processor/core/erode.go:24-40 | As `MorphClose.Validate`, for erode |
| Core.Erode.Process | processor/core/erode.go:43-60 | An empty source is skipped; otherwise the destination is erode applied `Passes(iterations)` times |
| Core.Erode.Close | processor/core/erode.go:61-66 | Releases the kernel |
| Core.NormalizedAngle | processor/core/rotate.go:23-29 | The normalised angle lies in [0, 360) |
| Core.NormalizedUnique | processor/core/rotate.go:23-29 | The only angle in [0, 360) that differs from the input by a whole number of turns is the normalised one |
| Core.FastPath | processor/core/rotate.go:31-44 | The exact `gocv.Rotate` path is taken exactly for normalised angles 90, 180 and 270, with codes clockwise, 180 and counter-clockwise |
| Core.FastPathExamples | processor/core/rotate.go:22-47 | 90 and 450 rotate clockwise, -90 and 270 counter-clockwise, -180 by 180, and 0, 360 and 45 take the affine path |
| Core.RotationMatrix2D | processor/core/rotate.go:60-67 | The rotation matrix is 2×3 around the given centre and angle |
| Core.MatrixStale | processor/core/rotate.go:60 | The matrix is rebuilt when none was built or the matrix's rows or cols differ from the frame's |
| Core.MatrixCacheHitsOnlyTwoByThree | processor/core/rotate.go:60-67 | The cached matrix counts as fresh exactly when the frame itself is 2×3, because the cache compares the frame's size with the matrix's |
| Core.Rotate.constructor | processor/core/rotate.go:83-86 | Stores the angle with no fast path and no matrix |
| Core.Rotate.Validate | processor/core/rotate.go:22-47 | Always succeeds; sets the fast path and its code exactly as `FastPath` says and otherwise clears it together with the cached matrix |
| Core.Rotate.Process | processor/core/rotate.go:50-71 | An empty source is skipped; the fast path rotates by its code; otherwise the matrix is rebuilt around the frame centre when stale, and the frame is warped with it |
| Core.Rotate.Close | processor/core/rotate.go:73-81 | Releases the cached matrix when there is one and keeps the angle and fast path |
| Core.ColorCodeNames | processor/core/color_convert.go:22-42 | The supported conversions are exactly BGR2GRAY, BGR2HSV, HSV2BGR, BGR2LAB, LAB2BGR, BGR2YUV and YUV2BGR |
| Core.ColorCodeValues | processor/core/color_convert.go:22-42 | They map to OpenCV codes 6, 40, 54, 44, 56, 82 and 84 |
| Core.ColorCodesDistinct | processor/core/color_convert.go:22-42 | The seven names map to seven different codes, and names are case-sensitive |
| Core.ColorNamesCount | processor/core/color_convert.go:22-42 | The seven supported names are pairwise different |
| Core.ColorKeysCount | processor/core/color_convert.go:22-42 | Exactly seven names are accepted |
| Core.ColorValuesCount | processor/core/color_convert.go:22-42 | The seven names map to seven different OpenCV codes |
| Core.ColorRejects | processor/core/color_convert.go:22-42 | Lower-case names, unsupported conversions such as BGR2RGB and the empty name are rejected |
| Core.ColorConvert.constructor | processor/core/color_convert.go:55-58 | Stores the code name |
| Core.ColorConvert.Validate | processor/core/color_convert.go:22-42 | Succeeds exactly for a supported name and then stores its code; otherwise reports the name as unsupported |
| Core.ColorConvert.Process | processor/core/color_convert.go:45-51 | An empty source is skipped; otherwise the destination is the conversion with the stored code |
| Core.FlipCode | processor/core/flip.go:19-31 | Exactly "horizontal", "vertical" and "both" are accepted, mapping to 1, 0 and -1 |
| Core.FlipCodesDistinct | processor/core/flip.go:19-31 | Different modes flip differently, and the default mode is accepted |
| Core.Flip.constructor | processor/core/flip.go:44-47 | Stores the mode |
| Core.Flip.Validate | processor/core/flip.go:19-31 | Succeeds exactly for a known mode and stores its flip code; otherwise reports the mode as unsupported |
| Core.Flip.Process | processor/core/flip.go:34-40 | An empty source is skipped; otherwise the destination is the flip with the stored code |
| Core.OtsuFlags | processor/core/otsu.go:21-33 | The threshold flags always hold Otsu, hold BinaryInv exactly when inverting, and hold nothing else |
| Core.Otsu.constructor | processor/core/otsu.go:47-51 | Stores the parameters |
| Core.Otsu.Validate | processor/core/otsu.go:21-33 | Succeeds exactly for a positive max value and then stores the flags |
| Core.Otsu.Process | processor/core/otsu.go:36-43 | An empty source is skipped; otherwise the destination is the threshold with the stored flags |
| Core.Adaptive.Validate | processor/core/adaptive_threshold.go:21-33 | Accepted exactly for a positive max value and an odd block size above 1, with the source's error otherwise |
| Core.Adaptive.Process | processor/core/adaptive_threshold.go:36-50 | An empty source leaves the destination; otherwise the adaptive threshold with the parameters |
| Core.Resize.Validate | processor/core/resize.go:20-28 | Accepted exactly for a positive width and height |
| Core.Resize.Process | processor/core/resize.go:31-34 | The destination is the resize to the configured size, with no empty-frame check |
| Core.CoreDefaultsValid | processor/core/adaptive_threshold.go:54-59 | The defaults of adaptive threshold, resize, flip, colour conversion and Otsu validate, with the codes they select |
| Blurs.Bilateral.Validate | processor/blurs/bilateral.go:22-33 | Accepted exactly for a non-negative diameter and positive sigmas, with the first failing parameter named |
| Blurs.Bilateral.Process | processor/blurs/bilateral.go:36-42 | An empty source leaves the destination; otherwise the bilateral filter with the parameters |
| Blurs.GaussianBlur.Validate | processor/blurs/gaussian_blur.go:21-32 | Accepted exactly for an odd positive kernel and a non-negative sigma, checked in that order |
| Blurs.GaussianBlur.Process | processor/blurs/gaussian_blur.go:35-41 | An empty source leaves the destination; otherwise a square kernel with the same sigma on both axes |
| Blurs.MedianBlur.Validate | processor/blurs/median_blur.go:19-27 | Accepted exactly for an odd positive aperture |
| Blurs.MedianBlur.Process | processor/blurs/median_blur.go:30-36 | An empty source leaves the destination; otherwise the median blur |
| Blurs.BlurDefaultsValid | processor/blurs/bilateral.go:46-51 | The registered defaults of the three blurs validate |
| Blurs.EvenKernelRefused | processor/blurs/gaussian_blur.go:21-32 | An even kernel is refused as even, and the next odd size is accepted |
| Edges.Canny.Validate | processor/edges/canny.go:19-30 | Accepted exactly when 0 ≤ low ≤ high, with the first failing check reported |
| Edges.Canny.Process | processor/edges/canny.go:33-39 | An empty source leaves the destination; otherwise Canny with both thresholds |
| Edges.Sobel.Validate | processor/edges/sobel.go:18-26 | Accepted exactly for an odd positive `sobel_size` |
| Edges.Sobel.Process | processor/edges/sobel.go:29-39 | An empty source leaves the destination; otherwise the absolute-scaled Sobel gradient |
| Edges.Laplacian.Validate | processor/edges/laplacian.go:19-27 | Accepted exactly for an odd positive kernel |
| Edges.Laplacian.Process | processor/edges/laplacian.go:30-36 | An empty source leaves the destination; otherwise the Laplacian |
| Edges.ScharrProcess | processor/edges/scharr.go:20-27 | An empty source leaves the destination; otherwise the Scharr operator |
| Edges.EdgeDefaultsValid | processor/edges/canny.go:43-47 | The defaults of Canny, Sobel and Laplacian validate, as does any equal pair of non-negative thresholds |
| Edges.BackgroundSubtractor.constructor | processor/edges/background_subtractor.go:67-71 | Stores the algorithm and learning rate with no backend |
| Edges.BackgroundSubtractor.Validate | processor/edges/background_subtractor.go:18-34 | An existing backend is kept; otherwise "MOG2" or "KNN" creates a fresh backend, and any other name is unsupported |
| Edges.BackgroundSubtractor.Process | processor/edges/background_subtractor.go:37-54 | An empty source succeeds untouched; with no backend the step is not initialised; MOG2 takes precedence over KNN, and the backend used learns the frame |
| Edges.BackgroundSubtractor.Close | processor/edges/background_subtractor.go:56-65 | Releases both backends |
| Edges.SubtractorDefaultValid | processor/edges/background_subtractor.go:67-71 | The default algorithm is a supported one |
| App.OutputPath | app/app.go:64-67 | The recording path is the configured output, or "gocvkit_capture.mp4" when none is given, and is never empty |
| App.ApplyStreamDefaults | app/app.go:75-77 | The stream quality is never zero afterwards: 75 replaces zero, and nothing else changes |
| App.EffectiveConfig | app/app.go:54-77 | The configuration New runs with: Load's result with the stream quality 75 when the file leaves it at 0 |
| App.EffectiveConfigDefaults | app/app.go:54-77 | The configuration New runs with has a window name and a non-zero quality and otherwise is the file's |
| App.SourceFPS | app/app.go:146-158 | The file rate used is in (0, 200]: the reported rate when plausible, else 30 |
| App.DelayAtLeastFive | app/app.go:152-157 | A file rate in (0, 200] gives a delay of at least 5 ms, the lower bound `PlaybackTiming` states |
| App.PlaybackTiming | app/app.go:146-165 | Camera frames wait 1 ms per key poll; file frames wait 1000/fps ms, at least 5; the recording rate is the source rate when recording and the source reports one |
| App.PlaybackTimingExamples | app/app.go:146-165 | A 30 fps file waits 33 ms, and the recorder takes exactly the computed rate |
| App.ClassifyKey | app/app.go:279-288 | Esc, q and Q quit, and f and F toggle the overlay; no key does both |
| App.NextShowFps | app/app.go:286-288 | The overlay flag flips exactly on f or F |
| App.MeterStep | app/app.go:236-249 | One frame: counted, and at 500 ms or more since the reset the count including it and the elapsed time are published and the bucket restarts |
| App.MeterCountsWithinWindow | app/app.go:236-249 | Frames inside the half-second window only add to the counter |
| App.MeterRunSnoc | app/app.go:236-249 | One more frame advances the bucket by exactly one `MeterStep` |
| App.MeterPublishes | app/app.go:236-249 | The first frame at or past the window publishes the count of all frames in the window including itself, with the elapsed time, and restarts the bucket at that frame |
| App.FpsMeter.constructor | app/app.go:214-220 | The meter starts with an empty bucket and nothing shown |
| App.FpsMeter.Tick | app/app.go:236-249 | The meter advances exactly one `MeterStep`, reporting whether it published |
| App.StageOutput | app/app.go:188-212 | The stage's output for one frame: the empty matrix for an empty frame, the pipeline's composed frame when it succeeds, and nothing when it fails |
| App.StageOutputs | app/app.go:190-211 | The frames the transform loop sends on: each input's `StageOutput` in order, with failing frames dropped; `StageOutputsCount` and `StageOutputsSnoc` characterise it and `TransformStage` is proved equal to it |
| App.StageOutputsCount | app/app.go:188-212 | The transform stage emits at most one frame per input, and exactly one each, in order, when every run succeeds |
| App.TransformStage | app/app.go:188-212 | Running the stage over frames yields exactly `StageOutputs`: failing frames are dropped and the loop goes on |
| App.StageOutputsSnoc | app/app.go:188-212 | Handling one more frame appends its output to the stage's outputs when the run succeeds, and appends nothing when it fails |
| App.RunIsStageOutput | app/app.go:188-212 | A pipeline run passes exactly when the stage has an output for that frame, and then the destination holds that output |
| App.SourceFrames | app/app.go:167-186 | The reader forwards the frames read before the first failed or empty read, in order |
| App.Startup | app/app.go:53-106 | New fails on a load error, then on a camera error, then on a build error; on success it runs with the effective configuration and the built steps |
| App.NextLast | app/app.go:317-320 | The debounce mark moves to now exactly for an accepted write event |
| App.ReloadDecision | app/app.go:296-344 | The corrected watcher decision: ignore, debounce, then load with New's defaults and build; `ReloadFilters`, `ReloadMatchesStartup` and `ReloadBuildFailure` characterise it |
| App.IsWrite | app/app.go:313 | An event asks for a reload exactly when the channel delivered it and its Op has the write bit; `ReloadFilters` proves all other events are ignored |
| App.Bounced | app/app.go:317 | An accepted event is dropped when the previous accepted one was less than 200 ms ago, and never after the zero time; `ReloadFilters` and `AcceptedEventDebounces` characterise it |
| App.ReloadFilters | app/app.go:313-320 | Events from a closed channel or without the write bit are ignored; write events within 200 ms of the last accepted one are debounced; the first write event is never debounced |
| App.AcceptedEventDebounces | app/app.go:317-320 | An accepted event, even one whose reload then fails, suppresses any write in the next 200 ms |
| App.ReloadMatchesStartup | app/app.go:323-344 | A reload succeeds exactly when a restart on the same file would, installing the same configuration (non-zero quality) and one step per configured step built by its registered factory |
| App.ReloadBuildFailure | app/app.go:323-335 | A load error and a build error are each reported exactly when start-up would report them, with the same cause |
| App.ReloadedConfigAsWritten | app/app.go:323-343 | The watcher as written stores Load's result: stream section and steps exactly as in the file |
| App.ReloadDecisionAsWritten | app/app.go:296-344 | The watcher decision as written: the same filter, debounce and build, storing Load's result |
| App.ReloadAsWrittenDiffers | app/app.go:323-343 | The as-written and the corrected decision agree on every event, steps and errors included, except that a reload stores Load's result in one and that result with New's defaults in the other |
| App.ReloadLosesQualityDefault | app/app.go:75-77 | Whenever start-up succeeds on a file with no stream quality, New runs with 75, but an accepted write of the same file makes the as-written watcher store 0 |
| App.ReloadLosesQualityExample | app/app.go:323-343 | The file of the finding: streaming on, no quality, no steps; it starts at 75 and reloads at 0 |
| App.App.constructor | app/app.go:87-95 | The application holds the configuration, a fresh pipeline of the steps, a recorder for the output path, an idle streamer, and no debounce mark or pending close |
| App.App.HandleConfigEvent | app/app.go:296-363 | The outcome is `ReloadDecision`, and the mark is updated by `NextLast`; only a reload swaps in a fresh pipeline and the new configuration, scheduling one close of the old pipeline 150 ms later, which is not closed now |
| App.App.Swap | app/app.go:338-352 | A reload installs a fresh pipeline with the new steps and the new configuration, and schedules the old pipeline, when there is one, to close after the delay without closing it yet |
| App.App.FireTimer | app/app.go:347-352 | The oldest timer fires exactly when due, closing its pipeline once (never the current one) and leaving the queue; pipeline and configuration stay |
| App.App.Present | app/app.go:214-290 | The meter ticks once; the recorder gets exactly `WriteSpec` of the shown frame when recording is on; when streaming is enabled and due, the streamer caches the shown frame encoded at the configured quality and offers it to every client slot, where a full slot keeps its frame; otherwise no slot changes; the set of clients is kept; quit and the overlay flag follow the key |
| App.App.Close | app/app.go:109-119 | The recorder is closed as `CloseSpec` says, and the current pipeline's steps are closed once, in order |
| App.New | app/app.go:53-106 | Fails exactly with `Startup`'s error; otherwise a valid application with `Startup`'s configuration and steps, the recorder for its output path, and no mark or pending close |

## Left out

- Goroutines, channels, the mutex and `sync.Once`. The capture, transform and present stages are modelled one frame at a time (`SourceFrames`, `TransformStage`, `App.Present`), and the watcher one event at a time (`HandleConfigEvent`). The channel hand-off between the stages, including its buffering and who wins the lock, is not modelled.
- Clocks. `now` is a parameter. `time.AfterFunc` is the `pendingCloses` queue, which `FireTimer` drains.
- Streamer.MJPEGStreamer.Broadcast: Go reads the clock twice, once for the rate check and once for the new `lastSent`; the model uses one `now` for both.
- App.App.HandleConfigEvent: the same single `now` applies to the debounce check and the new mark.
- App.MeterStep: Go reads the clock three times a frame (app/app.go:241, 243, 248): for the 500 ms test, for the elapsed time behind the rate, and for the new ticker. The model uses one `now` for all three.
- App.App.HandleConfigEvent: installs the corrected reload, `ReloadDecision`, which gives the reloaded configuration New's quality default (see Findings). As written, app/app.go:343 stores Load's result. `ReloadDecisionAsWritten` is that decision, and `ReloadAsWrittenDiffers` proves that the two differ only in the stored stream quality.
- Pipeline.Attempt: a failing `Process` is taken to leave the output buffer as it was. Go returns at once (pipeline/pipeline.go:111-112), so a factory step that wrote `*out` before failing leaves that write in the buffer. The built-in processors fail before they write.
- Config.StepConfigVar.UnmarshalTOML: Go deletes `name` from the decoded map in place and keeps that same map as `Params`. The model builds a new map without `name`; the map's identity and aliasing are not modelled.
- HTTP. The server start, headers, `Flusher` and request context are left out, and so are write errors from `writeFrame` (the session is modelled as ending cleanly). `ServeHTTP` becomes `Connect`, `Receive` and `Disconnect`.
- OpenCV. Every kernel is a parameter: filters, threshold, warp, JPEG encode and VideoWriter. OpenCV failures enter as booleans: `kernelOk`, `openOk`, `writeOk`, `cameraOk`.
- Pixel data is not computed.
- Floating point. Go's `float64`/`float32` are `real`.
- Core.Rotate.Validate: the Go normalisation loops add or subtract 360 in floating point, so for ±Inf or very large angles they would not terminate, or would end inexactly. The model's real arithmetic terminates, and its fast-path test is exact.
- Display, camera opening, `gocvkit.go` and the example programs. These are I/O; only the camera's open result and its reported FPS enter, as parameters.
- The `printReport` statistics table. It is formatting only; the statistics it reads are modelled.
- Processor.AutoConfig: Go reflection and TOML field decoding are a `configure` function parameter; the mapping from TOML keys to struct fields is not modelled.
- The Grayscale processor and the legacy Sobel processor's `Register` call. Their `Process` methods return no error, so they do not implement `Processable`, and `Register` panics; this is modelled as the `Unsupported` registrant, a refused registration.
- Edges.ScharrProcess: Scharr's `Validate` always succeeds, so only its processing is modelled.
- Error texts. Errors are constructors naming the parameter, not formatted messages.
- The wrapped processor's `Close`. `autoStep` forwards `Close` only to processors that define it; adaptive threshold spells its method `Clos`, so its wrapper's Close does nothing. The step model does not carry a Close operation, and the pipeline's Close is recorded as the order in which steps are closed (`closeLog`).
- App.App.Present: `Display.Show`, the `Mat` copies and `m.Close` are left out. Errors from the recorder and streamer are ignored, as in the source.
- The registry used by `New` and by reloads is a snapshot map passed to `App`. Registrations made after start-up are not modelled.
- The transform stage reads `a.Pipeline` under the lock for every frame. `TransformStage` runs one given pipeline over a batch of frames, so a swap in the middle of a batch is not modelled.

## Findings

| source | as written | input that shows it | evidently intended | confidence | as-written member | corrected member |
|---|---|---|---|---|---|---|
| app/app.go:75-77, 323-343 | `New` sets the stream quality to 75 when the file leaves it at 0, but the watcher stores `config.Load`'s result without that default | A file with `[stream] enabled = true` and no `quality`: after any write to the file, `Broadcast` encodes with quality 0 | A reloaded configuration gets the same defaults as the one at start-up | medium, not executed | App.ReloadLosesQualityDefault | App.ReloadMatchesStartup |
