# A verified model of the rengu-flow workflow editor, job lanes and training loop

This project models the parts of rengu-flow that have state or structure worth proving, and proves what their
documentation and comments promise. `dafny verify dfyconfig.toml` checks all of it.

## What is modelled

* **The workflow graph** (`WorkflowGraph`, `GraphCodec`, `Substitution`, `SourceWalks`, `Prediction`, `Validation`,
  `ValidationMessages`, `ExecutionOrder`, `Conversion`, `ConversionLimits`, `FolderNames`, `VariableFormats`,
  `HandleChains`, `Staleness`). A graph is read tolerantly from JSON, its `${name}` references are substituted in one
  pass, each step's emitted dataset handle is predicted, and pre-flight refuses graphs that cannot run. The central
  result is semantic. A *disk* maps the directories that really exist to caption layouts; running the steps in list
  order lets a converting step rewrite its folder. Where every directory has one name for the check and output formats
  are written out, each caption step of a graph that pre-flight accepts reads a handle whose layout is the layout its
  directory has at that moment. The limits are exact, for any number of rewriting steps: an accepted step reads a
  wrong layout if and only if the last step to rewrite its directory left another layout and escaped the check, being
  known by another name, or not counted as a converter and not read through. And when names and directories correspond
  and formats are written out, the check refuses, among the readers of directories rewritten at most once, just those
  that would read a wrong layout. Clean steps may work in place or copy their images to a directory of their own.
* **The GPU lease and the launch protocol** (`GpuLease`, `LaunchProtocol`, `LaunchRows`, `LaunchFailures`). The lease
  table is a class whose loops insert, bind, release and reap rows. The launch (acquire, spawn, write the row, bind
  the pid) is a transition system over job rows, lease rows and live processes in which every other event may fall
  between two stages. The safety invariant is preserved by an event *if and only if* the event is benign; the three
  harmful events are named with their guards, their damage is proved, and two runs that reach it are constructed. Over
  every run the row of a run that is over says stopped if and only if a stop was asked for since the row was running.
* **Compare-and-swap state** (`WorkflowStore`, `WorkflowHistory`). Any interleaving of writers equals the committed
  operations applied one after another, values that come back between read and swap included.
* **The queue as a list** (`JobQueue`), **the step-budgeted training loop** (`TrainingProgress`, `TrainingLoop`),
  **capped page listings** (`DatasetPages`), **tag-editing sessions** (`TagSessions`) and **configuration forms**
  (`ConfigForm`, `ParamForms`). Tag sessions come with the tag edits they stage (`TagEdits`).

Code that the source writes as expressions is functions with lemmas; code that changes rows, counters or dictionaries
step by step is methods and classes with loops, each tied by its contract to a specification function or to the
property itself.

## Where the code differs from its documentation

The model follows the code; each difference is a proved statement.

* A caption step can read a layout its folder no longer has although pre-flight accepts the graph. For a directory
  rewritten once that happens in two ways and no other (`ConversionLimits.AcceptedStepIsWrongIffARewriteEscapes`; for
  any number of rewrites `ConversionLimits.AcceptedStepIsWrongIff`). The rewriting step may know the directory by
  another name: the check compares normalised path texts, before variables are filled in, and names a folder step on
  the current directory after the step, so two steps on ".", a relative and an absolute path, a link and its target, or
  a path and a variable holding it all escape it (`FolderNames.ASecondNameEscapesTheCheck` and its three instances). Or
  the rewriting step may not be counted: an output format held in a variable reads as none
  (`VariableFormats.AHiddenFormatEscapesTheCheck`, `VariableFormats.AVariableHidesTheFormat`).
* "Start now" for a requeued prep job is documented to leave nothing behind when it is refused. When the queue took the
  row in between, the refusal rolls the row of the running process back and its lease is lost
  (`LaunchFailures.UndoingAStartedRunSharesTheGpu`).
* A run deleted between spawn and row write leaves a live process with no lease, although a lost lease is documented to
  end in killing what was spawned (`LaunchFailures.DeletingMidLaunchSharesTheGpu`).
* The WSD fork is documented as saved once per run. Over a restart it is never attempted exactly when the first process
  stopped before its fork at the onset step and the second resumes from a checkpoint of that step, as after a
  save-and-quit there; and it is attempted twice exactly when the second resumes from before an onset the first had
  passed. Epochs have the same gap: an epoch is reported twice, or never when its boundary raised and the emergency
  checkpoint of that step worked (`TrainingLoop.TrainInTwo`).
* Moving a waiting job up or down through its HTTP route changes nothing: the route hands its id on as a text, the
  function looks for it among integers (`JobQueue.JobTable.Move`; `rengu_flow_ui/app.py:900-906`).
* A commit of staged tag edits stores what the editor showed only if no edit took the last tag of a line: the emptied
  line is shown, and dropped from the file (`TagEdits.TagEditsAreStoredIffNoLineIsEmptied`).
* Renaming a tag to another case of itself removes it instead: the line has the new name already, in lower case
  (`TagEdits.RenameGivesTheNameIff`).

* A training step hands nothing on, but the comment of the source check says that only tools can fail to: a step that
  reads a training step passes it (`Validation.ATrainStepIsNotRefused`).
* A tag with a comma in it, which an edit may add or rename to, is shown as one tag and read back as several
  (`TagEdits.EditsAreEditsOfTagsIff`).

## Assumptions

* Library calls appear as uninterpreted functions: `str()` of non-strings, path normalisation, the directory a path
  leads to, the "cleaned" folder name, default filling of prep stages, `validate_for_stage`, JSON reading and writing.
  SHA-256 is an injective digest; the JSON codec of run states is faithful. Numbers are mantissa and exponent, as JSON
  spells them.
* Conversion: ids are unique and links point backwards (what validation accepts); enabled steps that are not folders
  read enabled steps other than `train`; folder paths are not empty; a clean step says literally whether it works in
  place, and if not copies its images to a directory that no other step brings in and reports the one it was
  configured with; tools pass their input through and return nothing; each folder step declares the layout its
  directory starts with, while a directory that gets copied images starts without captions. Disabled steps may be
  anything. That names and directories correspond and that output formats are written out are hypotheses of the
  theorems that need them; literal paths that normalisation tells apart as the file system does meet the first
  (`FolderNames.NormalPathsName`).
* Launches: poll, stop, dequeue, requeue, delete and reap are atomic; a pid stands for one process (the table stores
  the creation time for that); the workflow lane only touches its own leases.
* Training: one successful batch steps the LR scheduler once, a failed one does not; what the GPU, the saver and the
  operator do is an arbitrary script with one entry per step.
* Tag sessions: staging with its summary, undo with its summary, and commit are each one step between concurrent
  requests of a session; a caption write that raises half-way through a commit is not modelled.
* Queue: reading the next position and inserting the row that gets it are one step. Jobs have the integer ids of the
  table; a caller's reference to one is such an integer or a text that spells it.
* Losses and durations are reals. A step's source, when it has one, is not the empty string, as the parser guarantees.

## Model

| member | source | states |
|---|---|---|
| WorkflowGraph.SavedHandleReloads | rengu_flow_ui/workflow_graph.py:93-103 | writing a handle into the run state and reading it back gives the handle with defaults for empty fields |
| WorkflowGraph.SavedHandleSurvivesIff | rengu_flow_ui/workflow_graph.py:450-459 | a handle survives being saved exactly when path, format and extension are not empty |
| WorkflowGraph.PredictionFailsOnlyForUnknownKinds | rengu_flow_ui/workflow_graph.py:1012-1081 | before a run, emission fails exactly for an unknown step type |
| WorkflowGraph.ExtensionsAreNormal | rengu_flow_ui/workflow_graph.py:964-966 | a normalised extension is the one given with a dot in front, `.txt` when none is given, has no space around it and normalises to itself |
| WorkflowGraph.FormatChoices | rengu_flow_ui/workflow_graph.py:969-972 | which texts choose sidecar, json or neither |
| WorkflowGraph.ToolReportDecides | rengu_flow_ui/workflow_graph.py:1064-1078 | what a tool that ran hands on, by what it returned and declared: nothing, its input, the path returned, or a failure |
| WorkflowGraph.CleanReportDecides | rengu_flow_ui/workflow_graph.py:1037-1045 | a clean step that ran elsewhere hands on the directory it reported, else the configured one, else the default; in place it hands on its input |
| WorkflowGraph.OtherStepsEmit | rengu_flow_ui/workflow_graph.py:1034-1062 | the other steps hand on their own folder, their input or nothing, whatever they report |
| GraphCodec.ParseGraph | rengu_flow_ui/workflow_graph.py:247-278 | the filling loops compute the parse of any JSON value; nothing is fatal |
| GraphCodec.KindsRoundTrip | rengu_flow_ui/workflow_graph.py:247-252 | every type name, known or not, is printed as it was read |
| GraphCodec.GraphRoundTripsIff | rengu_flow_ui/workflow_graph.py:298-309 | print then parse restores a graph exactly when a parser could have made it |
| GraphCodec.ParsingIsANormalForm | rengu_flow_ui/workflow_graph.py:298-299 | for any input, printing the parsed graph and parsing again changes nothing |
| GraphCodec.UnknownKeysAreDropped | rengu_flow_ui/workflow_graph.py:204-275 | keys outside the format do not influence the graph: at the top, in variables, in steps and in their GPU settings |
| GraphCodec.KnownKeysAreKept | rengu_flow_ui/workflow_graph.py:228-244 | the format's keys are all printed, with what the graph, each variable and each step had under them, object by object; items that are no objects are skipped |
| GraphCodec.NodeKeysAreKept | rengu_flow_ui/workflow_graph.py:228-244 | every well-typed entry of a step and of its GPU settings is printed back unchanged, and no other key |
| GraphCodec.OnlyTheFormatIsLeft | rengu_flow_ui/workflow_graph.py:204-275 | the graph compared with in `GraphCodec.UnknownKeysAreDropped` has no key outside the format at any level |
| GraphCodec.NodeDefaults | rengu_flow_ui/workflow_graph.py:228-244 | what a step is printed with under each key: what was given, or its default when that is absent or unusable |
| GraphCodec.GraphDefaults | rengu_flow_ui/workflow_graph.py:247-278 | the same for the graph itself |
| Substitution.ResolvingATemplate | rengu_flow_ui/workflow_graph.py:326-345 | resolving a printed template gives literals and variable values, values never rescanned, unknown names kept |
| Substitution.EscapedTextResolvesToItself | rengu_flow_ui/workflow_graph.py:72-74 | doubling every dollar sign and resolving gives back the text, for any variables |
| Substitution.ConfigDependsOnItsRefs | rengu_flow_ui/workflow_graph.py:348-393 | a resolved configuration depends only on the variables reported as referenced |
| Substitution.LiteralConfigIsUnchanged | rengu_flow_ui/workflow_graph.py:348-367 | configurations without dollar signs are left alone, numbers and booleans always |
| Substitution.NamesAreIdentifiers | rengu_flow_ui/workflow_graph.py:72-74 | the names a reference may have are the ASCII identifiers |
| Substitution.OtherTextIsUnchanged | rengu_flow_ui/workflow_graph.py:326-345 | text in which no escape and no reference starts is left alone, lone dollars included, and refers to nothing |
| Substitution.EveryTextIsResolved | rengu_flow_ui/workflow_graph.py:348-367 | texts at any depth of lists and tables are resolved, each on its own |
| SourceWalks.FolderOrigin | rengu_flow_ui/workflow_graph.py:640-668 | the walk with its seen set ends on every graph, cyclic ones too, and finds the folder's origin |
| SourceWalks.FindSourceProblem | rengu_flow_ui/workflow_graph.py:522-556 | the walk ends on every graph and finds why a tool chain hands nothing on, which `Validation.RefusedIffNothingToRead` says without the walk |
| SourceWalks.OriginSteps | rengu_flow_ui/workflow_graph.py:645-667 | along backward links a step that starts no folder shares its source's origin |
| SourceWalks.OriginByKind | rengu_flow_ui/workflow_graph.py:640-668 | kind by kind: a clean step that is not in place and a folder-returning tool start a folder named after themselves, a folder step one named after its path, and every other step is on the folder of the step it reads |
| Prediction.PredictedHandles | rengu_flow_ui/workflow_graph.py:559-593 | the loop computes each step's prediction from those before it |
| Prediction.PredictionIsStable | rengu_flow_ui/workflow_graph.py:572-593 | later steps do not change a prediction |
| Prediction.PredictionsHangTogether | rengu_flow_ui/workflow_graph.py:559-593 | each enabled step is predicted to emit what it would emit, reporting nothing, on what its source is predicted to emit; a disabled one its saved output, an unknown one what it reads |
| Prediction.RefusedSourceHandsNothingOn | rengu_flow_ui/workflow_graph.py:527-556 | a source the walk refuses is predicted to emit nothing |
| Conversion.ConvertedFolderErrors | rengu_flow_ui/workflow_graph.py:671-721 | the nested loops list exactly the refused pairs, once each, in list order |
| Conversion.PredictionsComeTrue | rengu_flow_ui/workflow_graph.py:567-571 | a run of a plain graph, with tools that return nothing and clean steps that report the configured directory, leaves each enabled step with the predicted handle, as the run state keeps it |
| Conversion.FolderFacts | rengu_flow_ui/workflow_graph.py:640-668 | a step emits the path its folder was brought in with, by a folder step or a copying clean step, and the check knows it by that step's name |
| Conversion.OwnDirectoryIsRewrittenLater | rengu_flow_ui/workflow_graph.py:655-658 | only steps below a copying clean step rewrite the directory it writes |
| Conversion.CaptionStepsReadTheLayoutOnDisk | rengu_flow_ui/workflow_graph.py:671-721 | in every accepted plain graph with one name to a directory and output formats written out, every caption step reads the layout its directory has on disk at that moment |
| Conversion.RunStep | rengu_flow_ui/workflow_nodes.py:167-188 | one step of the run: what it emits, and that it rewrites its folder's layout exactly when it converts |
| Conversion.RewriteIsCounted | rengu_flow_ui/workflow_graph.py:684-701 | a step with its output format written out that rewrites its folder in the run is one the check counts as a converter |
| ConversionLimits.NoMessagesMeansAccepted | rengu_flow_ui/workflow_graph.py:684-721 | an empty message list is exactly an accepted graph |
| ConversionLimits.ReadsWhatTheLastRewriteLeft | rengu_flow_ui/workflow_graph.py:677-683 | with any number of converters: a caption step reads the layout on disk if and only if the last step to rewrite its directory left the layout it is predicted to read |
| ConversionLimits.WrongIffTheLastRewriteIsMissed | rengu_flow_ui/workflow_graph.py:677-683 | with any number of converters, accepted or not: a reader is wrong if and only if the last step to rewrite its directory left another layout than it reads, and it does not read through that step |
| ConversionLimits.WrongExactlyWhenARewriteIsMissed | rengu_flow_ui/workflow_graph.py:677-683 | for a directory rewritten at most once, accepted or not: a reader is wrong if and only if it does not read through the earlier rewriting step |
| ConversionLimits.AcceptedStepIsWrongIff | rengu_flow_ui/workflow_graph.py:660-701 | in an accepted graph, with any number of converters, a reader is wrong if and only if the last step to rewrite its directory left another layout and is known by another name, or is not counted and not read through |
| ConversionLimits.AcceptedStepIsWrongIffARewriteEscapes | rengu_flow_ui/workflow_graph.py:660-701 | the same for a directory rewritten at most once, where the layouts need not be compared |
| ConversionLimits.ThroughKeepsTheName | rengu_flow_ui/workflow_graph.py:702-713 | a step that reads a directory through the step that rewrites it knows it by the same name, whatever clean steps lie beside |
| ConversionLimits.RefusalIsJustified | rengu_flow_ui/workflow_graph.py:677-683 | when one name means one directory and output formats are written out, a refused reader of a directory rewritten at most once would read a layout that is gone |
| ConversionLimits.RefusedExactlyWhenWrong | rengu_flow_ui/workflow_graph.py:677-721 | when names and directories correspond and output formats are written out, a reader of a directory rewritten at most once is refused if and only if it would read a wrong layout |
| ConversionLimits.AcceptedExactlyWhenSafe | rengu_flow_ui/workflow_graph.py:671-721 | under the same hypotheses a graph is accepted if and only if every caption step of its run reads the layout on disk |
| FolderNames.NormalPathsName | rengu_flow_ui/workflow_graph.py:660-666 | literal paths other than the current directory that normalisation tells apart as the file system does, and ids of copying clean steps that do not read like folder names, make names and directories correspond |
| FolderNames.ASecondNameEscapesTheCheck | rengu_flow_ui/workflow_graph.py:660-666 | two folder steps on one directory under two names, a step that converts the first to json and a plain reader of the second: the check accepts and the reader is wrong |
| FolderNames.CurrentDirectoryHasTwoNames | rengu_flow_ui/workflow_graph.py:662-667 | two folder steps on "." are such a graph |
| FolderNames.TwoPathsAreTwoNames | rengu_flow_ui/workflow_graph.py:662-666 | so are two spellings of one directory that normalisation keeps apart |
| FolderNames.AVariableIsASecondName | rengu_flow_ui/workflow_graph.py:664 | so are a path and a variable that holds it, since the check does not fill variables in |
| VariableFormats.AHiddenFormatEscapesTheCheck | rengu_flow_ui/workflow_graph.py:684-691 | a folder step, a step whose output format means json only once filled in, and a plain reader of the folder: one name, nothing counted, the check accepts and the reader is wrong |
| VariableFormats.AVariableHidesTheFormat | rengu_flow_ui/workflow_nodes.py:167-188 | a format held in a variable is such a format: the check reads it as it is written, the run fills it in |
| HandleChains.ControlFolderTravels | rengu_flow_ui/workflow_graph.py:995-1009 | every handle of a chain carries the control folder of the folder step it starts at |
| HandleChains.LayoutComesFromTheNearestSetter | rengu_flow_ui/workflow_graph.py:975-992 | format and extension are those of the nearest step above that sets a layout, else the folder's |
| HandleChains.SetterSetsItsLayout | rengu_flow_ui/workflow_graph.py:964-992 | json keeps the incoming extension, sidecar writes its own |
| HandleChains.ChainsRunAsPredicted | rengu_flow_ui/workflow_graph.py:1012-1081 | also with clean steps that write a folder: predicted and produced handles agree when reports name the configured folder |
| Validation.Validate | rengu_flow_ui/workflow_graph.py:724-819 | the loop, with the walk up tool chains, reports every step's messages in order and then every conversion, on any graph |
| Validation.AcceptedIffSound | rengu_flow_ui/workflow_graph.py:754-792 | no structural message if and only if ids are unique, links point backwards, each enabled step reads one that is enabled or has a saved handle and from which there is a folder to read, roots may be roots and all variables are defined |
| Validation.RefusedIffNothingToRead | rengu_flow_ui/workflow_graph.py:522-556 | a source is refused if and only if it is an enabled tool that emits nothing whatever it reads and returns, or one that passes its input on and reads such a step, or reads nothing although its output was declared |
| Validation.ATrainStepIsNotRefused | rengu_flow_ui/workflow_graph.py:527-534 | a training step emits nothing and is not refused |
| ValidationMessages.ExactlyTheDueMessagesAreShown | rengu_flow_ui/workflow_graph.py:724-819 | on any graph, with repeated ids and cycles too: each message about a step is shown if and only if it is due, kind by kind, from duplicate ids to the checks of edit datasets |
| ExecutionOrder.SourcesRunFirst | rengu_flow_ui/workflow_graph.py:825-831 | list order is a topological order: what a step reads ran before it or left a saved handle |
| ExecutionOrder.ChainsEndAtARoot | rengu_flow_ui/workflow_graph.py:765-780 | every source chain strictly descends to a step allowed to have no source |
| ExecutionOrder.AcceptedGraphsConvertSafely | rengu_flow_ui/workflow_graph.py:724-819 | a plain graph with one name to a directory and output formats written out, for which validation reports nothing, runs with every caption step reading the layout on disk |
| ExecutionOrder.EditDatasetsKeepTheirPairs | rengu_flow_ui/workflow_graph.py:596-631 | in an accepted graph no step of a chain whose folder names a control folder cleans or moves images |
| Staleness.ComputeStale | rengu_flow_ui/workflow_graph.py:920-958 | the loop computes each step's flag from its own and its parent's hash |
| Staleness.FreshIff | rengu_flow_ui/workflow_graph.py:949-957 | for any record: a step that has run is fresh if and only if its recorded hash is the current one and what its source last emitted compares equal to what it last read; one without hash and output is never stale |
| Staleness.AnotherFolderIsStale | rengu_flow_ui/workflow_graph.py:933-936 | a source that emits another folder than its reader last read makes the reader stale, whatever the hashes |
| Staleness.DefaultsAreNoChange | rengu_flow_ui/workflow_graph.py:903-917 | a record without a key compares equal to one with the default under it |
| Staleness.HashStandsForTheAncestorChain | rengu_flow_ui/workflow_graph.py:876-900 | with an injective digest, equal hashes mean equal chains of type, filled configuration and GPU policy |
| Staleness.EditMakesStaleExactlyTheDescendants | rengu_flow_ui/workflow_graph.py:883-886 | after a full run and any edit of steps or variables, exactly the changed steps and their descendants are stale |
| Staleness.NothingIsStaleAfterARun | rengu_flow_ui/workflow_graph.py:920-958 | after a full run nothing is stale |
| Staleness.UnusedVariablesAffectNothing | rengu_flow_ui/workflow_graph.py:837-847 | editing variables leaves fresh what does not reference them, itself or above |
| Staleness.SavedHandlesCompareExactly | rengu_flow_ui/workflow_graph.py:903-917 | saved handles compare equal exactly when the handles are equal |
| GpuLease.LeaseTable.ResolveDevices | rengu_flow_ui/gpu_lease.py:85-99 | no request or an unknown index resolves to the whole host, else to the distinct indices asked for |
| GpuLease.ResolveMeans | rengu_flow_ui/gpu_lease.py:85-99 | a request is served as asked if and only if it is not empty and names known devices only, else by the whole host |
| GpuLease.LeaseTable.Acquire | rengu_flow_ui/gpu_lease.py:105-132 | succeeds exactly when all resolved devices are free; a conflict half-way leaves the table as it was |
| GpuLease.LeaseTable.BindPid | rengu_flow_ui/gpu_lease.py:135-166 | afterwards all rows of the holder carry the pid and no row came, went or changed hands; a vanished lease is told from a missing pid, and both change nothing |
| GpuLease.LeaseTable.Release | rengu_flow_ui/gpu_lease.py:169-176 | the holder owns nothing, its devices are free, every other row is as it was; nothing happens when it held none |
| GpuLease.ReleaseUndoesAcquire | rengu_flow_ui/gpu_lease.py:105-176 | releasing after a successful acquisition restores the table if and only if the holder owned nothing before |
| GpuLease.LeaseTable.Holders | rengu_flow_ui/gpu_lease.py:256-270 | every holder once, with the pid of one of its rows |
| GpuLease.LeaseTable.ReapDead | rengu_flow_ui/gpu_lease.py:273-290 | frees a set of holders each judged gone on one of its rows, keeps all judged alive |
| GpuLease.LeaseTable.ReconcileOnStart | rengu_flow_ui/gpu_lease.py:293-309 | a reap, then no unbound lease is left |
| GpuLease.HolderRowsAgree | rengu_flow_ui/gpu_lease.py:256-270 | over every run in which holders keep their requests, all rows of a holder are equal, so it does not matter which one speaks for it |
| GpuLease.ReapFreesExactlyTheGone | rengu_flow_ui/gpu_lease.py:246-290 | after any such run any reap keeps a row if and only if its job is pending, running or stopping, or its workflow exists, and its pid, when bound, is alive; it changes no row it keeps |
| GpuLease.NoFinishedJobHoldsADevice | rengu_flow_ui/gpu_lease.py:214-243 | after a reap no terminal, drafted or deleted job and no deleted workflow holds a device |
| GpuLease.ApplyKeepsIntact | rengu_flow_ui/gpu_lease.py:105-176 | every operation leaves each acquisition whole or gone, with one holder and one pid |
| GpuLease.WholeSetOrNothing | rengu_flow_ui/gpu_lease.py:85-132 | over every run a holder owns nothing or its whole resolved set, and a host-exclusive one leaves nothing to others |
| LaunchProtocol.StepWriteRow | rengu_flow_ui/jobs.py:77-85 | writing the row keeps the invariant exactly when the row is there or the process has died |
| LaunchProtocol.StepBind | rengu_flow_ui/job_queue.py:245-262 | binding covers the process, or leads to killing it |
| LaunchProtocol.StepAcquire | rengu_flow_ui/job_queue.py:230-234 | succeeds exactly when the devices are free, which then are the job's; a refusal changes no lease, process or job; the invariant is kept |
| LaunchProtocol.StepPoll | rengu_flow_ui/jobs.py:109-145 | the eager release at the end of a run keeps the invariant; how the run is recorded is `LaunchRows.APollRecordsHowTheRunEnded` |
| LaunchRows.APollRecordsHowTheRunEnded | rengu_flow_ui/jobs.py:109-145 | over any stretch of events: a poll records stopped if and only if a stop of the job was asked for since its row was running, else the outcome; the pid is cleared, its leases are gone and nothing else changes |
| LaunchRows.ActiveRowSince | rengu_flow_ui/jobs.py:88-145 | a row that is active at the end of any stretch of events was active all along with the same process, and says stopping if and only if a stop was asked for |
| LaunchRows.ARefusedStartLeavesNothing | rengu_flow_ui/prep_jobs.py:31-46 | requeued to start at once, refused and rolled back with nothing in between, a finished job and the rest of the state are what they were |
| LaunchRows.ARefusedNewJobLeavesNothing | rengu_flow_ui/prep_jobs.py:31-46 | the same for a new job: no row is left |
| LaunchRows.WaitingIsUndoneOrFails | rengu_flow_ui/job_queue.py:190-197 | queueing a draft and taking it back changes nothing; without its config file the job fails and nothing else changes |
| LaunchRows.WorkflowLeaseGivenBack | rengu_flow_ui/gpu_lease.py:105-176 | an acquisition that the workflow lane gives back leaves nothing, when it held nothing before |
| LaunchProtocol.StepStop | rengu_flow_ui/jobs.py:88-106 | stopping, with or without a pid, keeps the invariant at every stage of a launch |
| LaunchProtocol.StepReap | rengu_flow_ui/gpu_lease.py:273-290 | a reap at any stage frees no lease of a protected process |
| LaunchProtocol.StepUndo | rengu_flow_ui/prep_jobs.py:31-46 | rolling a refused start back keeps the invariant exactly when the job was not started meanwhile |
| LaunchProtocol.StepCrash | rengu_flow_ui/gpu_lease.py:293-309 | a restart keeps the invariant exactly when no launched process was still waiting for its lease |
| LaunchProtocol.InvariantKeptExactlyByBenignEvents | rengu_flow_ui/job_queue.py:173-265 | every event preserves the invariant if and only if it is benign |
| LaunchProtocol.EveryBenignRunIsSafe | rengu_flow_ui/job_queue.py:224-265 | at most one training process is ever alive; with no launch in flight it is covered by bound leases; mid-launch only the launched one may not be, and it is killed before the launch returns; no unbound lease outlives its launch |
| LaunchProtocol.LostLaunchUncoversItsProcess | rengu_flow_ui/jobs.py:84-85 | a row missing at the write, or a crash before binding, leaves a live process none of whose devices is leased to it |
| LaunchProtocol.HarmfulUndoUncoversItsProcess | rengu_flow_ui/prep_jobs.py:31-46 | after rolling back a started run the next reap frees the leases of its live process |
| LaunchProtocol.UnboundLeaseHasNoTimeout | rengu_flow_ui/gpu_lease.py:8-16 | an unbound lease survives any events, reaps included, while its job is queued and its launch neither fails nor ends |
| LaunchFailures.DeletingMidLaunchSharesTheGpu | rengu_flow_ui/jobs.py:84-85 | a run that deletes the row mid-launch and ends with the workflow lane on the live process's GPU |
| LaunchFailures.UndoingAStartedRunSharesTheGpu | rengu_flow_ui/prep_jobs.py:31-46 | a requeue with "start now" that loses the race to the queue and ends with a shared GPU |
| WorkflowStore.Store.Create | rengu_flow_ui/workflow_db.py:117-133 | an unused id, an empty run state, version 0 |
| WorkflowStore.Store.Clone | rengu_flow_ui/workflow_db.py:228-245 | copies name and graph, never the run state; a missing source changes nothing |
| WorkflowStore.Store.Delete | rengu_flow_ui/workflow_db.py:157-167 | removes the row and counts a change only when it existed |
| WorkflowStore.Store.UpdateGraph | rengu_flow_ui/workflow_db.py:173-218 | writes only against the expected version, reports the actual one otherwise, never touches the run state |
| WorkflowStore.Store.MutateState | rengu_flow_ui/workflow_db.py:256-300 | the bounded retry loop under arbitrary writes of others between read and swap |
| WorkflowStore.MutationIsOneAtomicStep | rengu_flow_ui/workflow_db.py:256-300 | a call that succeeds is one application of the function to the value that was current; one that fails changed nothing, and either found the workflow gone or lost the race in every round |
| WorkflowHistory.EveryRunIsSequential | rengu_flow_ui/workflow_db.py:3-24 | every interleaving equals the committed operations in commit order, each caller got that order's result, and a new row never takes an id in use |
| WorkflowHistory.CommitsExactly | rengu_flow_ui/workflow_db.py:173-300 | a swap commits if and only if the value it read is still there, a save if and only if its version is, and what each commits |
| WorkflowHistory.CallsEndExactly | rengu_flow_ui/workflow_db.py:256-300 | a call ends by committing, by finding no workflow or by giving up, and in no other way |
| WorkflowHistory.AnUndisturbedCallCommits | rengu_flow_ui/workflow_db.py:256-300 | a call with nothing in between commits at its first attempt and leaves nothing behind |
| WorkflowHistory.CallsGoByARealState | rengu_flow_ui/workflow_db.py:256-300 | in any run, what a call goes by was the run state of its workflow at some moment |
| WorkflowHistory.ColumnsAreIndependent | rengu_flow_ui/workflow_db.py:18-24 | graph writes never change a run state; state writes never change name, graph or version |
| WorkflowHistory.EachVersionIsReplacedOnce | rengu_flow_ui/workflow_db.py:182-187 | of two saves of one workflow the later expected a later version, so none is silently overwritten |
| JobQueue.JobTable.PendingSorted | rengu_flow_ui/job_queue.py:101-113 | the waiting jobs, each once, sorted by position |
| JobQueue.JobTable.Enqueue | rengu_flow_ui/job_queue.py:137-142 | the job goes to the end of the queue |
| JobQueue.JobTable.RunNow | rengu_flow_ui/job_queue.py:532-538 | a new job at position 0 ends in front of the unchanged rest, although the position is taken at first |
| JobQueue.JobTable.Bump | rengu_flow_ui/job_queue.py:768-776 | the job moves to the front, the others keep their order, whether it is named by its number or by a text |
| JobQueue.JobTable.DeleteRecord | rengu_flow_ui/job_queue.py:694-704 | refused for active runs; otherwise the job leaves and the rest close up in order |
| JobQueue.JobTable.Dequeue | rengu_flow_ui/job_queue.py:707-719 | a waiting run leaves the queue and becomes a draft; others are refused |
| JobQueue.JobTable.Reorder | rengu_flow_ui/job_queue.py:722-744 | listed jobs by their last mention, then the rest in its old order |
| JobQueue.JobTable.Move | rengu_flow_ui/job_queue.py:747-765 | named by its number the job swaps with the neighbour; ends and unknown directions change nothing, and neither does a job named by a text |
| JobQueue.JobTable.Normalize | rengu_flow_ui/job_queue.py:779-783 | the sorted jobs stand at 0, 1, 2 and so on |
| JobQueue.JobTable.NextPosition | rengu_flow_ui/job_queue.py:137-142 | a position behind every waiting job |
| JobQueue.JobTable.Head | rengu_flow_ui/job_queue.py:190-193 | the job that starts next is the first of the queue |
| JobQueue.JobTable.Start | rengu_flow_ui/job_queue.py:190-201 | starting takes the job out of the queue |
| JobQueue.JobTable.Stop | rengu_flow_ui/jobs.py:88-92 | stopping a job without a process takes it out of the queue and leaves every other row as it was |
| JobQueue.JobTable.FailHead | rengu_flow_ui/job_queue.py:190-197 | a head without a configuration file fails and the rest of the queue stays |
| JobQueue.RepresentsIsUnique | rengu_flow_ui/job_queue.py:101-113 | the position column stands for one list |
| JobQueue.SortingGivesTheQueue | rengu_flow_ui/job_queue.py:108-113 | however ties are broken, sorting gives the queue |
| JobQueue.ReorderingPermutes | rengu_flow_ui/job_queue.py:722-727 | reordering loses and invents no job |
| JobQueue.FullListBecomesTheQueue | rengu_flow_ui/job_queue.py:722-727 | a full list without repetitions becomes the queue as it is |
| JobQueue.MovesCancel | rengu_flow_ui/job_queue.py:747-765 | up and down undo each other away from the ends |
| TrainingProgress.CompletedAtTheLastStepOfAnEpoch | rengu_flow/training_progress.py:185-202 | an epoch is reported exactly at the last step for which it is the current one |
| TrainingProgress.EveryEpochCompletesOnce | rengu_flow/training_progress.py:191-202 | over the budget each epoch is reported once, in increasing order |
| TrainingProgress.SilentOutsideTheBudget | rengu_flow/training_progress.py:185-202 | outside the budget nothing is reported, and past it the last epoch stays current |
| TrainingProgress.ProgressTracker.RecordLoss | rengu_flow/training_progress.py:106-117 | the running sum is the sum of the last losses in the window; values that are not finite are ignored |
| TrainingProgress.ProgressTracker.LossAverage | rengu_flow/training_progress.py:119-123 | the mean of the last window of all losses recorded |
| TrainingProgress.ProgressTracker.RecordStepDuration | rengu_flow/training_progress.py:95-104 | the smoothed step time lies between the least and the greatest duration recorded |
| TrainingLoop.OomSkipState.AtLimit | rengu_flow/utils/oom_skip.py:43-51 | the pruned window decides as the full history of skips would |
| TrainingLoop.TrainingRun.Resume | rengu_flow/training/loop_plan.py:173-194 | step, examples, LR scheduler and fork stand where the uninterrupted run has them |
| TrainingLoop.TrainingRun.RunBatch | rengu_flow/main.py:1388-1463 | a failed batch ends the run exactly when back-off, skipping and block swap cannot absorb it; otherwise the LR advances once, and either a retry is used up, a skip is remembered or the window is cleared |
| TrainingLoop.TrainingRun.EpochBoundary | rengu_flow/main.py:1476-1489 | the saver is handed exactly the epoch that finishes at this step |
| TrainingLoop.TrainingRun.StepSaves | rengu_flow/utils/saver.py:653-685 | a save-and-quit exits cleanly only with a checkpoint of this step on disk |
| TrainingLoop.TrainingRun.EmergencySave | rengu_flow/main.py:1684-1715 | on a single process a fatal error leaves a checkpoint of the step unless saving fails; several processes never try |
| TrainingLoop.TrainingRun.FinalSaves | rengu_flow/main.py:1745-1762 | a resume checkpoint of the last step unless saving fails, no second one, and the model unless exported at this step: named after the step under `max_steps`, else after the last epoch |
| TrainingLoop.TrainingRun.Train | rengu_flow/main.py:1352-1762 | the run ends as the script says and nowhere else; when it finishes, at step `max_steps` if given and else at the epochs' steps, after every step from its first on, one LR step each, every epoch and the fork up to the last points passed, checkpoints only of its own steps, and one of the last; nothing is left exactly when it starts past that step |
| TrainingLoop.RunEndsAtTheFirstObstacle | rengu_flow/main.py:1352-1715 | a run ends at its first step that does not let it go on, stopped, failed or finished as that step says |
| TrainingLoop.FinishesIffUndisturbed | rengu_flow/main.py:1388-1715 | it finishes if and only if no step is asked to quit, struck by an exception, or has a batch nothing can absorb |
| TrainingLoop.FewOomsNeverEndARun | rengu_flow/utils/oom_skip.py:24-51 | OOMs alone never end a run with fewer of them than the limit in any ten steps, nor one whose block swap can always be raised |
| TrainingLoop.TrainInTwo | rengu_flow/training/loop_plan.py:65-76 | a process that ends anywhere and its continuation from any checkpoint it left: the outcome, fork attempts and epoch reports are those of the two scripts; together they attempt the fork as one run would if and only if it is neither lost nor repeated, and report the epochs as one would if and only if none ends in between |
| DatasetPages.ListPage | rengu_flow_ui/dataset_scan.py:39-92 | the capped single pass returns exactly the page, and tells when it stopped counting |
| DatasetPages.ListAcross | rengu_flow_ui/dataset_image_preview.py:139-192 | the loop over directories returns the slice of their images laid end to end |
| DatasetPages.ListPreview | rengu_flow_ui/dataset_image_preview.py:102-214 | page equals slice for one directory and for all, skipped folders contribute nothing, what is said of each directory is so, and when the total is exact |
| TagSessions.TagSession.Current | rengu_flow_ui/tag_sessions.py:61-67 | the cache keyed by a length always answers with the replay of the staged operations |
| TagSessions.TagSession.QuarantinePending | rengu_flow_ui/tag_sessions.py:69-70 | the images the staged operations take away |
| TagSessions.TagSession.StageOps | rengu_flow_ui/tag_sessions.py:124-128 | staging extends the stack and shows its replay |
| TagSessions.TagSession.Undo | rengu_flow_ui/tag_sessions.py:130-134 | undo drops the last operation and shows the replay of the rest, never a stale cache entry |
| TagSessions.TagSession.CommitStaged | rengu_flow_ui/tag_sessions.py:228-247 | the new base, what was quarantined, and when the base is what was shown; a failing replay changes nothing |
| TagSessions.TagSession.CountChanged | rengu_flow/prep/tag_ops.py:364-370 | counting edited and removed images apart gives the number of changed images |
| TagSessions.GoneIffQuarantined | rengu_flow/prep/tag_ops.py:262-273 | over any stack an image is gone if and only if some quarantine selected it among those still there |
| TagSessions.ApplyRaisesIff | rengu_flow/prep/tag_ops.py:262-273 | an operation raises if and only if it quarantines an image twice |
| TagSessions.CommitStoresWhatWasShownIff | rengu_flow/prep/caption_store.py:152-155 | for any edits the base after a commit is what was shown if and only if every shown line is stripped and not blank |
| TagSessions.StoredAsTheyAreIff | rengu_flow/prep/caption_store.py:152-155 | storing leaves lines alone if and only if each is stripped and not blank |
| TagEdits.EmptiedLineIff | rengu_flow/prep/tag_ops.py:293-325 | adding never empties a line, removing does when all its tags are named, renaming when they are and the new name is one of them |
| TagEdits.RenameGivesTheNameIff | rengu_flow/prep/tag_ops.py:311-321 | a line with a tag to rename has the new name afterwards if and only if the name is not both on the line and among those replaced |
| TagEdits.ParseUndoesJoin | rengu_flow/prep/tag_ops.py:52-57 | joining tags to a line and reading the line gives the tags back |
| TagEdits.SplitAtTheCommas | rengu_flow/prep/tag_ops.py:52-53 | a line falls apart at its commas and nowhere else |
| TagEdits.EditsAreEditsOfTagsIff | rengu_flow/prep/tag_ops.py:302-325 | what the next edit reads from a line is just what this one made of its tags if and only if none of them has a comma |
| TagEdits.AddedInFrontOrBehind | rengu_flow/prep/tag_ops.py:307-309 | adding keeps the tags of the line and puts just the missing ones in front or behind |
| TagEdits.OnlyLinesInScopeChange | rengu_flow/prep/tag_ops.py:289-325 | lines out of scope stay, and a line is inserted if and only if an addition has no line in scope |
| TagEdits.TagEditsAreStoredIffNoLineIsEmptied | rengu_flow_ui/tag_sessions.py:228-247 | for any stack of tag edits and quarantines the base after a commit is what was shown if and only if no shown line is empty |
| TagEdits.RemovingTheLastTagDropsTheLine | rengu_flow/prep/caption_store.py:152-155 | removing a line's only tag shows an empty line and stores none |
| ConfigForm.FlattenConfig | rengu_flow_ui/config_form.py:77-87 | every form entry is a leaf under its dotted path and every leaf has an entry, for any keys and order |
| ConfigForm.SplitUndoesJoin | rengu_flow_ui/config_form.py:39-49 | splitting a dotted key gives back the path of dot-free keys |
| ConfigForm.UnflattenForm | rengu_flow_ui/config_form.py:90-117 | in any key order a configuration's form becomes what is kept of the configuration |
| ConfigForm.ThroughTheForm | rengu_flow_ui/config_form.py:77-117 | the form holds the configuration's leaves and what comes back is what a form can keep; that is the configuration if and only if it has no blank leaf, empty table, text read as JSON or false adapter |
| ConfigForm.BlankMeans | rengu_flow_ui/config_form.py:96-99 | what is dropped is null and text of nothing but space |
| ConfigForm.FirstCharacterDecides | rengu_flow_ui/config_form.py:109-117 | text is read as JSON if and only if its first character that is no space opens a list or a table, and it reads |
| ParamForms.SplitExtras | rengu_flow_ui/scheduler_form.py:73-100 | the loops move exactly the section's parameters into the table, for both sections |
| ParamForms.ExtrasTableMeans | rengu_flow_ui/optimizer_form.py:121-135 | the extras are a table, or text that is JSON of one; anything else is none |
| ParamForms.MovedGetsItsKey | rengu_flow_ui/scheduler_form.py:73-100 | the warm-up keeps its own key, or gets it from the table, and leaves the table |
| ParamForms.MergeExtras | rengu_flow_ui/optimizer_form.py:121-143 | every written parameter of the table becomes its flat key and nothing else changes |
| ParamForms.TheTypeIsNotWritten | rengu_flow_ui/optimizer_form.py:136-138 | nothing in the table replaces the type of the optimizer |
| ParamForms.SplitThenMerge | rengu_flow_ui/optimizer_form.py:95-143 | merging the split parameters restores the form exactly when there is no type, or every parameter is set and keeps its name |
| ParamForms.RestorableMeans | rengu_flow_ui/scheduler_form.py:103-126 | that condition for the two sections, key by key: no type, or every parameter neither null nor empty, and for the scheduler not the warm-up |
| ParamForms.SectionsAreWellNamed | rengu_flow_ui/scheduler_form.py:103-126 | the optimizer and scheduler sections meet what the round trip needs of their key names |
| Text.TrimIdempotent | rengu_flow_ui/workflow_graph.py:1008 | stripping twice changes nothing more, so a stripped control folder can be inherited |
| Text.TrimMeans | rengu_flow_ui/workflow_graph.py:1008 | stripping takes white space off both ends and nothing else |

## Left out

- `workflow_runner` and `workflow_nodes` apart from the rule that decides whether a step converts its folder; the workflow lane is an environment that owns its leases.
- Conversion.CaptionStepsReadTheLayoutOnDisk: does not cover two clean steps that copy to one directory, or one that copies into a folder step's: what lies there then depends on which images have captions; their handles are covered by `HandleChains`.
- Conversion.PredictionsComeTrue: does not cover tools that return a folder or steps that read a `train` step, which have no prediction before a run.
- `str.strip` and `str.lower` on text outside ASCII; path normalisation and case folding of the file system.
- Validation.Validate: reports unknown variables as one set per step; repetition and field paths of these messages are not modelled, nor is message text.
- `materialize_config` and `validate_for_stage` beyond their place in the hash and in validation; `edit_control_path` and the UI's "used by" column.
- JobQueue.JobTable.PendingSorted: does not model the 500-row listing limit, which would hide waiting jobs from the queue functions.
- Start times as tie breakers of the queue: ties may fall in any order, positions never stay tied.
- GpuLease.LeaseTable.ReapDead: does not model reuse of a pid by another process or access-denied answers of the process table.
- Polls, stops, requeues and reaps split into their reads and writes.
- A reap that raises half-way; SQLite locking, timestamps and the version counter of the jobs list.
- Log files, run folders, staging and CLI arguments of jobs; settings, tokens, websockets, routes.
- JSON and TOML text, tomlkit arrays, dtype names, preview prompts and dataset path normalisation in `form_to_config`.
- Pruning of forms by model, adapter, optimizer and scheduler type, and the editor's default tables.
- TagSessions.TagSession.CommitStaged: does not model a caption write that raises half-way, after which the base is partly rewritten and the stack kept.
- TagEdits.EmptiedLineIff: is about one line; which images, lines and frequencies an edit selects is arbitrary, negative line indices included, except that one beyond the first line raises in the source.
- ConfigForm.UnflattenForm: says nothing of forms that do not come from a configuration, such as a key that is both a leaf and a prefix.
- Session expiry, paging of tag queries and image sizes.
- Signed image tokens, video files and folder summaries of the dataset views.
- Progress payloads and log lines; `force_constant_lr`; exceptions raised by the final saves; EMA, evaluation, previews and profiling inside the loop, except that they may raise.
- TrainingLoop.TrainInTwo: counts attempts at the fork; an attempt that fails on a full disk is not repeated, which loses the fork too, and whether an attempt worked is not modelled.
- TrainingLoop.TrainingRun.RunBatch: has back-off as a number of remaining retries, without the budget's value.
- Checkpoint retention, asynchronous exports and the saver's own bookkeeping: a save works or does not.
