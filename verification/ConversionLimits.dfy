/**
 * How exact the conversion check is. Which caption steps read a wrong layout is decided before the
 * run, by who rewrites which directory. Where a directory is rewritten once, the check refuses just
 * those steps if its names for folders tell directories apart; without that, what it misses is just
 * the rewriting under another name.
 */
module ConversionLimits {
  import opened Values
  import opened WorkflowGraph
  import opened Substitution
  import opened SourceWalks
  import opened Prediction
  import opened Conversion

  /** An empty list of messages is exactly an accepted graph. */
  lemma NoMessagesMeansAccepted(ctx: Context, errors: seq<ConversionError>)
    requires ListsRefusals(
               ctx, ById(ctx.graph.nodes), Predict(ctx, |ctx.graph.nodes|), errors,
               ConversionError(|ctx.graph.nodes|, 0))
    ensures errors == [] <==> Accepted(ctx)
  {
    hide Predict, Converts, ReadsOrigin, Downstream;
    var nodes := ctx.graph.nodes;
    if errors != [] {
      var e := errors[0];
      assert e in errors;
      assert Refuses(ctx, ById(nodes), Predict(ctx, |nodes|), e.converter, e.reader);
    } else {
      forall i: nat, j: nat | i < |nodes| ensures !Refuses(ctx, ById(nodes), Predict(ctx, |nodes|), j, i) {
        assert ConversionError(j, i) !in errors;
      }
    }
  }

  // ---------------------------------------------------------------- the layout of a directory over the run

  /** The layout of directory `d` before step `k`: the first one, or what the last step to rewrite it left. */
  ghost function LastLayout(ctx: Context, initial: Disk, d: string, k: nat): Layout
    requires k <= |ctx.graph.nodes| && d in initial
  {
    if k == 0 then initial[d]
    else if Rewrites(ctx, k - 1, d) then ConversionTarget(ctx, ctx.graph.nodes[k - 1], ReadAt(ctx, k - 1)).value
    else LastLayout(ctx, initial, d, k - 1)
  }

  lemma {:induction false} DiskFollowsTheRewrites(ctx: Context, reports: Config, initial: Disk, d: string, k: nat)
    requires PlainGraph(ctx) && HonestReports(ctx, reports) && k <= |ctx.graph.nodes| && d in initial
    ensures d in Run(ctx, reports, initial, k).disk
    ensures Run(ctx, reports, initial, k).disk[d] == LastLayout(ctx, initial, d, k)
  {
    hide Run, ReadAt, ConversionTarget, PlainGraph, HonestReports;
    RunUnfolds(ctx, reports, initial, k);
    if k > 0 {
      DiskFollowsTheRewrites(ctx, reports, initial, d, k - 1);
      StepOnDisk(ctx, reports, initial, k - 1);
      OnlyCaptionStepsConvert(ctx, ctx.graph.nodes[k - 1], ReadAt(ctx, k - 1));
    }
  }

  /** The directory a caption step reads, known before the run. */
  ghost function DirectoryRead(ctx: Context, k: nat): string
    requires PlainGraph(ctx) && IsCaptionStep(ctx, k)
  {
    assert PlainStep(ctx, ctx.graph.nodes[k]);
    DirectoryAt(ctx, SourcePos(ctx.graph.nodes, k))
  }

  /** The origin of the folder a caption step reads, as the check computes it. */
  ghost function OriginRead(ctx: Context, k: nat): string
    requires PlainGraph(ctx) && IsCaptionStep(ctx, k)
  {
    assert PlainStep(ctx, ctx.graph.nodes[k]);
    OriginAt(ctx, SourcePos(ctx.graph.nodes, k))
  }

  lemma CaptionStepFacts(ctx: Context, k: nat)
    requires PlainGraph(ctx) && IsCaptionStep(ctx, k)
    ensures !BringsFolder(ctx.graph.nodes[k]) && !ctx.graph.nodes[k].kind.Folder? && !ctx.graph.nodes[k].kind.Train?
    ensures ctx.graph.nodes[k].source.Some?
    ensures var s := SourcePos(ctx.graph.nodes, k);
            && Enabled(ctx.graph.nodes[s]) && !ctx.graph.nodes[s].kind.Train?
            && DirectoryRead(ctx, k) == DirectoryAt(ctx, s) && OriginRead(ctx, k) == OriginAt(ctx, s)
            && ReadAt(ctx, k) == Reload(PredictedAt(ctx, s)) && ReadAt(ctx, k).Some?
            && DirectoryOf(ctx.host, ReadAt(ctx, k).value) == DirectoryAt(ctx, s)
  {
    hide DirectoryAt, OriginAt, ReadAt, PredictedAt, Reload, DirectoryOf;
    assert PlainStep(ctx, ctx.graph.nodes[k]);
    StepFacts(ctx, k);
  }

  lemma RewriterIsACaptionStep(ctx: Context, j: nat, d: string)
    requires PlainGraph(ctx) && Rewrites(ctx, j, d)
    ensures IsCaptionStep(ctx, j) && DirectoryRead(ctx, j) == d
  {
    hide ConversionTarget, DirectoryAt, ReadAt, PlainGraph;
    RewritingStep(ctx, j, d);
  }

  lemma DirectoryReadIsDeclared(ctx: Context, initial: Disk, k: nat)
    requires PlainGraph(ctx) && DeclaresDisk(ctx, initial) && IsCaptionStep(ctx, k)
    ensures DirectoryRead(ctx, k) in initial
  {
    hide PredictedAt, Reload, DirectoryOf, DirectoryAt, OriginAt, FolderKey, DirectoryRead;
    CaptionStepFacts(ctx, k);
    var s := SourcePos(ctx.graph.nodes, k);
    FolderFacts(ctx, s);
    ReloadKeepsDirectory(ctx, FolderOf(ctx, s));
  }

  /**
   * Any number of rewriting steps: a caption step reads the layout on disk if and only if the last
   * step to rewrite its directory left the layout it is predicted to read.
   */
  lemma ReadsWhatTheLastRewriteLeft(ctx: Context, reports: Config, initial: Disk, k: nat)
    requires PlainGraph(ctx) && HonestReports(ctx, reports) && DeclaresDisk(ctx, initial) && IsCaptionStep(ctx, k)
    ensures DirectoryRead(ctx, k) in initial && ReadAt(ctx, k).Some?
    ensures ReadsTheLayoutOnDisk(ctx, reports, initial, k)
       <==> LastLayout(ctx, initial, DirectoryRead(ctx, k), k) == LayoutOf(ReadAt(ctx, k).value)
  {
    hide Run, LayoutOf, LastLayout, PlainGraph, HonestReports, DeclaresDisk, DirectoryAt, OriginAt, PredictedAt, Reload,
      ReadAt, ReadsTheLayoutOnDisk, DirectoryOf, DirectoryRead, OriginRead;
    DirectoryReadIsDeclared(ctx, initial, k);
    CaptionStepFacts(ctx, k);
    DiskFollowsTheRewrites(ctx, reports, initial, DirectoryRead(ctx, k), k);
    ReadsASettledHandle(ctx, reports, initial, k);
  }

  /** An earlier step rewrites the directory step `k` reads, and `k` does not read through it. */
  ghost predicate Misses(ctx: Context, k: nat, j: nat)
    requires PlainGraph(ctx) && IsCaptionStep(ctx, k)
  {
    && j < k && Rewrites(ctx, j, DirectoryRead(ctx, k))
    && ctx.graph.nodes[k].id !in Downstream(ctx.graph.nodes, j, |ctx.graph.nodes|)
  }

  /** Nothing missed, nothing wrong: this half needs no bound on the rewriting steps. */
  lemma NothingMissedNothingWrong(ctx: Context, reports: Config, initial: Disk, k: nat)
    requires PlainGraph(ctx) && HonestReports(ctx, reports) && DeclaresDisk(ctx, initial) && IsCaptionStep(ctx, k)
    requires !ReadsTheLayoutOnDisk(ctx, reports, initial, k)
    ensures exists j: nat :: Misses(ctx, k, j)
  {
    hide PredictedAt, Reload, Downstream, Rewrites, DirectoryOf, DirectoryAt, LayoutOf, Run, Settled, ReadAt, OriginAt,
      DirectoryRead, DeclaresDisk, ReadsTheLayoutOnDisk, Untouched, HonestReports;
    var nodes := ctx.graph.nodes;
    CaptionStepFacts(ctx, k);
    var s := SourcePos(nodes, k);
    RunStaysCoherent(ctx, reports, initial, k);
    ReadsASettledHandle(ctx, reports, initial, k);
    var j: nat :| OvertakenBy(ctx, s, j, k);
    DownstreamFollowsSource(nodes, j, k);
    assert Misses(ctx, k, j);
  }

  lemma TargetExists(ctx: Context, j: nat, d: string)
    requires Rewrites(ctx, j, d)
    ensures j < |ctx.graph.nodes| && ConversionTarget(ctx, ctx.graph.nodes[j], ReadAt(ctx, j)).Some?
  {
  }

  lemma QuietUnlessRewriting(ctx: Context, m: nat)
    requires PlainGraph(ctx) && m < |ctx.graph.nodes|
    requires Enabled(ctx.graph.nodes[m]) && !ctx.graph.nodes[m].kind.Train? && !BringsFolder(ctx.graph.nodes[m])
    ensures !Rewrites(ctx, m, DirectoryAt(ctx, m)) ==>
              ConversionTarget(ctx, ctx.graph.nodes[m], ReadAt(ctx, m)).None?
  {
    hide PlainGraph, PredictedAt, Reload, DirectoryOf, DirectoryAt, LayoutOf, ConversionTarget;
    StepFacts(ctx, m);
  }

  /** Step `j` is the last one before step `k` to rewrite directory `d`. */
  ghost predicate LastRewriter(ctx: Context, d: string, j: nat, k: nat) {
    j < k && Rewrites(ctx, j, d) && forall a: nat | j < a < k :: !Rewrites(ctx, a, d)
  }

  /** The layout step `j` writes. */
  ghost function Written(ctx: Context, j: nat, d: string): Layout
    requires Rewrites(ctx, j, d)
  {
    ConversionTarget(ctx, ctx.graph.nodes[j], ReadAt(ctx, j)).value
  }

  lemma {:induction false} SomeLastRewriter(ctx: Context, d: string, j: nat, k: nat) returns (m: nat)
    requires j < k && Rewrites(ctx, j, d)
    ensures LastRewriter(ctx, d, m, k)
  {
    hide Rewrites;
    if Rewrites(ctx, k - 1, d) {
      m := k - 1;
    } else {
      m := SomeLastRewriter(ctx, d, j, k - 1);
    }
  }

  lemma {:induction false} LastLayoutIsWritten(ctx: Context, initial: Disk, d: string, j: nat, k: nat)
    requires k <= |ctx.graph.nodes| && d in initial && LastRewriter(ctx, d, j, k)
    ensures LastLayout(ctx, initial, d, k) == Written(ctx, j, d)
  {
    hide Rewrites, ConversionTarget, ReadAt;
    if j < k - 1 {
      LastLayoutIsWritten(ctx, initial, d, j, k - 1);
    }
  }

  /** A step that reads through a rewriting step, and is on its directory, brings in no other. */
  lemma ThroughIsNoStart(ctx: Context, d: string, j: nat, i: nat)
    requires PlainGraph(ctx) && Rewrites(ctx, j, d) && j < i < |ctx.graph.nodes| && Enabled(ctx.graph.nodes[i])
    requires ctx.graph.nodes[i].source.Some? && DirectoryAt(ctx, i) == d
    ensures !BringsFolder(ctx.graph.nodes[i])
  {
    hide Rewrites, DirectoryAt, WellOrdered;
    assert PlainStep(ctx, ctx.graph.nodes[i]);
    if BringsFolder(ctx.graph.nodes[i]) {
      assert IsStart(ctx, i);
      OwnDirectoryIsRewrittenLater(ctx, i, j);
    }
  }

  /** A handle that comes through the last step to rewrite its directory has the layout that step wrote. */
  lemma {:induction false} ThroughTheLastRewriter(ctx: Context, d: string, j: nat, k: nat, i: nat)
    requires PlainGraph(ctx) && LastRewriter(ctx, d, j, k) && i < k <= |ctx.graph.nodes|
    requires Enabled(ctx.graph.nodes[i]) && !ctx.graph.nodes[i].kind.Train?
    requires i == j || ctx.graph.nodes[i].id in Downstream(ctx.graph.nodes, j, |ctx.graph.nodes|)
    requires DirectoryAt(ctx, i) == d
    ensures Reload(PredictedAt(ctx, i)).Some? && LayoutOf(Reload(PredictedAt(ctx, i)).value) == Written(ctx, j, d)
  {
    hide PredictedAt, Predict, Reload, Downstream, Rewrites, DirectoryOf, DirectoryAt, LayoutOf, ConversionTarget,
      ReadAt;
    var nodes := ctx.graph.nodes;
    if i == j {
      RewritingStep(ctx, j, d);
      StepFacts(ctx, j);
      TargetExists(ctx, j, d);
    } else {
      DownstreamAt(nodes, j, |nodes|, i);
      assert PlainStep(ctx, nodes[i]);
      var s := SourcePos(nodes, i);
      ThroughIsNoStart(ctx, d, j, i);
      StepFacts(ctx, i);
      DownstreamFollowsSource(nodes, j, i);
      ThroughTheLastRewriter(ctx, d, j, k, s);
      QuietUnlessRewriting(ctx, i);
    }
  }

  /** Step `j` was the last to rewrite the directory step `k` reads, and left another layout than `k` reads. */
  ghost predicate LeftAnotherLayout(ctx: Context, k: nat, j: nat)
    requires PlainGraph(ctx) && IsCaptionStep(ctx, k)
  {
    && LastRewriter(ctx, DirectoryRead(ctx, k), j, k) && ReadAt(ctx, k).Some?
    && Written(ctx, j, DirectoryRead(ctx, k)) != LayoutOf(ReadAt(ctx, k).value)
  }

  lemma LeavingAnotherLayoutIsMissed(ctx: Context, k: nat, j: nat)
    requires PlainGraph(ctx) && IsCaptionStep(ctx, k) && LeftAnotherLayout(ctx, k, j)
    ensures Misses(ctx, k, j)
  {
    hide PredictedAt, Reload, Downstream, Rewrites, DirectoryOf, DirectoryAt, LayoutOf, ReadAt, OriginAt, DirectoryRead,
      Written;
    var nodes, d := ctx.graph.nodes, DirectoryRead(ctx, k);
    CaptionStepFacts(ctx, k);
    if nodes[k].id in Downstream(nodes, j, |nodes|) {
      DownstreamFollowsSource(nodes, j, k);
      ThroughTheLastRewriter(ctx, d, j, k, SourcePos(nodes, k));
    }
  }

  /**
   * Any number of rewriting steps, accepted or not: a caption step reads a layout its folder no longer
   * has if and only if the last step to rewrite its directory left another layout, and it does not
   * read through that step.
   */
  lemma WrongIffTheLastRewriteIsMissed(ctx: Context, reports: Config, initial: Disk, k: nat)
    requires PlainGraph(ctx) && HonestReports(ctx, reports) && DeclaresDisk(ctx, initial) && IsCaptionStep(ctx, k)
    ensures !ReadsTheLayoutOnDisk(ctx, reports, initial, k)
       <==> exists j: nat :: LeftAnotherLayout(ctx, k, j) && Misses(ctx, k, j)
  {
    hide PlainGraph, HonestReports, DeclaresDisk, DirectoryRead, ReadsTheLayoutOnDisk, LastLayout, Rewrites, ReadAt,
      LayoutOf, Written, LastRewriter;
    var d := DirectoryRead(ctx, k);
    ReadsWhatTheLastRewriteLeft(ctx, reports, initial, k);
    if !ReadsTheLayoutOnDisk(ctx, reports, initial, k) {
      NothingMissedNothingWrong(ctx, reports, initial, k);
      var i: nat :| Misses(ctx, k, i);
      var j := SomeLastRewriter(ctx, d, i, k);
      LastLayoutIsWritten(ctx, initial, d, j, k);
      assert LeftAnotherLayout(ctx, k, j);
      LeavingAnotherLayoutIsMissed(ctx, k, j);
    } else if j: nat :| LeftAnotherLayout(ctx, k, j) {
      LastLayoutIsWritten(ctx, initial, d, j, k);
      assert false;
    }
  }

  // ---------------------------------------------------------------- directories rewritten once

  /** Among the first `k` steps at most one rewrites directory `d`. */
  ghost predicate RewrittenOnce(ctx: Context, d: string, k: nat) {
    forall a: nat, b: nat | a < k && b < k && Rewrites(ctx, a, d) && Rewrites(ctx, b, d) :: a == b
  }

  /** A step outside the rewriter's reach still emits the directory's first layout. */
  lemma {:induction false} OldLayout(ctx: Context, initial: Disk, j: nat, i: nat, m: nat)
    requires PlainGraph(ctx) && DeclaresDisk(ctx, initial)
    requires j < |ctx.graph.nodes| && m < i <= |ctx.graph.nodes| && m != j
    requires Enabled(ctx.graph.nodes[m]) && !ctx.graph.nodes[m].kind.Train?
    requires ctx.graph.nodes[m].id !in Downstream(ctx.graph.nodes, j, |ctx.graph.nodes|)
    requires forall a: nat | a < i && Rewrites(ctx, a, DirectoryAt(ctx, m)) :: a == j
    ensures Settled(ctx, initial, m)
  {
    hide PredictedAt, Predict, Reload, Downstream, Rewrites, DirectoryOf, DirectoryAt, LayoutOf, ConversionTarget;
    var nodes := ctx.graph.nodes;
    if BringsFolder(nodes[m]) {
      assert IsStart(ctx, m);
      FolderFacts(ctx, m);
      ReloadKeepsDirectory(ctx, m);
    } else {
      StepFacts(ctx, m);
      assert PlainStep(ctx, nodes[m]);
      var s := SourcePos(nodes, m);
      if j < m {
        DownstreamFollowsSource(nodes, j, m);
      } else {
        DownstreamAt(nodes, j, |nodes|, s);
      }
      OldLayout(ctx, initial, j, i, s);
      QuietUnlessRewriting(ctx, m);
    }
  }

  lemma FormatsAndLayouts(over: CaptionFormat, input: Handle)
    ensures SameFormat(over, input) <==> LayoutOfFormat(over.format, over.ext) == LayoutOf(input)
  {
  }

  lemma RewritingChangesTheLayout(ctx: Context, n: Node, input: Option<Handle>)
    requires ConversionTarget(ctx, n, input).Some?
    ensures input.Some? && ConversionTarget(ctx, n, input).value != LayoutOf(input.value)
  {
    hide CaptionOverride, Resolved;
    FormatsAndLayouts(CaptionOverride(ctx.host, Resolved(ctx, n), input).value, input.value);
  }

  /** The one rewriter of a directory leaves a layout other than the first. */
  lemma RewriterLeavesAnotherLayout(ctx: Context, initial: Disk, d: string, j: nat, k: nat)
    requires PlainGraph(ctx) && DeclaresDisk(ctx, initial) && j < k <= |ctx.graph.nodes| && d in initial
    requires Rewrites(ctx, j, d) && RewrittenOnce(ctx, d, k)
    ensures LastLayout(ctx, initial, d, k) != initial[d]
  {
    hide PredictedAt, Reload, Downstream, Rewrites, DirectoryOf, DirectoryAt, LayoutOf, ConversionTarget, LastLayout,
      ReadAt, OriginAt, DirectoryRead, DeclaresDisk;
    var nodes := ctx.graph.nodes;
    RewriterIsACaptionStep(ctx, j, d);
    CaptionStepFacts(ctx, j);
    var s := SourcePos(nodes, j);
    DownstreamAt(nodes, j, |nodes|, s);
    OldLayout(ctx, initial, j, k, s);
    assert LastRewriter(ctx, d, j, k);
    LastLayoutIsWritten(ctx, initial, d, j, k);
    TargetExists(ctx, j, d);
    RewritingChangesTheLayout(ctx, nodes[j], ReadAt(ctx, j));
  }

  lemma MissedRewriteIsWrong(ctx: Context, reports: Config, initial: Disk, k: nat, j: nat)
    requires PlainGraph(ctx) && HonestReports(ctx, reports) && DeclaresDisk(ctx, initial) && IsCaptionStep(ctx, k)
    requires RewrittenOnce(ctx, DirectoryRead(ctx, k), k) && Misses(ctx, k, j)
    ensures !ReadsTheLayoutOnDisk(ctx, reports, initial, k)
  {
    hide PredictedAt, Reload, Downstream, Rewrites, DirectoryOf, DirectoryAt, LayoutOf, Run, ReadAt, OriginAt,
      DirectoryRead, DeclaresDisk, ReadsTheLayoutOnDisk, HonestReports, LastLayout;
    var nodes, d := ctx.graph.nodes, DirectoryRead(ctx, k);
    CaptionStepFacts(ctx, k);
    var s := SourcePos(nodes, k);
    DownstreamFollowsSource(nodes, j, k);
    OldLayout(ctx, initial, j, k, s);
    ReadsWhatTheLastRewriteLeft(ctx, reports, initial, k);
    RewriterLeavesAnotherLayout(ctx, initial, d, j, k);
  }

  /**
   * Where a directory is rewritten at most once, accepted or not: a caption step reads a layout its
   * folder no longer has if and only if it does not read through the earlier step that rewrote it.
   */
  lemma WrongExactlyWhenARewriteIsMissed(ctx: Context, reports: Config, initial: Disk, k: nat)
    requires PlainGraph(ctx) && HonestReports(ctx, reports) && DeclaresDisk(ctx, initial) && IsCaptionStep(ctx, k)
    requires RewrittenOnce(ctx, DirectoryRead(ctx, k), k)
    ensures !ReadsTheLayoutOnDisk(ctx, reports, initial, k) <==> exists j: nat :: Misses(ctx, k, j)
  {
    hide Misses, ReadsTheLayoutOnDisk, PlainGraph, HonestReports, DeclaresDisk, RewrittenOnce, DirectoryRead;
    if !ReadsTheLayoutOnDisk(ctx, reports, initial, k) {
      NothingMissedNothingWrong(ctx, reports, initial, k);
    } else if j: nat :| Misses(ctx, k, j) {
      MissedRewriteIsWrong(ctx, reports, initial, k, j);
    }
  }

  // ---------------------------------------------------------------- accepted graphs: what escapes the check

  /**
   * An earlier step rewrites the directory step `k` reads, and the check cannot see it: it knows the
   * directory by another name, or does not count the step, and `k` does not read through it.
   */
  ghost predicate Escapes(ctx: Context, k: nat, j: nat)
    requires PlainGraph(ctx) && IsCaptionStep(ctx, k)
  {
    && j < k && IsCaptionStep(ctx, j) && Rewrites(ctx, j, DirectoryRead(ctx, k))
    && (|| OriginRead(ctx, j) != OriginRead(ctx, k)
        || (!IsConverter(ctx, j)
            && ctx.graph.nodes[k].id !in Downstream(ctx.graph.nodes, j, |ctx.graph.nodes|)))
  }

  /** Reading a directory through the step that rewrites it means reading it by the same name. */
  lemma {:induction false} ThroughKeepsTheName(ctx: Context, d: string, j: nat, i: nat)
    requires PlainGraph(ctx) && Rewrites(ctx, j, d) && j < |ctx.graph.nodes| && i < |ctx.graph.nodes|
    requires Enabled(ctx.graph.nodes[i]) && !ctx.graph.nodes[i].kind.Train?
    requires i == j || ctx.graph.nodes[i].id in Downstream(ctx.graph.nodes, j, |ctx.graph.nodes|)
    requires DirectoryAt(ctx, i) == d
    ensures OriginAt(ctx, i) == OriginAt(ctx, j)
    decreases i
  {
    hide Origin, Downstream, StartsFolder, PredictedAt, Reload, Rewrites, DirectoryAt, DirectoryOf, LayoutOf, PlainStep;
    var nodes := ctx.graph.nodes;
    if i != j {
      DownstreamAt(nodes, j, |nodes|, i);
      var s := SourcePos(nodes, i);
      DownstreamFollowsSource(nodes, j, i);
      ThroughIsNoStart(ctx, d, j, i);
      StepFacts(ctx, i);
      ThroughKeepsTheName(ctx, d, j, s);
      OriginSteps(ctx.host, nodes, i, ctx.tools);
      PlainKinds(ctx, nodes[i]);
      PlainStepStarts(ctx, nodes[i]);
    }
  }

  lemma OriginOfACaptionStep(ctx: Context, j: nat)
    requires PlainGraph(ctx) && IsCaptionStep(ctx, j)
    ensures OriginAt(ctx, j) == OriginRead(ctx, j)
  {
    hide Origin, StartsFolder;
    CaptionStepFacts(ctx, j);
    OriginSteps(ctx.host, ctx.graph.nodes, j, ctx.tools);
    assert PlainStep(ctx, ctx.graph.nodes[j]);
    PlainStepStarts(ctx, ctx.graph.nodes[j]);
  }

  lemma EscapesAreMissed(ctx: Context, k: nat, j: nat)
    requires PlainGraph(ctx) && IsCaptionStep(ctx, k) && Escapes(ctx, k, j)
    ensures Misses(ctx, k, j)
  {
    hide OriginAt, OriginRead, DirectoryAt, DirectoryRead, Rewrites, Downstream, IsConverter;
    OriginOfACaptionStep(ctx, j);
    CaptionStepFacts(ctx, k);
    if ctx.graph.nodes[k].id in Downstream(ctx.graph.nodes, j, |ctx.graph.nodes|) {
      var s := SourcePos(ctx.graph.nodes, k);
      PlainGraphIsOrdered(ctx);
      DownstreamFollowsSource(ctx.graph.nodes, j, k);
      ThroughKeepsTheName(ctx, DirectoryRead(ctx, k), j, s);
    }
  }

  lemma AcceptedMissesEscape(ctx: Context, k: nat, j: nat)
    requires PlainGraph(ctx) && Accepted(ctx) && IsCaptionStep(ctx, k) && Misses(ctx, k, j)
    ensures Escapes(ctx, k, j)
  {
    hide OriginAt, DirectoryAt, Rewrites, Downstream, Refuses, PlainGraph, DirectoryRead, OriginRead, IsConverter;
    RewriterIsACaptionStep(ctx, j, DirectoryRead(ctx, k));
    CaptionStepFacts(ctx, j);
    CaptionStepFacts(ctx, k);
    if OriginRead(ctx, j) == OriginRead(ctx, k) && IsConverter(ctx, j) {
      UnrelatedReaderIsRefused(ctx, j, k, DirectoryRead(ctx, k));
    }
  }

  /**
   * The exact limit of the check. In an accepted plain graph a caption step reads a layout its folder
   * no longer has if and only if the last step to rewrite its directory left another layout and
   * escapes the check: known by another name, or not counted and not read through.
   */
  lemma AcceptedStepIsWrongIff(ctx: Context, reports: Config, initial: Disk, k: nat)
    requires PlainGraph(ctx) && HonestReports(ctx, reports) && DeclaresDisk(ctx, initial) && IsCaptionStep(ctx, k)
    requires Accepted(ctx)
    ensures !ReadsTheLayoutOnDisk(ctx, reports, initial, k)
       <==> exists j: nat :: LeftAnotherLayout(ctx, k, j) && Escapes(ctx, k, j)
  {
    hide Misses, Escapes, LeftAnotherLayout, ReadsTheLayoutOnDisk, PlainGraph, HonestReports, DeclaresDisk, Accepted;
    WrongIffTheLastRewriteIsMissed(ctx, reports, initial, k);
    if !ReadsTheLayoutOnDisk(ctx, reports, initial, k) {
      var j: nat :| LeftAnotherLayout(ctx, k, j) && Misses(ctx, k, j);
      AcceptedMissesEscape(ctx, k, j);
    } else if j: nat :| LeftAnotherLayout(ctx, k, j) && Escapes(ctx, k, j) {
      EscapesAreMissed(ctx, k, j);
    }
  }

  /** For a directory rewritten at most once the layouts need not be compared. */
  lemma AcceptedStepIsWrongIffARewriteEscapes(ctx: Context, reports: Config, initial: Disk, k: nat)
    requires PlainGraph(ctx) && HonestReports(ctx, reports) && DeclaresDisk(ctx, initial) && IsCaptionStep(ctx, k)
    requires Accepted(ctx) && RewrittenOnce(ctx, DirectoryRead(ctx, k), k)
    ensures !ReadsTheLayoutOnDisk(ctx, reports, initial, k) <==> exists j: nat :: Escapes(ctx, k, j)
  {
    hide Misses, Escapes, ReadsTheLayoutOnDisk, PlainGraph, HonestReports, DeclaresDisk, RewrittenOnce, DirectoryRead,
      Accepted;
    WrongExactlyWhenARewriteIsMissed(ctx, reports, initial, k);
    if !ReadsTheLayoutOnDisk(ctx, reports, initial, k) {
      var j: nat :| Misses(ctx, k, j);
      AcceptedMissesEscape(ctx, k, j);
    } else if j: nat :| Escapes(ctx, k, j) {
      EscapesAreMissed(ctx, k, j);
    }
  }

  // ---------------------------------------------------------------- where the check is exact

  /** Every folder step spells its caption format and extension out. */
  ghost predicate DeclaresFully(ctx: Context) {
    forall i: nat | IsStart(ctx, i) && ctx.graph.nodes[i].kind.Folder? ::
      var h := PredictedAt(ctx, i);
      h.Some? ==> h.value.format != "" && h.value.ext != ""
  }

  /** Steps the check knows by one name bring in one directory. */
  ghost predicate OneDirectoryPerName(ctx: Context) {
    forall a: nat, b: nat | IsStart(ctx, a) && IsStart(ctx, b) && NameOf(ctx, a) == NameOf(ctx, b) ::
      DirectoryAt(ctx, a) == DirectoryAt(ctx, b)
  }

  lemma StaysFull(ctx: Context, n: Node, input: Handle)
    requires Enabled(n) && PlainStep(ctx, n) && !n.kind.Folder? && !n.kind.Train?
    requires input.format != "" && input.ext != ""
    ensures var out := PredictNode(ctx, n, Some(input));
            out.Some? && out.value.format != "" && out.value.ext != ""
  {
    if n.kind.Clean? {
      LiteralKeyIsUnchanged(n.config, "in_place", VariableMap(ctx.host, ctx.graph.variables));
    }
  }

  /** Handles of such a graph survive being saved. */
  lemma {:induction false} FullHandles(ctx: Context, i: nat)
    requires PlainGraph(ctx) && DeclaresFully(ctx) && i < |ctx.graph.nodes|
    requires Enabled(ctx.graph.nodes[i]) && !ctx.graph.nodes[i].kind.Train?
    ensures PredictedAt(ctx, i).Some? && Reload(PredictedAt(ctx, i)) == PredictedAt(ctx, i)
    ensures PredictedAt(ctx, i).value.format != "" && PredictedAt(ctx, i).value.ext != ""
  {
    hide PredictNode, Predict, Origin;
    FolderFacts(ctx, i);
    assert PlainStep(ctx, ctx.graph.nodes[i]);
    if ctx.graph.nodes[i].kind.Folder? {
      assert IsStart(ctx, i);
    } else {
      var s := SourcePos(ctx.graph.nodes, i);
      ReaderFacts(ctx, i);
      FullHandles(ctx, s);
      InputIsSourcePrediction(ctx, i);
      StaysFull(ctx, ctx.graph.nodes[i], PredictedAt(ctx, s).value);
    }
  }

  /** What the check counts as a converter really rewrites its folder. */
  lemma ConverterRewrites(ctx: Context, j: nat)
    requires PlainGraph(ctx) && DeclaresFully(ctx) && LiteralFormats(ctx) && IsConverter(ctx, j)
    ensures IsCaptionStep(ctx, j) && Rewrites(ctx, j, DirectoryRead(ctx, j))
  {
    hide PredictNode, Predict, Origin, OriginAt, DirectoryAt, DirectoryOf, DirectoryRead;
    var nodes, n := ctx.graph.nodes, ctx.graph.nodes[j];
    assert IsCaptionStep(ctx, j) && LiteralFormat(n);
    CaptionStepFacts(ctx, j);
    var s := SourcePos(nodes, j);
    InputIsSourcePrediction(ctx, j);
    PredictionIsStable(ctx, s, |nodes|);
    FullHandles(ctx, s);
    var vars := VariableMap(ctx.host, ctx.graph.variables);
    LiteralKeyIsUnchanged(n.config, "output_format", vars);
    LiteralKeyIsUnchanged(n.config, "output_ext", vars);
    assert CaptionOverride(ctx.host, Resolved(ctx, n), PredictedAt(ctx, s))
        == CaptionOverride(ctx.host, n.config, PredictedAt(ctx, s));
  }

  lemma SameOriginSameDirectory(ctx: Context, i: nat, j: nat)
    requires PlainGraph(ctx) && OneDirectoryPerName(ctx) && i < |ctx.graph.nodes| && j < |ctx.graph.nodes|
    requires Enabled(ctx.graph.nodes[i]) && !ctx.graph.nodes[i].kind.Train?
    requires Enabled(ctx.graph.nodes[j]) && !ctx.graph.nodes[j].kind.Train?
    requires OriginAt(ctx, i) == OriginAt(ctx, j)
    ensures DirectoryAt(ctx, i) == DirectoryAt(ctx, j)
  {
    hide PlainGraph, DirectoryAt, OriginAt, PredictedAt, FolderKey;
    FolderFacts(ctx, i);
    FolderFacts(ctx, j);
    assert IsStart(ctx, FolderOf(ctx, i)) && IsStart(ctx, FolderOf(ctx, j));
  }

  ghost predicate Refused(ctx: Context, j: nat, k: nat) {
    k < |ctx.graph.nodes| && Refuses(ctx, ById(ctx.graph.nodes), Predict(ctx, |ctx.graph.nodes|), j, k)
  }

  lemma RefusedPair(ctx: Context, j: nat, k: nat)
    requires PlainGraph(ctx) && Refused(ctx, j, k)
    ensures j < k && IsConverter(ctx, j) && IsCaptionStep(ctx, j) && IsCaptionStep(ctx, k)
    ensures OriginRead(ctx, j) == OriginRead(ctx, k)
    ensures ctx.graph.nodes[k].id !in Downstream(ctx.graph.nodes, j, |ctx.graph.nodes|)
  {
    hide Origin, Downstream, Predict, ChoiceOf, CaptionOverride, SameFormat;
    assert PlainStep(ctx, ctx.graph.nodes[j]) && PlainStep(ctx, ctx.graph.nodes[k]);
    ReaderFacts(ctx, j);
    ReaderFacts(ctx, k);
  }

  lemma RefusedMeansMissed(ctx: Context, j: nat, k: nat)
    requires PlainGraph(ctx) && DeclaresFully(ctx) && LiteralFormats(ctx) && OneDirectoryPerName(ctx)
    requires Refused(ctx, j, k)
    ensures IsCaptionStep(ctx, k) && Misses(ctx, k, j)
  {
    hide Refused, IsConverter, OriginAt, DirectoryAt, PlainGraph, DeclaresFully, OneDirectoryPerName, Downstream,
      Rewrites, DirectoryRead, OriginRead, LiteralFormats;
    RefusedPair(ctx, j, k);
    ConverterRewrites(ctx, j);
    CaptionStepFacts(ctx, j);
    CaptionStepFacts(ctx, k);
    PlainGraphIsOrdered(ctx);
    SameOriginSameDirectory(ctx, SourcePos(ctx.graph.nodes, j), SourcePos(ctx.graph.nodes, k));
  }

  /**
   * A refusal is justified as soon as one name means one directory, and the reader's directory is
   * rewritten at most once: run all the same, the refused step would read a layout that is gone.
   */
  lemma RefusalIsJustified(ctx: Context, reports: Config, initial: Disk, j: nat, k: nat)
    requires PlainGraph(ctx) && HonestReports(ctx, reports) && DeclaresDisk(ctx, initial) && DeclaresFully(ctx)
    requires LiteralFormats(ctx) && OneDirectoryPerName(ctx) && Refused(ctx, j, k)
    requires IsCaptionStep(ctx, k) ==> RewrittenOnce(ctx, DirectoryRead(ctx, k), k)
    ensures k < |ctx.graph.nodes| && !ReadsTheLayoutOnDisk(ctx, reports, initial, k)
  {
    hide Misses, ReadsTheLayoutOnDisk, PlainGraph, HonestReports, DeclaresDisk, RewrittenOnce, DirectoryRead,
      DeclaresFully, OneDirectoryPerName, Refused, LiteralFormats;
    RefusedMeansMissed(ctx, j, k);
    MissedRewriteIsWrong(ctx, reports, initial, k, j);
  }

  lemma MissedMeansRefused(ctx: Context, j: nat, k: nat)
    requires PlainGraph(ctx) && OneNamePerDirectory(ctx) && LiteralFormats(ctx)
    requires IsCaptionStep(ctx, k) && Misses(ctx, k, j)
    ensures Refused(ctx, j, k)
  {
    hide OriginAt, DirectoryAt, PlainGraph, OneNamePerDirectory, Downstream, Rewrites, Refuses, DirectoryRead,
      OriginRead, LiteralFormat, IsConverter;
    RewriterIsACaptionStep(ctx, j, DirectoryRead(ctx, k));
    RewriteIsCounted(ctx, j, DirectoryRead(ctx, k));
    CaptionStepFacts(ctx, j);
    CaptionStepFacts(ctx, k);
    PlainGraphIsOrdered(ctx);
    SameDirectorySameOrigin(ctx, SourcePos(ctx.graph.nodes, j), SourcePos(ctx.graph.nodes, k));
    UnrelatedReaderIsRefused(ctx, j, k, DirectoryRead(ctx, k));
  }

  /** Names and directories go together: the check tells folders apart exactly as the disk does. */
  ghost predicate NamesAreDirectories(ctx: Context) {
    OneNamePerDirectory(ctx) && OneDirectoryPerName(ctx)
  }

  /**
   * The check is exact, step by step: a caption step whose directory is rewritten at most once is
   * refused if and only if it would read a layout its folder no longer has.
   */
  lemma RefusedExactlyWhenWrong(ctx: Context, reports: Config, initial: Disk, k: nat)
    requires PlainGraph(ctx) && HonestReports(ctx, reports) && DeclaresDisk(ctx, initial) && DeclaresFully(ctx)
    requires LiteralFormats(ctx) && NamesAreDirectories(ctx)
    requires IsCaptionStep(ctx, k) && RewrittenOnce(ctx, DirectoryRead(ctx, k), k)
    ensures !ReadsTheLayoutOnDisk(ctx, reports, initial, k) <==> exists j: nat :: Refused(ctx, j, k)
  {
    hide Misses, Refused, ReadsTheLayoutOnDisk, PlainGraph, HonestReports, DeclaresDisk, RewrittenOnce, DirectoryRead,
      DeclaresFully, OneNamePerDirectory, OneDirectoryPerName, LiteralFormats;
    WrongExactlyWhenARewriteIsMissed(ctx, reports, initial, k);
    if !ReadsTheLayoutOnDisk(ctx, reports, initial, k) {
      var j: nat :| Misses(ctx, k, j);
      MissedMeansRefused(ctx, j, k);
    } else if j: nat :| Refused(ctx, j, k) {
      RefusedMeansMissed(ctx, j, k);
    }
  }

  lemma AcceptedMeansNothingRefused(ctx: Context)
    requires PlainGraph(ctx)
    ensures Accepted(ctx) <==> forall k: nat, j: nat | IsCaptionStep(ctx, k) :: !Refused(ctx, j, k)
  {
    hide Refuses, PlainGraph, OriginRead, Predict;
    forall k: nat, j: nat | Refused(ctx, j, k) ensures IsCaptionStep(ctx, k) {
      RefusedPair(ctx, j, k);
    }
    if forall k: nat, j: nat | IsCaptionStep(ctx, k) :: !Refused(ctx, j, k) {
      forall i: nat, j: nat | i < |ctx.graph.nodes|
        ensures !Refuses(ctx, ById(ctx.graph.nodes), Predict(ctx, |ctx.graph.nodes|), j, i)
      {
        assert !Refused(ctx, j, i);
      }
    } else {
      var k: nat, j: nat :| IsCaptionStep(ctx, k) && Refused(ctx, j, k);
      assert Refuses(ctx, ById(ctx.graph.nodes), Predict(ctx, |ctx.graph.nodes|), j, k);
    }
  }

  /** The check is exact, graph by graph: accepted graphs are the ones every caption step of which reads right. */
  lemma AcceptedExactlyWhenSafe(ctx: Context, reports: Config, initial: Disk)
    requires PlainGraph(ctx) && HonestReports(ctx, reports) && DeclaresDisk(ctx, initial) && DeclaresFully(ctx)
    requires LiteralFormats(ctx) && NamesAreDirectories(ctx)
    requires forall k: nat | IsCaptionStep(ctx, k) :: RewrittenOnce(ctx, DirectoryRead(ctx, k), k)
    ensures Accepted(ctx) <==> forall k: nat | IsCaptionStep(ctx, k) :: ReadsTheLayoutOnDisk(ctx, reports, initial, k)
  {
    hide Refused, Accepted, ReadsTheLayoutOnDisk, PlainGraph, HonestReports, DeclaresDisk, RewrittenOnce, DirectoryRead,
      DeclaresFully, NamesAreDirectories, LiteralFormats;
    AcceptedMeansNothingRefused(ctx);
    forall k: nat | IsCaptionStep(ctx, k)
      ensures !ReadsTheLayoutOnDisk(ctx, reports, initial, k) <==> exists j: nat :: Refused(ctx, j, k)
    {
      RefusedExactlyWhenWrong(ctx, reports, initial, k);
    }
  }
}
