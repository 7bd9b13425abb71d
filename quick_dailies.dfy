/**
 * The quick-dailies application: it picks the iteration number of a new
 * daily from the dailies already on disk, writes the burn-in and slate text
 * onto the daily's node group, points the two writers (a movie and a PNG
 * sequence) at their outputs, chooses the movie codec for the platform, and
 * renders with both writers switched on only for the duration of the render.
 */
module QuickDailies {
  import opened Knobs
  import opened Text

  // ---------------------------------------------------------------------------
  // Session data

  datatype Entity = Entity(entityType: string, name: string)

  /** The context's fields the plugin reads; task and step are optional. */
  datatype Context = Context(project: string, entity: Entity, task: Option<string>, step: Option<string>)

  /** The tracking system's record of the current user, when it has one: field name to value. */
  type UserRecord = map<string, string>

  /** What the session offers: the platform, the context, the user lookup, today's date text, frames and views. */
  datatype Session = Session(
    platform: string,
    context: Context,
    user: Option<UserRecord>,
    today: string,
    firstFrame: int,
    lastFrame: int,
    views: seq<string>)

  /** Configuration: the optional width and height settings and the font file's path as joined. */
  datatype Config = Config(width: Option<int>, height: Option<int>, fontFile: string)

  const UnknownUser: string := "Unknown User"
  const DefaultWidth: int := 1024
  const DefaultHeight: int := 540

  /** The daily's name: the comments step is a stub that always answers this name. */
  const CommentsName: string := "test"

  // ---------------------------------------------------------------------------
  // Choosing the iteration

  /** Python's `max` over a non-empty list. */
  function MaxOf(s: seq<int>): (m: int)
    requires |s| > 0
    ensures m in s
    ensures forall i :: 0 <= i < |s| ==> s[i] <= m
  {
    if |s| == 1 then s[0]
    else
      var rest := MaxOf(s[1..]);
      if s[0] >= rest then s[0] else rest
  }

  /**
   * The iteration of the new daily from the iterations found on disk:
   * 1 when there are none, otherwise the largest of them (no increment).
   */
  function ChooseIteration(existing: seq<int>): (iteration: int)
    ensures existing == [] ==> iteration == 1
    ensures existing != [] ==> iteration in existing
    ensures forall i :: 0 <= i < |existing| ==> existing[i] <= iteration
  {
    if |existing| == 0 then 1 else MaxOf(existing)
  }

  /**
   * Since the choice is the largest existing iteration and not one past it,
   * a daily rendered after others reuses an iteration already on disk, and
   * the movie path built from it is that earlier daily's path.
   */
  lemma ChosenIterationIsTaken(existing: seq<int>, movieTemplate: (string, int) -> string, name: string)
    requires existing != []
    ensures exists i :: 0 <= i < |existing| &&
                        movieTemplate(name, existing[i]) == movieTemplate(name, ChooseIteration(existing))
  {
    var k :| 0 <= k < |existing| && existing[k] == ChooseIteration(existing);
    assert movieTemplate(name, existing[k]) == movieTemplate(name, ChooseIteration(existing));
  }

  /** Gaps are not filled and nothing is added: {1, 3, 5} gives 5 and {1, 2} gives 2. */
  lemma IterationExamples()
    ensures ChooseIteration([]) == 1
    ensures ChooseIteration([1, 3, 5]) == 5
    ensures ChooseIteration([3, 5, 1]) == 5
    ensures ChooseIteration([1, 2]) == 2
  {
  }

  // ---------------------------------------------------------------------------
  // Burn-in and slate text

  /** Top-left burn-in: the project, then the entity's type and name. */
  function TopLeftBurnIn(ctx: Context): string {
    ctx.project + "\n" + ctx.entity.entityType + " " + ctx.entity.name
  }

  /** The user's display name, or "Unknown User" when there is no user or it has no name. */
  function UserName(user: Option<UserRecord>): string {
    match user
    case None => UnknownUser
    case Some(record) => if "name" in record then record["name"] else UnknownUser
  }

  /** Bottom-left burn-in: `<name>#<iteration>`, then the user's name. */
  function BottomLeftBurnIn(name: string, iteration: int, user: Option<UserRecord>): string {
    name + "#" + IntToDecimal(iteration) + "\n" + UserName(user)
  }

  /** The slate's text, built line by line as the application appends it. */
  function SlateBody(ctx: Context, name: string, iteration: int, firstFrame: int, lastFrame: int): string {
    var s := AppendLine("", "Project: " + ctx.project);
    var s := AppendLine(s, ctx.entity.entityType + ": " + ctx.entity.name);
    var s := AppendLine(s, "Name: " + name);
    var s := AppendLine(s, "Iteration: " + IntToDecimal(iteration));
    var s :=
      if ctx.task.Some? then AppendLine(s, "Task: " + ctx.task.value)
      else if ctx.step.Some? then AppendLine(s, "Step: " + ctx.step.value)
      else s;
    AppendLine(s, "Frames: " + IntToDecimal(firstFrame) + " - " + IntToDecimal(lastFrame))
  }

  /** The task line when there is a task, else the step line when there is a step, else nothing. */
  function TaskOrStepLines(ctx: Context): seq<string> {
    if ctx.task.Some? then ["Task: " + ctx.task.value]
    else if ctx.step.Some? then ["Step: " + ctx.step.value]
    else []
  }

  /** The slate's lines in order, as a reader of the slate sees them. */
  function SlateLines(ctx: Context, name: string, iteration: int, firstFrame: int, lastFrame: int): seq<string> {
    ["Project: " + ctx.project,
     ctx.entity.entityType + ": " + ctx.entity.name,
     "Name: " + name,
     "Iteration: " + IntToDecimal(iteration)]
    + TaskOrStepLines(ctx)
    + ["Frames: " + IntToDecimal(firstFrame) + " - " + IntToDecimal(lastFrame)]
  }

  /** Every text field of the context is free of line breaks. */
  predicate SingleLineContext(ctx: Context) {
    && SingleLine(ctx.project) && SingleLine(ctx.entity.entityType) && SingleLine(ctx.entity.name)
    && (ctx.task.Some? ==> SingleLine(ctx.task.value))
    && (ctx.step.Some? ==> SingleLine(ctx.step.value))
  }

  /** The top-left burn-in reads as two lines: the project, then "<type> <name>". */
  lemma TopLeftBurnInLines(ctx: Context)
    requires SingleLineContext(ctx)
    ensures Split(TopLeftBurnIn(ctx)) == [ctx.project, ctx.entity.entityType + " " + ctx.entity.name]
  {
    var parts := [ctx.project, ctx.entity.entityType + " " + ctx.entity.name];
    assert Join(parts[1..]) == parts[1];
    assert Join(parts) == TopLeftBurnIn(ctx);
    SplitJoin(parts);
  }

  /**
   * The bottom-left burn-in reads as two lines, `<name>#<iteration>` and the
   * user's name (or "Unknown User"), and the digits after the '#' read back
   * as the iteration.
   */
  lemma BottomLeftBurnInLines(name: string, iteration: int, user: Option<UserRecord>)
    requires SingleLine(name) && SingleLine(UserName(user))
    ensures Split(BottomLeftBurnIn(name, iteration, user))
      == [name + "#" + IntToDecimal(iteration), UserName(user)]
    ensures user.None? || "name" !in user.value ==> UserName(user) == UnknownUser
    ensures iteration >= 0 ==>
      DecimalValue(Split(BottomLeftBurnIn(name, iteration, user))[0][|name| + 1..]) == iteration
  {
    var first := name + "#" + IntToDecimal(iteration);
    var parts := [first, UserName(user)];
    assert Join(parts[1..]) == parts[1];
    assert Join(parts) == BottomLeftBurnIn(name, iteration, user);
    SplitJoin(parts);
    assert first[|name| + 1..] == IntToDecimal(iteration);
    if iteration >= 0 {
      NatToDecimalRoundTrip(iteration);
    }
  }

  /** The slate's text is its lines, each followed by a line break. */
  lemma SlateBodyIsTerminated(ctx: Context, name: string, iteration: int, firstFrame: int, lastFrame: int)
    ensures SlateBody(ctx, name, iteration, firstFrame, lastFrame)
      == Terminated(SlateLines(ctx, name, iteration, firstFrame, lastFrame))
  {
    var l0, l1 := "Project: " + ctx.project, ctx.entity.entityType + ": " + ctx.entity.name;
    var l2, l3 := "Name: " + name, "Iteration: " + IntToDecimal(iteration);
    var last := "Frames: " + IntToDecimal(firstFrame) + " - " + IntToDecimal(lastFrame);
    TerminatedSnoc([], l0);
    assert [] + [l0] == [l0];
    TerminatedSnoc([l0], l1);
    TerminatedSnoc([l0, l1], l2);
    TerminatedSnoc([l0, l1, l2], l3);
    assert [l0] + [l1] == [l0, l1] && [l0, l1] + [l2] == [l0, l1, l2] && [l0, l1, l2] + [l3] == [l0, l1, l2, l3];
    var s4 := AppendLine(AppendLine(AppendLine(AppendLine("", l0), l1), l2), l3);
    assert Terminated([l0, l1, l2, l3]) == s4;
    var head := [l0, l1, l2, l3] + TaskOrStepLines(ctx);
    var s5 :=
      if ctx.task.Some? then AppendLine(s4, "Task: " + ctx.task.value)
      else if ctx.step.Some? then AppendLine(s4, "Step: " + ctx.step.value)
      else s4;
    if ctx.task.Some? || ctx.step.Some? {
      TerminatedSnoc([l0, l1, l2, l3], TaskOrStepLines(ctx)[0]);
    } else {
      assert head == [l0, l1, l2, l3];
    }
    assert Terminated(head) == s5;
    TerminatedSnoc(head, last);
    assert SlateLines(ctx, name, iteration, firstFrame, lastFrame) == head + [last];
  }

  /** No slate line holds a line break when the context and the name hold none. */
  lemma SlateLinesSingle(ctx: Context, name: string, iteration: int, firstFrame: int, lastFrame: int)
    requires SingleLineContext(ctx) && SingleLine(name)
    ensures AllSingleLine(SlateLines(ctx, name, iteration, firstFrame, lastFrame))
  {
    SingleLineConcat("Project: ", ctx.project);
    SingleLineConcat(ctx.entity.entityType, ": ");
    SingleLineConcat(ctx.entity.entityType + ": ", ctx.entity.name);
    SingleLineConcat("Name: ", name);
    SingleLineConcat("Iteration: ", IntToDecimal(iteration));
    if ctx.task.Some? { SingleLineConcat("Task: ", ctx.task.value); }
    if ctx.step.Some? { SingleLineConcat("Step: ", ctx.step.value); }
    SingleLineConcat("Frames: ", IntToDecimal(firstFrame));
    SingleLineConcat("Frames: " + IntToDecimal(firstFrame), " - ");
    SingleLineConcat("Frames: " + IntToDecimal(firstFrame) + " - ", IntToDecimal(lastFrame));
  }

  /**
   * The slate reads as its lines in order: project, entity, name, iteration,
   * then the task or step line, then the frame range; every line ends with a
   * line break, so the text splits with one empty piece after the last line.
   */
  lemma SlateBodyLines(ctx: Context, name: string, iteration: int, firstFrame: int, lastFrame: int)
    requires SingleLineContext(ctx) && SingleLine(name)
    ensures Split(SlateBody(ctx, name, iteration, firstFrame, lastFrame))
      == SlateLines(ctx, name, iteration, firstFrame, lastFrame) + [""]
  {
    SlateBodyIsTerminated(ctx, name, iteration, firstFrame, lastFrame);
    SlateLinesSingle(ctx, name, iteration, firstFrame, lastFrame);
    SplitTerminated(SlateLines(ctx, name, iteration, firstFrame, lastFrame));
  }

  /** The slate has five lines without task and step, six with either; the task wins over the step. */
  lemma SlateTaskOrStep(ctx: Context, name: string, iteration: int, firstFrame: int, lastFrame: int)
    ensures var lines := SlateLines(ctx, name, iteration, firstFrame, lastFrame);
      && |lines| == (if ctx.task.Some? || ctx.step.Some? then 6 else 5)
      && lines[|lines| - 1] == "Frames: " + IntToDecimal(firstFrame) + " - " + IntToDecimal(lastFrame)
      && (ctx.task.Some? ==> lines[4] == "Task: " + ctx.task.value)
      && (ctx.task.None? && ctx.step.Some? ==> lines[4] == "Step: " + ctx.step.value)
  {
  }

  // ---------------------------------------------------------------------------
  // The node group

  /** The nodes inside the daily's group that the application configures. */
  datatype GroupChild =
    | TopLeftText | TopRightText | BottomLeftText | FrameCounter | SlateInfo
    | MovReformat | PngWriter | MovWriter

  type GroupKnobs = map<(GroupChild, Knob), KnobValue>

  /** One frame range handed to the renderer: first, last and step. */
  datatype FrameRange = FrameRange(first: int, last: int, step: int)

  /** One call of the host's multi-writer render, with the writers' enabled state at that moment. */
  datatype RenderCall = RenderCall(
    writers: seq<GroupChild>,
    ranges: seq<FrameRange>,
    views: seq<string>,
    movEnabled: bool,
    pngEnabled: bool)

  datatype RenderError = NoViews | HostRenderFailed

  datatype RenderOutcome = Rendered | Raised(error: RenderError)

  /** Python's `os.sep` on the platform. */
  function OsSep(platform: string): char {
    if platform == Windows then '\\' else '/'
  }

  /** The movie writer's codec knobs the application writes itself, by platform. */
  function AppCodecWrites(platform: string): KnobMap {
    if platform == Windows || platform == Mac then
      map[FileType := Text("mov"), Codec := Text("jpeg"),
          Fps := Float(QuickDailyFps), Settings := SettingsBlob]
    else if platform == Linux then
      map[FileType := Text("ffmpeg"), Codec := Text("MOV format (mov)")]
    else
      map[]
  }

  /** The group's knobs after the formatting step's writes, in the order it makes them. */
  function FormattingApplied(knobs: GroupKnobs, s: Session, config: Config, name: string, iteration: int): GroupKnobs {
    var font := Text(ReplaceWithSlash(config.fontFile, OsSep(s.platform)));
    knobs[(TopLeftText, Font) := font][(TopRightText, Font) := font]
      [(BottomLeftText, Font) := font][(FrameCounter, Font) := font][(SlateInfo, Font) := font]
      [(TopLeftText, Message) := Text(TopLeftBurnIn(s.context))]
      [(TopRightText, Message) := Text(s.today)]
      [(BottomLeftText, Message) := Text(BottomLeftBurnIn(name, iteration, s.user))]
      [(SlateInfo, Message) := Text(SlateBody(s.context, name, iteration, s.firstFrame, s.lastFrame))]
  }

  /** The render step's first writes: the output size, then the two paths with '/' separators. */
  function RenderPathsApplied(knobs: GroupKnobs, s: Session, config: Config, movPath: string, pngPath: string): GroupKnobs {
    var sep := OsSep(s.platform);
    knobs
      [(MovReformat, BoxWidth) := Int(config.width.GetOr(DefaultWidth))]
      [(MovReformat, BoxHeight) := Int(config.height.GetOr(DefaultHeight))]
      [(PngWriter, File) := Text(ReplaceWithSlash(pngPath, sep))]
      [(MovWriter, File) := Text(ReplaceWithSlash(movPath, sep))]
  }

  /** The render step's codec writes on the movie writer, by platform, in the order it makes them. */
  function MovCodecApplied(knobs: GroupKnobs, platform: string): GroupKnobs {
    if platform == Windows || platform == Mac then
      knobs[(MovWriter, FileType) := Text("mov")][(MovWriter, Codec) := Text("jpeg")]
        [(MovWriter, Fps) := Float(QuickDailyFps)][(MovWriter, Settings) := SettingsBlob]
    else if platform == Linux then
      knobs[(MovWriter, FileType) := Text("ffmpeg")][(MovWriter, Codec) := Text("MOV format (mov)")]
    else
      knobs
  }

  /** The group's knobs after the render step's writes. */
  function RenderApplied(knobs: GroupKnobs, s: Session, config: Config, movPath: string, pngPath: string): GroupKnobs {
    MovCodecApplied(RenderPathsApplied(knobs, s, config, movPath, pngPath), s.platform)
  }

  /** The codec writes land on the movie writer only. */
  lemma MovCodecAppliedKeeps(knobs: GroupKnobs, platform: string, key: (GroupChild, Knob))
    requires key.0 != MovWriter
    ensures Keeps(knobs, MovCodecApplied(knobs, platform), key)
  {
  }

  /** The codec writes set the platform's codec knobs on the movie writer and keep its others. */
  lemma MovCodecAppliedWrites(knobs: GroupKnobs, platform: string, k: Knob)
    ensures var r := MovCodecApplied(knobs, platform);
      && (k in AppCodecWrites(platform) ==> r[(MovWriter, k)] == AppCodecWrites(platform)[k])
      && (k !in AppCodecWrites(platform) ==> Keeps(knobs, r, (MovWriter, k)))
  {
  }

  /** The render request: both writers, frames first-1 through last by 1, only the first view. */
  function RenderRequest(s: Session): RenderCall
    requires |s.views| > 0
  {
    RenderCall([MovWriter, PngWriter], [FrameRange(s.firstFrame - 1, s.lastFrame, 1)], [s.views[0]], true, true)
  }

  /** The knob at key is left as it was: present afterwards exactly when before, with the same value. */
  predicate Keeps(before: GroupKnobs, after: GroupKnobs, key: (GroupChild, Knob)) {
    (key in after <==> key in before) && (key in before ==> after[key] == before[key])
  }

  /** The render step sets the output size (1024 by 540 unless configured) and both paths with '/' separators. */
  lemma RenderAppliedSizeAndPaths(knobs: GroupKnobs, s: Session, config: Config, movPath: string, pngPath: string)
    ensures var r := RenderApplied(knobs, s, config, movPath, pngPath);
      && r[(MovReformat, BoxWidth)] == Int(if config.width.Some? then config.width.value else 1024)
      && r[(MovReformat, BoxHeight)] == Int(if config.height.Some? then config.height.value else 540)
      && r[(PngWriter, File)] == Text(ReplaceWithSlash(pngPath, OsSep(s.platform)))
      && r[(MovWriter, File)] == Text(ReplaceWithSlash(movPath, OsSep(s.platform)))
  {
    var paths := RenderPathsApplied(knobs, s, config, movPath, pngPath);
    MovCodecAppliedKeeps(paths, s.platform, (MovReformat, BoxWidth));
    MovCodecAppliedKeeps(paths, s.platform, (MovReformat, BoxHeight));
    MovCodecAppliedKeeps(paths, s.platform, (PngWriter, File));
    MovCodecAppliedWrites(paths, s.platform, File);
  }

  /**
   * On the movie writer the render step sets exactly the platform's codec
   * knobs besides the path; on an unknown platform none.
   */
  lemma RenderAppliedCodec(knobs: GroupKnobs, s: Session, config: Config, movPath: string, pngPath: string, k: Knob)
    ensures var r := RenderApplied(knobs, s, config, movPath, pngPath);
      && (k in AppCodecWrites(s.platform) ==> r[(MovWriter, k)] == AppCodecWrites(s.platform)[k])
      && (k != File && k !in AppCodecWrites(s.platform) ==> Keeps(knobs, r, (MovWriter, k)))
  {
    MovCodecAppliedWrites(RenderPathsApplied(knobs, s, config, movPath, pngPath), s.platform, k);
  }

  /** The render step leaves the text nodes alone, and the PNG writer and the reformat beyond path and size. */
  lemma RenderAppliedKeepsOthers(knobs: GroupKnobs, s: Session, config: Config, movPath: string, pngPath: string,
                                 child: GroupChild, k: Knob)
    requires child != MovWriter
    requires child == MovReformat ==> k != BoxWidth && k != BoxHeight
    requires child == PngWriter ==> k != File
    ensures Keeps(knobs, RenderApplied(knobs, s, config, movPath, pngPath), (child, k))
  {
    var paths := RenderPathsApplied(knobs, s, config, movPath, pngPath);
    MovCodecAppliedKeeps(paths, s.platform, (child, k));
  }

  /** The formatting step sets the font on the five text nodes and the burn-ins and slate as messages. */
  lemma FormattingAppliedMessages(knobs: GroupKnobs, s: Session, config: Config, name: string, iteration: int,
                                  child: GroupChild)
    ensures var r := FormattingApplied(knobs, s, config, name, iteration);
      && r[(TopLeftText, Message)] == Text(TopLeftBurnIn(s.context))
      && r[(TopRightText, Message)] == Text(s.today)
      && r[(BottomLeftText, Message)] == Text(BottomLeftBurnIn(name, iteration, s.user))
      && r[(SlateInfo, Message)] == Text(SlateBody(s.context, name, iteration, s.firstFrame, s.lastFrame))
      && (child !in {MovReformat, PngWriter, MovWriter} ==>
            r[(child, Font)] == Text(ReplaceWithSlash(config.fontFile, OsSep(s.platform))))
  {
  }

  /** The formatting step touches no knob but fonts and messages, and not the frame counter's message. */
  lemma FormattingAppliedKeepsOthers(knobs: GroupKnobs, s: Session, config: Config, name: string, iteration: int,
                                     child: GroupChild, k: Knob)
    requires (k != Font && k != Message) || child in {MovReformat, PngWriter, MovWriter}
             || (child == FrameCounter && k == Message)
    ensures Keeps(knobs, FormattingApplied(knobs, s, config, name, iteration), (child, k))
  {
  }

  /** The daily's node group: its nodes' knobs, the two writers' disable flags, and the renders made. */
  class QuickDailyGroup {
    var knobs: GroupKnobs
    var movDisabled: bool
    var pngDisabled: bool
    var renders: seq<RenderCall>

    constructor (knobs: GroupKnobs, movDisabled: bool, pngDisabled: bool)
      ensures this.knobs == knobs && this.movDisabled == movDisabled && this.pngDisabled == pngDisabled
      ensures renders == []
    {
      this.knobs := knobs;
      this.movDisabled := movDisabled;
      this.pngDisabled := pngDisabled;
      renders := [];
    }

    /** `group_node.node(child)[k].setValue(v)`. */
    method SetKnob(child: GroupChild, k: Knob, v: KnobValue)
      modifies this`knobs
      ensures knobs == old(knobs)[(child, k) := v]
    {
      knobs := knobs[(child, k) := v];
    }

    /**
     * The host's render of the given writers: it records the call with the
     * writers' current enabled state; `hostFails` says whether it raises.
     */
    method ExecuteMultiple(writers: seq<GroupChild>, ranges: seq<FrameRange>, views: seq<string>, hostFails: bool)
      returns (ok: bool)
      modifies this`renders
      ensures renders == old(renders) + [RenderCall(writers, ranges, views, !movDisabled, !pngDisabled)]
      ensures ok == !hostFails
    {
      renders := renders + [RenderCall(writers, ranges, views, !movDisabled, !pngDisabled)];
      ok := !hostFails;
    }

    /** `_setup_formatting`: fonts, burn-ins and slate onto the text nodes. */
    method SetupFormatting(s: Session, config: Config, name: string, iteration: int)
      modifies this`knobs
      ensures knobs == FormattingApplied(old(knobs), s, config, name, iteration)
    {
      var font := Text(ReplaceWithSlash(config.fontFile, OsSep(s.platform)));
      SetKnob(TopLeftText, Font, font);
      SetKnob(TopRightText, Font, font);
      SetKnob(BottomLeftText, Font, font);
      SetKnob(FrameCounter, Font, font);
      SetKnob(SlateInfo, Font, font);
      SetKnob(TopLeftText, Message, Text(TopLeftBurnIn(s.context)));
      SetKnob(TopRightText, Message, Text(s.today));
      SetKnob(BottomLeftText, Message, Text(BottomLeftBurnIn(name, iteration, s.user)));
      SetKnob(SlateInfo, Message, Text(SlateBody(s.context, name, iteration, s.firstFrame, s.lastFrame)));
    }

    /**
     * `_render`: size, paths and codec onto the writers, then both writers on,
     * the render of the first view, and both writers off again whether the
     * render returned or raised.
     */
    method Render(s: Session, config: Config, movPath: string, pngPath: string, hostFails: bool)
      returns (outcome: RenderOutcome)
      modifies this
      ensures knobs == RenderApplied(old(knobs), s, config, movPath, pngPath)
      ensures movDisabled && pngDisabled
      ensures |s.views| == 0 ==> outcome == Raised(NoViews) && renders == old(renders)
      ensures |s.views| > 0 ==> renders == old(renders) + [RenderRequest(s)]
      ensures |s.views| > 0 ==> outcome == (if hostFails then Raised(HostRenderFailed) else Rendered)
    {
      SetKnob(MovReformat, BoxWidth, Int(config.width.GetOr(DefaultWidth)));
      SetKnob(MovReformat, BoxHeight, Int(config.height.GetOr(DefaultHeight)));
      var sep := OsSep(s.platform);
      SetKnob(PngWriter, File, Text(ReplaceWithSlash(pngPath, sep)));
      SetKnob(MovWriter, File, Text(ReplaceWithSlash(movPath, sep)));
      if s.platform == Windows || s.platform == Mac {
        SetKnob(MovWriter, FileType, Text("mov"));
        SetKnob(MovWriter, Codec, Text("jpeg"));
        SetKnob(MovWriter, Fps, Float(QuickDailyFps));
        SetKnob(MovWriter, Settings, SettingsBlob);
      } else if s.platform == Linux {
        SetKnob(MovWriter, FileType, Text("ffmpeg"));
        SetKnob(MovWriter, Codec, Text("MOV format (mov)"));
      }
      movDisabled := false;
      pngDisabled := false;
      // the try block: taking the first view fails on an empty view list
      if |s.views| == 0 {
        outcome := Raised(NoViews);
      } else {
        var ok := ExecuteMultiple([MovWriter, PngWriter], [FrameRange(s.firstFrame - 1, s.lastFrame, 1)],
                                  [s.views[0]], hostFails);
        outcome := if ok then Rendered else Raised(HostRenderFailed);
      }
      // the finally block
      movDisabled := true;
      pngDisabled := true;
    }

    /**
     * `create_daily_v1`: the name from the comments step, the iteration from
     * the dailies on disk, the movie path from the template, then formatting
     * and render. The template is a function of name and iteration.
     */
    method CreateDailyV1(s: Session, config: Config, existing: seq<int>,
                         movieTemplate: (string, int) -> string, pngPath: string, hostFails: bool)
      returns (iteration: int, movPath: string, outcome: RenderOutcome)
      modifies this
      ensures iteration == ChooseIteration(existing)
      ensures movPath == movieTemplate(CommentsName, iteration)
      ensures knobs == RenderApplied(FormattingApplied(old(knobs), s, config, CommentsName, iteration),
                                     s, config, movPath, pngPath)
      ensures movDisabled && pngDisabled
      ensures |s.views| == 0 ==> outcome == Raised(NoViews) && renders == old(renders)
      ensures |s.views| > 0 ==> renders == old(renders) + [RenderRequest(s)]
      ensures |s.views| > 0 ==> outcome == (if hostFails then Raised(HostRenderFailed) else Rendered)
    {
      var name := CommentsName;
      iteration := ChooseIteration(existing);
      movPath := movieTemplate(name, iteration);
      SetupFormatting(s, config, name, iteration);
      outcome := Render(s, config, movPath, pngPath, hostFails);
    }
  }
}
