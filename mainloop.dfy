/** Model of sources/src/main.rs: one iteration of the viewer's frame loop.
    The loop is in one of two modes: the file menu (`apply_render` false) or
    the render view (`apply_render` true). In menu mode the menu handles the
    mouse and, once a file is selected, the file is opened, read and parsed;
    a document that parses replaces the whole Geometry and switches to the
    render view in the same frame. In render mode the geometry moves by the
    held keys and Escape goes back to the menu. */
module MainLoop {
  import opened Render

  /** What opening, reading and parsing the selected file gives this frame
      (`File::open`, `read_to_string`, `serde_json::from_str`). It is only
      looked at when a file is selected. */
  datatype LoadOutcome =
    | OpenFailed
    | ReadFailed
    | ParseFailed(detail: string)
    | Parsed(doc: GeometryState)

  /** The input queries of one frame: the mouse, the keys held down, and
      whether Escape went down this frame (`is_key_pressed`). */
  datatype FrameInput = FrameInput(mouse: Mouse, held: HeldKeys, escapePressed: bool)

  /** Everything outside the program that one frame observes. */
  datatype FrameEvents = FrameEvents(input: FrameInput, fs: FileSystem, load: LoadOutcome)

  /** The loop's variables: `geometric`, `menu`, `apply_render` and
      `loading_message`. */
  datatype AppState = AppState(
    geometric: GeometryState,
    menu: MenuState,
    applyRender: bool,
    loadingMessage: Option<string>)

  const LoadingMessage: string := "Loading file..."
  const OpenErrorMessage: string := "Erro to open the file."
  const ReadErrorMessage: string := "Error to read."
  const ParseErrorPrefix: string := "Error to deserialize JSON: "

  /** The status text a failed load leaves. Each kind of failure has its own
      message: only a parse failure starts with the JSON prefix, and the
      open and read messages are the two fixed texts. */
  function FailureMessage(load: LoadOutcome): (m: string)
    requires !load.Parsed?
    ensures load.OpenFailed? <==> m == OpenErrorMessage
    ensures load.ReadFailed? <==> m == ReadErrorMessage
    ensures load.ParseFailed? <==>
      |ParseErrorPrefix| <= |m| && m[..|ParseErrorPrefix|] == ParseErrorPrefix
  {
    match load
    case OpenFailed => OpenErrorMessage
    case ReadFailed => ReadErrorMessage
    case ParseFailed(detail) =>
      var m := ParseErrorPrefix + detail;
      assert m[..|ParseErrorPrefix|] == ParseErrorPrefix;
      assert m != OpenErrorMessage && m != ReadErrorMessage by {
        assert |m| >= 27 > |OpenErrorMessage| && |m| > |ReadErrorMessage|;
      }
      m
  }

  /** The state before the first frame: the default cube, a fresh menu,
      menu mode and no status text. */
  function InitialState(): (s: AppState)
    ensures EdgesInRange(s.geometric) && !s.applyRender && s.loadingMessage == None
    ensures s.menu.selectedFile == None && !s.menu.openedFileMenu
  {
    AppState(NewGeometry(), InitialMenu(), false, None)
  }

  /** The menu branch of a frame (`if !apply_render`): handle the click,
      then, if a file is selected, try to load it. A parsed document replaces
      the geometry wholesale, switches to render mode and clears the status,
      the selection and the open flag; a failure keeps the geometry and the
      mode, sets that failure's message and keeps the selection. */
  function MenuFrame(s: AppState, e: FrameEvents): (r: AppState)
    ensures r.geometric != s.geometric ==> e.load.Parsed? && r.geometric == e.load.doc && r.applyRender
    ensures r.applyRender != s.applyRender ==> e.load.Parsed? && r.geometric == e.load.doc
    ensures r.loadingMessage.Some? && r.loadingMessage != s.loadingMessage ==>
      !e.load.Parsed? && r.loadingMessage == Some(FailureMessage(e.load))
  {
    var menu := Clicked(s.menu, e.input.mouse, e.fs);
    if menu.selectedFile.None? then s.(menu := menu)
    else match e.load
      case Parsed(doc) => AppState(doc, menu.(openedFileMenu := false, selectedFile := None), true, None)
      case _ => s.(menu := menu, loadingMessage := Some(FailureMessage(e.load)))
  }

  /** The render branch of a frame (`if apply_render`): move the geometry by
      the held keys, and leave render mode if Escape was pressed. */
  function RenderFrame(s: AppState, input: FrameInput): (r: AppState)
    ensures r.menu == s.menu && r.loadingMessage == s.loadingMessage
    ensures r.geometric == Moved(s.geometric, input.held)
    ensures r.applyRender == (s.applyRender && !input.escapePressed)
  {
    s.(geometric := Moved(s.geometric, input.held), applyRender := s.applyRender && !input.escapePressed)
  }

  /** One iteration of the loop: the menu branch when not rendering, then
      the render branch if rendering is (now) on. A document installed by the
      menu branch is therefore moved by this frame's keys in the same frame;
      render mode is entered only through a parsed document and survives a
      frame only without Escape; a render frame leaves the menu and the
      status text alone. */
  function Step(s: AppState, e: FrameEvents): (r: AppState)
    ensures !s.applyRender && MenuFrame(s, e).applyRender ==>
      e.load.Parsed? && r.geometric == Moved(e.load.doc, e.input.held)
    ensures !s.applyRender && !e.load.Parsed? ==> r.geometric == s.geometric && !r.applyRender
    ensures r.applyRender ==> !e.input.escapePressed
    ensures s.applyRender ==> r.menu == s.menu && r.loadingMessage == s.loadingMessage
  {
    var s1 := if !s.applyRender then MenuFrame(s, e) else s;
    if s1.applyRender then RenderFrame(s1, e.input) else s1
  }

  /** The state after one iteration per element of `es`. Starting in the
      menu, a run in which no document parses never enters render mode and
      never moves the geometry. */
  function Run(s: AppState, es: seq<FrameEvents>): (r: AppState)
    ensures !s.applyRender && (forall i :: 0 <= i < |es| ==> !es[i].load.Parsed?) ==>
      !r.applyRender && r.geometric == s.geometric
    decreases |es|
  {
    if es == [] then s
    else
      assert forall i :: 0 <= i < |es| - 1 ==> es[1..][i] == es[i + 1];
      Run(Step(s, es[0]), es[1..])
  }

  /** A menu frame with nothing selected after the click changes only the
      menu: geometry, mode and status text stay as they were. */
  lemma MenuFrameWithoutSelection(s: AppState, e: FrameEvents)
    requires !s.applyRender
    requires Clicked(s.menu, e.input.mouse, e.fs).selectedFile == None
    ensures Step(s, e) == s.(menu := Clicked(s.menu, e.input.mouse, e.fs))
  {
  }

  /** A successful load installs the parsed document, clears the status,
      the selection and the open flag, and runs the render branch in the
      same frame, so the document is moved once by this frame's keys. */
  lemma LoadSucceeds(s: AppState, e: FrameEvents)
    requires !s.applyRender
    requires Clicked(s.menu, e.input.mouse, e.fs).selectedFile.Some?
    requires e.load.Parsed?
    ensures Step(s, e).geometric == Moved(e.load.doc, e.input.held)
    ensures Step(s, e).applyRender == !e.input.escapePressed
    ensures Step(s, e).loadingMessage == None
    ensures Step(s, e).menu.selectedFile == None && !Step(s, e).menu.openedFileMenu
  {
  }

  /** A failed load, of any kind, leaves the geometry and the mode as they
      were, shows that failure's message, and keeps the selection. */
  lemma LoadFails(s: AppState, e: FrameEvents)
    requires !s.applyRender
    requires Clicked(s.menu, e.input.mouse, e.fs).selectedFile.Some?
    requires !e.load.Parsed?
    ensures Step(s, e).geometric == s.geometric
    ensures !Step(s, e).applyRender
    ensures Step(s, e).loadingMessage == Some(FailureMessage(e.load))
    ensures Step(s, e).menu == Clicked(s.menu, e.input.mouse, e.fs)
    ensures Step(s, e).menu.selectedFile.Some?
  {
  }

  /** Because a failure keeps the selection and the menu mode, the next
      frame is again a menu frame with a file selected after its click, so a
      load is attempted again without any further selection. Without a left
      press it is the same file as before (a press on another row may select
      a different one). If that attempt parses, the document is installed;
      if it fails, that failure's message is shown. */
  lemma FailedLoadIsRetried(s: AppState, e1: FrameEvents, e2: FrameEvents)
    requires !s.applyRender
    requires Clicked(s.menu, e1.input.mouse, e1.fs).selectedFile.Some?
    requires !e1.load.Parsed?
    ensures !Step(s, e1).applyRender
    ensures Clicked(Step(s, e1).menu, e2.input.mouse, e2.fs).selectedFile.Some?
    ensures !e2.input.mouse.leftPressed ==>
      Clicked(Step(s, e1).menu, e2.input.mouse, e2.fs).selectedFile
        == Clicked(s.menu, e1.input.mouse, e1.fs).selectedFile
    ensures e2.load.Parsed? ==>
      Step(Step(s, e1), e2).geometric == Moved(e2.load.doc, e2.input.held)
      && Step(Step(s, e1), e2).loadingMessage == None
    ensures !e2.load.Parsed? ==>
      Step(Step(s, e1), e2).geometric == s.geometric
      && Step(Step(s, e1), e2).loadingMessage == Some(FailureMessage(e2.load))
  {
    LoadFails(s, e1);
    var s1 := Step(s, e1);
    assert Clicked(s1.menu, e2.input.mouse, e2.fs).selectedFile.Some?;
    if e2.load.Parsed? {
      LoadSucceeds(s1, e2);
    } else {
      LoadFails(s1, e2);
    }
  }

  /** In render mode a frame moves the geometry by the held keys and
      touches neither the menu nor the status text; Escape returns to the
      menu and keeps the moved geometry. */
  lemma RenderModeFrame(s: AppState, e: FrameEvents)
    requires s.applyRender
    ensures Step(s, e).geometric == Moved(s.geometric, e.input.held)
    ensures Step(s, e).menu == s.menu && Step(s, e).loadingMessage == s.loadingMessage
    ensures Step(s, e).applyRender <==> !e.input.escapePressed
  {
  }

  /** Movement only happens in render mode: a menu frame that does not
      install a document leaves the geometry as it was. */
  lemma NoMovementInMenuMode(s: AppState, e: FrameEvents)
    requires !s.applyRender
    requires !(Clicked(s.menu, e.input.mouse, e.fs).selectedFile.Some? && e.load.Parsed?)
    ensures Step(s, e).geometric == s.geometric
    ensures !Step(s, e).applyRender
  {
  }

  /** A load outcome that cannot break draw's precondition. */
  predicate DrawableOutcome(load: LoadOutcome) {
    load.Parsed? ==> EdgesInRange(load.doc)
  }

  /** One frame keeps draw's precondition when the document it may load
      satisfies it. */
  lemma StepKeepsDrawable(s: AppState, e: FrameEvents)
    requires EdgesInRange(s.geometric) && DrawableOutcome(e.load)
    ensures EdgesInRange(Step(s, e).geometric)
  {
  }

  /** Draw's precondition is an invariant of the loop: started from a
      geometry whose edges index its vertices, every later geometry does
      too, as long as every parsed document does. Nothing in the loading
      path checks this for a parsed document. */
  lemma {:induction false} RunKeepsDrawable(s: AppState, es: seq<FrameEvents>)
    requires EdgesInRange(s.geometric)
    requires forall i :: 0 <= i < |es| ==> DrawableOutcome(es[i].load)
    ensures EdgesInRange(Run(s, es).geometric)
    decreases |es|
  {
    if es != [] {
      StepKeepsDrawable(s, es[0]);
      RunKeepsDrawable(Step(s, es[0]), es[1..]);
    }
  }

  /** Starting from the default cube, draw's precondition holds in every
      frame whose loads all produce well-formed documents. */
  lemma DrawableFromStart(es: seq<FrameEvents>)
    requires forall i :: 0 <= i < |es| ==> DrawableOutcome(es[i].load)
    ensures EdgesInRange(Run(InitialState(), es).geometric)
  {
    RunKeepsDrawable(InitialState(), es);
  }

  /** No validation on load: selecting a file whose document has an edge
      past the end of its vertex list installs that document, and the next
      draw would index out of range. */
  lemma UnvalidatedDocumentIsInstalled()
    ensures var bad := GeometryState([], [Edge(0, 0)], 0.0, 0.0, 1.0, 0.0, 0.0, 0.0);
      var menu := MenuState(true, ".", ["cube.json"], None, 0.0);
      var s := AppState(NewGeometry(), menu, false, None);
      var keys := HeldKeys(false, false, false, false, false, false, false, false);
      var e := FrameEvents(FrameInput(Mouse(300.0, 150.0, true, 0.0), keys, false),
                           FileSystem(map[], {}), Parsed(bad));
      !EdgesInRange(Step(s, e).geometric)
  {
    var bad := GeometryState([], [Edge(0, 0)], 0.0, 0.0, 1.0, 0.0, 0.0, 0.0);
    var menu := MenuState(true, ".", ["cube.json"], None, 0.0);
    var mouse := Mouse(300.0, 150.0, true, 0.0);
    var fs := FileSystem(map[], {});
    assert RowHit(mouse, 0.0, 0);
    assert ChosenAction(menu, mouse, fs) == Some(SelectFile("cube.json"));
    assert Clicked(menu, mouse, fs).selectedFile == Some("cube.json");
    var keys := HeldKeys(false, false, false, false, false, false, false, false);
    var e := FrameEvents(FrameInput(mouse, keys, false), fs, Parsed(bad));
    var r := Step(AppState(NewGeometry(), menu, false, None), e);
    assert r.geometric == Moved(bad, keys);
    assert !(r.geometric.edges[0].first < |r.geometric.vertex|);
  }

  /** The loop's variables, updated in place once per frame. */
  class Viewer {
    const geometric: Geometry
    const menu: Menu
    var applyRender: bool
    var loadingMessage: Option<string>

    function State(): AppState
      reads this, geometric, menu
    {
      AppState(geometric.State(), menu.State(), applyRender, loadingMessage)
    }

    /** The start of `main`: the geometry literal written out in main.rs is
        the default cube of Menu::new_geometry, field for field. */
    constructor ()
      ensures State() == InitialState()
      ensures State().geometric == NewGeometry()
    {
      geometric := new Geometry(GeometryState(
        [Vec3(0.0, 100.0, 0.0), Vec3(100.0, 100.0, 0.0), Vec3(100.0, 0.0, 0.0), Vec3(0.0, 0.0, 0.0),
         Vec3(0.0, 100.0, 100.0), Vec3(100.0, 100.0, 100.0), Vec3(100.0, 0.0, 100.0), Vec3(0.0, 0.0, 100.0)],
        [Edge(0, 1), Edge(1, 2), Edge(2, 3), Edge(3, 0),
         Edge(7, 6), Edge(6, 5), Edge(5, 4), Edge(4, 7),
         Edge(0, 4), Edge(1, 5), Edge(2, 6), Edge(3, 7)],
        0.0, 0.0,
        500.0, 500.0,
        0.0, 0.0));
      menu := new Menu();
      applyRender := false;
      loadingMessage := None;
    }

    /** One iteration of the `loop` in `main`. */
    method Frame(e: FrameEvents)
      modifies this, geometric, menu
      ensures State() == Step(old(State()), e)
    {
      if !applyRender {
        menu.HandleClick(e.input.mouse, e.fs);
        if menu.selectedFile.Some? {
          loadingMessage := Some(LoadingMessage);
          match e.load {
            case Parsed(doc) =>
              geometric.Replace(doc);
              loadingMessage := None;
              applyRender := true;
              menu.openedFileMenu := false;
              menu.selectedFile := None;
            case ParseFailed(detail) =>
              loadingMessage := Some(ParseErrorPrefix + detail);
            case ReadFailed =>
              loadingMessage := Some(ReadErrorMessage);
            case OpenFailed =>
              loadingMessage := Some(OpenErrorMessage);
          }
        }
      }
      if applyRender {
        geometric.Movement(e.input.held);
        if e.input.escapePressed {
          applyRender := false;
        }
      }
    }
  }
}
