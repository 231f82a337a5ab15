/** Model of sources/src/render.rs: the view state of the wireframe viewer
    (struct Geometry), its per-frame movement step, the edge-index
    precondition of its draw loop, the default cube, and the file-browser
    menu (struct Menu) with its click handler.

    The source's `f32` fields are modelled as `real`: every update here is an
    exact step of 1, 10 times the wheel delta, or a comparison. Keyboard,
    mouse and file-system queries are passed in as plain values. */
module Render {

  datatype Option<T> = None | Some(value: T)

  // ---------------------------------------------------------------------
  // Geometry: the mesh and its view parameters
  // ---------------------------------------------------------------------

  /** One vertex, `[f32; 3]` in the source. */
  datatype Vec3 = Vec3(x: real, y: real, z: real)

  /** One edge, `[usize; 2]`: two indices into the vertex list. */
  datatype Edge = Edge(first: nat, second: nat)

  /** The value of a Geometry: what the JSON reader produces and what the
      main loop installs wholesale when a document is loaded. */
  datatype GeometryState = GeometryState(
    vertex: seq<Vec3>,
    edges: seq<Edge>,
    userAngleX: real,
    userAngleY: real,
    userScale: real,
    userDistance: real,
    userX: real,
    userY: real)

  /** The precondition of Geometry::draw, which reads `vertex[edge[0]]` and
      `vertex[edge[1]]` for every edge and panics on an index out of range. */
  predicate EdgesInRange(g: GeometryState) {
    forall i :: 0 <= i < |g.edges| ==>
      g.edges[i].first < |g.vertex| && g.edges[i].second < |g.vertex|
  }

  /** A corner of the axis-aligned cube of side 100 at the origin. */
  predicate IsCubeCorner(v: Vec3) {
    (v.x == 0.0 || v.x == 100.0) && (v.y == 0.0 || v.y == 100.0) && (v.z == 0.0 || v.z == 100.0)
  }

  /** Two points that differ in exactly one coordinate: the ends of a cube edge. */
  predicate DiffersInOneAxis(u: Vec3, v: Vec3) {
    (if u.x != v.x then 1 else 0) + (if u.y != v.y then 1 else 0) + (if u.z != v.z then 1 else 0) == 1
  }

  /** Menu::new_geometry: the default cube the viewer starts with. Every edge
      index is inside the vertex list, so the cube satisfies draw's
      precondition; the eight vertices are the eight distinct corners of a
      cube and each of the twelve edges joins two corners along one axis. */
  function NewGeometry(): (g: GeometryState)
    ensures |g.vertex| == 8 && |g.edges| == 12
    ensures EdgesInRange(g)
    ensures forall i :: 0 <= i < |g.vertex| ==> IsCubeCorner(g.vertex[i])
    ensures forall i, j :: 0 <= i < j < |g.vertex| ==> g.vertex[i] != g.vertex[j]
    ensures forall i :: 0 <= i < |g.edges| && g.edges[i].first < |g.vertex| && g.edges[i].second < |g.vertex| ==>
      DiffersInOneAxis(g.vertex[g.edges[i].first], g.vertex[g.edges[i].second])
    ensures g.userAngleX == 0.0 && g.userAngleY == 0.0
    ensures g.userScale == 500.0 && g.userDistance == 500.0
    ensures g.userX == 0.0 && g.userY == 0.0
  {
    GeometryState(
      [Vec3(0.0, 100.0, 0.0), Vec3(100.0, 100.0, 0.0), Vec3(100.0, 0.0, 0.0), Vec3(0.0, 0.0, 0.0),
       Vec3(0.0, 100.0, 100.0), Vec3(100.0, 100.0, 100.0), Vec3(100.0, 0.0, 100.0), Vec3(0.0, 0.0, 100.0)],
      [Edge(0, 1), Edge(1, 2), Edge(2, 3), Edge(3, 0),
       Edge(7, 6), Edge(6, 5), Edge(5, 4), Edge(4, 7),
       Edge(0, 4), Edge(1, 5), Edge(2, 6), Edge(3, 7)],
      0.0, 0.0,
      500.0, 500.0,
      0.0, 0.0)
  }

  /** The keys held down during one frame (`is_key_down`). */
  datatype HeldKeys = HeldKeys(
    o: bool, l: bool,
    equal: bool, minus: bool,
    up: bool, down: bool, left: bool, right: bool)

  /** One tick of a held rotation key: add a degree while the angle is at
      most 360, otherwise reset to 0. The angle never leaves the range up to
      361 after a tick, and a tick either adds exactly one degree or lands on 0. */
  function StepAngle(a: real): (r: real)
    ensures r <= 361.0
    ensures r == a + 1.0 || r == 0.0
    ensures 0.0 <= a ==> 0.0 <= r
    ensures r < a <==> 360.0 < a
  {
    if a <= 360.0 then a + 1.0 else 0.0
  }

  /** The angle after `n` consecutive ticks with the rotation key held. */
  function AngleAfter(a: real, n: nat): real
  {
    if n == 0 then a else StepAngle(AngleAfter(a, n - 1))
  }

  /** Counting modulo 362 goes up by one and wraps from 361 to 0. */
  lemma ModSuccessor(m: nat)
    ensures (m + 1) % 362 == if m % 362 == 361 then 0 else m % 362 + 1
  {
    var q, r := m / 362, m % 362;
    assert m == 362 * q + r && 0 <= r < 362;
    if r == 361 {
      assert m + 1 == 362 * (q + 1);
    } else {
      assert m + 1 == 362 * q + (r + 1) && r + 1 < 362;
    }
  }

  /** Starting from 0, the angle after `n` held ticks is `n mod 362`: it
      climbs to 361 (one past 360) and wraps to 0 only on the 362nd tick. */
  lemma {:induction false} AngleAfterFromZero(n: nat)
    ensures AngleAfter(0.0, n) == (n % 362) as real
  {
    if n > 0 {
      AngleAfterFromZero(n - 1);
      var r := (n - 1) % 362;
      ModSuccessor(n - 1);
      assert AngleAfter(0.0, n) == StepAngle(r as real);
    }
  }

  /** The wraparound period: 361 held ticks from 0 give 361, the 362nd gives
      0, and no earlier tick returns to 0. */
  lemma AngleFirstReturnsAt362()
    ensures AngleAfter(0.0, 361) == 361.0
    ensures AngleAfter(0.0, 362) == 0.0
    ensures forall n: nat :: 0 < n < 362 ==> AngleAfter(0.0, n) != 0.0
  {
    AngleAfterFromZero(361);
    AngleAfterFromZero(362);
    assert 361 % 362 == 361 && 362 % 362 == 0;
    forall n: nat | 0 < n < 362 ensures AngleAfter(0.0, n) != 0.0 {
      AngleAfterFromZero(n);
      assert n % 362 == n;
    }
  }

  /** A value stepped by one for each of two opposite held keys. */
  function Nudge(v: real, plus: bool, minus: bool): (r: real)
    ensures plus == minus ==> r == v
    ensures plus && !minus ==> r == v + 1.0
    ensures minus && !plus ==> r == v - 1.0
  {
    (if plus then v + 1.0 else v) - (if minus then 1.0 else 0.0)
  }

  /** Geometry::movement as a function of the view state and the held keys:
      O and L step the two angles, Equal/Minus change the scale by +1/-1 with
      no floor, Up/Down move the pan by -1/+1 in y and Left/Right by -1/+1
      in x. The mesh and the distance are never touched, so draw's
      precondition survives every tick. */
  function Moved(g: GeometryState, keys: HeldKeys): (r: GeometryState)
    ensures r.vertex == g.vertex && r.edges == g.edges && r.userDistance == g.userDistance
    ensures EdgesInRange(g) ==> EdgesInRange(r)
    ensures r.userAngleX == if keys.o then StepAngle(g.userAngleX) else g.userAngleX
    ensures r.userAngleY == if keys.l then StepAngle(g.userAngleY) else g.userAngleY
  {
    g.(userAngleX := if keys.o then StepAngle(g.userAngleX) else g.userAngleX,
       userAngleY := if keys.l then StepAngle(g.userAngleY) else g.userAngleY,
       userScale := Nudge(g.userScale, keys.equal, keys.minus),
       userX := Nudge(g.userX, keys.right, keys.left),
       userY := Nudge(g.userY, keys.down, keys.up))
  }

  /** Each pair of opposite keys moves its value by +1, by -1, or not at
      all when both or neither are held: Equal/Minus on the scale,
      Right/Left on the x pan and Down/Up on the y pan. */
  lemma KeySteps(g: GeometryState, keys: HeldKeys)
    ensures var r := Moved(g, keys);
      && (keys.equal == keys.minus ==> r.userScale == g.userScale)
      && (keys.equal && !keys.minus ==> r.userScale == g.userScale + 1.0)
      && (keys.minus && !keys.equal ==> r.userScale == g.userScale - 1.0)
    ensures var r := Moved(g, keys);
      && (keys.right == keys.left ==> r.userX == g.userX)
      && (keys.right && !keys.left ==> r.userX == g.userX + 1.0)
      && (keys.left && !keys.right ==> r.userX == g.userX - 1.0)
    ensures var r := Moved(g, keys);
      && (keys.down == keys.up ==> r.userY == g.userY)
      && (keys.down && !keys.up ==> r.userY == g.userY + 1.0)
      && (keys.up && !keys.down ==> r.userY == g.userY - 1.0)
  {
  }

  /** The two rotation axes update independently: the X angle after a tick
      depends only on the old X angle and the O key, whatever else is held
      and whatever the other fields are. */
  lemma RotationAxesIndependent(g1: GeometryState, g2: GeometryState, k1: HeldKeys, k2: HeldKeys)
    requires g1.userAngleX == g2.userAngleX && k1.o == k2.o
    ensures Moved(g1, k1).userAngleX == Moved(g2, k2).userAngleX
  {
  }

  /** Holding O for `n` ticks, with any other keys held alongside, moves the
      X angle exactly as `n` bare angle steps do. */
  lemma {:induction false} HeldRotationX(g: GeometryState, keys: seq<HeldKeys>)
    requires forall i :: 0 <= i < |keys| ==> keys[i].o
    ensures MovedAll(g, keys).userAngleX == AngleAfter(g.userAngleX, |keys|)
  {
    if keys != [] {
      var init := keys[..|keys| - 1];
      HeldRotationX(g, init);
      assert MovedAll(g, keys) == Moved(MovedAll(g, init), keys[|keys| - 1]);
    }
  }

  /** The view state after one movement tick per element of `keys`. */
  function MovedAll(g: GeometryState, keys: seq<HeldKeys>): GeometryState
  {
    if keys == [] then g else Moved(MovedAll(g, keys[..|keys| - 1]), keys[|keys| - 1])
  }

  /** Zooming out has no floor: from a scale of 1, one tick of Minus alone
      reaches 0 and a second goes negative. */
  lemma ZoomOutHasNoFloor(g: GeometryState)
    requires g.userScale == 1.0
    ensures var k := HeldKeys(false, false, false, true, false, false, false, false);
      Moved(g, k).userScale == 0.0 && Moved(Moved(g, k), k).userScale == -1.0
  {
  }

  /** struct Geometry, whose `movement` updates its fields in place. */
  class Geometry {
    var vertex: seq<Vec3>
    var edges: seq<Edge>
    var userAngleX: real
    var userAngleY: real
    var userScale: real
    var userDistance: real
    var userX: real
    var userY: real

    /** The value the fields hold. */
    function State(): GeometryState
      reads this
    {
      GeometryState(vertex, edges, userAngleX, userAngleY, userScale, userDistance, userX, userY)
    }

    constructor (s: GeometryState)
      ensures State() == s
    {
      vertex, edges := s.vertex, s.edges;
      userAngleX, userAngleY := s.userAngleX, s.userAngleY;
      userScale, userDistance := s.userScale, s.userDistance;
      userX, userY := s.userX, s.userY;
    }

    /** Assignment of a whole Geometry value (`geometric = new_geometry`). */
    method Replace(s: GeometryState)
      modifies this
      ensures State() == s
    {
      vertex, edges := s.vertex, s.edges;
      userAngleX, userAngleY := s.userAngleX, s.userAngleY;
      userScale, userDistance := s.userScale, s.userDistance;
      userX, userY := s.userX, s.userY;
    }

    /** The lookups of Geometry::draw: for each edge, in order, the two
        vertices it joins, which draw then rotates, projects, pans and
        strokes. Under EdgesInRange every lookup is in range. */
    method Draw() returns (segments: seq<(Vec3, Vec3)>)
      requires EdgesInRange(State())
      ensures |segments| == |edges|
      ensures forall i :: 0 <= i < |edges| ==>
        segments[i] == (vertex[edges[i].first], vertex[edges[i].second])
    {
      segments := [];
      var i := 0;
      while i < |edges|
        invariant 0 <= i <= |edges|
        invariant |segments| == i
        invariant forall k :: 0 <= k < i ==>
          segments[k] == (vertex[edges[k].first], vertex[edges[k].second])
      {
        var edge := edges[i];
        segments := segments + [(vertex[edge.first], vertex[edge.second])];
        i := i + 1;
      }
    }

    /** Geometry::movement: one frame of keyboard input. Each field is
        updated in place, key by key, in the source's order; the `if` of
        each key is in AngleTick or KeyTick. */
    method Movement(keys: HeldKeys)
      modifies this
      ensures State() == Moved(old(State()), keys)
    {
      userAngleX := AngleTick(userAngleX, keys.o);
      userAngleY := AngleTick(userAngleY, keys.l);
      userScale := KeyTick(userScale, keys.equal, 1.0);
      userScale := KeyTick(userScale, keys.minus, -1.0);
      userY := KeyTick(userY, keys.up, -1.0);
      userY := KeyTick(userY, keys.down, 1.0);
      userX := KeyTick(userX, keys.left, -1.0);
      userX := KeyTick(userX, keys.right, 1.0);
    }
  }

  /** The rotation branch of Geometry::movement for one angle and its key:
      a held key adds one degree up to 360 and past it resets to 0. */
  method AngleTick(angle: real, held: bool) returns (r: real)
    ensures r == if held then StepAngle(angle) else angle
  {
    r := angle;
    if held {
      if r <= 360.0 {
        r := r + 1.0;
      } else {
        r := 0.0;
      }
    }
  }

  /** One key of Geometry::movement on one field: a held key adds `delta`. */
  method KeyTick(v: real, held: bool, delta: real) returns (r: real)
    ensures r == if held then v + delta else v
  {
    r := v;
    if held {
      r := r + delta;
    }
  }

  // ---------------------------------------------------------------------
  // Menu: the file browser
  // ---------------------------------------------------------------------

  /** The mouse during one frame: position, whether the left button went
      down this frame (`is_mouse_button_pressed`), and the wheel's y delta. */
  datatype Mouse = Mouse(x: real, y: real, leftPressed: bool, wheelY: real)

  /** What the file system answers: the entries `read_dir` lists for each
      path it can open, and the paths for which `is_dir` holds. */
  datatype FileSystem = FileSystem(listing: map<string, seq<string>>, dirs: set<string>)

  /** The entries listed for `path`; none when the directory cannot be read. */
  function ReadDir(fs: FileSystem, path: string): (r: seq<string>)
    ensures path in fs.listing ==> r == fs.listing[path]
    ensures path !in fs.listing ==> r == []
  {
    if path in fs.listing then fs.listing[path] else []
  }

  datatype Action = ChangeDirectory(path: string) | SelectFile(file: string) | GoBack

  datatype MenuState = MenuState(
    openedFileMenu: bool,
    currentPath: string,
    files: seq<string>,
    selectedFile: Option<string>,
    scrollOffset: real)

  /** Menu::new: closed, at ".", nothing listed or selected, not scrolled. */
  function InitialMenu(): (m: MenuState)
    ensures !m.openedFileMenu && m.currentPath == "." && m.files == []
    ensures m.selectedFile == None && m.scrollOffset == 0.0
  {
    MenuState(false, ".", [], None, 0.0)
  }

  /** The horizontal extent [275, 275 + 270] shared by every button and row. */
  predicate InColumn(mouse: Mouse) {
    275.0 <= mouse.x <= 275.0 + 270.0
  }

  /** The "Click to Import json" button, [275,545] x [475,520]. */
  predicate OnImportButton(mouse: Mouse) {
    InColumn(mouse) && 475.0 <= mouse.y <= 475.0 + 45.0
  }

  /** The "Back" button, [275,545] x [500,545]. */
  predicate OnBackButton(mouse: Mouse) {
    InColumn(mouse) && 500.0 <= mouse.y <= 500.0 + 45.0
  }

  /** The baseline of row `i` when the list is scrolled by `scroll`. */
  function RowBottom(scroll: real, i: nat): real {
    160.0 - scroll + 25.0 * (i as real)
  }

  /** A left press inside row `i`, the band [bottom - 25, bottom]. */
  predicate RowHit(mouse: Mouse, scroll: real, i: nat) {
    mouse.leftPressed && InColumn(mouse)
    && RowBottom(scroll, i) - 25.0 <= mouse.y <= RowBottom(scroll, i)
  }

  /** The last of the first `n` rows that the press hits, if any. */
  function LastRowHit(mouse: Mouse, scroll: real, n: nat): (r: Option<nat>)
    ensures r.Some? ==> r.value < n && RowHit(mouse, scroll, r.value)
    ensures r.Some? ==> forall j :: r.value < j < n ==> !RowHit(mouse, scroll, j)
    ensures r.None? ==> forall j :: 0 <= j < n ==> !RowHit(mouse, scroll, j)
  {
    if n == 0 then None
    else if RowHit(mouse, scroll, n - 1) then Some(n - 1)
    else LastRowHit(mouse, scroll, n - 1)
  }

  /** Rows share their boundaries: a press exactly on the line between rows
      `i` and `i + 1` hits both, and the later row wins. */
  lemma BoundaryPressGoesToLaterRow(mouse: Mouse, scroll: real, i: nat)
    requires mouse.leftPressed && InColumn(mouse) && mouse.y == RowBottom(scroll, i)
    ensures RowHit(mouse, scroll, i) && RowHit(mouse, scroll, i + 1)
    ensures LastRowHit(mouse, scroll, i + 2) == Some(i + 1)
  {
  }

  /** The action a listed entry yields: a directory is entered, anything
      else is selected. */
  function EntryAction(fs: FileSystem, entry: string): (a: Action)
    ensures a == ChangeDirectory(entry) || a == SelectFile(entry)
    ensures a.ChangeDirectory? <==> entry in fs.dirs
  {
    if entry in fs.dirs then ChangeDirectory(entry) else SelectFile(entry)
  }

  /** The action of an open menu's click: GoBack when away from "." and the
      Back button is pressed, whatever row is also hit; otherwise the action
      of the last row hit; otherwise none. */
  function ChosenAction(s: MenuState, mouse: Mouse, fs: FileSystem): (r: Option<Action>)
    ensures r.Some? ==> mouse.leftPressed && InColumn(mouse)
    ensures r == Some(GoBack) <==> s.currentPath != "." && mouse.leftPressed && OnBackButton(mouse)
    ensures r.None? <==>
      !(s.currentPath != "." && mouse.leftPressed && OnBackButton(mouse))
      && forall j :: 0 <= j < |s.files| ==> !RowHit(mouse, s.scrollOffset, j)
    ensures r.Some? && r.value != GoBack ==>
      var i := LastRowHit(mouse, s.scrollOffset, |s.files|);
      i.Some? && i.value < |s.files| && r.value == EntryAction(fs, s.files[i.value])
  {
    if s.currentPath != "." && mouse.leftPressed && OnBackButton(mouse) then Some(GoBack)
    else match LastRowHit(mouse, s.scrollOffset, |s.files|)
      case None => None
      case Some(i) => Some(EntryAction(fs, s.files[i]))
  }

  /** The effect of an action on the menu, before the wheel is applied. */
  function Dispatch(s: MenuState, action: Option<Action>, fs: FileSystem): (r: MenuState)
    ensures r.openedFileMenu == s.openedFileMenu
    ensures action == None ==> r == s
    ensures (action.Some? && action.value.SelectFile?) ==>
      r == s.(selectedFile := Some(action.value.file))
    ensures (action.Some? && !action.value.SelectFile?) ==>
      r.selectedFile == s.selectedFile && r.scrollOffset == 0.0
      && r.files == ReadDir(fs, r.currentPath)
      && r.currentPath == (if action.value.GoBack? then ".." else action.value.path)
  {
    match action
    case None => s
    case Some(ChangeDirectory(path)) =>
      s.(currentPath := path, files := ReadDir(fs, path), scrollOffset := 0.0)
    case Some(SelectFile(file)) =>
      s.(selectedFile := Some(file))
    case Some(GoBack) =>
      s.(currentPath := "..", files := ReadDir(fs, ".."), scrollOffset := 0.0)
  }

  /** The upper scroll bound for `count` listed entries: 25 per row less the
      340 of the list box; negative for 13 entries or fewer. */
  function MaxScroll(count: nat): real {
    (count as real) * 25.0 - 340.0
  }

  /** `offset.max(0.0).min(max_scroll)`: the offset never exceeds the bound,
      it is non-negative exactly when the bound is, and a short list pins it
      to the (negative) bound. */
  function ClampScroll(offset: real, count: nat): (r: real)
    ensures r <= MaxScroll(count)
    ensures 0.0 <= r <==> 0.0 <= MaxScroll(count)
    ensures count <= 13 ==> r == MaxScroll(count)
    ensures 0.0 <= offset <= MaxScroll(count) ==> r == offset
    ensures r == 0.0 || r == offset || r == MaxScroll(count)
  {
    var lifted := if offset >= 0.0 then offset else 0.0;
    if lifted <= MaxScroll(count) then lifted else MaxScroll(count)
  }

  /** Menu::handle_click as a function of the menu, the mouse and the file
      system. A closed menu opens, and lists the current path, exactly when
      the pointer is over the import button (no button press is required),
      and otherwise stays as it was. An open menu stays open, dispatches the
      chosen action, then scrolls by the wheel and clamps. No click ever
      clears a selection. */
  function Clicked(s: MenuState, mouse: Mouse, fs: FileSystem): (r: MenuState)
    ensures r.openedFileMenu == (s.openedFileMenu || OnImportButton(mouse))
    ensures !s.openedFileMenu && OnImportButton(mouse) ==>
      r == s.(openedFileMenu := true, files := ReadDir(fs, s.currentPath))
    ensures !s.openedFileMenu && !OnImportButton(mouse) ==> r == s
    ensures s.openedFileMenu ==> r.scrollOffset <= MaxScroll(|r.files|)
    ensures s.selectedFile.Some? ==> r.selectedFile.Some?
    ensures r.selectedFile != s.selectedFile ==>
      s.openedFileMenu && ChosenAction(s, mouse, fs) == Some(SelectFile(r.selectedFile.value))
  {
    if !s.openedFileMenu then
      if OnImportButton(mouse) then s.(openedFileMenu := true, files := ReadDir(fs, s.currentPath))
      else s
    else
      var d := Dispatch(s, ChosenAction(s, mouse, fs), fs);
      d.(scrollOffset := ClampScroll(d.scrollOffset - mouse.wheelY * 10.0, |d.files|))
  }

  /** struct Menu, whose methods update its fields in place. */
  class Menu {
    var openedFileMenu: bool
    var currentPath: string
    var files: seq<string>
    var selectedFile: Option<string>
    var scrollOffset: real

    function State(): MenuState
      reads this
    {
      MenuState(openedFileMenu, currentPath, files, selectedFile, scrollOffset)
    }

    /** Menu::new. */
    constructor ()
      ensures State() == InitialMenu()
    {
      openedFileMenu := false;
      currentPath := ".";
      files := [];
      selectedFile := None;
      scrollOffset := 0.0;
    }

    /** Menu::list_files: clear the list, then push every entry of the
        current path. */
    method ListFiles(fs: FileSystem)
      modifies this`files
      ensures files == ReadDir(fs, currentPath)
    {
      files := [];
      var entries := ReadDir(fs, currentPath);
      var i := 0;
      while i < |entries|
        invariant 0 <= i <= |entries|
        invariant files == entries[..i]
      {
        files := files + [entries[i]];
        i := i + 1;
      }
    }

    /** The hit-testing half of handle_click on an open menu: walk the rows
        keeping the action of the last one hit, then let the Back button
        override it. */
    method FindAction(mouse: Mouse, fs: FileSystem) returns (action: Option<Action>)
      ensures action == ChosenAction(State(), mouse, fs)
    {
      var yOffset := 160.0 - scrollOffset;
      action := None;
      var i := 0;
      while i < |files|
        invariant 0 <= i <= |files|
        invariant yOffset == RowBottom(scrollOffset, i)
        invariant action == match LastRowHit(mouse, scrollOffset, i)
                            case None => None
                            case Some(k) => Some(EntryAction(fs, files[k]))
      {
        if mouse.leftPressed {
          if InColumn(mouse) && yOffset - 25.0 <= mouse.y <= yOffset {
            if files[i] in fs.dirs {
              action := Some(ChangeDirectory(files[i]));
            } else {
              action := Some(SelectFile(files[i]));
            }
          }
        }
        yOffset := yOffset + 25.0;
        i := i + 1;
      }
      if currentPath != "." {
        if mouse.leftPressed {
          if OnBackButton(mouse) {
            action := Some(GoBack);
          }
        }
      }
    }

    /** Menu::handle_click: one frame of mouse input applied in place. */
    method HandleClick(mouse: Mouse, fs: FileSystem)
      modifies this
      ensures State() == Clicked(old(State()), mouse, fs)
    {
      if !openedFileMenu {
        if OnImportButton(mouse) {
          openedFileMenu := !openedFileMenu;
          ListFiles(fs);
        }
      } else {
        var action := FindAction(mouse, fs);
        match action {
          case Some(ChangeDirectory(path)) =>
            currentPath := path;
            ListFiles(fs);
            scrollOffset := 0.0;
          case Some(SelectFile(file)) =>
            selectedFile := Some(file);
          case Some(GoBack) =>
            currentPath := "..";
            ListFiles(fs);
            scrollOffset := 0.0;
          case None =>
        }
        scrollOffset := scrollOffset - mouse.wheelY * 10.0;
        scrollOffset := ClampScroll(scrollOffset, |files|);
      }
    }
  }
}
