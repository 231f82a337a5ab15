# RS-Render frame-step model

A Dafny model of the per-frame state machine of RSRender, a small wireframe
viewer written in Rust. It covers two source files.

`render.dfy` (module `Render`) models `sources/src/render.rs`:
- `Geometry` is a class with the mesh (vertex list, edge list) and the view
  fields (two rotation angles, scale, distance, pan). Its `Movement` method
  is one tick of keyboard input.
- `Geometry.Draw` models the lookups of the draw loop. Its precondition
  `EdgesInRange` says every edge index is inside the vertex list.
- `NewGeometry` is the default cube of `Menu::new_geometry`.
- `Menu` is a class for the file browser. It has `handle_click` (open the
  menu, hit-test the rows and the Back button, dispatch the action, scroll
  with the wheel and clamp) and `list_files`.

`mainloop.dfy` (module `MainLoop`) models one iteration of the `loop` in
`main` in `sources/src/main.rs`. The loop has two modes: the menu and the
render view. A selected file is loaded all-or-nothing. Escape returns to the
menu.

Each class keeps the source's fields. A `State()` function gives the value
of those fields. Each state-changing method is proved to produce
`Spec(old(State()), inputs)`, where the spec function is `Moved`, `Clicked`
or `Step`. The lemmas about those functions state the properties.

Inputs are passed in as plain values:
- keyboard and mouse queries: `HeldKeys`, `Mouse`, `FrameInput`;
- the file system: `FileSystem`, which gives the entries listed for each
  readable path and the set of directory paths;
- the outcome of opening, reading and parsing the selected file:
  `LoadOutcome`.

The source's `f32` values are modelled as `real`.

Behaviour of the code that the model keeps:
- The program has no vertex-editing mode.
- Nothing on the load path checks edge indices: a parsed document is
  installed as is. `UnvalidatedDocumentIsInstalled` exhibits this.
- A failed load keeps the selection, so the load is tried again on every
  later menu frame (`FailedLoadIsRetried`).
- A document with a missing field fails to parse. `Geometry` derives
  `Deserialize` without any defaults. This case is one of the
  `ParseFailed` inputs.

## Model

| member | source | states |
|---|---|---|
| `Render.NewGeometry` | sources/src/render.rs:180-201 | The default cube has 8 vertices and 12 edges, and every edge index is < 8, which is draw's precondition. The vertices are the 8 distinct corners of a side-100 cube, and each edge joins two corners that differ in one coordinate. Angles and pan are 0; scale and distance are 500. |
| `Render.StepAngle` | sources/src/render.rs:106-112 | One held-key tick leaves the angle at most 361. It either adds exactly one degree or lands on 0. It never makes a non-negative angle negative. It goes down exactly when the old angle is above 360. |
| `Render.AngleAfterFromZero` | sources/src/render.rs:106-112 | Starting from 0, the angle after n held ticks is n mod 362. |
| `Render.AngleFirstReturnsAt362` | sources/src/render.rs:106-112 | From 0, 361 ticks give 361 and the 362nd tick gives 0. No earlier tick returns to 0. |
| `Render.Moved` | sources/src/render.rs:104-144 | `movement` never changes the vertices, the edges or the distance, so edge-index well-formedness is preserved. O and L step only their own angle, by the wraparound rule. |
| `Render.KeySteps` | sources/src/render.rs:122-142 | Equal/Minus change the scale by +1/-1, Down/Up change `user_y` by +1/-1 and Right/Left change `user_x` by +1/-1. Holding both keys of a pair, or neither, leaves the value unchanged. |
| `Render.Nudge` | sources/src/render.rs:122-142 | A pair of opposite keys on one value: the first alone adds 1, the second alone subtracts 1, both or neither leave the value unchanged. |
| `Render.RotationAxesIndependent` | sources/src/render.rs:106-120 | The X angle after a tick depends only on the old X angle and the O key, not on the other keys or fields. |
| `Render.HeldRotationX` | sources/src/render.rs:104-112 | Holding O for n frames, with any other keys held too, moves the X angle exactly as n wraparound steps do. |
| `Render.ZoomOutHasNoFloor` | sources/src/render.rs:125-127 | Zoom-out has no floor: from scale 1, Minus reaches 0 and then -1. |
| `Render.Geometry.constructor` | sources/src/render.rs:12-24 | A Geometry built from a value holds exactly that value. |
| `Render.Geometry.Replace` | sources/src/main.rs:51 | Assigning a whole Geometry value sets every field to that value. |
| `Render.Geometry.Draw` | sources/src/render.rs:62-80 | Under `EdgesInRange`, every lookup `vertex[edge[k]]` is in range. The result has one vertex pair per edge, in edge order. |
| `Render.Geometry.Movement` | sources/src/render.rs:104-144 | Updating the fields key by key, in the source's order, gives exactly `Moved(old state, held keys)`. |
| `Render.AngleTick` | sources/src/render.rs:106-120 | The rotation branch for one key: unheld keeps the angle, held gives `StepAngle` of it. |
| `Render.KeyTick` | sources/src/render.rs:122-142 | One pan or zoom key: held adds its step to the field, unheld keeps it. |
| `Render.ReadDir` | sources/src/render.rs:203-214 | A readable path lists its entries. An unreadable path lists nothing. |
| `Render.InitialMenu` | sources/src/render.rs:170-178 | A new menu is closed, at ".", with no files, no selection and scroll 0. |
| `Render.Menu.constructor` | sources/src/render.rs:170-178 | `Menu::new` yields the initial menu state. |
| `Render.Menu.ListFiles` | sources/src/render.rs:203-214 | After clear-then-push, `files` is exactly the listing of the current path. |
| `Render.LastRowHit` | sources/src/render.rs:229-249 | The chosen row is one the left press hits, and no later row is hit. When no row is chosen, no row is hit. A row is hit when x is in [275,545] and y is in [160 - scroll + 25i - 25, 160 - scroll + 25i]. |
| `Render.BoundaryPressGoesToLaterRow` | sources/src/render.rs:232-249 | A press on the line between rows i and i+1 hits both rows, and the later row wins. |
| `Render.EntryAction` | sources/src/render.rs:240-245 | A row yields ChangeDirectory exactly when its entry is a directory. Otherwise it yields SelectFile of that entry. |
| `Render.ChosenAction` | sources/src/render.rs:229-262 | No action is chosen without a left press in the column. GoBack is chosen exactly when the path is not "." and Back is pressed, whatever row is also hit. There is no action exactly when neither Back nor any row is hit. Otherwise the action is that of the last row hit. |
| `Render.Dispatch` | sources/src/render.rs:264-279 | No action changes nothing. SelectFile sets only the selection. ChangeDirectory sets the path to the entry, and GoBack sets it to the literal "..". Both re-list that path, zero the scroll and keep the selection. No action touches the open flag. |
| `Render.ClampScroll` | sources/src/render.rs:281-284 | After clamping, the offset is at most `25·files - 340`. It is non-negative exactly when that bound is. With 13 files or fewer it equals the negative bound. An in-range offset is kept. |
| `Render.Clicked` | sources/src/render.rs:216-286 | A closed menu opens and re-lists exactly when the pointer is over [275,545]×[475,520], with no press needed. Otherwise it is unchanged. An open menu stays open and ends with scroll ≤ its bound. A selection is never cleared. It changes only by a SelectFile action chosen on an open menu. |
| `Render.Menu.FindAction` | sources/src/render.rs:229-262 | The row loop with its last-match-wins action, followed by the Back override, returns exactly `ChosenAction`. |
| `Render.Menu.HandleClick` | sources/src/render.rs:216-286 | The new menu state is `Clicked(old state, mouse, file system)`. |
| `MainLoop.FailureMessage` | sources/src/main.rs:57-66 | The open, read and parse failures get three different messages. Only a parse failure's message starts with "Error to deserialize JSON: ". |
| `MainLoop.InitialState` | sources/src/main.rs:12-32 | The loop starts in menu mode, with no status text, no selection, a closed menu, and a geometry that satisfies draw's precondition. |
| `MainLoop.MenuFrame` | sources/src/main.rs:37-67 | The geometry changes only by installing a parsed document, which also turns on rendering. The mode changes only that way. A new status text is always the message of a failure. |
| `MainLoop.RenderFrame` | sources/src/main.rs:80-88 | The render branch moves the geometry by the held keys. It leaves render mode on Escape. It does not touch the menu or the status text. |
| `MainLoop.Step` | sources/src/main.rs:34-91 | One loop iteration. A document installed by the menu branch is moved by the same frame's keys. Starting in the menu, a frame without a parsed document keeps the geometry and stays in the menu. A frame that ends in render mode had no Escape. A frame in render mode leaves the menu and the status text alone. |
| `MainLoop.Run` | sources/src/main.rs:34-91 | The loop over frames. Starting in the menu, a run in which no document parses never enters render mode and never moves the geometry. |
| `MainLoop.MenuFrameWithoutSelection` | sources/src/main.rs:37-41 | A menu frame with no selection after the click changes only the menu. |
| `MainLoop.LoadSucceeds` | sources/src/main.rs:46-88 | A parsed document replaces the geometry wholesale and is moved by this frame's keys in the same frame. The mode becomes the opposite of Escape. The status, the selection and the open flag are cleared. |
| `MainLoop.LoadFails` | sources/src/main.rs:57-66 | An open, read or parse failure leaves the geometry and menu mode unchanged. It sets that failure's message and keeps the selection. |
| `MainLoop.FailedLoadIsRetried` | sources/src/main.rs:41-66 | After a failed load the viewer stays in menu mode, and the next frame again has a file selected after its click, so a load is attempted again without a new selection. Without a left press it is the same file as before. If that attempt parses, the document is installed and the status cleared; if it fails, the geometry is kept and that failure's message is shown. |
| `MainLoop.RenderModeFrame` | sources/src/main.rs:80-88 | In render mode the geometry is moved, and Escape switches to the menu while keeping the moved geometry. The menu and status text are untouched. |
| `MainLoop.NoMovementInMenuMode` | sources/src/main.rs:37-88 | `movement` runs only in render mode. A menu frame that installs no document leaves the geometry unchanged and stays in menu mode. |
| `MainLoop.StepKeepsDrawable` | sources/src/main.rs:34-91 | One frame keeps draw's edge-index precondition when any parsed document satisfies it. |
| `MainLoop.RunKeepsDrawable` | sources/src/main.rs:34-91 | Over any run of frames, draw's precondition is invariant as long as every parsed document satisfies it. |
| `MainLoop.DrawableFromStart` | sources/src/main.rs:12-91 | Starting from the default cube, every frame satisfies draw's precondition when all parsed documents do. |
| `MainLoop.UnvalidatedDocumentIsInstalled` | sources/src/main.rs:49-53 | A parsed document whose edge indexes past its vertex list is installed as is. Nothing on the load path checks edge indices. |
| `MainLoop.Viewer.constructor` | sources/src/main.rs:12-32 | The geometry literal written out in `main` equals `Menu::new_geometry` field for field. The menu is new, the mode is menu, and there is no status. |
| `MainLoop.Viewer.Frame` | sources/src/main.rs:34-91 | One loop iteration, done in place, produces `Step(old state, frame inputs)`. |

## Left out

- `rotate`, `project` and `degrees_to_radians` (sources/src/render.rs:26-56) are not modelled. They are `f32` trigonometry and a division by `z + distance` that can be zero, and nothing about them can be stated without a floating-point model.
- `Geometry.Draw` returns the looked-up vertex pairs and nothing more. The rotation, projection and pan offset are not modelled, because they are `f32` arithmetic; the `draw_line` canvas call is output only.
- `MainLoop.Viewer.Frame` does not call `Geometry.Draw`. Draw reads state and does not change it. Its precondition is covered instead by `RunKeepsDrawable` and `UnvalidatedDocumentIsInstalled`. The panic on an out-of-range index that the source would hit is not modelled.
- `Geometry::draw_use`, `Menu::draw`, `clear_background`, `println!`, the drawing of `loading_message`, and `next_frame().await` are not modelled. They are output and scheduling only.
- The file system and serde are inputs, not code:
  - `fs::read_dir` is the `FileSystem` listing. Per-entry errors are assumed to be already left out of that listing.
  - `Path::is_dir` is membership in `FileSystem.dirs`. The real call resolves the path against the process's working directory, which is not modelled.
  - `File::open`, `read_to_string` and `serde_json::from_str` are the `LoadOutcome` of the frame.
  - The text of a serde error is an arbitrary string.
- The "Loading file..." message is assigned but always overwritten in the same frame, so it is never observable at the end of a frame.
- `f32` rounding, NaN and infinities are not modelled; every value is a `real`. So `Render.KeySteps` states that opposite keys cancel exactly. It also states that every ±1 step is exact, which in `f32` holds only for magnitudes below 2^24. `f32::max` and `f32::min` are modelled for ordinary numbers only.
