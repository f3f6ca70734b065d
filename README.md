# Cube controls of the portfolio home page

This project models the interaction core of the portfolio's home page component
(`src/app/home/home.component.ts`). The page shows a cube that turns by itself whenever
it is not being dragged, that the mouse wheel zooms, and whose six faces carry a 3 by 3
grid. The model covers three parts:

- **The pointer and zoom state machine.** `Home.HomeComponent` has the six fields the
  handlers change in place: `isDragging`, the previous pointer position (`prevX`,
  `prevY`), the cube's rotation (`rotX`, `rotY`) and the camera's distance (`camZ`).
  It has one method per handler and `Tick`, the rotation step of each animation frame.
  Each method states its whole new state field by field. It also ties that state to
  a pure step function of module `Controls`. The lemmas about whole event sequences
  are proved on those step functions (`Run` over a list of `Event`s).
- **The screen to NDC mapping of the click handler** (`Picking.ToNdc`). NDC means
  normalized device coordinates. The handler divides the event's client coordinates
  by the canvas rectangle's width and height and does not subtract its left or top,
  so the mapping is relative to the window. `Picking.ElementNdc` is the
  canvas-relative mapping, used only as a reference. The two agree exactly when the
  canvas sits at the window's corner.
- **The grid layout of a face texture** (`GridTexture.CreateGridMaterial`). The nested
  row/column loop yields the nine cells in row-major order. Each cell has its grid
  position, its origin `(col*step, row*step)` with `step = 256/3`, and, on the
  `"white"` face only, the number `row*3 + col + 1`.

Arithmetic is exact: JavaScript numbers are modelled as Dafny `real`. The constants
`0.005`, `3`, `10`, `6` and `256/3` are exact as well.

A few facts about the code shape the model:
- The code labels the white face's cells with the numbers 1 to 9.
- A click is handled the same way whether or not a drag came before it.
- No texture pixel is read back.
- The NDC mapping is relative to the window and is defined for every position.
  A position outside `[0, width] × [0, height]` of the window maps outside
  `[-1, 1]`, in both directions (`ToNdc`). That region is the canvas only when the
  canvas sits at the window's corner (`ViewportRelative`).

## Model

| member | source | states |
|---|---|---|
| `Home.HomeComponent.constructor` | src/app/home/home.component.ts:16-17 | not dragging, previous position (0, 0), rotation (0, 0), and the camera distance 6 that the camera set-up gives it; the distance invariant holds |
| `Home.HomeComponent.HandleMouseDown` | src/app/home/home.component.ts:177-183 | dragging starts and the previous position becomes the event's position; rotations and camera distance are unchanged |
| `Home.HomeComponent.HandleMouseMove` | src/app/home/home.component.ts:185-200 | when not dragging no field changes; when dragging rotY grows by dx*0.005 and rotX by dy*0.005, measured from the previous position, which becomes the event's position; dragging flag and camera distance unchanged |
| `Home.HomeComponent.HandleMouseUp` | src/app/home/home.component.ts:202-204 | dragging ends; position, rotations and camera distance are unchanged |
| `Home.HomeComponent.HandleWheel` | src/app/home/home.component.ts:206-209 | from any prior distance the new distance is clamp(z + deltaY*0.005) to [3, 10]; nothing else changes |
| `Home.HomeComponent.Tick` | src/app/home/home.component.ts:247-250 | when not dragging both rotations grow by 0.005; when dragging nothing changes |
| `Controls.ClampCamZ` | src/app/home/home.component.ts:208 | the result lies in [3, 10]; it equals its argument inside the range, 3 below it and 10 above it |
| `Controls.ControlState.MouseDown` | src/app/home/home.component.ts:177-183 | the press handler as a step on the state value: dragging starts from the pressed position and nothing else changes, stated by Home.HomeComponent.HandleMouseDown; DragGesture and ClickKeepsOrientation build on it |
| `Controls.ControlState.MouseMove` | src/app/home/home.component.ts:185-200 | the move handler as a step on the state value: the identity when not dragging, otherwise the delta rotation and the new position, stated by Home.HomeComponent.HandleMouseMove; MovesIgnoredWhenNotDragging and MovesAccumulate prove what a sequence of moves does |
| `Controls.ControlState.MouseUp` | src/app/home/home.component.ts:202-204 | the release handler as a step on the state value: only the dragging flag is cleared, stated by Home.HomeComponent.HandleMouseUp; DragGesture builds on it |
| `Controls.ControlState.Wheel` | src/app/home/home.component.ts:206-209 | the wheel handler as a step on the state value: the clamped push, with every other field kept, stated by Home.HomeComponent.HandleWheel; WheelSaturates, ScrollToMinimum and RunKeepsZoomInRange are proved about it |
| `Controls.ControlState.Tick` | src/app/home/home.component.ts:247-250 | the rotation step of one frame on the state value: 0.005 on both axes when not dragging, otherwise the identity, stated by Home.HomeComponent.Tick; RunKeepsZoomInRange covers it |
| `Controls.Step` | src/app/home/home.component.ts:166-173 | dispatches one event to the handler registered for it, or runs the rotation step of an animation frame (lines 244-250); used by Run |
| `Controls.Run` | src/app/home/home.component.ts:166-173 | handles a sequence of events in arrival order; its properties are stated by RunAppend, RunKeepsZoomInRange, MovesAccumulate and DragGesture |
| `Controls.Initial` | src/app/home/home.component.ts:16-17 | the state after set-up, before the first animation frame (distance 6 from line 41); InitialInZoomRange states it is in range |
| `Controls.WheelSaturates` | src/app/home/home.component.ts:207-208 | from a distance in range, a push that reaches a bound lands exactly on 3 or 10, and repeating the same push changes nothing |
| `Controls.ScrollToMinimum` | src/app/home/home.component.ts:207-208 | a wheel delta of -10000 from the initial distance 6 gives distance 3 |
| `Controls.InitialInZoomRange` | src/app/home/home.component.ts:41 | the initial distance 6 is in [3, 10], and so is the distance after any sequence of events from the initial state |
| `Controls.RunKeepsZoomInRange` | src/app/home/home.component.ts:206-208 | from a distance in [3, 10], every sequence of presses, moves, releases, wheel events and frames keeps it in [3, 10] |
| `Controls.MovesIgnoredWhenNotDragging` | src/app/home/home.component.ts:186 | any sequence of moves with the button up leaves the whole state unchanged |
| `Controls.MovesAccumulate` | src/app/home/home.component.ts:188-199 | any sequence of moves while dragging rotates by (last position - first previous position)*0.005 per axis, however many moves carry it, and ends at the last position |
| `Controls.DragGesture` | src/app/home/home.component.ts:177-204 | press at p0, any moves, release: rotation changes by (pn - p0)*0.005 per axis, camera distance kept, no longer dragging |
| `Controls.ClickKeepsOrientation` | src/app/home/home.component.ts:177-204 | a press followed by a release with no move leaves rotations and camera distance as they were |
| `Picking.ToNdc` | src/app/home/home.component.ts:222-223 | ndcX in [-1, 1] exactly when 0 <= clientX <= width, and ndcY in [-1, 1] exactly when 0 <= clientY <= height |
| `Picking.FromToNdc` | src/app/home/home.component.ts:222-223 | mapping a client position to NDC and back gives that position |
| `Picking.ToFromNdc` | src/app/home/home.component.ts:222-223 | mapping an NDC point back to a client position and then to NDC again gives the same point; with FromToNdc the mapping is a bijection |
| `Picking.NdcCorners` | src/app/home/home.component.ts:222-223 | (0, 0) maps to (-1, 1) and (width, height) to (1, -1) |
| `Picking.NdcOrientation` | src/app/home/home.component.ts:222-223 | ndcX increases exactly as clientX increases; ndcY decreases exactly as clientY increases (screen y points down) |
| `Picking.ElementNdc` | src/app/home/home.component.ts:219-223 | the canvas-relative reference mapping is in [-1, 1] exactly for positions inside the rectangle |
| `Picking.ViewportRelative` | src/app/home/home.component.ts:219-223 | the click handler's mapping equals the canvas-relative one for all positions exactly when the rectangle's left and top are 0 |
| `GridTexture.CellAt` | src/app/home/home.component.ts:86-87 | one pass of the loop body: the cell at (row, col) with origin (col*step, row*step) and, on the white face, number row*3+col+1 (lines 114-115); CreateGridMaterial is proved to yield exactly these cells, and StepTilesCanvas, CellsCoverCanvas, CellsDisjoint, LabelsDistinct and OnlyWhiteFaceLabelled state its properties |
| `GridTexture.CreateGridMaterial` | src/app/home/home.component.ts:84-121 | exactly nine cells, the i-th being the cell at row i/3 and column i%3 with origin (col*step, row*step) and number row*3+col+1 on the white face only |
| `GridTexture.StepTilesCanvas` | src/app/home/home.component.ts:69-80 | three steps make the 256-pixel canvas, and each row or column of cells lies inside it |
| `GridTexture.CellsCoverCanvas` | src/app/home/home.component.ts:84-87 | every point of the canvas lies in the square of some cell |
| `GridTexture.CellsDisjoint` | src/app/home/home.component.ts:84-87 | a point lies in at most one cell's square, and only points of the canvas lie in any |
| `GridTexture.LabelsDistinct` | src/app/home/home.component.ts:114-115 | on the white face every cell has a number, the numbers lie in 1..9, and two cells share a number exactly when they are the same cell |
| `GridTexture.OnlyWhiteFaceLabelled` | src/app/home/home.component.ts:54-61 | of the six face colours in material order, a cell has a number exactly when it is on the fifth face, the white one |

## Left out

- Scene, camera, renderer and WebGL set-up, `handleResize` and the `render` call: these are rendering I/O and library calls.
- Canvas drawing: the rounded clip path, `fillRect`, `strokeRect`, `fillText`, the font and the texture and material objects. The pixels depend on the browser canvas, so only the cell geometry and numbers are kept. The numbers are natural numbers, not the strings the code draws.
- The `mouse` field write in `handleClick` and the raycast after it (`setFromCamera`, `intersectObject`). These are three.js calls, and the only visible effect of the branch is a console message.
- Event-listener registration and removal, and `requestAnimationFrame` scheduling. These are DOM plumbing; only the rotation step of one frame is modelled.
- The commented-out grid-drawing variants: they are dead code.
- Floating-point rounding, NaN and infinities: the model uses exact reals.
- Picking.ToNdc: requires a canvas of positive width and height. For a zero-sized rectangle JavaScript's division yields infinities or NaN, which reals cannot express.
