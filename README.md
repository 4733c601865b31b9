# Image resize to multiples of 4 — verified model

The program is a desktop window. You drag image files onto it, and it rewrites each
one in place so that its width and height are both multiples of 4. It then appends
one line per file to an on-screen action log. This project models the three pieces
of logic under the window, in Dafny:

- **The alignment planner** (`Alignment`, `alignment.dfy`). `closest_multiple_4`
  rounds a `u32` dimension down to a multiple of 4, with a floor of 4. Dimensions
  have the subset type `U32` (0 to 2^32-1), so the model checks that the
  subtraction never underflows. The planner is proved against an independent
  reference definition, `IsAlignedFloor`: the largest multiple of 4 not above the
  input, or 4 when there is none.
- **The per-file decision** (`Rewriter`, `rewriter.dfy`). `process_file` is a pure
  function in the model. What the image library answers when the file is decoded,
  and what the encoder answers when the resized PNG is saved, are inputs (a
  `FileReply`). The result (`FileOutcome`) holds the log line, the path handed to
  the decoder (if any) and the resize-and-save that was attempted (if any). The
  attempt records the target dimensions, the Gaussian filter and the PNG format.
- **The action log** (`DropSurface`, `drop_surface.dfy`). `MyApp` becomes the class
  `App` with a `seq<string>` field. Its `Update` method loops over one frame's
  dropped files and pushes one outcome line per file. The method is proved against
  `FrameLines`, the list of lines a frame produces.

Where the documented behaviour and the code differ, the model follows the code:

- An unusable path does not produce `Could not parse path: <the path>`. The code
  replaces a non-UTF-8 path with the literal text `invalid path` and then compares
  against that literal. So the line is always `Could not parse path: invalid path`.
  A real file whose path text is exactly `invalid path` is treated the same way
  and is never opened (`SentinelPathQuirk`).
- A dropped item with no path at all is not reported. The code unwraps the path and
  panics, so the model makes a present path a precondition.
- The planner is defined for 0 as well (0 plans to 4). It is not only defined for
  positive dimensions.

## Model

| member | source | states |
|---|---|---|
| `Alignment.ClosestMultiple4` | src/main.rs:76-84 | The result is a positive multiple of 4. It is 4 for inputs below 4. For inputs of 4 or more it is at most the input and less than 4 below it. The subtraction stays inside `u32`. |
| `Alignment.ClosestMultiple4IsAlignedFloor` | src/main.rs:76-84 | The planner meets the reference definition. No positive multiple of 4 that fits under the input is larger than the result. |
| `Alignment.AlignedFloorUnique` | src/main.rs:76-84 | The reference definition allows only one answer per input, so the planner is fully determined by it. |
| `Alignment.ClosestMultiple4FixedPoint` | src/main.rs:76-84 | The planner returns its input exactly when the input is a positive multiple of 4. |
| `Alignment.ClosestMultiple4Idempotent` | src/main.rs:76-84 | Planning a planned dimension again changes nothing. |
| `Alignment.ClosestMultiple4Monotone` | src/main.rs:76-84 | A larger dimension never plans to a smaller one. |
| `Rewriter.PathText` | src/main.rs:31-38 | The sentinel `invalid path` comes out exactly for a path with no UTF-8 form and for a UTF-8 path whose text is `invalid path`. Any other path is a UTF-8 path and reaches the decoder as its own text, unchanged. |
| `Rewriter.ProcessFile` | src/main.rs:30-74 | The decoder is called with the path exactly when the path text is not the sentinel. A save is attempted exactly when the file decoded and one of its dimensions is not a positive multiple of 4. Every attempted save targets the same path, in PNG, with each dimension meeting the reference definition of the planner. |
| `Rewriter.UnparsablePathOutcome` | src/main.rs:37-40 | A sentinel path gives `Could not parse path: invalid path`. Nothing is opened or written, and the library's answers make no difference. |
| `Rewriter.SentinelPathQuirk` | src/main.rs:37-40 | A real path whose text is `invalid path` gets the same outcome as a non-UTF-8 path. |
| `Rewriter.DecodeFailureOutcome` | src/main.rs:42-44 | A decode failure gives `<path>: processing failed - <message>`. The path was opened and nothing is written. |
| `Rewriter.AlignedImageNotRewritten` | src/main.rs:49-51 | An image whose dimensions are both positive multiples of 4 gets the no-resize line and no write. |
| `Rewriter.MisalignedImageRewritten` | src/main.rs:49-64 | A misaligned image gets a Gaussian resize to exactly `(closest_multiple_4(w), closest_multiple_4(h))` and a PNG write to the same path. A successful save gives `<path>: resized successfully`. A failed save gives `<path>: failed to save resized image - <err>`. |
| `Rewriter.SaveConsultedOnlyOnWrite` | src/main.rs:57-66 | When no write is attempted, the encoder's answer cannot change the outcome. |
| `Rewriter.WrittenImageIsStable` | src/main.rs:49-58 | An image with the written dimensions, dropped again, is left alone with the no-resize line. |
| `Rewriter.DroppedFileScenarios` | src/main.rs:49-66 | Concrete cases, each with its full outcome (line, opened path, write). 800x600 gets the no-resize line and no write. 801x600, 3x3 and 1023x769 are written as 800x600, 4x4 and 1020x768 and get the success line. A failed save of 101x101 attempts 100x100 and reports the encoder's error. |
| `DropSurface.FrameLines` | src/main.rs:14-16 | A frame yields one line per dropped file, in presentation order. Each line is the outcome of that file and its own replies only. |
| `DropSurface.FrameLinesConcat` | src/main.rs:14-16 | Processing two batches in sequence logs the same lines as processing them as one batch. |
| `DropSurface.App.constructor` | src/main.rs:6-9 | The default application starts with an empty log. |
| `DropSurface.App.Update` | src/main.rs:12-16 | After a frame, the log is the old log, unchanged, followed by the frame's lines in order. Its length grows by the number of dropped files. |

## Left out

- The window: the heading, the scroll area and the labels that redraw the log every frame (src/main.rs:13, 17-25), and window setup and `main` (src/main.rs:86-96). These are toolkit plumbing.
- The image decoder (`image::open`) and the PNG encoder (`save_with_format`). They are foreign library and filesystem code. Their answers are inputs to `Rewriter.ProcessFile`.
- The Gaussian resampling in `resize_exact`. It is floating-point code inside the library. The model keeps only the target dimensions and the filter name.
- The `println!` of the dimensions (src/main.rs:47) and the attribute that hides the Windows console (src/main.rs:1).
- The panic from unwrapping a missing path (src/main.rs:35). It is a precondition of `Rewriter.ProcessFile` and `DropSurface.App.Update`.
- Effects between files on disk. Each dropped file gets its own decoder and encoder answers. So the model does not tie a write to a later decode of the same path (a path dropped twice in one frame, last write wins).
