# Roomify intake and project handoff, modelled in Dafny

This project models the client-side workflow of Roomify, a web app where a
signed-in user uploads a floor-plan image, watches a simulated analysis
progress meter run to 100, and is then taken to a visualizer view for the new
project.

- `Upload.dfy` (module `Upload`) models the intake widget
  (`app/components/ui/Upload.tsx`). `UploadController` is a class with the
  component's state: `file`, `isDragging`, `progress` and `isSignedIn`. It also
  holds the browser work the component starts: pending file reads, running
  progress timers, scheduled completion timeouts, and the `onComplete` calls
  made so far. The browser's asynchronous events are explicit methods:
  `ReaderLoaded` (the `FileReader` load), `Tick` (one `setInterval` tick) and
  `TimeoutFired` (the redirect `setTimeout`). `PROGRESS_INCREMENT` is the
  constructor's `increment` argument, and it must be positive. The life of one
  timer is also stated as a pure function, `RunTicks`, with a closed form and
  its consequences: clamping, monotonicity, and completion scheduled exactly
  once.
- `Home.dfy` (module `Home`) models the home page (`app/routes/home.tsx`).
  `HomePage` is a class holding the project list, the browser's session
  storage as a `map` from key to `HandoffRecord`, the navigation log, and the
  log of `createProject` calls. The result of `createProject` is an `Option`
  parameter of `UploadComplete`. The pure parts are functions with lemmas:
  record construction, the `{...newItem, ...saved}` merge, the storage key and
  route, and the preview choice.
- `Wrappers.dfy` holds `Option`, which stands for JavaScript's
  `null`/`undefined`.

Two behaviours of the code shape the model:

- A second file does not cancel an earlier file's timer. No timer is ever
  cleared except by its own completing tick, so the model keeps a sequence of
  timers and claims no replace semantics. In the page, the drop zone
  disappears once a file is set (Upload.tsx:91).
- The drag-over highlight is gated on sign-in. Drag-leave and drop clear it
  unconditionally.

## Model

| member | source | states |
|---|---|---|
| Upload.NextProgress | app/components/ui/Upload.tsx:36-50 | one tick gives exactly 100 iff prev + increment >= 100, and exactly prev + increment otherwise; the meter never exceeds 100, never decreases from within range, and strictly grows from below 100 |
| Upload.TickOnce | app/components/ui/Upload.tsx:35-52 | a running timer's tick moves the meter by NextProgress and stops the timer iff the tick completes; a cleared timer does not tick; a completion is scheduled exactly when the timer stops |
| Upload.RunTicksClosedForm | app/components/ui/Upload.tsx:35-52 | after n ticks from p < 100 the meter is p + n*increment while that is below 100 and exactly 100 afterwards; the timer runs iff the sum is below 100; the number of scheduled completions is 0 before that point and 1 from it on |
| Upload.ProgressMonotone | app/components/ui/Upload.tsx:36-51 | over any number of ticks the meter stays within p..100 and is non-decreasing in the number of ticks |
| Upload.CompletesExactlyOnce | app/components/ui/Upload.tsx:31-47 | one timer schedules onComplete at most once, and the tick that schedules it is exactly the first tick whose sum reaches 100 |
| Upload.TenPercentSteps | app/components/ui/Upload.tsx:35-52 | with increment 10 from 0 the meter reads 10*n and is still running for n < 10; the tenth tick clamps to 100, stops and schedules once; later ticks change nothing |
| Upload.StatusText | app/components/ui/Upload.tsx:123-139 | the status line is always one of the two messages, and within 0..100 it reads "Redirecting ..." exactly when the check icon shows, so the icon rule and the text rule never disagree |
| Upload.StatusFollowsTimer | app/components/ui/Upload.tsx:35-47 | while one timer runs from below 100 the panel reads "Analyzing floor plan ..."; it reads "Redirecting ..." exactly once the timer is cleared, and the check icon shows exactly once the completion is scheduled |
| Upload.UploadController.View | app/components/ui/Upload.tsx:89-143 | the drop zone shows iff no file is set, with the highlight, the input enabled and the prompt following isDragging and isSignedIn; otherwise the status panel shows the file's name, a bar of width progress, the check icon iff progress is 100, and the analyzing text iff progress < 100 |
| Upload.UploadController.constructor | app/components/ui/Upload.tsx:15-19 | no file, no highlight, progress 0, no reads, timers or completions |
| Upload.UploadController.ProcessFile | app/components/ui/Upload.tsx:23-56 | signed out: nothing changes; signed in: the file is recorded, progress is exactly 0, a read of the file starts, and running timers and scheduled completions are kept |
| Upload.UploadController.HandleChange | app/components/ui/Upload.tsx:60-64 | nothing changes when signed out or when no file was chosen; otherwise the first chosen file is processed as by ProcessFile |
| Upload.UploadController.HandleDragOver | app/components/ui/Upload.tsx:68-72 | the highlight is switched on only when signed in; nothing else changes |
| Upload.UploadController.HandleDragLeave | app/components/ui/Upload.tsx:74-77 | the highlight is always off afterwards; nothing else changes |
| Upload.UploadController.HandleDrop | app/components/ui/Upload.tsx:79-85 | the highlight is always off afterwards; when signed out or nothing was dropped, nothing else changes; otherwise the first dropped file is processed |
| Upload.UploadController.ReaderLoaded | app/components/ui/Upload.tsx:29-53 | a finished read leaves the pending reads and starts a new timer with a fresh id that carries the data URL |
| Upload.UploadController.Tick | app/components/ui/Upload.tsx:35-51 | progress becomes NextProgress of the old value; below 100 the timers and timeouts are kept; on completion that timer is removed and never ticks again, its data URL is scheduled once, and no timer had scheduled before under that id |
| Upload.UploadController.RunTimer | app/components/ui/Upload.tsx:35-52 | n periods of the only running timer leave the controller where RunTicks puts the pure timer: the meter is the clamped sum, the timer runs iff the sum is below 100, and from the tick that reaches 100 on, that timer is gone and its data URL is scheduled exactly once |
| Upload.UploadController.TimeoutFired | app/components/ui/Upload.tsx:43-45 | a fired timeout calls onComplete with the data URL it was scheduled with, and leaves the schedule |
| Home.StorageKey | app/routes/home.tsx:29-30 | the key is "visualizer:" followed by the id |
| Home.KeyRoundTrip | app/routes/home.tsx:30 | stripping the prefix from a handoff key gives back the id it was made from |
| Home.StorageKeyInjective | app/routes/home.tsx:30 | two ids share a handoff key iff they are equal |
| Home.VisualizerPath | app/routes/home.tsx:37 | the navigation target is a visualizer route |
| Home.PathRoundTrip | app/routes/home.tsx:37 | building a visualizer route from an id and reading the id back are inverse in both directions |
| Home.OrNull | app/routes/home.tsx:33 | the null fallback yields null or a truthy string: truthiness is kept, a truthy value passes through unchanged, and only falsy values (the empty string included) become null |
| Home.OrNullIdempotent | app/routes/home.tsx:33 | applying the null fallback twice is applying it once, and the values it leaves alone are exactly null and the truthy strings |
| Home.OpenRecord | app/routes/home.tsx:29-36 | the opened project's record carries its source image and name, and its render slot is null or a truthy image, present exactly when the given render is truthy, so the visualizer's presence and truthiness tests agree |
| Home.SavedRecord | app/routes/home.tsx:60-67 | the record written after an upload is exactly the record that opening the saved project writes when it has a name, and carries no name otherwise |
| Home.NewItem | app/routes/home.tsx:41-50 | the new item carries newId, "Residence " + newId, the data URL and the timestamp; having no render, its card previews the uploaded image and opening it hands the visualizer no render |
| Home.Merge | app/routes/home.tsx:58 | the saved project's required fields always win; a saved project carrying every optional field comes out unchanged; an optional field is missing only when both lack it, and otherwise the saved value overrides |
| Home.MergeIdempotent | app/routes/home.tsx:58 | merging the same saved project twice equals merging it once, and merging a project onto itself gives it back |
| Home.UploadedCardNamed | app/routes/home.tsx:41-58 | the card prepended after an upload always has a name, the saved one or else "Residence " + newId, and shows exactly the saved project's render |
| Home.PreviewImage | app/routes/home.tsx:153 | the card previews one of its own images, the truthy render over the source, and is never blank when its source image is not |
| Home.PreviewMatchesHandoff | app/routes/home.tsx:131-153 | opening a card hands the visualizer exactly the image the card previews, or leads to the "not found" screen when the card has no source image |
| Home.UploadPreviewMatchesHandoff | app/routes/home.tsx:58-68 | after an upload the visualizer first shows exactly the image the new card previews, or the "not found" screen when the saved project has no source image |
| Home.ReopenAgreesWithUpload | app/routes/home.tsx:58-68 | a project prepended after an upload, when opened later, writes under the upload's key iff the saved id is the new id, and writes the same record iff the saved project has a name |
| Home.Write | app/routes/home.tsx:29-36 | after a write the key for the id holds the new record, every other key keeps its value, and only that key may be added |
| Home.LastWriteWins | app/routes/home.tsx:60-67 | two writes for the same id leave only the second record |
| Home.HomePage.constructor | app/routes/home.tsx:20-21 | the project list and navigation log start empty over the given session storage |
| Home.HomePage.OpenProject | app/routes/home.tsx:23-38 | storage holds the opened record under "visualizer:" + id with every other key unchanged, then the visualizer route for id is appended to the navigation log |
| Home.HomePage.UploadComplete | app/routes/home.tsx:40-69 | createProject is called once with the new item and "private"; on no result the handler returns false and projects, storage and navigation are unchanged; on a result it prepends the merged project, writes the saved record under newId, navigates to newId, and returns undefined |
| Home.HomePage.CardClick | app/routes/home.tsx:131-138 | a click opens the card's project with its name or "" |
| Home.HomePage.CardKeyDown | app/routes/home.tsx:139-148 | a key press opens the card's project iff the key is "Enter" or " ", and changes nothing for any other key |

`UploadController.Valid` holds after every event:

- progress stays within 0..100;
- timer ids are distinct and never reused;
- no running timer has scheduled a completion;
- the timers that scheduled completions are distinct;
- their number equals the pending timeouts plus the `onComplete` calls made.

`HomePage.Valid` holds after every operation: every navigation went to a
visualizer route whose handoff record is in storage.

## Left out

- The visualizer route (app/routes/visualizer.$id.tsx): its render request, its reentrancy guard and its error states other than the falsy `initialImage` one are not part of this model.
- Home.PreviewMatchesHandoff, Home.UploadPreviewMatchesHandoff: these assume the visualizer's display rule, which `FirstShown` states: a falsy `initialImage` leads to the "not found" screen, otherwise a truthy `initialRenderedImage` is shown, otherwise `initialImage` (visualizer.$id.tsx:38-41, 45-48, 60-70, 123-137). The rest of that route is not modelled.
- Home.HomePage.UploadComplete: the handler runs as one step. In the source, `await createProject(...)` (home.tsx:52) lets other events, such as a card click (home.tsx:131), run before the prepend, the storage write and the navigation (home.tsx:58-68).
- Home.HomePage.UploadComplete: a `createProject` that rejects makes the handler reject rather than return `false`. The model has only the `None` answer, which returns `false`.
- Home.HomePage.UploadComplete: the failure log `console.error("Failed to create project")` (home.tsx:54) is not modelled; console output has no place in the model's state.
- app/routes.ts only configures routes; it has no logic.
- File reading, timer periods (`UPLOAD_INTERVAL_MS`, `REDIRECT_DELAY_MS`) and React's state scheduling are browser runtime. React may call a state updater twice (StrictMode in development, or a re-based update). Because the tick's updater (Upload.tsx:36-51) calls `clearInterval` and `setTimeout` from inside it, `onComplete` would then be scheduled twice. Upload.UploadController.Tick and Upload.CompletesExactlyOnce assume one updater call per tick. Loads, ticks and timeouts are explicit events that can fire in any order the preconditions allow. No timing is modelled.
- The value of `PROGRESS_INCREMENT` comes from lib/constants, which is not part of this model. It is a positive parameter.
- Upload.NextProgress, Upload.UploadController.Tick: `progress` and `PROGRESS_INCREMENT` are unbounded integers here. In JavaScript they are floating-point numbers, and rounding of non-integer increments is not modelled.
- Upload.UploadController.RunTimer: it drives one timer while it is the only one running. Interleavings with other timers, loads and timeouts are covered only by the single-event methods.
- `createProject` is an external persistence call. Its answer is a parameter, and `DesignItem` is assumed to be its result type. A falsy result is `None`.
- `Date.now()`: the new id and the timestamp are inputs. The source calls the clock twice, so the two need not agree.
- Home.HomePage.OpenProject, Home.HomePage.UploadComplete: the model has no failing storage write. In the source, `sessionStorage.setItem` (home.tsx:29, 60) can throw, for example when a record holding an image data URL exceeds the storage quota, and no key is ever removed. Then `handleOpenProject` never navigates (home.tsx:37). `handleUploadComplete` has already prepended the project (home.tsx:58), never navigates (home.tsx:68) and rejects, and nothing catches that, because Upload.tsx:44 does not await `onComplete`. In the model, `Write` always succeeds and a navigation is always appended.
- Home.HomePage.OpenProject, Home.HomePage.UploadComplete, Home.ReopenAgreesWithUpload: navigating leaves the `/` route, so the home page unmounts, and its `projects` state (home.tsx:21) is empty again on the next visit. The model keeps one `HomePage`, with its project list, across navigations. "Opened later" in `ReopenAgreesWithUpload` therefore means a later click before any such remount.
- Serialisation: `JSON.stringify` and the session-storage text encoding are not modelled. A record is stored as a value, and a name left undefined is `None`.
- Home.Merge, Home.UploadedCardNamed: a key that is present in the saved object but holds `undefined` or `null` is treated as absent. JavaScript's spread would copy that value, so a saved `name: null` leaves the card without a name, while the model gives it "Residence " + newId. The "always has a name" of `UploadedCardNamed` holds only when the saved object has no own `name` key, or one that holds a string.
- Upload.UploadController.HandleChange, Upload.UploadController.HandleDrop: `preventDefault` and the event objects are not modelled. The file list is an optional sequence.
- Changes to `isSignedIn` come from the authentication context. No method here changes it.
- Markup, styling, icons, `meta`, `Navbar`/`Button`, the accepted extensions and the 10MB hint are not modelled. The size limit is text only and is not enforced.
