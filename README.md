# Meme editor and 3D gallery: a verified model of the core logic

The application is a browser meme editor. The user loads a picture, by
uploading a file or fetching one of four templates. They can ask the image
model to edit it from a text prompt, reset it to the original, and hang it in
one of two rooms of a walkable 3D museum, the Renaissance library or the
winter rotunda. This project models four pieces of that program in Dafny and
proves their properties.

- **The meme canvas** (`canvas_editor.dfy`, module `CanvasEditor`;
  `text.dfy`, module `Text`). This is the draw routine that runs once the
  image has loaded:
  - the canvas takes the image's size, and the font, stroke and padding are
    integer floors of it;
  - top text hangs from the top padding and bottom text stands on the bottom
    padding;
  - when neither is present, a caption is split on spaces, wrapped greedily
    to the image width less both paddings, and stacked so that its last line
    ends on the bottom padding.

  The canvas and its 2D context are a class whose fields the routine assigns:
  size, font, line width, baseline and the list of draw commands on the
  surface. The effect that starts the image load and the `onload` that
  draws are separate steps. A line width of 0, which the integer formulas
  give for narrow images, is ignored by the context as an HTML canvas
  ignores it, so the text keeps the previous stroke. The wrap loop is a
  method proved equal to a functional greedy wrap, and the wrap's
  properties are lemmas. `Text` models the JavaScript
  `split(' ')`, `trim()` and `toUpperCase()` that the routine relies on.
- **The editor state machine** (`app.dfy`, module `App`). This covers:
  - the meme record, the gallery, the view mode, the visitor's room and the
    edit prompt, as a class;
  - one method per handler, with each asynchronous handler split at its
    `await`;
  - the `setState` updaters as pure functions;
  - the button-enablement rules and the choice of pictures the museum shows.

  In the application as written, nothing ever sets `topText`, `bottomText`
  or `selectedCaption` to a non-empty value. The canvas's text branches are
  therefore modelled for what the canvas component does with its inputs,
  not for what this app feeds it.
  Likewise, a failed edit sets `loadingMessage` to "Failed to edit image."
  in the same update that ends loading. The message is rendered only inside
  the loading overlay, so that text never appears on screen
  (FailureMessageHidden).
- **The museum's numeric rules** (`scene3d.dfy`, module `Scene3D`):
  - the walkable floor: two discs and a corridor;
  - the per-frame key-to-step rule and the collision-checked move;
  - room reporting and teleport targets;
  - the camera-pitch clamp;
  - the falling particle buffers, rewritten in place;
  - fitting a picture into its frame.

  The scene state is a class. The headline property is that the character
  never leaves the walkable floor.
- **The image-editing service** (`gemini_service.dfy`, module
  `GeminiService`):
  - the data-URL prefix strip;
  - the request sent to the model;
  - the search of the reply for the first inline image;
  - the data URL built from that image;
  - the collapse of every failure into one error.

`wrappers.dfy` holds `Option`, `Result` and JavaScript truthiness of a
nullable string.

Values the program receives from the outside are inputs of the model:
- the file read and template fetch outcomes;
- the model call's reply, or its rejection;
- the decoded image size;
- `ctx.measureText`, as a function of font size and text;
- `Math.sin`, `Math.atan2` and the frame time.

Numbers are exact reals or unbounded integers.

## Model

| member | source | states |
|---|---|---|
| CanvasEditor.FontSize | components/CanvasEditor.tsx:49 | the base font size is the floor of width/10 |
| CanvasEditor.StrokeWidth | components/CanvasEditor.tsx:54 | the stroke width is the floor of the font size over 8 (also used for the caption font at line 85) |
| CanvasEditor.AssignLineWidth | components/CanvasEditor.tsx:54 | a line-width assignment that keeps the current width when the assigned value is 0; its effect on the canvas is SetLineWidth |
| CanvasEditor.BaseStroke | components/CanvasEditor.tsx:54 | the stroke the top and bottom text get: floor(fontSize/8) replacing the default 1 unless it is 0; stated by StrokeValues |
| CanvasEditor.CaptionStroke | components/CanvasEditor.tsx:85 | the stroke the caption gets: floor(captionFontSize/8) replacing the base stroke unless it is 0; stated by StrokeValues |
| CanvasEditor.StrokeValues | components/CanvasEditor.tsx:54-85 | the base stroke is floor(floor(w/10)/8) from width 80 and 1 below; the caption stroke is floor(floor(w/15)/8) from width 120 and 1 below; both are at least 1 |
| CanvasEditor.LineHeight | components/CanvasEditor.tsx:101 | a caption line is 1.2 caption font sizes high; used by CaptionStartY, StackSpacing and CaptionBottomEdge |
| CanvasEditor.MaxLineWidth | components/CanvasEditor.tsx:77 | the width a caption line may take: the image width less both paddings; the bound of WrapFromFits |
| CanvasEditor.Padding | components/CanvasEditor.tsx:64 | the padding is the floor of height/20 |
| CanvasEditor.CaptionFontSize | components/CanvasEditor.tsx:83 | the caption font size is the floor of width/15 |
| CanvasEditor.CaptionStartY | components/CanvasEditor.tsx:101-103 | the first caption line's y plus n line heights is exactly height minus padding |
| CanvasEditor.Breaks | components/CanvasEditor.tsx:88-91 | the break test: the line so far is non-empty (`n > 0`) and the line plus the next word and a space measures more than maxWidth; its consequences are WrapFromFits and WrapFromGreedy |
| CanvasEditor.WrapFrom | components/CanvasEditor.tsx:87-98 | the greedy wrap of the remaining words from a partial line; what it computes is stated by WrapFromPartition, WrapFromShape, WrapFromFits and WrapFromGreedy |
| CanvasEditor.Wrap | components/CanvasEditor.tsx:78-98 | the word groups of the caption lines; characterised by WrapCorrect and proved equal to the loop by WrapLines |
| CanvasEditor.WrapFromPartition | components/CanvasEditor.tsx:87-98 | the lines built from a partial line and the remaining words flatten to the partial line followed by those words |
| CanvasEditor.WrapFromShape | components/CanvasEditor.tsx:87-98 | there is always at least one line; once the partial line is non-empty, every line is non-empty and the first line starts with the partial line's first word |
| CanvasEditor.WrapFromFits | components/CanvasEditor.tsx:88-95 | if the partial line fits (or has one word), then every produced line of two or more words measures at most maxWidth |
| CanvasEditor.WrapFromGreedy | components/CanvasEditor.tsx:91-93 | every break is forced: each line plus the next line's first word and a space measures more than maxWidth |
| CanvasEditor.WrapCorrect | components/CanvasEditor.tsx:87-98 | greedy wrap gives at least one line. The lines partition the words in order. With words, every line is non-empty and the first starts with the first word whatever its width. Lines of two or more words fit, and every break is forced |
| CanvasEditor.WrapNonEmpty | components/CanvasEditor.tsx:98 | the final `lines.push(line)` means there is always at least one line |
| CanvasEditor.ConcatLines | components/CanvasEditor.tsx:88-98 | concatenating the lines' texts gives the flattened words, each followed by one space |
| CanvasEditor.WrapConcat | components/CanvasEditor.tsx:78-98 | concatenating the wrapped lines gives every word of the caption, in order, each followed by one space |
| CanvasEditor.RewrapIdempotent | components/CanvasEditor.tsx:78-98 | joining the wrapped lines' words with single spaces and wrapping again at the same width and font gives the same lines |
| CanvasEditor.SpacedAppend | components/CanvasEditor.tsx:88 | a line built word by word from two word lists is the concatenation of the two lines |
| CanvasEditor.Spaced | components/CanvasEditor.tsx:88-93 | a line as the loop builds it, each word followed by one space; stated by SpacedAppend and ConcatLines |
| CanvasEditor.Lines | components/CanvasEditor.tsx:87-98 | the text of each committed line; WrapLines is proved equal to Lines of Wrap |
| CanvasEditor.WrapLines | components/CanvasEditor.tsx:79-98 | the loop over the words, with `line`, `lines` and the `n > 0` guard, yields exactly the greedy wrap's line texts |
| CanvasEditor.TopBottomPlacement | components/CanvasEditor.tsx:54-72 | with top or bottom text, exactly those are drawn. Top is upper-cased at y = padding on the top baseline; bottom at y = height - padding on the bottom baseline; both in the base font, stroked with floor(fontSize/8), or with 1 when the image is narrower than 80 and the assigned 0 is ignored |
| CanvasEditor.NoTextNoDraws | components/CanvasEditor.tsx:67-75 | with no text at all no text is drawn |
| CanvasEditor.CaptionMode | components/CanvasEditor.tsx:75 | the caption branch runs when the caption is non-empty and top and bottom text are both empty; stated by CaptionOnly and CaptionStack |
| CanvasEditor.CaptionLines | components/CanvasEditor.tsx:77-98 | the caption split on spaces and wrapped to MaxLineWidth in the caption font; CaptionStack and CaptionBottomEdge state its draws |
| CanvasEditor.LineY | components/CanvasEditor.tsx:106 | line i hangs i line heights below the start; stated by StackSpacing |
| CanvasEditor.TextCommands | components/CanvasEditor.tsx:58-107 | the text draws of one render: top, then bottom, then the caption block only without either; stated by TopBottomPlacement, NoTextNoDraws, CaptionOnly and DrawsCentredUpper |
| CanvasEditor.CaptionCommands | components/CanvasEditor.tsx:75-107 | the caption block, stroked with a given line width; stated by CaptionStack and CaptionBottomEdge |
| CanvasEditor.Stack | components/CanvasEditor.tsx:101-107 | the trimmed lines drawn one line height apart from startY; stated by StackSpacing |
| CanvasEditor.CaptionOnly | components/CanvasEditor.tsx:75 | in caption mode (caption set, no top or bottom text) only the caption block is drawn |
| CanvasEditor.CaptionStack | components/CanvasEditor.tsx:75-107 | in caption mode there is one draw per wrapped line, at least one. Line i is trimmed and upper-cased at y = height - n*lh - padding + i*lh, top baseline, in the caption font, stroked with floor(captionFontSize/8), or with 1 when the image is narrower than 120 |
| CanvasEditor.StackSpacing | components/CanvasEditor.tsx:101-107 | stacked lines are one line height apart, and the last ends n line heights below the start |
| CanvasEditor.CaptionBottomEdge | components/CanvasEditor.tsx:101-107 | the caption lines are one line height (1.2 times the caption font) apart, and the last line's bottom edge y + lh is exactly height - padding |
| CanvasEditor.DrawsCentredUpper | components/CanvasEditor.tsx:58-107 | every text draw is upper-case, centred on width/2, and on the top or bottom baseline |
| CanvasEditor.Canvas.SetWidth | components/CanvasEditor.tsx:42 | assigning the width clears the bitmap and resets the context state |
| CanvasEditor.Canvas.SetHeight | components/CanvasEditor.tsx:43 | assigning the height clears the bitmap and resets the context state |
| CanvasEditor.Canvas.DrawTextPass | components/CanvasEditor.tsx:58-62 | `drawText` sets the baseline and appends the upper-cased text in the current font and line width |
| CanvasEditor.Canvas.DrawLines | components/CanvasEditor.tsx:105-107 | the `forEach` appends exactly the stacked, trimmed lines, and leaves the baseline at top when there was a line |
| CanvasEditor.Canvas.SetLineWidth | components/CanvasEditor.tsx:54 | assigning a positive width sets it; assigning 0 (here and at line 85) leaves the width as it was |
| CanvasEditor.Canvas.DrawCaption | components/CanvasEditor.tsx:75-107 | the caption branch sets the caption font, assigns the caption stroke (kept when it is 0), and appends exactly the caption commands stroked with the resulting width |
| CanvasEditor.Canvas.ImageLoaded | components/CanvasEditor.tsx:40-109 | the `onload` of a started load: the canvas takes the image's exact size and the surface is the image followed by the text commands of the texts that load captured. Font and baseline are those last set, and the line width is the effective base or caption stroke |
| CanvasEditor.Render | components/CanvasEditor.tsx:29-38 | the effect starts a load exactly when the image source is truthy and there is a 2D context, capturing this render's source and texts; the canvas is untouched until that load completes |
| CanvasEditor.Canvas.constructor | components/CanvasEditor.tsx:126-130 | the `<canvas>` element as created: 300 by 150, blank, with the default font, line width 1 and the alphabetic baseline |
| Text.Split | components/CanvasEditor.tsx:78 | `split(' ')` gives at least one piece, no piece has a space, and joining with spaces gives the input back |
| Text.Join | components/CanvasEditor.tsx:78 | words joined with single spaces, the inverse of `split(' ')` stated by Split and SplitJoin |
| Text.SplitWordThen | components/CanvasEditor.tsx:78 | splitting a space-free word followed by a string glues the word to the string's first piece |
| Text.SplitJoin | components/CanvasEditor.tsx:78 | splitting space-free words joined by single spaces gives the words back |
| Text.TrimStartSpec | components/CanvasEditor.tsx:106 | trimming the start removes only whitespace and leaves a suffix that is empty or starts with non-whitespace |
| Text.TrimEndSpec | components/CanvasEditor.tsx:106 | trimming the end removes only whitespace and leaves a prefix that is empty or ends with non-whitespace |
| Text.TrimStart | components/CanvasEditor.tsx:106 | the result is no longer than the input; its full meaning is TrimStartSpec |
| Text.TrimEnd | components/CanvasEditor.tsx:106 | the result is no longer than the input; its full meaning is TrimEndSpec |
| Text.Trim | App.tsx:90 | `trim()`, both ends; stated by TrimSpec, TrimEmptyIff and TrimIdempotent |
| Text.TrimSpec | components/CanvasEditor.tsx:106 | `trim` returns a contiguous piece of the input, framed by whitespace only, that neither starts nor ends with whitespace |
| Text.TrimEmptyIff | App.tsx:90 | a string trims to nothing exactly when it is all whitespace |
| Text.TrimIdempotent | components/CanvasEditor.tsx:106 | trimming twice is trimming once |
| Text.ToUpper | components/CanvasEditor.tsx:60-61 | upper-casing keeps the length, turns each lower-case ASCII letter into its capital (the code point 32 below), leaves no lower-case letter, and keeps every other character |
| Text.ToUpperIdempotent | components/CanvasEditor.tsx:60-61 | upper-casing twice is upper-casing once |
| GeminiService.StripDataUrlPrefix | services/geminiService.ts:10 | the result is a suffix of the input. A leading `data:image/<kind>;base64,` for kind png, jpeg, jpg or webp is removed, exactly that prefix; otherwise the input is unchanged |
| GeminiService.DataPrefix | services/geminiService.ts:10 | the prefix the pattern matches for one accepted kind; StripPrefixed removes it |
| GeminiService.StripPrefixed | services/geminiService.ts:10 | an accepted prefix followed by anything strips to that anything |
| GeminiService.StripDataUrl | services/geminiService.ts:10 | round trip: a data URL of png, jpeg, jpg or webp strips back to its payload |
| GeminiService.StripKeepsGif | services/geminiService.ts:10 | a data URL of any other image type (GIF) is sent unstripped |
| GeminiService.StripNotIdempotent | services/geminiService.ts:10 | only one prefix is removed: stripping a doubly-prefixed string twice differs from stripping it once |
| GeminiService.MimeOrPng | services/geminiService.ts:37 | the mime type is the part's own when truthy, and `image/png` when it is missing or empty; never empty |
| GeminiService.DataUrl | services/geminiService.ts:37 | the template `data:${mime};base64,${data}`; inverted by StripDataUrl and used by ResultIsDataUrl |
| GeminiService.HasImage | services/geminiService.ts:36 | the test `part.inlineData && part.inlineData.data`; FirstImage finds the first part passing it |
| GeminiService.PartUrl | services/geminiService.ts:37 | the data URL of an image part; ResultIsDataUrl shows it well formed |
| GeminiService.FirstImage | services/geminiService.ts:35-39 | the index found is of a part with non-empty inline data, and no earlier part has any; None exactly when no part has any |
| GeminiService.HasCandidates | services/geminiService.ts:34 | the test `candidates && candidates.length > 0`; its failure gives "No image generated." in ResponseImage |
| GeminiService.Readable | services/geminiService.ts:35 | the first candidate has content and parts to iterate; its failure gives the TypeError in ResponseImage |
| GeminiService.FirstParts | services/geminiService.ts:35 | `candidates[0].content.parts`, the only parts searched; LaterCandidatesIgnored |
| GeminiService.ResponseImage | services/geminiService.ts:33-42 | no candidates gives "No image generated.", and a first candidate without content or parts gives a TypeError. Otherwise success comes exactly when a part of the first candidate has an image, and the result is the data URL of the first such part |
| GeminiService.LaterCandidatesIgnored | services/geminiService.ts:33-35 | two responses with the same first candidate give the same outcome |
| GeminiService.LaterPartsIgnored | services/geminiService.ts:35-39 | parts after the first image part do not change which part is used |
| GeminiService.ResultIsDataUrl | services/geminiService.ts:37 | a success is `data:<mime>;base64,<data>` with non-empty mime and data |
| GeminiService.ImageFromParts | services/geminiService.ts:35-39 | the `for ... of` scan with early return yields the data URL of the first image part, or nothing when there is none |
| GeminiService.ImageFromResponse | services/geminiService.ts:33-42 | the `try` body after the call computes ResponseImage |
| GeminiService.BuildRequest | services/geminiService.ts:13-30 | the request names the editing model, declares the stripped image as `image/jpeg` whatever it was, and sends the prompt second |
| GeminiService.BuildRequestRelabels | services/geminiService.ts:10-22 | a png, jpeg, jpg or webp data URL reaches the model as its bare payload labelled `image/jpeg`, whatever its real type |
| GeminiService.EditImageWithAI | services/geminiService.ts:9-47 | the request is BuildRequest. Every failure, including a rejected call, is "Failed to edit image."; success is exactly a reply whose first candidate has an image part, and yields its data URL |
| Scene3D.TryMove | components/Scene3D.tsx:470-484 | the step is taken exactly when it lands on walkable floor, otherwise the position is kept, so walkable stays walkable |
| Scene3D.WalkStaysWalkable | components/Scene3D.tsx:470-484 | over any run of frames the character never leaves the walkable floor |
| Scene3D.Walk | components/Scene3D.tsx:470-484 | frame after frame of collision-checked moves; WalkStaysWalkable keeps it on the floor |
| Scene3D.InLibrary | components/Scene3D.tsx:474-477 | strictly within 110 of the library centre; used by TryMove and CorridorBetweenRooms |
| Scene3D.InRotunda | components/Scene3D.tsx:475-478 | strictly within 110 of the rotunda centre (0, -350) |
| Scene3D.InCorridor | components/Scene3D.tsx:479 | less than 20 from the axis and strictly between z = -350 and z = 0 |
| Scene3D.Walkable | components/Scene3D.tsx:474-481 | a disc or the corridor; preserved by TryMove and WalkStaysWalkable, and the only floor between the rooms by CorridorBetweenRooms |
| Scene3D.RoomAt | components/Scene3D.tsx:500-504 | the library is reported iff z > -100, the rotunda iff z < -250, nothing in between |
| Scene3D.SpawnsWalkable | components/Scene3D.tsx:91-100 | both teleport targets, the start point among them, are walkable and lie in the room they are named after |
| Scene3D.SpawnZ | components/Scene3D.tsx:95-98 | 60 in front of the room centre (lines 95 and 98); SpawnsWalkable shows it walkable and in its room |
| Scene3D.RoomZ | components/Scene3D.tsx:32-33 | the room centres on the z axis, 0 for the library and -350 for the rotunda; SpawnsWalkable |
| Scene3D.CorridorBetweenRooms | components/Scene3D.tsx:474-479 | between the rooms (-240 <= z <= -110) a point is walkable exactly when it is in the corridor |
| Scene3D.ReadKeys | components/Scene3D.tsx:455-462 | the four sequential key tests compute dx = 1.2*(right-left), dz = 1.2*(down-up), moving iff any direction is held |
| Scene3D.Pressed | components/Scene3D.tsx:459-462 | a key is held exactly when its entry is true; a key never seen is not held |
| Scene3D.KeyIntent | components/Scene3D.tsx:455-462 | the step the held keys ask for; ReadKeys is proved equal to it and IntentBounds bounds it |
| Scene3D.Axis | components/Scene3D.tsx:459-462 | one axis of the step: the speed for the positive key less the speed for the negative one; IntentBounds bounds it |
| Scene3D.Up | components/Scene3D.tsx:459 | ArrowUp or KeyW is held; used by KeyIntent and IntentBounds |
| Scene3D.Down | components/Scene3D.tsx:460 | ArrowDown or KeyS is held; used by KeyIntent and IntentBounds |
| Scene3D.Left | components/Scene3D.tsx:461 | ArrowLeft or KeyA is held; used by KeyIntent |
| Scene3D.Right | components/Scene3D.tsx:462 | ArrowRight or KeyD is held; used by KeyIntent |
| Scene3D.IntentBounds | components/Scene3D.tsx:455-462 | each axis moves by at most the speed, not at all when idle, and up with down cancels while still counting as moving |
| Scene3D.ClampPhi | components/Scene3D.tsx:623 | the pitch ends in [0.1, pi/1.5], an in-range pitch is kept, and out-of-range pitches go to the nearer bound |
| Scene3D.Fall | components/Scene3D.tsx:431-433 | a particle falls by the step or goes back to 70 when it went below -10. It never ends below -10, and a height in [-10, 80) stays there |
| Scene3D.FallParticles | components/Scene3D.tsx:430-446 | every y slot of the four-number records becomes its Fall, and the x, z and spin slots are unchanged |
| Scene3D.ParticleFrame | components/Scene3D.tsx:430-450 | the 1500 petal records fall by 0.05 and the 2000 snow records by 0.08 (the counts of lines 361 and 370): every y slot of each buffer becomes its Fall with that buffer's step, and every other slot is unchanged |
| Scene3D.FitPanel | components/Scene3D.tsx:577-578 | for a positive aspect the longer side is 15 and width = height * aspect |
| Scene3D.World.constructor | components/Scene3D.tsx:19-25 | no key held, the character at the library spawn (0, -10, 60) set at line 380, standing straight, camera at theta 0 and phi pi/2.5, not dragging |
| Scene3D.World.SetInput | components/Scene3D.tsx:103-105 | only the given key's entry changes |
| Scene3D.World.HandleKeyDown | components/Scene3D.tsx:532 | only the pressed key's entry changes, to true |
| Scene3D.World.HandleKeyUp | components/Scene3D.tsx:533 | only the released key's entry changes, to false |
| Scene3D.World.Teleport | components/Scene3D.tsx:91-100 | the character goes to (0, -10, room z + 60), the room is reported, and the state stays valid |
| Scene3D.World.Move | components/Scene3D.tsx:470-484 | the inline disc and corridor tests move the character exactly as TryMove |
| Scene3D.World.StepCharacter | components/Scene3D.tsx:455-505 | moving: the collision-checked step, heading smoothing by 0.2, limb swing and bob. Idle: position and heading kept, limbs 0, y = -10. The room reported is RoomAt of the new z, and walkability and the pitch range are preserved |
| Scene3D.World.HandleMouseDown | components/Scene3D.tsx:612-615 | dragging starts at the pointer position |
| Scene3D.World.HandleMouseMove | components/Scene3D.tsx:617-625 | without a drag nothing changes. With one, theta and phi move by 0.005 per pixel, phi is clamped, and the pitch range is preserved |
| Scene3D.World.HandleMouseUp | components/Scene3D.tsx:627 | dragging ends |
| App.LoadSetsBothImages | App.tsx:53-63 | a loaded picture becomes both images and the caption is cleared. Top and bottom text and loading state are kept, and Reset is then disabled |
| App.TemplateLoadEndsLoading | App.tsx:70-87 | a template load sets loading and ends with loading off; success sets both images, and failure keeps them |
| App.EditKeepsOriginal | App.tsx:89-101 | a successful edit changes only the current image (loading off), keeps the original, and Reset restores it |
| App.EditFailureSetsMessage | App.tsx:102-110 | a failed edit keeps both images, ends loading, and sets `loadingMessage` to "Failed to edit image.", which the timer clears |
| App.Overlay | App.tsx:206-209 | the loading overlay is shown exactly while loading, and the text it shows is `loadingMessage` |
| App.FailureMessageHidden | App.tsx:104-109 | the remix message (line 92) is shown during the call, but the failure message is set by the update that ends loading, so the overlay (lines 206-209) never shows it |
| App.ResetProperties | App.tsx:113-118 | reset is idempotent, changes only the current image, and disables the Reset button (line 290) |
| App.GoRules | App.tsx:279 | "Go" is disabled iff the prompt is all whitespace, there is no image, or something is loading, so it is disabled while loading. When enabled, the handler's guard passes |
| App.SceneImagesSpec | App.tsx:199 | the museum shows the gallery when non-empty, else the current image in the library, else nothing; every shown item is one of these |
| App.SceneImages | App.tsx:199 | the pictures handed to the museum; stated by SceneImagesSpec |
| App.GoDisabled | App.tsx:279 | the "Go" button's disabled test; stated by GoRules |
| App.ResetDisabled | App.tsx:290 | the "Reset to Original" button's disabled test; LoadSetsBothImages and ResetProperties show it disabled after a load or a reset |
| App.AddDisabled | App.tsx:303 | the "Add" button is disabled exactly without a truthy current image |
| App.DownloadDisabled | App.tsx:312 | the "Download" button is disabled without a current image or in the 3D view; AfterAdd shows it disabled after adding |
| App.WithImage | App.tsx:58-63 | the upload updater; stated by LoadSetsBothImages |
| App.StartLoading | App.tsx:72 | loading on with the given message, here and at line 92; stated by TemplateLoadEndsLoading and GoRules |
| App.StopLoading | App.tsx:85 | the failed template load only ends loading; stated by TemplateLoadEndsLoading |
| App.TemplateLoaded | App.tsx:76-82 | the fetched template becomes both images and loading ends; stated by TemplateLoadEndsLoading |
| App.Edited | App.tsx:96-100 | the edited image replaces the current one and loading ends; stated by EditKeepsOriginal |
| App.EditFailed | App.tsx:104-108 | loading ends with the failure message; stated by EditFailureSetsMessage and FailureMessageHidden |
| App.ClearMessage | App.tsx:109 | the timer empties the message; stated by EditFailureSetsMessage |
| App.ResetImage | App.tsx:114-117 | the current image becomes the original; stated by ResetProperties and EditKeepsOriginal |
| App.AfterAdd | App.tsx:120-134 | after adding, the museum shows the gallery ending with the new item, the earlier items are kept, and download is disabled in the 3D view (line 312) |
| App.AppComponent.constructor | App.tsx:21-39 | the initial state: the meme record is the constant InitialState (no images, empty texts, not loading, empty message, App.tsx:21-29), with the 2D view, an empty gallery, the library and an empty prompt |
| App.AppComponent.HandleFileUpload | App.tsx:53-68 | only a successful read changes the state, to WithImage of it |
| App.AppComponent.SelectTemplate | App.tsx:70-72 | loading starts with "Loading template..." |
| App.AppComponent.TemplateFetched | App.tsx:73-86 | success sets both images and ends loading; failure only ends loading |
| App.AppComponent.HandleAIEdit | App.tsx:89-92 | no call and no change without a truthy current image and a non-blank prompt; otherwise loading starts with the remix message and the call takes the current image and prompt |
| App.AppComponent.AIEditDone | App.tsx:94-110 | the service is called with BuildRequest. Success sets the current image, ends loading and clears the prompt. Failure ends loading with the failure message and keeps the prompt |
| App.AppComponent.FailureMessageExpired | App.tsx:109 | the timer clears the message |
| App.AppComponent.HandleResetImage | App.tsx:113-118 | the current image becomes the original |
| App.AppComponent.AddToGallery | App.tsx:120-134 | with a current image, one item for it in the current room is appended and the view becomes 3D; otherwise nothing changes |
| App.AppComponent.SetViewMode | App.tsx:165 | the view toggle sets the mode |
| App.AppComponent.SetCurrentRoom | App.tsx:200 | the museum's room callback sets the current room |
| App.AppComponent.SetEditPrompt | App.tsx:273 | typing sets the prompt |

## Left out

- Text.ToUpper: models `toUpperCase` on the ASCII letters only. Unicode case mapping (ß to SS, accented letters) is not modelled.
- Floating point: sizes, the 1.2 line height, positions, speeds and particle heights are exact reals. Float64 rounding and the Float32 storage of the particle buffers are not modelled.
- Glyph metrics: `ctx.measureText` is an arbitrary function of font size and text.
- Pixels: the stroke and fill passes of `drawText` are one command. The fill and stroke colours, line join and text alignment are fixed settings and are not recorded.
- The canvas element missing (`canvasRef.current` null) is not modelled: the canvas object always exists. The `download` handle (PNG encoding) is I/O and is left out.
- Image decoding, `FileReader`, `fetch`, `TextureLoader` and the image model call are I/O. Their outcomes are parameters, and the template URL the fetch uses plays no further part.
- Asynchrony: each handler's continuation runs as a separate method, so interleavings are the caller's choice. The canvas's draw effect is likewise split into Render, which starts a load, and Canvas.ImageLoaded, its `onload`; the effect has no cleanup, so a stale load may complete after a newer one and leave the older picture and texts, which the model allows because ImageLoaded may be called for any load. React's batching of `setState` is not modelled; each update reads the latest state, as the updater form does.
- The two-second `setTimeout` is the separate method FailureMessageExpired.
- Logging: the `console.error` calls in the failure paths (App.tsx:65,84,103 and services/geminiService.ts:44) are I/O with no effect on the state. They are left out.
- The optional `onRoomChange` callback: the model always reports the room (Teleport's `reported`, StepCharacter's `report`). The `if (onRoomChange)` guards at Scene3D.tsx:96,99,501,503 are left out, because a missing callback only drops the report.
- Scene3D.World.StepCharacter: `Math.sin`, `Math.atan2` and `Date.now` are parameters, not the real functions.
- The three.js scene is not modelled: meshes, materials, lights, procedural textures, camera follow (`lerp`, `lookAt`), the resize handler and the trigonometric placement of pictures on the room circles. This is foreign library code and transcendental functions. Grouping the pictures by room feeds only that placement.
- Particle initialisation with `Math.random` is left out. Fall's band lemma takes the initial range [0, 80) as its hypothesis.
- Scene3D.FitPanel: requires a positive aspect ratio. A zero-height texture (aspect infinite or NaN) is not modelled.
- The character missing (`characterRef.current` null before mount) is left out. The World object exists only once the scene is mounted.
- `CORRIDOR_WIDTH = 40` is declared but never used. The corridor test uses the literal 20 on either side, and the model follows the test.
- Audio (`services/audioService.ts`, the scene's audio element) and all markup are UI and media. They are not part of this model.
