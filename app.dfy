/** The editor's state machine: the meme record, the gallery of pictures
    placed in the museum rooms, the view mode, the room the visitor is in
    and the edit prompt; the handlers that change them and the rules that
    enable the buttons. Each asynchronous handler is split at its `await`:
    the part that runs on the click, and a continuation that takes the
    outcome of the file read, the fetch or the model call as a parameter. */
module App {
  import opened Wrappers
  import opened Text
  import Scene3D
  import GeminiService

  const LoadingTemplate: string := "Loading template..."
  const Remixing: string := "\U{1F3A8} Gemini is remixing your pixels..."
  const EditFailedMessage: string := "Failed to edit image."

  datatype MemeState = MemeState(
    originalImage: Option<string>,
    currentImage: Option<string>,
    selectedCaption: string,
    topText: string,
    bottomText: string,
    isLoading: bool,
    loadingMessage: string)

  const InitialState: MemeState := MemeState(None, None, "", "", "", false, "")

  datatype ViewMode = View2D | View3D

  datatype GalleryItem = GalleryItem(url: string, roomId: Scene3D.Room)

  // ---------------------------------------------------------------------------
  // The `setState` updaters

  /** A new picture, uploaded or fetched: it becomes both the original and
      the current image and the caption is cleared. */
  function WithImage(prev: MemeState, base64: string): MemeState {
    prev.(originalImage := Some(base64), currentImage := Some(base64), selectedCaption := "")
  }

  function StartLoading(prev: MemeState, message: string): MemeState {
    prev.(isLoading := true, loadingMessage := message)
  }

  function StopLoading(prev: MemeState): MemeState {
    prev.(isLoading := false)
  }

  function TemplateLoaded(prev: MemeState, base64: string): MemeState {
    WithImage(prev, base64).(isLoading := false)
  }

  function Edited(prev: MemeState, image: string): MemeState {
    prev.(currentImage := Some(image), isLoading := false)
  }

  function EditFailed(prev: MemeState): MemeState {
    prev.(isLoading := false, loadingMessage := EditFailedMessage)
  }

  function ClearMessage(prev: MemeState): MemeState {
    prev.(loadingMessage := "")
  }

  function ResetImage(prev: MemeState): MemeState {
    prev.(currentImage := prev.originalImage)
  }

  // ---------------------------------------------------------------------------
  // Derived values

  /** The "Go" button: disabled when the prompt is blank, there is no
      current image, or something is loading. */
  predicate GoDisabled(editPrompt: string, st: MemeState) {
    Trim(editPrompt) == "" || !Truthy(st.currentImage) || st.isLoading
  }

  /** The "Reset to Original" button: disabled when there is no original or
      the current image already is the original. */
  predicate ResetDisabled(st: MemeState) {
    !Truthy(st.originalImage) || st.originalImage == st.currentImage
  }

  /** The "Add to room" button. */
  predicate AddDisabled(st: MemeState) {
    !Truthy(st.currentImage)
  }

  /** The "Download" button: needs an image and the 2D view. */
  predicate DownloadDisabled(st: MemeState, view: ViewMode) {
    !Truthy(st.currentImage) || view == View3D
  }

  /** What the museum shows: the gallery when it has anything, otherwise the
      current image alone, in the library, otherwise nothing. */
  function SceneImages(gallery: seq<GalleryItem>, st: MemeState): seq<GalleryItem> {
    if |gallery| > 0 then gallery
    else if Truthy(st.currentImage) then [GalleryItem(st.currentImage.value, Scene3D.Library)]
    else []
  }

  /** The loading overlay: the message is rendered only while loading. */
  function Overlay(st: MemeState): (shown: Option<string>)
    ensures shown.Some? <==> st.isLoading
    ensures shown.Some? ==> shown.value == st.loadingMessage
  {
    if st.isLoading then Some(st.loadingMessage) else None
  }

  // ---------------------------------------------------------------------------
  // Properties of the updaters and the derived values

  /** A loaded picture is both images, the caption is cleared, and the top
      and bottom texts and the loading state are kept; Reset then has
      nothing to do. */
  lemma LoadSetsBothImages(prev: MemeState, base64: string)
    ensures var s := WithImage(prev, base64);
            && s.originalImage == Some(base64) && s.currentImage == Some(base64) && s.selectedCaption == ""
            && s.topText == prev.topText && s.bottomText == prev.bottomText
            && s.isLoading == prev.isLoading && s.loadingMessage == prev.loadingMessage
            && ResetDisabled(s)
  {
  }

  /** A template fetch ends with loading off whether it succeeds or fails;
      a failure leaves both images as they were. */
  lemma TemplateLoadEndsLoading(prev: MemeState, outcome: Result<string, string>)
    ensures var started := StartLoading(prev, LoadingTemplate);
            var done := if outcome.Ok? then TemplateLoaded(started, outcome.value) else StopLoading(started);
            && started.isLoading && !done.isLoading
            && (outcome.Ok? ==> done.originalImage == Some(outcome.value) && done.currentImage == Some(outcome.value))
            && (outcome.Err? ==> done.originalImage == prev.originalImage && done.currentImage == prev.currentImage)
  {
  }

  /** A successful edit changes the current image only and keeps the
      original, so Reset brings the original back. */
  lemma EditKeepsOriginal(prev: MemeState, image: string)
    ensures var s := Edited(StartLoading(prev, Remixing), image);
            && s.currentImage == Some(image) && s.originalImage == prev.originalImage && !s.isLoading
            && s.selectedCaption == prev.selectedCaption && s.topText == prev.topText && s.bottomText == prev.bottomText
            && ResetImage(s).currentImage == prev.originalImage
  {
  }

  /** A failed edit leaves both images alone, stops loading and sets
      `loadingMessage` to the failure message, which the timer clears. */
  lemma EditFailureSetsMessage(prev: MemeState)
    ensures var s := EditFailed(StartLoading(prev, Remixing));
            && s.originalImage == prev.originalImage && s.currentImage == prev.currentImage
            && !s.isLoading && s.loadingMessage == EditFailedMessage
            && ClearMessage(s).loadingMessage == ""
  {
  }

  /** The failure message is set by the same update that ends loading, so
      the overlay, the only place the message is rendered, is hidden by it:
      "Failed to edit image." is never on screen, while the remix message
      is shown during the call. */
  lemma FailureMessageHidden(prev: MemeState)
    ensures Overlay(StartLoading(prev, Remixing)) == Some(Remixing)
    ensures EditFailed(StartLoading(prev, Remixing)).loadingMessage == EditFailedMessage
    ensures Overlay(EditFailed(StartLoading(prev, Remixing))) == None
    ensures Overlay(ClearMessage(EditFailed(StartLoading(prev, Remixing)))) == None
  {
  }

  /** Reset is idempotent, changes only the current image, and afterwards
      the Reset button is disabled. */
  lemma ResetProperties(s: MemeState)
    ensures ResetImage(ResetImage(s)) == ResetImage(s)
    ensures ResetDisabled(ResetImage(s))
    ensures ResetImage(s).(currentImage := s.currentImage) == s
  {
  }

  /** "Go" is disabled exactly when the prompt is all whitespace (empty
      included), there is no current image, or something is loading; so
      it is disabled while loading, and when it is enabled the edit
      handler's own guard passes. */
  lemma GoRules(editPrompt: string, st: MemeState, message: string)
    ensures GoDisabled(editPrompt, st) <==>
              (forall k :: 0 <= k < |editPrompt| ==> IsWhitespace(editPrompt[k])) || !Truthy(st.currentImage) || st.isLoading
    ensures GoDisabled(editPrompt, StartLoading(st, message))
    ensures !GoDisabled(editPrompt, st) ==> Truthy(st.currentImage) && Trim(editPrompt) != ""
  {
    TrimEmptyIff(editPrompt);
  }

  /** Every picture shown is a gallery item or the current image placed in
      the library; nothing is shown exactly when the gallery is empty and
      there is no current image, and the gallery wins whenever it has
      anything. */
  lemma SceneImagesSpec(gallery: seq<GalleryItem>, st: MemeState)
    ensures forall it :: it in SceneImages(gallery, st) ==>
              it in gallery || (Truthy(st.currentImage) && it == GalleryItem(st.currentImage.value, Scene3D.Library))
    ensures SceneImages(gallery, st) == [] <==> gallery == [] && !Truthy(st.currentImage)
    ensures gallery != [] ==> SceneImages(gallery, st) == gallery
    ensures |SceneImages(gallery, st)| <= (if |gallery| > 0 then |gallery| else 1)
  {
  }

  // ---------------------------------------------------------------------------
  // The component

  class AppComponent {
    var state: MemeState
    var viewMode: ViewMode
    var gallery: seq<GalleryItem>
    var currentRoom: Scene3D.Room
    var editPrompt: string

    /** The first render: no picture, the 2D editor, an empty gallery, the
        visitor in the library and no prompt. */
    constructor ()
      ensures state == InitialState && viewMode == View2D && gallery == []
      ensures currentRoom == Scene3D.Library && editPrompt == ""
    {
      state := InitialState;
      viewMode := View2D;
      gallery := [];
      currentRoom := Scene3D.Library;
      editPrompt := "";
    }

    /** `handleFileUpload` once the reader has finished: `file` is None when
        no file was chosen, and otherwise the outcome of reading it as a
        data URL. Only a successful read changes anything. */
    method HandleFileUpload(file: Option<Result<string, string>>)
      modifies this`state
      ensures file.Some? && file.value.Ok? ==> state == WithImage(old(state), file.value.value)
      ensures !(file.Some? && file.value.Ok?) ==> state == old(state)
    {
      if file.Some? {
        match file.value
        case Ok(base64) => state := WithImage(state, base64);
        case Err(_) =>
      }
    }

    /** `selectTemplate` up to its first `await`: loading starts. */
    method SelectTemplate()
      modifies this`state
      ensures state == StartLoading(old(state), LoadingTemplate)
    {
      state := StartLoading(state, LoadingTemplate);
    }

    /** `selectTemplate` after the fetch and the read: the outcome is the
        data URL, or an error from either step. */
    method TemplateFetched(outcome: Result<string, string>)
      modifies this`state
      ensures outcome.Ok? ==> state == TemplateLoaded(old(state), outcome.value)
      ensures outcome.Err? ==> state == StopLoading(old(state))
    {
      match outcome
      case Ok(base64) => state := TemplateLoaded(state, base64);
      case Err(_) => state := StopLoading(state);
    }

    /** `handleAIEdit` up to its `await`: nothing happens without a current
        image or with a blank prompt; otherwise loading starts and the
        image and prompt the call is made with are returned. */
    method HandleAIEdit() returns (call: Option<(string, string)>)
      modifies this`state
      ensures call.None? <==> !Truthy(old(state).currentImage) || Trim(editPrompt) == ""
      ensures call.None? ==> state == old(state)
      ensures call.Some? ==>
                && call.value == (old(state).currentImage.value, editPrompt)
                && state == StartLoading(old(state), Remixing)
    {
      if !Truthy(state.currentImage) || Trim(editPrompt) == "" {
        return None;
      }
      var image := state.currentImage.value;
      state := StartLoading(state, Remixing);
      return Some((image, editPrompt));
    }

    /** `handleAIEdit` after the call: `reply` is what the model call
        resolved to. Success shows the new image and clears the prompt;
        any failure stops loading and sets `loadingMessage` to the failure
        message. */
    method AIEditDone(image: string, prompt: string, reply: Option<GeminiService.Response>)
      returns (request: GeminiService.Request)
      modifies this`state, this`editPrompt
      ensures request == GeminiService.BuildRequest(image, prompt)
      ensures reply.Some? && GeminiService.ResponseImage(reply.value).Ok? ==>
                state == Edited(old(state), GeminiService.ResponseImage(reply.value).value) && editPrompt == ""
      ensures !(reply.Some? && GeminiService.ResponseImage(reply.value).Ok?) ==>
                state == EditFailed(old(state)) && editPrompt == old(editPrompt)
    {
      var result;
      request, result := GeminiService.EditImageWithAI(image, prompt, reply);
      match result
      case Ok(newImage) =>
        state := Edited(state, newImage);
        editPrompt := "";
      case Err(_) =>
        state := EditFailed(state);
    }

    /** The two-second timer after a failed edit. */
    method FailureMessageExpired()
      modifies this`state
      ensures state == ClearMessage(old(state))
    {
      state := ClearMessage(state);
    }

    method HandleResetImage()
      modifies this`state
      ensures state == ResetImage(old(state))
    {
      state := ResetImage(state);
    }

    /** `addToGallery`: with a current image, one item for it in the
        visitor's room goes at the end of the gallery and the museum opens;
        without one nothing changes. */
    method AddToGallery()
      modifies this`gallery, this`viewMode
      ensures Truthy(state.currentImage) ==>
                gallery == old(gallery) + [GalleryItem(state.currentImage.value, currentRoom)] && viewMode == View3D
      ensures !Truthy(state.currentImage) ==> gallery == old(gallery) && viewMode == old(viewMode)
    {
      if Truthy(state.currentImage) {
        var newItem := GalleryItem(state.currentImage.value, currentRoom);
        gallery := gallery + [newItem];
        viewMode := View3D;
      }
    }

    method SetViewMode(mode: ViewMode)
      modifies this`viewMode
      ensures viewMode == mode
    {
      viewMode := mode;
    }

    /** `onRoomChange` from the museum. */
    method SetCurrentRoom(room: Scene3D.Room)
      modifies this`currentRoom
      ensures currentRoom == room
    {
      currentRoom := room;
    }

    method SetEditPrompt(prompt: string)
      modifies this`editPrompt
      ensures editPrompt == prompt
    {
      editPrompt := prompt;
    }
  }

  /** After adding a picture the museum shows the gallery, which ends with
      that picture, and download is off until the 2D view is back. */
  lemma AfterAdd(gallery: seq<GalleryItem>, st: MemeState, room: Scene3D.Room)
    requires Truthy(st.currentImage)
    ensures var g := gallery + [GalleryItem(st.currentImage.value, room)];
            && SceneImages(g, st) == g
            && SceneImages(g, st)[|g| - 1] == GalleryItem(st.currentImage.value, room)
            && SceneImages(g, st)[..|gallery|] == gallery
            && DownloadDisabled(st, View3D)
            && !AddDisabled(st)
  {
  }
}
