/**
 * The prompt bar (components/InputBar.tsx): a prompt, an attach menu and an
 * optional selected image. Submitting a prompt that trims to nothing does
 * nothing; otherwise the untrimmed prompt and the image are handed to
 * `onGenerate` and the bar is cleared. Enter submits, Shift+Enter does not.
 * A picked file is accepted only when its type starts with `image/`, and its
 * payload is taken from the FileReader's data URL with `split(',')[1]`.
 */
module InputBar {
  import opened Wrappers
  import opened DataUrls

  /** The alert shown for a file that is not an image. */
  const NotAnImageAlert: string := "Please select an image file."
  /** The type prefix an accepted file must have. */
  const ImageTypePrefix: string := "image/"
  /** The key that submits. */
  const EnterKey: string := "Enter"

  /**
   * The characters `String.prototype.trim` removes: ECMAScript's WhiteSpace
   * (tab, vertical tab, form feed, the byte order mark and the space
   * separators) and LineTerminator.
   */
  predicate IsJsWhitespace(c: char)
  {
    || c == '\t' || c == '\U{000B}' || c == '\U{000C}' || c == ' ' || c == '\U{00A0}' || c == '\U{FEFF}'
    || c == '\U{1680}' || ('\U{2000}' <= c <= '\U{200A}') || c == '\U{202F}' || c == '\U{205F}' || c == '\U{3000}'
    || c == '\n' || c == '\r' || c == '\U{2028}' || c == '\U{2029}'
  }

  /** `s` with its leading whitespace removed. */
  function TrimStart(s: string): (r: string)
    ensures |r| <= |s| && r == s[|s| - |r|..]
    ensures forall i :: 0 <= i < |s| - |r| ==> IsJsWhitespace(s[i])
    ensures r == [] || !IsJsWhitespace(r[0])
  {
    if s == [] || !IsJsWhitespace(s[0]) then s else TrimStart(s[1..])
  }

  /** `s` with its trailing whitespace removed. */
  function TrimEnd(s: string): (r: string)
    ensures |r| <= |s| && r == s[..|r|]
    ensures forall i :: |r| <= i < |s| ==> IsJsWhitespace(s[i])
    ensures r == [] || !IsJsWhitespace(r[|r| - 1])
  {
    if s == [] || !IsJsWhitespace(s[|s| - 1]) then s else TrimEnd(s[..|s| - 1])
  }

  /** `s.trim()`: it is empty exactly when every character of `s` is whitespace. */
  function Trim(s: string): (r: string)
    ensures r == [] <==> forall i :: 0 <= i < |s| ==> IsJsWhitespace(s[i])
    ensures r == [] || (!IsJsWhitespace(r[0]) && !IsJsWhitespace(r[|r| - 1]))
  {
    TrimEnd(TrimStart(s))
  }

  /**
   * The send button's `disabled`: the prompt trims to nothing or a generation
   * is running; so it is enabled exactly when some character is not whitespace
   * and nothing is running.
   */
  function SubmitDisabled(prompt: string, isGenerating: bool): (d: bool)
    ensures !d <==> !isGenerating && exists i :: 0 <= i < |prompt| && !IsJsWhitespace(prompt[i])
  {
    Trim(prompt) == [] || isGenerating
  }

  /** The part of a picked `File` the bar reads: `file.type`. */
  datatype FileInfo = FileInfo(mimeType: string)

  /** What `handleFileChange` does with the input's first file. */
  datatype FileAction = NoFile | Alert(message: string) | ReadAsDataUrl(file: FileInfo)

  /** `handleFileChange` up to `readAsDataURL`: no file, a rejected non-image, or a read. */
  function FileChange(file: Option<FileInfo>): (a: FileAction)
    ensures file.None? <==> a.NoFile?
    ensures a.Alert? ==> a.message == NotAnImageAlert
    ensures file.Some? ==>
      (a.ReadAsDataUrl? <==> |file.value.mimeType| >= |ImageTypePrefix|
                             && file.value.mimeType[..|ImageTypePrefix|] == ImageTypePrefix)
    ensures a.ReadAsDataUrl? ==> a.file == file.value
  {
    if file.None? then NoFile
    else if ImageTypePrefix <= file.value.mimeType then ReadAsDataUrl(file.value)
    else Alert(NotAnImageAlert)
  }

  /** The selected image: its payload, its media type and the full data URL for the preview. */
  datatype SelectedImage = SelectedImage(base64: Option<string>, mimeType: string, preview: string)

  /** One call of `onGenerate(prompt, imageBase64, imageMimeType)`. */
  datatype GenerateCall = GenerateCall(prompt: string, imageBase64: Option<string>, imageMimeType: Option<string>)

  /**
   * The arguments `handleSubmit` passes to `onGenerate`: the prompt as typed,
   * and `selectedImage?.base64` and `selectedImage?.mimeType`.
   */
  function SubmitCall(prompt: string, image: Option<SelectedImage>): (c: GenerateCall)
    ensures c.prompt == prompt
    ensures image.None? ==> c.imageBase64.None? && c.imageMimeType.None?
    ensures image.Some? ==> c.imageBase64 == image.value.base64 && c.imageMimeType == Some(image.value.mimeType)
  {
    if image.Some? then GenerateCall(prompt, image.value.base64, Some(image.value.mimeType))
    else GenerateCall(prompt, None, None)
  }

  /** The bar's three pieces of state. */
  class InputBar {
    var prompt: string
    var showAttachMenu: bool
    var selectedImage: Option<SelectedImage>

    constructor ()
      ensures prompt == [] && !showAttachMenu && selectedImage.None?
    {
      prompt := [];
      showAttachMenu := false;
      selectedImage := None;
    }

    /** The textarea's `onChange`. */
    method OnPromptChange(text: string)
      modifies this
      ensures prompt == text
      ensures showAttachMenu == old(showAttachMenu) && selectedImage == old(selectedImage)
    {
      prompt := text;
    }

    /**
     * `handleSubmit`: nothing when the prompt trims to nothing; otherwise one
     * call with the untrimmed prompt and the image's fields, then the prompt
     * and the image are cleared. It does not look at `isGenerating`.
     */
    method HandleSubmit() returns (call: Option<GenerateCall>)
      modifies this
      ensures Trim(old(prompt)) == [] ==>
        call.None? && prompt == old(prompt) && selectedImage == old(selectedImage)
      ensures Trim(old(prompt)) != [] ==>
        call == Some(SubmitCall(old(prompt), old(selectedImage))) && prompt == [] && selectedImage.None?
      ensures showAttachMenu == old(showAttachMenu)
    {
      var typed, image := prompt, selectedImage;
      if Trim(typed) == [] {
        return None;
      }
      call := Some(SubmitCall(typed, image));
      prompt, selectedImage := [], None;
    }

    /** `handleKeyDown`: Enter without Shift prevents the newline and submits. */
    method HandleKeyDown(key: string, shiftKey: bool) returns (prevented: bool, call: Option<GenerateCall>)
      modifies this
      ensures prevented <==> key == EnterKey && !shiftKey
      ensures !prevented ==>
        call.None? && prompt == old(prompt) && selectedImage == old(selectedImage)
      ensures prevented && Trim(old(prompt)) == [] ==>
        call.None? && prompt == old(prompt) && selectedImage == old(selectedImage)
      ensures prevented && Trim(old(prompt)) != [] ==>
        call == Some(SubmitCall(old(prompt), old(selectedImage))) && prompt == [] && selectedImage.None?
      ensures showAttachMenu == old(showAttachMenu)
    {
      prevented := key == EnterKey && !shiftKey;
      call := None;
      if prevented {
        call := HandleSubmit();
      }
    }

    /**
     * `reader.onloadend` for an accepted file: store the image and close the
     * menu. When the read failed, `reader.result` is null and `result.split`
     * throws before either update, so nothing changes.
     */
    method OnFileLoaded(file: FileInfo, result: Option<string>) returns (threw: bool)
      modifies this
      ensures threw <==> result.None?
      ensures result.Some? ==>
        selectedImage == Some(SelectedImage(Base64Payload(result.value), file.mimeType, result.value))
        && !showAttachMenu
      ensures result.None? ==> selectedImage == old(selectedImage) && showAttachMenu == old(showAttachMenu)
      ensures prompt == old(prompt)
    {
      if result.None? {
        return true;
      }
      selectedImage := Some(SelectedImage(Base64Payload(result.value), file.mimeType, result.value));
      showAttachMenu := false;
      threw := false;
    }

    /** The attach button: `setShowAttachMenu(!showAttachMenu)`. */
    method ToggleAttachMenu()
      modifies this
      ensures showAttachMenu == !old(showAttachMenu)
      ensures prompt == old(prompt) && selectedImage == old(selectedImage)
    {
      showAttachMenu := !showAttachMenu;
    }

    /** The preview's remove button: `setSelectedImage(null)`. */
    method RemoveImage()
      modifies this
      ensures selectedImage.None?
      ensures prompt == old(prompt) && showAttachMenu == old(showAttachMenu)
    {
      selectedImage := None;
    }
  }

  /**
   * Picking an image and submitting: the bar reads the file as a data URL
   * `data:<type>;base64,<payload>`, keeps the URL as the preview, and hands
   * `onGenerate` the payload and the type, after which the bar is empty.
   */
  method PickThenSubmit(text: string, file: FileInfo, payload: string)
    returns (call: Option<GenerateCall>, preview: Option<string>, cleared: bool)
    requires exists i :: 0 <= i < |text| && !IsJsWhitespace(text[i])
    requires ImageTypePrefix <= file.mimeType && Comma !in file.mimeType
    requires IsBase64Text(payload)
    ensures preview == Some(DataUrl(file.mimeType, payload))
    ensures call == Some(GenerateCall(text, Some(payload), Some(file.mimeType)))
    ensures cleared
  {
    var bar := new InputBar();
    bar.OnPromptChange(text);
    preview := None;
    var action := FileChange(Some(file));
    if action.ReadAsDataUrl? {
      var result := DataUrl(file.mimeType, payload);
      var threw := bar.OnFileLoaded(file, Some(result));
      preview := Some(bar.selectedImage.value.preview);
      Base64PayloadRoundTrip(file.mimeType, payload);
    }
    call := bar.HandleSubmit();
    cleared := bar.prompt == [] && bar.selectedImage.None?;
  }
}
