/**
 * How one run of the chatbot's script picks the prompt. The four tabs are
 * visited in order (image, audio, file, text) and each may overwrite the local
 * `prompt`; the image tab also sets the image that goes with the request.
 * Widget values are inputs; image encoding, speech recognition and document
 * parsing are reduced to their results.
 */
module PromptSelection {
  import opened Wrappers
  import opened Extraction

  /** An uploaded image: its base64 JPEG encoding and the question typed under it. */
  datatype ImageUpload = ImageUpload(encoded: string, question: string)

  /** An uploaded document and whether "Ask a question about the file" was pressed. */
  datatype FileUpload = FileUpload(doc: Document, askPressed: bool)

  /** The widget values of the four tabs in one run of the script. */
  datatype TabInputs = TabInputs(
    image: Option<ImageUpload>,
    audio: Option<RecognitionResult>,
    file: Option<FileUpload>,
    typed: string)

  /** At most this many characters of a document are sent as a prompt. */
  const MaxFileChars: nat := 3000

  function Min(a: nat, b: nat): nat { if a <= b then a else b }

  /** Python's `s[:n]`: the first `n` characters, or all of `s` if it is shorter. */
  function Prefix(s: string, n: nat): (r: string)
    ensures |r| == Min(|s|, n)
    ensures r <= s
  {
    if |s| <= n then s else s[..n]
  }

  /**
   * The value each tab assigns to `prompt`, in tab order, `None` for a tab that
   * assigns nothing: the image question whenever an image is uploaded (even
   * when empty), the transcription whenever audio is uploaded, the truncated
   * file content only when the ask button was pressed, and the typed text only
   * when it is non-empty.
   */
  function Assignments(inputs: TabInputs): (xs: seq<Option<string>>)
    ensures |xs| == 4
  {
    [ if inputs.image.Some? then Some(inputs.image.value.question) else None,
      if inputs.audio.Some? then Some(TranscriptionText(inputs.audio.value)) else None,
      if inputs.file.Some? && inputs.file.value.askPressed
      then Some(Prefix(ReadFileContent(inputs.file.value.doc), MaxFileChars)) else None,
      if inputs.typed != "" then Some(inputs.typed) else None ]
  }

  /** The value left by a series of assignments: the last one made, if any. */
  function LastAssigned(xs: seq<Option<string>>): Option<string>
  {
    if |xs| == 0 then None
    else if xs[|xs| - 1].Some? then xs[|xs| - 1]
    else LastAssigned(xs[..|xs| - 1])
  }

  /** Assignment `i` is made and no later one is. */
  predicate WinsAt(xs: seq<Option<string>>, i: int)
  {
    0 <= i < |xs| && xs[i].Some? && forall j :: i < j < |xs| ==> xs[j].None?
  }

  /** The last assignment made is the one that is left. */
  lemma {:induction false} LastAssignedAt(xs: seq<Option<string>>, i: int)
    requires WinsAt(xs, i)
    ensures LastAssigned(xs) == xs[i]
  {
    if i < |xs| - 1 {
      assert WinsAt(xs[..|xs| - 1], i);
      LastAssignedAt(xs[..|xs| - 1], i);
    }
  }

  /** Nothing is left exactly when no assignment is made. */
  lemma {:induction false} LastAssignedNone(xs: seq<Option<string>>)
    ensures LastAssigned(xs).None? <==> forall i :: 0 <= i < |xs| ==> xs[i].None?
  {
    if |xs| > 0 {
      LastAssignedNone(xs[..|xs| - 1]);
      assert forall i :: 0 <= i < |xs| - 1 ==> xs[..|xs| - 1][i] == xs[i];
    }
  }

  /**
   * The prompt-selecting part of the script: reassign `prompt` tab by tab and
   * take the image of the image tab, whichever tab supplies the prompt.
   */
  method SelectPrompt(inputs: TabInputs) returns (prompt: Option<string>, image: Option<string>)
    ensures prompt == LastAssigned(Assignments(inputs))
    ensures image == if inputs.image.Some? then Some(inputs.image.value.encoded) else None
  {
    prompt := None;
    image := None;
    // image tab
    if inputs.image.Some? {
      image := Some(inputs.image.value.encoded);
      prompt := Some(inputs.image.value.question);
    }
    // audio tab
    if inputs.audio.Some? {
      var transcription := TranscriptionText(inputs.audio.value);
      prompt := Some(transcription);
    }
    // file tab
    if inputs.file.Some? {
      var content := ReadFileContent(inputs.file.value.doc);
      if inputs.file.value.askPressed {
        prompt := Some(Prefix(content, MaxFileChars));
      }
    }
    // text tab
    if inputs.typed != "" {
      prompt := Some(inputs.typed);
    }
    PromptPrecedence(inputs);
  }

  /**
   * Precedence of the tabs, read from last to first: non-empty typed text, then
   * the file content if asked about, then the transcription, then the image
   * question; no prompt when none of them applies.
   */
  lemma PromptPrecedence(inputs: TabInputs)
    ensures LastAssigned(Assignments(inputs)) ==
      if inputs.typed != "" then Some(inputs.typed)
      else if inputs.file.Some? && inputs.file.value.askPressed
      then Some(Prefix(ReadFileContent(inputs.file.value.doc), MaxFileChars))
      else if inputs.audio.Some? then Some(TranscriptionText(inputs.audio.value))
      else if inputs.image.Some? then Some(inputs.image.value.question)
      else None
  {
    var xs := Assignments(inputs);
    if xs[3].Some? {
      LastAssignedAt(xs, 3);
    } else if xs[2].Some? {
      LastAssignedAt(xs, 2);
    } else if xs[1].Some? {
      LastAssignedAt(xs, 1);
    } else if xs[0].Some? {
      LastAssignedAt(xs, 0);
    } else {
      LastAssignedNone(xs);
    }
  }

  /** Non-empty typed text is always the prompt, whatever the other tabs hold. */
  lemma TypedTextWins(inputs: TabInputs)
    requires inputs.typed != ""
    ensures LastAssigned(Assignments(inputs)) == Some(inputs.typed)
  {
    PromptPrecedence(inputs);
  }

  /**
   * An uploaded document supplies the prompt only through the ask button: if
   * it is not pressed, the prompt is what it would be with no document at all.
   */
  lemma FileNeedsAsk(inputs: TabInputs)
    requires inputs.file.Some? && !inputs.file.value.askPressed
    ensures LastAssigned(Assignments(inputs)) == LastAssigned(Assignments(inputs.(file := None)))
  {
    PromptPrecedence(inputs);
    PromptPrecedence(inputs.(file := None));
  }

  /**
   * When the document is asked about and no text is typed, the prompt is the
   * document content cut to 3000 characters: a prefix of it, of length
   * min(|content|, 3000).
   */
  lemma FilePromptTruncated(inputs: TabInputs)
    requires inputs.file.Some? && inputs.file.value.askPressed && inputs.typed == ""
    ensures var content := ReadFileContent(inputs.file.value.doc);
            var p := LastAssigned(Assignments(inputs));
            p.Some? && p.value <= content && |p.value| == Min(|content|, MaxFileChars)
  {
    PromptPrecedence(inputs);
  }

  /**
   * A recording the recogniser fails on still yields a prompt when no later tab
   * supplies one: the diagnostic text itself, which is non-empty and is
   * therefore submitted to the model.
   */
  lemma AudioFailureBecomesPrompt(inputs: TabInputs)
    requires inputs.audio == Some(Unknown) || inputs.audio == Some(RequestErr)
    requires inputs.typed == "" && (inputs.file.None? || !inputs.file.value.askPressed)
    ensures var p := LastAssigned(Assignments(inputs));
            p.Some? && p.value != ""
            && p.value == (if inputs.audio == Some(Unknown) then CouldNotUnderstand else ApiUnavailable)
  {
    PromptPrecedence(inputs);
  }
}
