# Multimodal chatbot: conversation log and prompt selection

This project models the logic inside `Python_project/demo.py`, a Streamlit chatbot. Each run of the script does five things:

- On the first run it seeds the conversation log (`st.session_state.messages`) with an assistant greeting.
- "Clear Chat" resets the log to that greeting.
- It visits the four input tabs (image, audio, file, text) in order. Each tab may overwrite the local `prompt`.
- If the prompt is non-empty, it appends the user's turn.
- It then asks the local model server for a reply and appends the reply as the assistant's turn.

The model has five modules, one file each:

- `Wrappers` (`wrappers.dfy`): the `Option` type.
- `Extraction` (`extraction.dfy`):
  - what `transcribe_audio` returns for each recogniser outcome;
  - `read_file_content`, including the newline join of PDF page texts;
  - a split function, which is the inverse of that join.
- `Gateway` (`gateway.dfy`):
  - the payload dictionary of `get_ollama_response`;
  - `ReadRequest`, which is how the server reads that payload back;
  - the model server itself, passed in as a parameter.
- `PromptSelection` (`prompt_selection.dfy`):
  - the tab inputs as a record;
  - the assignments the four tabs make to `prompt`, in tab order;
  - `SelectPrompt`, the step-by-step reassignment as a method;
  - the precedence lemmas.
- `Conversation` (`conversation.dfy`):
  - the message log as a `Session` class;
  - its `Init`, `Clear`, `Submit` and `Run` methods;
  - the well-formedness invariant every reachable log keeps.

External collaborators are inputs or parameters:

- The image tab's base64 JPEG encoding is an opaque string.
- The speech recogniser's outcome is `Recognized(text) | Unknown | RequestErr`.
- A document is its declared MIME type, plus its UTF-8 decoding and the text of each PDF page.
- The model server is `backend: map<string, Json> -> Option<string>`.
  - It takes the payload dictionary.
  - `Some(r)` is the `response` field of the server's JSON answer.
  - `None` means posting or decoding raised an exception.

Facts about the code that shape the model:

- A failing request has no handler. The exception ends the run after line 144 has appended the user's turn, so `Session.Submit` with reply `None` appends only that turn.
- Messages are `{role, content}` records, with no sequence number and no image.
- Every tab may assign `prompt`, and the last assignment wins.
- Image decoding calls PIL with no handler; that path is left out below.

Python truthiness is modelled explicitly:

- `if prompt:` holds for a present, non-empty string (`Conversation.Submits`).
- `if image_base64:` holds for a present, non-empty string (`Gateway.HasImage`).
- `content[:3000]` counts code points; Dafny's `char` is a Unicode scalar value.

## Model

| member | source | states |
|---|---|---|
| `Extraction.TranscriptionText` | Python_project/demo.py:33-38 | A recognised transcription is returned verbatim. "Could not understand audio." is returned for an unintelligible recording and "API unavailable or request error." for a request error. Each failure text is non-empty. |
| `Extraction.DiagnosticsDistinct` | Python_project/demo.py:35-38 | The two failure texts differ, so the text shows which failure happened. |
| `Extraction.ReadFileContent` | Python_project/demo.py:40-47 | "text/plain" gives the decoded text. "application/pdf" gives the page texts joined by newlines, and "" when there are no pages. Any other type gives "Unsupported file format.". |
| `Extraction.SplitJoinLines` | Python_project/demo.py:45 | Splitting the newline join on newlines gives back the parts, for any non-empty list of parts without newlines. |
| `Extraction.JoinLinesLength` | Python_project/demo.py:45 | The join is as long as all parts together plus one newline between each pair of neighbours. |
| `Extraction.PageTexts` | Python_project/demo.py:45 | The generator taken page by page gives one text per page, in page order, and a page whose extraction yields nothing contributes "". |
| `Extraction.PdfContentRecoversPages` | Python_project/demo.py:43-45 | For a PDF with at least one page, whose page texts hold no newline, splitting the content on newlines gives exactly one piece per page. Each piece is that page's text, or "" for a page without text. |
| `Gateway.BuildPayload` | Python_project/demo.py:19-25 | The payload always has the keys model, prompt and stream. `stream` is false. It has an `images` key iff the image is present and non-empty, and `images` is then the one-element list holding that image. |
| `Gateway.ReadBuiltPayload` | Python_project/demo.py:19-25 | The server reads back the chosen model and the prompt verbatim, with streaming off. It reads the one image if there is one and no image otherwise. |
| `PromptSelection.Prefix` | Python_project/demo.py:123 | `s[:n]` is a prefix of `s` of length min(\|s\|, n). |
| `PromptSelection.LastAssignedAt` | Python_project/demo.py:94-129 | After the series of assignments to `prompt`, the value left is the last assignment made. |
| `PromptSelection.LastAssignedNone` | Python_project/demo.py:94-129 | The prompt stays `None` iff no tab assigns it. |
| `PromptSelection.SelectPrompt` | Python_project/demo.py:94-129 | Reassigning tab by tab leaves the last of the tab assignments listed in tab order by `PromptSelection.Assignments` (lines 100-129). The image is the uploaded image's encoding whenever an image is uploaded, whichever tab supplies the prompt. |
| `PromptSelection.PromptPrecedence` | Python_project/demo.py:98-129 | The prompt is chosen in this order: non-empty typed text first. Next is the file content cut to 3000 characters, if the ask button was pressed. Next is the transcription, if audio was uploaded. Last is the image question, if an image was uploaded. Otherwise there is no prompt. |
| `PromptSelection.TypedTextWins` | Python_project/demo.py:126-129 | Non-empty typed text is the prompt, whatever the other tabs hold. |
| `PromptSelection.FileNeedsAsk` | Python_project/demo.py:117-123 | A document whose ask button was not pressed leaves the prompt exactly as it would be with no document. |
| `PromptSelection.FilePromptTruncated` | Python_project/demo.py:119-123 | When the document is asked about and no text is typed, the prompt is a prefix of the content of length min(\|content\|, 3000). |
| `PromptSelection.AudioFailureBecomesPrompt` | Python_project/demo.py:107-114 | A failed recognition with no later prompt makes the prompt the diagnostic text itself. That text is non-empty, so it is submitted. |
| `Conversation.ExchangePreservesLog` | Python_project/demo.py:143-150 | Appending a non-empty prompt's exchange (`Conversation.ExchangeTurns`: the two appends of lines 144 and 150) keeps the log well formed and keeps the old log as a prefix. The log grows by two (user turn, then reply) when the server answers, and by one when the request raises. |
| `Conversation.ImageTravelsWithTypedPrompt` | Python_project/demo.py:94-129 | With an uploaded image and non-empty typed text, the prompt submits. The server reads the typed text as the prompt together with the image. |
| `Conversation.Session.constructor` | Python_project/demo.py:82 | A new session holds no "messages" key. |
| `Conversation.Session.Init` | Python_project/demo.py:80-83 | The first run seeds the log with the greeting alone. Later runs leave it unchanged. |
| `Conversation.Session.Clear` | Python_project/demo.py:88-89 | After "Clear Chat" the log is exactly the greeting, whatever it held before. |
| `Conversation.Session.Submit` | Python_project/demo.py:143-150 | An absent or empty prompt changes nothing. Otherwise the log becomes the old log plus the user turn and the server's reply to the payload built from the image, prompt and model (`Gateway.GetOllamaResponse`, lines 17-27). The reply is left out if the request raised. The log stays well formed. |
| `Conversation.Session.Run` | Python_project/demo.py:80-150 | One run of the script. "Clear Chat" leaves the greeting alone. Otherwise the log becomes the seeded or existing log plus the exchange for the selected prompt, with the uploaded image. |

## Left out

- Streamlit page setup, CSS, widgets, spinners and the rendering of chat messages (lines 52-78, 85-87, 99-102, 108-113, 118-121, 132-140, 145-153). Widget values are inputs of `PromptSelection.TabInputs`.
- `st.experimental_rerun()` (line 90). `Session.Run` ends the run right after `Clear`. The next run, which would start from the retained widget values, is not modelled.
- The HTTP POST and JSON decoding (lines 26-27). The server is the `backend` parameter. `json.dumps` key order is not modelled, because a map has no key order.
- Image decoding and JPEG/base64 re-encoding (lines 12-15, 101). The encoding is an opaque string. A PIL decoding exception is not modelled.
- Speech recognition (lines 30-34), PDF parsing (line 44) and UTF-8 decoding (line 42) are foreign libraries; their results are inputs. An exception from decoding a non-UTF-8 "text/plain" file is not modelled.
- Session.Run: covers only runs in which extraction completes. An exception raised while extracting ends the run before line 143 with the log untouched, and the model has no such outcome. This covers `sr.AudioFile`/`recognizer.record` on an unreadable recording (lines 31-32, outside the `try` of line 33), `PyPDF2.PdfReader` or `extract_text` on a malformed PDF (lines 44-45), UTF-8 decoding (line 42) and PIL decoding (line 101).
- The model names offered in the selectbox (line 87). The chosen model is an opaque string.
