/**
 * The request `get_ollama_response` sends to the local model server. The
 * payload is the dictionary the source serialises as JSON; the POST and the
 * decoding of the reply are a parameter, `backend`, of the one operation that
 * needs them.
 */
module Gateway {
  import opened Wrappers

  /** The JSON values that occur in a request payload. */
  datatype Json = JString(s: string) | JBool(b: bool) | JArray(items: seq<Json>)

  type Payload = map<string, Json>

  /**
   * What happens to one payload: `Some(reply)` with the `response` field of the
   * server's answer, or `None` when posting or decoding raises (the source has
   * no handler, so the exception leaves the script).
   */
  type Backend = Payload -> Option<string>

  /** Python truthiness of the optional base64 image: present and non-empty. */
  predicate HasImage(image: Option<string>)
  {
    image.Some? && image.value != ""
  }

  /**
   * The payload dictionary: model, prompt and `stream = false` always, and an
   * `images` list holding exactly the one image iff an image is present.
   */
  function BuildPayload(image: Option<string>, text: string, model: string): (p: Payload)
    ensures p.Keys == (if HasImage(image) then {"model", "prompt", "stream", "images"}
                       else {"model", "prompt", "stream"})
    ensures p["model"] == JString(model) && p["prompt"] == JString(text)
    ensures p["stream"] == JBool(false)
    ensures HasImage(image) ==> p["images"] == JArray([JString(image.value)])
  {
    var payload := map["model" := JString(model), "prompt" := JString(text), "stream" := JBool(false)];
    if HasImage(image) then payload["images" := JArray([JString(image.value)])]
    else payload
  }

  /** A generate request as the server reads it. */
  datatype Request = Request(model: string, prompt: string, images: seq<string>, stream: bool)

  /** The strings of a JSON array, if it holds only strings. */
  function Strings(items: seq<Json>): (r: Option<seq<string>>)
    ensures r.Some? ==> |r.value| == |items|
    ensures r.Some? ==> forall i :: 0 <= i < |items| ==> items[i] == JString(r.value[i])
  {
    if |items| == 0 then Some([])
    else if !items[0].JString? then None
    else
      var rest := Strings(items[1..]);
      if rest.None? then None else Some([items[0].s] + rest.value)
  }

  /**
   * How the server reads a payload: `model` and `prompt` must be strings,
   * `stream` a boolean, and `images`, if given, a list of strings.
   */
  function ReadRequest(p: Payload): Option<Request>
  {
    if "model" in p && p["model"].JString? && "prompt" in p && p["prompt"].JString?
       && "stream" in p && p["stream"].JBool?
    then
      if "images" !in p then Some(Request(p["model"].s, p["prompt"].s, [], p["stream"].b))
      else if p["images"].JArray? && Strings(p["images"].items).Some?
      then Some(Request(p["model"].s, p["prompt"].s, Strings(p["images"].items).value, p["stream"].b))
      else None
    else None
  }

  /**
   * The server reads back exactly what the source meant to send: the model,
   * the prompt verbatim, a non-streamed reply, and the one image when there is
   * one (no images otherwise).
   */
  lemma ReadBuiltPayload(image: Option<string>, text: string, model: string)
    ensures ReadRequest(BuildPayload(image, text, model))
            == Some(Request(model, text, if HasImage(image) then [image.value] else [], false))
  {
    if HasImage(image) {
      var items := [JString(image.value)];
      assert items[1..] == [];
      assert Strings(items[1..]) == Some([]);
      assert [image.value] + [] == [image.value];
      assert Strings(items) == Some([image.value]);
    }
  }

  /** `get_ollama_response`: post the payload and return the reply text. */
  function GetOllamaResponse(image: Option<string>, text: string, model: string, backend: Backend): Option<string>
  {
    backend(BuildPayload(image, text, model))
  }
}
