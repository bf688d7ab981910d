/**
 * The bill-analysis action of convex/actions.ts: the uploaded bill is read from file
 * storage, Base64-encoded, sent with a prompt to a generative-language model, and the
 * JSON object in the model's reply is parsed into the bill's fields. Storage, the HTTP
 * calls and `JSON.parse` are parameters of the model.
 */
module Actions {
  import opened Wrappers
  import opened Base64

  /**
   * The string of byte-valued characters `btoa` accepts, then `btoa` itself: the Base64
   * encoding of the character codes, or `None` (an `InvalidCharacterError`) when some
   * character code is 256 or more.
   */
  function Btoa(s: string): (r: Option<string>)
    ensures r.Some? <==> forall i :: 0 <= i < |s| ==> s[i] as int < 256
  {
    if forall i :: 0 <= i < |s| ==> s[i] as int < 256 then
      Some(Encode(seq(|s|, i requires 0 <= i < |s| => s[i] as int as byte)))
    else None
  }

  /**
   * `toBase64`: one character per byte, with the byte as its code, appended in a loop;
   * then `btoa`. The result is the Base64 encoding of the bytes, which decodes back to them.
   */
  method ToBase64(bytes: seq<byte>) returns (encoded: string)
    ensures encoded == Encode(bytes)
    ensures Decode(encoded) == Some(bytes)
  {
    var binary := "";
    for i := 0 to |bytes|
      invariant |binary| == i
      invariant forall j :: 0 <= j < i ==> binary[j] as int == bytes[j] as int
    {
      binary := binary + [bytes[i] as int as char];
    }
    var result := Btoa(binary);
    assert seq(|binary|, i requires 0 <= i < |binary| => binary[i] as int as byte) == bytes;
    encoded := result.value;
    DecodeEncode(bytes);
  }

  /** The first position of `c` in `s`. */
  function FirstIndexOf(s: string, c: char): (r: Option<nat>)
    ensures r.Some? ==> r.value < |s| && s[r.value] == c && forall k :: 0 <= k < r.value ==> s[k] != c
    ensures r.None? ==> forall k :: 0 <= k < |s| ==> s[k] != c
  {
    if |s| == 0 then None
    else if s[0] == c then Some(0)
    else match FirstIndexOf(s[1..], c)
      case None => None
      case Some(k) => Some(k + 1)
  }

  /** The last position of `c` in `s`. */
  function LastIndexOf(s: string, c: char): (r: Option<nat>)
    ensures r.Some? ==> r.value < |s| && s[r.value] == c && forall k :: r.value < k < |s| ==> s[k] != c
    ensures r.None? ==> forall k :: 0 <= k < |s| ==> s[k] != c
  {
    if |s| == 0 then None
    else if s[|s| - 1] == c then Some(|s| - 1)
    else LastIndexOf(s[..|s| - 1], c)
  }

  /**
   * The match of the greedy `/\{[\s\S]*\}/`: it starts at the first `{` and, taking as
   * much as it can, ends at the last `}`; there is a match only when that `}` comes after
   * that `{`.
   */
  function MatchJsonObject(text: string): (r: Option<string>)
    ensures r.Some? <==> exists i, j :: 0 <= i < j < |text| && text[i] == '{' && text[j] == '}'
    ensures r.Some? ==>
              exists i, j :: && 0 <= i < j < |text| && r.value == text[i..j + 1]
                             && text[i] == '{' && (forall k :: 0 <= k < i ==> text[k] != '{')
                             && text[j] == '}' && (forall k :: j < k < |text| ==> text[k] != '}')
  {
    var open, close := FirstIndexOf(text, '{'), LastIndexOf(text, '}');
    if open.Some? && close.Some? && open.value < close.value then
      Some(text[open.value..close.value + 1])
    else
      assert forall i, j :: 0 <= i < j < |text| && text[i] == '{' && text[j] == '}' ==>
               open.Some? && close.Some? && open.value <= i && j <= close.value;
      None
  }

  /** The text handed to `JSON.parse`: the matched object, or the whole reply without a match. */
  function ExtractJson(text: string): (r: string)
    ensures MatchJsonObject(text).None? ==> r == text
    ensures MatchJsonObject(text).Some? ==> r == MatchJsonObject(text).value && r[0] == '{' && r[|r| - 1] == '}'
  {
    match MatchJsonObject(text)
    case Some(m) => if m != "" then m else text
    case None => text
  }

  /** A reply that is itself one brace-delimited text is handed to the parser whole. */
  lemma ExtractJsonWhole(text: string)
    requires |text| >= 2 && text[0] == '{' && text[|text| - 1] == '}'
    ensures ExtractJson(text) == text
  {
    var open, close := FirstIndexOf(text, '{'), LastIndexOf(text, '}');
    assert open == Some(0);
    assert close == Some(|text| - 1);
    assert text[0..|text|] == text;
  }

  /** Extracting from an extracted object changes nothing. */
  lemma ExtractJsonIdempotent(text: string)
    ensures ExtractJson(ExtractJson(text)) == ExtractJson(text)
  {
    var r := ExtractJson(text);
    if MatchJsonObject(text).Some? {
      assert |r| >= 2;
      ExtractJsonWhole(r);
    }
  }

  const ParseFailureMessage := "No se pudo procesar el formato de la factura"

  /** The action's value: the parsed bill data, or the failure message with the raw reply. */
  datatype Reply<D> = Parsed(data: D) | Unparsed(error: string, rawResponse: string)

  /**
   * The final try/catch: `parse` stands for `JSON.parse` (`None` when it throws).
   */
  function ParseReply<D>(text: string, parse: string -> Option<D>): Reply<D> {
    match parse(ExtractJson(text))
    case Some(data) => Parsed(data)
    case None => Unparsed(ParseFailureMessage, text)
  }

  /** A fetched file: its bytes and its MIME type (`""` when the server gave none). */
  datatype Blob = Blob(bytes: seq<byte>, mimeType: string)

  /** The model API's answer: the reply text, or a non-OK status with its body. */
  datatype ApiResponse = Ok(text: string) | NotOk(status: int, statusText: string, body: string)

  datatype ActionError =
    | MissingApiKey                                           // "Google API Key is not set ..."
    | FileNotFound                                            // "File not found in storage"
    | ApiError(status: int, statusText: string, body: string) // "Google AI API Error: ..."

  const DefaultMimeType := "image/jpeg"

  /**
   * `analyzeBill`: the API key must be set before storage or the network is touched; the
   * bill must resolve to a storage URL; the model's answer must be OK; the reply text is
   * then parsed. `getUrl`, `fetchFile` and `generate` stand for the storage lookup, the
   * file download and the model request (key, MIME type, Base64 data).
   */
  method AnalyzeBill<D>(
    apiKey: Option<string>, storageId: string,
    getUrl: string -> Option<string>, fetchFile: string -> Blob,
    generate: (string, string, string) -> ApiResponse, parse: string -> Option<D>)
    returns (r: Result<Reply<D>, ActionError>)
    ensures apiKey.None? || apiKey.value == "" ==> r == Failure(MissingApiKey)
    ensures (&& apiKey.Some? && apiKey.value != ""
             && (getUrl(storageId).None? || getUrl(storageId).value == "")) ==> r == Failure(FileNotFound)
    ensures r.Success? ==>
              && apiKey.Some? && apiKey.value != "" && getUrl(storageId).Some? && getUrl(storageId).value != ""
              && var blob := fetchFile(getUrl(storageId).value);
                 var mime := if blob.mimeType != "" then blob.mimeType else DefaultMimeType;
                 var response := generate(apiKey.value, mime, Encode(blob.bytes));
                 response.Ok? && r.value == ParseReply(response.text, parse)
    ensures r == Failure(MissingApiKey) ==> apiKey.None? || apiKey.value == ""
    ensures r == Failure(FileNotFound) ==>
              apiKey.Some? && apiKey.value != "" && (getUrl(storageId).None? || getUrl(storageId).value == "")
    ensures (&& apiKey.Some? && apiKey.value != "" && getUrl(storageId).Some? && getUrl(storageId).value != "") ==>
              var blob := fetchFile(getUrl(storageId).value);
              var mime := if blob.mimeType != "" then blob.mimeType else DefaultMimeType;
              var response := generate(apiKey.value, mime, Encode(blob.bytes));
              && (response.Ok? ==> r == Success(ParseReply(response.text, parse)))
              && (response.NotOk? ==> r == Failure(ApiError(response.status, response.statusText, response.body)))
    ensures r.Failure? && r.error.ApiError? ==>
              && apiKey.Some? && getUrl(storageId).Some?
              && var blob := fetchFile(getUrl(storageId).value);
                 var mime := if blob.mimeType != "" then blob.mimeType else DefaultMimeType;
                 generate(apiKey.value, mime, Encode(blob.bytes)) ==
                   NotOk(r.error.status, r.error.statusText, r.error.body)
  {
    if apiKey.None? || apiKey.value == "" {
      return Failure(MissingApiKey);
    }
    var imageUrl := getUrl(storageId);
    if imageUrl.None? || imageUrl.value == "" {
      return Failure(FileNotFound);
    }
    var blob := fetchFile(imageUrl.value);
    var mimeType := if blob.mimeType != "" then blob.mimeType else DefaultMimeType;
    var data := ToBase64(blob.bytes);
    var response := generate(apiKey.value, mimeType, data);
    if response.NotOk? {
      return Failure(ApiError(response.status, response.statusText, response.body));
    }
    r := Success(ParseReply(response.text, parse));
  }
}
