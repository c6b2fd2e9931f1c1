/**
 * The REST client for the Whisper server used by the voice demo
 * (demoapp/source/whisperclient.py): base-URL normalisation, the request
 * headers, the multipart form fields, the dispatch on the kind of file
 * argument, and the response wrapper.
 *
 * The POST itself is an input: `response` is the decoded JSON the server
 * answered with, or the error `requests` raised. The file system is a map from
 * paths to contents.
 */
module WhisperRest {
  import opened Wrappers
  import opened Strings
  import opened JsonValues

  const DefaultBaseUrl := "http://localhost:8000"

  /** Python's `x or y` on an optional string: a missing or empty `x` gives `y`. */
  function Or(x: Option<string>, y: string): (r: string)
    ensures x.Some? && x.value != "" ==> r == x.value
    ensures x.None? || x.value == "" ==> r == y
  {
    if x.Some? && x.value != "" then x.value else y
  }

  /** `base_url or os.environ.get("WHISPER_API_URL", default)`, less one trailing '/'. */
  function ResolveBaseUrl(baseUrl: Option<string>, envUrl: Option<string>): string {
    StripTrailingSlash(Or(baseUrl, envUrl.GetOr(DefaultBaseUrl)))
  }

  /** `api_key or os.environ.get("WHISPER_API_KEY")`: possibly no key at all. */
  function ResolveApiKey(apiKey: Option<string>, envKey: Option<string>): (r: Option<string>)
    ensures apiKey.Some? && apiKey.value != "" ==> r == apiKey
    ensures apiKey.None? || apiKey.value == "" ==> r == envKey
  {
    if apiKey.Some? && apiKey.value != "" then apiKey else envKey
  }

  /** Exactly one trailing '/' goes: "x/" and "x" give the same base URL, "x//" keeps one slash. */
  lemma BaseUrlSlash(url: string)
    requires url != ""
    ensures !EndsWith(url, "/") ==> ResolveBaseUrl(Some(url), None) == url
    ensures ResolveBaseUrl(Some(url + "/"), None) == url
    ensures ResolveBaseUrl(Some(url + "//"), None) == url + "/"
  {
    assert Or(Some(url), DefaultBaseUrl) == url;
    assert Or(Some(url + "/"), DefaultBaseUrl) == url + "/";
    StripTrailingSlashOnce(url);
    assert url + "//" == (url + "/") + "/";
    assert Or(Some(url + "//"), DefaultBaseUrl) == (url + "/") + "/";
    StripTrailingSlashOnce(url + "/");
  }

  /** Without an argument or environment variable the local default is used; an empty argument counts as none. */
  lemma BaseUrlDefault()
    ensures ResolveBaseUrl(None, None) == DefaultBaseUrl
    ensures ResolveBaseUrl(Some(""), Some("http://asr:9000/")) == "http://asr:9000"
  {
    assert !EndsWith(DefaultBaseUrl, "/");
    StripTrailingSlashOnce("http://asr:9000");
  }

  // ---------------------------------------------------------------------------
  // Form fields (whisperclient.py:66-77)
  // ---------------------------------------------------------------------------

  datatype FormValue = Text(text: string) | Number(value: real)

  /** `data`: model and response format always; language and prompt when non-empty; temperature when given. */
  function FormData(model: string, responseFormat: string, language: Option<string>, prompt: Option<string>,
                    temperature: Option<real>): (d: map<string, FormValue>)
    ensures "model" in d && d["model"] == Text(model)
    ensures "response_format" in d && d["response_format"] == Text(responseFormat)
    ensures "language" in d <==> language.Some? && language.value != ""
    ensures "language" in d ==> d["language"] == Text(language.value)
    ensures "prompt" in d <==> prompt.Some? && prompt.value != ""
    ensures "prompt" in d ==> d["prompt"] == Text(prompt.value)
    ensures "temperature" in d <==> temperature.Some?
    ensures "temperature" in d ==> d["temperature"] == Number(temperature.value)
    ensures d.Keys <= {"model", "response_format", "language", "prompt", "temperature"}
  {
    var d := map["model" := Text(model), "response_format" := Text(responseFormat)];
    var d := if language.Some? && language.value != "" then d["language" := Text(language.value)] else d;
    var d := if prompt.Some? && prompt.value != "" then d["prompt" := Text(prompt.value)] else d;
    if temperature.Some? then d["temperature" := Number(temperature.value)] else d
  }

  /** A temperature of zero is sent, unlike an empty language or prompt. */
  lemma ZeroTemperatureSent()
    ensures FormData("whisper-large-v3", "json", Some(""), None, Some(0.0)).Keys == {"model", "response_format", "temperature"}
  {
  }

  // ---------------------------------------------------------------------------
  // The file argument (whisperclient.py:80-93)
  // ---------------------------------------------------------------------------

  /** The kinds of value `transcribe` accepts as `file`, in the order it tests them. */
  datatype FileArg =
    | Pair(first: string, second: seq<bv8>)  // a 2-tuple (filename, bytes)
    | OtherTuple(size: nat)                  // a tuple of any other length
    | Readable(handle: string)               // an object with a `read` attribute
    | PathArg(path: string)                  // a str or a Path
    | Unsupported

  /**
   * What is stored under `files["file"]`. A bare str is encoded by requests as
   * a file part named "file" whose content is the string itself.
   */
  datatype FilesValue = TextContent(text: string) | Stream(handle: string) | NamedBytes(name: string, content: seq<bv8>)

  datatype ClientError =
    | FileNotFoundError(message: string)
    | IsADirectoryError(path: string)
    | ValueError(message: string)
    | RequestError(message: string)
    | AttributeError(message: string)

  /** What the file system holds under a path: `exists()` is true for both. */
  datatype FsEntry = RegularFile(content: seq<bv8>) | Directory

  /** What follows the last '/' of a string (all of it when there is none). */
  function LastPart(path: string): (r: string)
    ensures forall i :: 0 <= i < |r| ==> r[i] != '/'
    ensures EndsWith(path, r)
    ensures r == path || path[|path| - |r| - 1] == '/'
    ensures path != [] && path[|path| - 1] != '/' ==> |r| > 0
  {
    if path == [] || path[|path| - 1] == '/' then ""
    else
      var r := LastPart(path[..|path| - 1]) + [path[|path| - 1]];
      assert path[|path| - |r|..] == path[..|path| - 1][|path| - |r|..] + [path[|path| - 1]];
      r
  }

  /** Every '/'-separated part of `s` is empty or "."; pathlib drops such parts. */
  predicate OnlyEmptyOrDotParts(s: string) {
    forall i :: 0 <= i < |s| ==> EmptyOrDotAt(s, i)
  }

  /** The character at `i` is a '/' or a "." part standing between '/'s or the ends. */
  predicate EmptyOrDotAt(s: string, i: nat)
    requires i < |s|
  {
    s[i] == '/' || (s[i] == '.' && (i == 0 || s[i - 1] == '/') && (i + 1 == |s| || s[i + 1] == '/'))
  }

  /** A '/', or a "." that starts a part, keeps every part empty or ".". */
  lemma OnlyEmptyOrDotPartsExtend(a: string, c: char)
    requires OnlyEmptyOrDotParts(a)
    requires c == '/' || (c == '.' && (a == [] || a[|a| - 1] == '/'))
    ensures OnlyEmptyOrDotParts(a + [c])
  {
    var b := a + [c];
    forall i | 0 <= i < |b|
      ensures EmptyOrDotAt(b, i)
    {
      if i < |a| {
        assert b[i] == a[i];
        assert EmptyOrDotAt(a, i);
        if i + 1 < |a| { assert b[i + 1] == a[i + 1]; }
        if i > 0 { assert b[i - 1] == a[i - 1]; }
      }
    }
  }

  /** A "." that is a whole part: at the start or right after a '/'. */
  predicate DotPartAt(s: string, i: nat)
    requires i < |s|
  {
    s[i] == '.' && (i == 0 || s[i - 1] == '/')
  }

  /**
   * Where the last part that pathlib keeps ends: after it come only empty and
   * "." parts, and the part ending there is neither empty nor ".".
   */
  function NameEnd(path: string): (n: nat)
    ensures n <= |path|
    ensures OnlyEmptyOrDotParts(path[n..])
    ensures n > 0 ==> path[n - 1] != '/' && !DotPartAt(path, n - 1)
    decreases |path|
  {
    if path == [] then 0
    else
      var m := |path| - 1;
      if path[m] == '/' || DotPartAt(path, m) then
        var n := NameEnd(path[..m]);
        assert path[n..] == path[..m][n..] + [path[m]];
        assert n < m ==> path[..m][|path[..m][n..]| + n - 1] == path[m - 1];
        OnlyEmptyOrDotPartsExtend(path[..m][n..], path[m]);
        n
      else
        assert path[|path|..] == [];
        |path|
  }

  /**
   * `Path(path).name`: the last part that is neither empty nor ".", so a
   * trailing '/' or "/." is ignored; "" when there is no such part.
   */
  function BaseName(path: string): (r: string)
    ensures forall i :: 0 <= i < |r| ==> r[i] != '/'
    ensures r != "."
    ensures EndsWith(path[..NameEnd(path)], r)
    ensures |r| == NameEnd(path) || path[NameEnd(path) - |r| - 1] == '/'
    ensures OnlyEmptyOrDotParts(path[NameEnd(path)..])
  {
    LastPart(path[..NameEnd(path)])
  }

  /** The name is empty exactly when every part of the path is empty or ".". */
  lemma BaseNameEmpty(path: string)
    ensures BaseName(path) == "" <==> OnlyEmptyOrDotParts(path)
  {
    var n := NameEnd(path);
    var r := BaseName(path);
    if r == "" {
      assert n == 0;
      assert path[0..] == path;
    } else {
      var j := n - |r|;
      assert path[j] == r[0] by { assert path[..n][j] == r[0]; }
      if r[0] == '.' {
        assert path[j + 1] == r[1] by { assert path[..n][j + 1] == r[1]; }
        assert !EmptyOrDotAt(path, j);
      } else {
        assert !EmptyOrDotAt(path, j);
      }
    }
  }

  /** The last part is what follows a '/' after which no '/' comes. */
  lemma LastPartAfter(path: string, m: nat)
    requires m < |path| && path[m] == '/'
    requires forall i :: m < i < |path| ==> path[i] != '/'
    ensures LastPart(path) == path[m + 1..]
  {
  }

  /** A plain file path: the name after the last '/'. */
  lemma BaseNameOfFile()
    ensures BaseName("audio/speech.wav") == "speech.wav"
  {
    assert NameEnd("audio/speech.wav") == 16;
    assert "audio/speech.wav"[..16] == "audio/speech.wav";
    LastPartAfter("audio/speech.wav", 5);
  }

  /** pathlib ignores a trailing '/'. */
  lemma BaseNameTrailingSlash()
    ensures BaseName("a/b/") == "b"
  {
    assert "a/b/"[..3] == "a/b";
    assert NameEnd("a/b/") == 3;
    LastPartAfter("a/b", 1);
  }

  /** pathlib ignores a trailing "." part. */
  lemma BaseNameTrailingDot()
    ensures BaseName("a/.") == "a"
  {
    assert "a/."[..2] == "a/" && "a/"[..1] == "a";
    assert NameEnd("a/.") == 1;
  }

  /** pathlib keeps a ".." part as the name. */
  lemma BaseNameParent()
    ensures BaseName("a/..") == ".."
  {
    assert NameEnd("a/..") == 4;
    assert "a/.."[..4] == "a/..";
    LastPartAfter("a/..", 1);
  }

  /** The root has no name. */
  lemma BaseNameRoot()
    ensures BaseName("/") == ""
  {
    assert "/"[..0] == "";
    assert NameEnd("/") == 0;
  }

  /**
   * The dispatch as written: a 2-tuple contributes only its first element, the
   * file name. A path that `exists()` but is a directory fails at `read_bytes()`.
   */
  function FilePartAsWritten(file: FileArg, fs: map<string, FsEntry>): (r: Result<FilesValue, ClientError>)
    ensures file.Pair? ==> r == Ok(TextContent(file.first))
    ensures file.Readable? ==> r == Ok(Stream(file.handle))
    ensures file.PathArg? ==>
      (file.path in fs && fs[file.path].RegularFile? ==> r == Ok(NamedBytes(BaseName(file.path), fs[file.path].content)))
      && (file.path in fs && fs[file.path].Directory? ==> r == Err(IsADirectoryError(file.path)))
      && (file.path !in fs ==> r == Err(FileNotFoundError("File not found: " + file.path)))
    ensures file.OtherTuple? || file.Unsupported? ==> r == Err(ValueError("Invalid file format"))
  {
    match file
    case Pair(name, _) => Ok(TextContent(name))
    case Readable(h) => Ok(Stream(h))
    case PathArg(p) =>
      if p !in fs then Err(FileNotFoundError("File not found: " + p))
      else if fs[p].Directory? then Err(IsADirectoryError(p))
      else Ok(NamedBytes(BaseName(p), fs[p].content))
    case _ => Err(ValueError("Invalid file format"))
  }

  /** The tuple branch as intended: the (filename, bytes) pair is uploaded as a named file. */
  function FilePart(file: FileArg, fs: map<string, FsEntry>): (r: Result<FilesValue, ClientError>)
    ensures file.Pair? ==> r == Ok(NamedBytes(file.first, file.second))
    ensures !file.Pair? ==> r == FilePartAsWritten(file, fs)
  {
    if file.Pair? then Ok(NamedBytes(file.first, file.second)) else FilePartAsWritten(file, fs)
  }

  /** Whatever the tuple holds, the bytes never reach the request as written. */
  lemma TupleBytesDropped(name: string, content: seq<bv8>, fs: map<string, FsEntry>)
    ensures FilePartAsWritten(Pair(name, content), fs).Ok?
    ensures !FilePartAsWritten(Pair(name, content), fs).value.NamedBytes?
    ensures FilePartAsWritten(Pair("speech.wav", [1, 2, 3]), fs) == Ok(TextContent("speech.wav"))
  {
  }

  /** Corrected, a tuple uploads exactly what reading the named file from disk uploads. */
  lemma TupleMatchesPath(path: string, fs: map<string, FsEntry>)
    requires path in fs && fs[path].RegularFile?
    ensures FilePart(Pair(BaseName(path), fs[path].content), fs) == FilePart(PathArg(path), fs)
    ensures FilePart(Pair(BaseName(path), fs[path].content), fs).value.content == fs[path].content
  {
  }

  // ---------------------------------------------------------------------------
  // The response wrapper (whisperclient.py:106-116)
  // ---------------------------------------------------------------------------

  datatype TranscriptionResponse = TranscriptionResponse(text: Json, result: map<string, Json>)

  /** `TranscriptionResponse(result)`: `text` defaults to "". */
  function NewTranscriptionResponse(result: map<string, Json>): (r: TranscriptionResponse)
    ensures r.result == result
    ensures "text" in result ==> r.text == result["text"]
    ensures "text" !in result ==> r.text == JString("")
  {
    TranscriptionResponse(if "text" in result then result["text"] else JString(""), result)
  }

  /**
   * Attribute access: `text` and `_result` are ordinary attributes; any other
   * name goes to `__getattr__`, which looks it up in the result or raises.
   */
  function GetAttribute(r: TranscriptionResponse, name: string): (v: Result<Json, ClientError>)
    ensures name == "text" ==> v == Ok(r.text)
    ensures name == "_result" ==> v == Ok(JObject(r.result))
    ensures name != "text" && name != "_result" ==>
      (v.Ok? <==> name in r.result) && (v.Ok? ==> v.value == r.result[name])
  {
    if name == "text" then Ok(r.text)
    else if name == "_result" then Ok(JObject(r.result))
    else if name in r.result then Ok(r.result[name])
    else Err(AttributeError("'TranscriptionResponse' has no attribute '" + name + "'"))
  }

  /** `response.json()` wrapped: a body that is not an object fails at `result.get`. */
  function ResponseFor(response: Result<Json, string>): (r: Result<TranscriptionResponse, ClientError>)
    ensures response.Err? ==> r == Err(RequestError(response.error))
    ensures response.Ok? && response.value.JObject? ==> r == Ok(NewTranscriptionResponse(response.value.fields))
    ensures response.Ok? && !response.value.JObject? ==> r.Err? && r.error.AttributeError?
  {
    match response
    case Err(e) => Err(RequestError(e))
    case Ok(JObject(fields)) => Ok(NewTranscriptionResponse(fields))
    case Ok(_) => Err(AttributeError("'get'"))
  }

  // ---------------------------------------------------------------------------
  // The client
  // ---------------------------------------------------------------------------

  datatype TranscribeRequest = TranscribeRequest(
    url: string, headers: map<string, string>, data: map<string, FormValue>, files: map<string, FilesValue>)

  class WhisperClient {
    var baseUrl: string
    var apiKey: Option<string>

    /** `__init__`, with the two environment variables as parameters. */
    constructor(baseUrl: Option<string>, apiKey: Option<string>, envUrl: Option<string>, envKey: Option<string>)
      ensures this.baseUrl == ResolveBaseUrl(baseUrl, envUrl)
      ensures this.apiKey == ResolveApiKey(apiKey, envKey)
    {
      this.baseUrl := Or(baseUrl, envUrl.GetOr(DefaultBaseUrl));
      this.apiKey := ResolveApiKey(apiKey, envKey);
      new;
      if EndsWith(this.baseUrl, "/") {
        this.baseUrl := this.baseUrl[..|this.baseUrl| - 1];
      }
    }

    /**
     * `_get_headers`: Accept is always JSON; a bearer token (section 2.1 of
     * RFC 6750) is sent exactly when there is a non-empty key.
     */
    function GetHeaders(): (h: map<string, string>)
      reads this
      ensures "Accept" in h && h["Accept"] == "application/json"
      ensures "Authorization" in h <==> apiKey.Some? && apiKey.value != ""
      ensures "Authorization" in h ==> h["Authorization"] == "Bearer " + apiKey.value
      ensures h.Keys <= {"Accept", "Authorization"}
    {
      var h := map["Accept" := "application/json"];
      if apiKey.Some? && apiKey.value != "" then h["Authorization" := "Bearer " + apiKey.value] else h
    }

    /** The headers of the POST: `Content-Type` is removed so that the multipart boundary is set by the library. */
    function RequestHeaders(): (h: map<string, string>)
      reads this
      ensures "Content-Type" !in h
      ensures h == GetHeaders()
    {
      GetHeaders() - {"Content-Type"}
    }

    /**
     * The request half of `transcribe`, given the outcome of the file-argument
     * dispatch: a failed dispatch raises before any request; otherwise one POST
     * to base_url + "/transcribe" with the headers, the form fields and the file
     * part, and the decoded answer wrapped.
     */
    method Post(part: Result<FilesValue, ClientError>, model: string, responseFormat: string,
                language: Option<string>, prompt: Option<string>, temperature: Option<real>,
                response: Result<Json, string>)
      returns (request: Option<TranscribeRequest>, r: Result<TranscriptionResponse, ClientError>)
      ensures part.Err? ==> request.None? && r == Err(part.error)
      ensures part.Ok? ==>
        && request == Some(TranscribeRequest(baseUrl + "/transcribe", RequestHeaders(),
                                             FormData(model, responseFormat, language, prompt, temperature),
                                             map["file" := part.value]))
        && r == ResponseFor(response)
    {
      var url := baseUrl + "/transcribe";
      var data := FormData(model, responseFormat, language, prompt, temperature);
      if part.Err? {
        return None, Err(part.error);
      }
      var files := map["file" := part.value];
      var headers := RequestHeaders();
      request := Some(TranscribeRequest(url, headers, data, files));
      r := ResponseFor(response);
    }

    /**
     * `transcribe` as written: the file part comes from the written dispatch,
     * so a (filename, bytes) tuple posts only its file name.
     */
    method Transcribe(file: FileArg, model: string, responseFormat: string, language: Option<string>,
                      prompt: Option<string>, temperature: Option<real>, fs: map<string, FsEntry>,
                      response: Result<Json, string>)
      returns (request: Option<TranscribeRequest>, r: Result<TranscriptionResponse, ClientError>)
      ensures FilePartAsWritten(file, fs).Err? ==> request.None? && r == Err(FilePartAsWritten(file, fs).error)
      ensures FilePartAsWritten(file, fs).Ok? ==>
        && request == Some(TranscribeRequest(baseUrl + "/transcribe", RequestHeaders(),
                                             FormData(model, responseFormat, language, prompt, temperature),
                                             map["file" := FilePartAsWritten(file, fs).value]))
        && r == ResponseFor(response)
      ensures file.Pair? ==> request.Some? && request.value.files["file"] == TextContent(file.first)
    {
      request, r := Post(FilePartAsWritten(file, fs), model, responseFormat, language, prompt, temperature, response);
    }

    /** `transcribe` with the corrected dispatch: a (filename, bytes) tuple posts its bytes under that name. */
    method TranscribeCorrected(file: FileArg, model: string, responseFormat: string, language: Option<string>,
                               prompt: Option<string>, temperature: Option<real>, fs: map<string, FsEntry>,
                               response: Result<Json, string>)
      returns (request: Option<TranscribeRequest>, r: Result<TranscriptionResponse, ClientError>)
      ensures FilePart(file, fs).Err? ==> request.None? && r == Err(FilePart(file, fs).error)
      ensures FilePart(file, fs).Ok? ==>
        && request == Some(TranscribeRequest(baseUrl + "/transcribe", RequestHeaders(),
                                             FormData(model, responseFormat, language, prompt, temperature),
                                             map["file" := FilePart(file, fs).value]))
        && r == ResponseFor(response)
      ensures file.Pair? ==> request.Some? && request.value.files["file"] == NamedBytes(file.first, file.second)
    {
      request, r := Post(FilePart(file, fs), model, responseFormat, language, prompt, temperature, response);
    }
  }

  /** A client built without a key sends no Authorization header; one with a key sends it. */
  lemma AuthorizationHeader(key: string)
    requires key != ""
    ensures ResolveApiKey(None, None).None?
    ensures ResolveApiKey(Some(""), Some(key)) == Some(key)
    ensures ResolveApiKey(Some(key), Some("other")) == Some(key)
  {
  }
}
