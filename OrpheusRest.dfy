/**
 * The REST client for the Orpheus text-to-speech server
 * (demoapp/source/orpheusclient.py): the base URL and its two endpoints, the
 * empty-text guard, the voice and output-path defaults, the request payload,
 * and the fallback of the voice listing.
 *
 * The HTTP exchanges are inputs: `response` is the audio the server sent back
 * or the `requests` error, and the file the audio is saved to is returned
 * rather than written.
 */
module OrpheusRest {
  import opened Wrappers
  import opened Strings
  import opened JsonValues

  const DefaultApiUrl := "http://localhost:5005"
  const DefaultVoice := "alloy"
  const SpeechPath := "/v1/audio/speech"
  const VoicesPath := "/v1/audio/voices"

  /** `api_url or os.environ.get("ORPHEUS_API_URL", default)`, less one trailing '/'. */
  function ResolveApiUrl(apiUrl: Option<string>, envUrl: Option<string>): (r: string)
    ensures apiUrl.Some? && apiUrl.value != "" ==> r == StripTrailingSlash(apiUrl.value)
    ensures apiUrl.None? || apiUrl.value == "" ==> r == StripTrailingSlash(envUrl.GetOr(DefaultApiUrl))
  {
    StripTrailingSlash(if apiUrl.Some? && apiUrl.value != "" then apiUrl.value else envUrl.GetOr(DefaultApiUrl))
  }

  /** A URL given with one trailing slash yields the same endpoints as without it. */
  lemma EndpointsIgnoreSlash(url: string)
    requires url != ""
    ensures ResolveApiUrl(Some(url + "/"), None) == url
    ensures !EndsWith(url, "/") ==> ResolveApiUrl(Some(url), None) == ResolveApiUrl(Some(url + "/"), None)
  {
    StripTrailingSlashOnce(url);
  }

  lemma DefaultEndpoints()
    ensures ResolveApiUrl(None, None) + SpeechPath == "http://localhost:5005/v1/audio/speech"
    ensures ResolveApiUrl(None, None) + VoicesPath == "http://localhost:5005/v1/audio/voices"
  {
    assert !EndsWith(DefaultApiUrl, "/");
  }

  /** `Path(directory) / name`. */
  function JoinPath(directory: string, name: string): (r: string)
    ensures EndsWith(r, name)
    ensures directory != "" && !EndsWith(directory, "/") ==> r == directory + "/" + name
  {
    if directory == "" then name
    else if EndsWith(directory, "/") then directory + name
    else directory + "/" + name
  }

  /** The temporary file name used when no output path is given. */
  function SpeechFileName(voice: string): string {
    "orpheus_speech_" + voice + ".wav"
  }

  /** The output path: the one given, or the voice's file in the temporary directory. */
  function OutputPath(outputFile: Option<string>, voice: string, tempDir: string): (r: string)
    ensures outputFile.Some? ==> r == outputFile.value
    ensures outputFile.None? ==> r == JoinPath(tempDir, SpeechFileName(voice)) && EndsWith(r, SpeechFileName(voice))
  {
    if outputFile.Some? then outputFile.value else JoinPath(tempDir, SpeechFileName(voice))
  }

  /** The JSON body of the synthesis POST. */
  datatype Payload = Payload(input: string, model: string, voice: string, responseFormat: string, speed: real)

  datatype SpeechRequest = SpeechRequest(url: string, payload: Payload, outputFile: string)

  /** The audio saved to disk: where and what. */
  datatype SavedFile = SavedFile(path: string, content: seq<bv8>)

  class OrpheusClient {
    var apiUrl: string
    var voice: string
    var speechEndpoint: string
    var voicesEndpoint: string

    /**
     * `__init__`, with ORPHEUS_API_URL as a parameter; `voice` is None when the
     * argument is omitted, which gives the default voice. The endpoints are
     * built after the slash is removed.
     */
    constructor(apiUrl: Option<string>, voice: Option<string>, envUrl: Option<string>)
      ensures this.apiUrl == ResolveApiUrl(apiUrl, envUrl) && this.voice == voice.GetOr(DefaultVoice)
      ensures speechEndpoint == this.apiUrl + SpeechPath && voicesEndpoint == this.apiUrl + VoicesPath
    {
      this.apiUrl := if apiUrl.Some? && apiUrl.value != "" then apiUrl.value else envUrl.GetOr(DefaultApiUrl);
      this.voice := voice.GetOr(DefaultVoice);
      speechEndpoint := "";
      voicesEndpoint := "";
      new;
      if EndsWith(this.apiUrl, "/") {
        this.apiUrl := this.apiUrl[..|this.apiUrl| - 1];
      }
      speechEndpoint := this.apiUrl + SpeechPath;
      voicesEndpoint := this.apiUrl + VoicesPath;
    }

    /** `voice or self.voice`. */
    function EffectiveVoice(requested: Option<string>): (v: string)
      reads this
      ensures requested.Some? && requested.value != "" ==> v == requested.value
      ensures requested.None? || requested.value == "" ==> v == voice
    {
      if requested.Some? && requested.value != "" then requested.value else voice
    }

    /**
     * The request `synthesize` would send: none for empty text; otherwise the
     * text with the fixed model and format, the effective voice, and the speed,
     * saved to the effective output path.
     */
    function SpeechRequestFor(text: string, outputFile: Option<string>, requested: Option<string>,
                              speed: real, tempDir: string): (r: Option<SpeechRequest>)
      reads this
      ensures r.None? <==> text == ""
      ensures r.Some? ==>
        && r.value.url == speechEndpoint
        && r.value.payload == Payload(text, "orpheus", EffectiveVoice(requested), "wav", speed)
        && r.value.outputFile == OutputPath(outputFile, EffectiveVoice(requested), tempDir)
    {
      if text == "" then None
      else
        var v := EffectiveVoice(requested);
        Some(SpeechRequest(speechEndpoint, Payload(text, "orpheus", v, "wav", speed), OutputPath(outputFile, v, tempDir)))
    }

    /**
     * `synthesize`: empty text returns None without a request; a failed request
     * returns None and saves nothing; a successful one saves the audio and
     * returns its path.
     */
    method Synthesize(text: string, outputFile: Option<string>, requested: Option<string>, speed: real,
                      tempDir: string, response: Result<seq<bv8>, string>)
      returns (path: Option<string>, request: Option<SpeechRequest>, saved: Option<SavedFile>)
      ensures request == SpeechRequestFor(text, outputFile, requested, speed, tempDir)
      ensures path.Some? <==> text != "" && response.Ok?
      ensures path.Some? ==> path.value == request.value.outputFile && saved == Some(SavedFile(path.value, response.value))
      ensures path.None? ==> saved.None?
    {
      if text == "" {
        return None, None, None;
      }
      var v := EffectiveVoice(requested);
      var out := OutputPath(outputFile, v, tempDir);
      var payload := Payload(text, "orpheus", v, "wav", speed);
      request := Some(SpeechRequest(speechEndpoint, payload, out));
      if response.Err? {
        return None, request, None;
      }
      saved := Some(SavedFile(out, response.value));
      path := Some(out);
    }

    /** `say`: `synthesize` with no output path, the given voice and speed 1.0. */
    method Say(text: string, requested: Option<string>, tempDir: string, response: Result<seq<bv8>, string>)
      returns (path: Option<string>, request: Option<SpeechRequest>, saved: Option<SavedFile>)
      ensures request == SpeechRequestFor(text, None, requested, 1.0, tempDir)
      ensures path.Some? <==> text != "" && response.Ok?
      ensures path.Some? ==>
        path.value == JoinPath(tempDir, SpeechFileName(EffectiveVoice(requested)))
        && saved == Some(SavedFile(path.value, response.value))
    {
      path, request, saved := Synthesize(text, None, requested, 1.0, tempDir, response);
    }

    /**
     * `get_available_voices`: the "voices" field of the answer, or [] when it is
     * missing or the request failed. A body that is not an object fails at `.get`,
     * which is not a request error and propagates.
     */
    method GetAvailableVoices(response: Result<Json, string>) returns (url: string, voices: Result<Json, string>)
      ensures url == voicesEndpoint
      ensures response.Err? ==> voices == Ok(JArray([]))
      ensures response.Ok? && response.value.JObject? ==>
        voices == Ok(if "voices" in response.value.fields then response.value.fields["voices"] else JArray([]))
      ensures response.Ok? && !response.value.JObject? ==> voices.Err?
    {
      url := voicesEndpoint;
      match response
      case Err(_) =>
        voices := Ok(JArray([]));
      case Ok(JObject(fields)) =>
        voices := Ok(if "voices" in fields then fields["voices"] else JArray([]));
      case Ok(_) =>
        voices := Err("AttributeError: 'get'");
    }
  }

  /** The demo's client: voice "leo", every sentence saved to "output.wav". */
  lemma DemoSpeechRequest(c: OrpheusClient, sentence: string, tempDir: string)
    requires c.voice == "leo" && sentence != ""
    ensures var r := c.SpeechRequestFor(sentence, Some("output.wav"), None, 1.0, tempDir);
      r.Some? && r.value.payload.voice == "leo" && r.value.outputFile == "output.wav"
  {
  }

  /** A request for an empty voice falls back to the client's voice, exactly as no voice does. */
  lemma EmptyVoiceIsDefault(c: OrpheusClient, text: string, outputFile: Option<string>, speed: real, tempDir: string)
    ensures c.SpeechRequestFor(text, outputFile, Some(""), speed, tempDir) == c.SpeechRequestFor(text, outputFile, None, speed, tempDir)
  {
  }
}
