/** The document content store of src/store/useFile.ts as functions on a snapshot of everything its
    actions read or write: the store's own fields, the two session-storage keys, the renderer's
    json text and loading flags, and the debounce's pending slot. Each function is one action run
    to completion; the class in use_file.dfy performs the same steps field by field and is proved
    to end in the state these functions describe. */
module FileModel {
  import opened Wrappers
  import opened Canonical
  import JsonApi
  import Debounce

  /** The format tags of the editor (the enum itself lives in a file this model does not cover;
      only JSON is singled out by the store). */
  datatype FileFormat = JSON | YAML | CSV | XML | TOML

  /** What a converter throws. The store reads only `mark.snippet` and `message`, and only for
      truthiness, so an absent field and an empty one are both the empty string here. */
  datatype ConvError = ConvError(snippet: string, message: string)

  /** Collaborators whose code is not part of this model, as uninterpreted total functions:
      `contentToJson`, `jsonToContent`, `JSON.stringify(_, null, 2)`, `JSON.parse` and `isURL`. */
  datatype Converters = Converters(
    contentToJson: (string, FileFormat) -> Result<Json, ConvError>,
    jsonToContent: (string, FileFormat) -> Result<string, ConvError>,
    stringify: Json -> string,
    parse: string -> Option<Json>,
    isUrl: string -> bool)

  /** The store's fixed surroundings: the collaborators, the built-in default document (its
      pretty-printed text), the live-transform setting and the two page facts the session guard
      reads (`isIframe()` and whether `window.location.href` contains a `?`). */
  datatype Env = Env(
    conv: Converters,
    defaultJson: string,
    liveTransformEnabled: bool,
    isIframe: bool,
    hrefHasQuery: bool)

  /** A remote document as `setFile` receives it; a missing or empty `format` is `None`. */
  datatype File = File(
    id: string, views: int, ownerEmail: string, name: string, content: string,
    isPrivate: bool, format: Option<FileFormat>, createdAt: string, updatedAt: string)

  datatype State = State(
    // the store's own fields
    contents: string,
    format: FileFormat,
    error: Option<string>,
    hasChanges: bool,
    jsonSchema: Option<Json>,
    fileData: Option<File>,
    // session storage, keys `content` and `format`
    sessionContent: Option<string>,
    sessionFormat: Option<FileFormat>,
    // the renderer: the json store's text and loading flag, the graph's loading flag
    rendererJson: string,
    jsonLoading: bool,
    graphLoading: bool,
    // the debounce's pending value
    pending: Option<Json>)

  /** The argument of `setContents`; an omitted or empty `contents` is the empty string. */
  datatype ContentsArgs = ContentsArgs(contents: string, hasChanges: bool, skipUpdate: bool, format: Option<FileFormat>)

  /** The `json` query parameter of the page: absent, given once, or given several times. */
  datatype Query = NoQuery | Single(value: string) | Several(values: seq<string>)

  /** Buffers at least this long are never written to session storage. */
  const MaxSessionLength := 80000

  /** `setContents({ contents })`: `hasChanges` and `skipUpdate` take their defaults. */
  function Edit(contents: string): ContentsArgs
  {
    ContentsArgs(contents, true, false, None)
  }

  /** `setContents({ contents, hasChanges: false })`, how every load installs a document. */
  function Load(contents: string): ContentsArgs
  {
    ContentsArgs(contents, false, false, None)
  }

  /** The initial state of the store, inside the given session storage and renderer. */
  function Initial(env: Env, sessionContent: Option<string>, sessionFormat: Option<FileFormat>,
                   rendererJson: string, jsonLoading: bool, graphLoading: bool): State
  {
    State(env.defaultJson, JSON, None, false, None, None,
          sessionContent, sessionFormat, rendererJson, jsonLoading, graphLoading, None)
  }

  // ---------------------------------------------------------------- setContents

  /** The first `set` of `setContents`: the buffer only if a non-empty one is given, the error
      cleared, `hasChanges` as given, the format as given or kept. */
  function Installed(s: State, a: ContentsArgs): State
  {
    s.(contents := if a.contents != "" then a.contents else s.contents,
       error := None,
       hasChanges := a.hasChanges,
       format := if a.format.Some? then a.format.value else s.format)
  }

  /** The conversion `setContents` attempts: the installed buffer under the installed format. */
  function Conversion(s: State, env: Env, a: ContentsArgs): Result<Json, ConvError>
  {
    env.conv.contentToJson(Installed(s, a).contents, Installed(s, a).format)
  }

  /** Live transform off and `skipUpdate` set: a successful conversion is discarded. */
  predicate Skips(env: Env, a: ContentsArgs)
  {
    !env.liveTransformEnabled && a.skipUpdate
  }

  /** The session-persistence guard: real changes, a non-empty buffer under the ceiling, and a
      page that is neither framed nor loaded with a query string. */
  predicate PersistGuard(env: Env, a: ContentsArgs)
  {
    a.hasChanges && a.contents != "" && |a.contents| < MaxSessionLength && !env.isIframe && !env.hrefHasQuery
  }

  /** `setContents` writes session storage exactly when this holds. */
  predicate Persists(s: State, env: Env, a: ContentsArgs)
  {
    Conversion(s, env, a).Ok? && !Skips(env, a) && PersistGuard(env, a)
  }

  function SetContents(s: State, env: Env, a: ContentsArgs): (r: State)
    // the buffer: kept when no non-empty one is given
    ensures a.contents == "" ==> r.contents == s.contents
    ensures a.contents != "" ==> r.contents == a.contents
    ensures r.format == (if a.format.Some? then a.format.value else s.format)
    // a session write never changes hasChanges: it is already true
    ensures r.hasChanges == a.hasChanges
    ensures r.jsonSchema == s.jsonSchema && r.fileData == s.fileData && r.rendererJson == s.rendererJson
    // session storage: written with the argument and the current format, or untouched
    ensures Persists(s, env, a) ==> r.sessionContent == Some(a.contents) && r.sessionFormat == Some(r.format)
    ensures !Persists(s, env, a) ==> r.sessionContent == s.sessionContent && r.sessionFormat == s.sessionFormat
    // success: the error is cleared, the loading flags are untouched, the value is scheduled unless skipped
    ensures Conversion(s, env, a).Ok? ==>
      r.error == None && r.jsonLoading == s.jsonLoading && r.graphLoading == s.graphLoading &&
      r.pending == (if Skips(env, a) then s.pending else Some(Conversion(s, env, a).value))
    // failure: nothing is scheduled; a snippet wins over a message
    ensures Conversion(s, env, a).Err? ==> r.pending == s.pending
    ensures Conversion(s, env, a).Err? && Conversion(s, env, a).error.snippet != "" ==>
      r.error == Some(Conversion(s, env, a).error.snippet) &&
      r.jsonLoading == s.jsonLoading && r.graphLoading == s.graphLoading
    ensures Conversion(s, env, a).Err? && Conversion(s, env, a).error.snippet == "" ==>
      r.error == (if Conversion(s, env, a).error.message != "" then Some(Conversion(s, env, a).error.message) else None) &&
      !r.jsonLoading && !r.graphLoading
  {
    var s1 := Installed(s, a);
    Converted(s1, env, a, env.conv.contentToJson(s1.contents, s1.format))
  }

  /** The rest of `setContents` once the conversion has resolved, on the installed state `s1`. */
  function Converted(s1: State, env: Env, a: ContentsArgs, conversion: Result<Json, ConvError>): State
  {
    match conversion
    case Ok(json) => Propagated(s1, env, a, json)
    case Err(e) => Failed(s1, e)
  }

  /** A successful conversion: discarded when skipped, else persisted if the guard allows and
      handed to the debounce. */
  function Propagated(s1: State, env: Env, a: ContentsArgs, json: Json): State
  {
    var isFetchUrl := env.hrefHasQuery;
    if !env.liveTransformEnabled && a.skipUpdate then s1
    else
      var s2 :=
        if s1.hasChanges && a.contents != "" && |a.contents| < MaxSessionLength && !env.isIframe && !isFetchUrl
        then s1.(sessionContent := Some(a.contents), sessionFormat := Some(s1.format), hasChanges := true)
        else s1;
      s2.(pending := Debounce.Schedule(s2.pending, json))
  }

  /** A failed conversion: the snippet is recorded and nothing else happens; otherwise the message,
      if any, is recorded and both loading flags are cleared. */
  function Failed(s1: State, e: ConvError): State
  {
    if e.snippet != "" then s1.(error := Some(e.snippet))
    else
      var s2 := if e.message != "" then s1.(error := Some(e.message)) else s1;
      s2.(jsonLoading := false, graphLoading := false)
  }

  /** A buffer of 80,000 characters or more is never persisted, though it is still converted and
      propagated. */
  lemma LongBufferNotPersisted(s: State, env: Env, a: ContentsArgs)
    requires |a.contents| >= MaxSessionLength
    ensures SetContents(s, env, a).sessionContent == s.sessionContent
    ensures SetContents(s, env, a).sessionFormat == s.sessionFormat
    ensures SetContents(s, env, a).contents == a.contents
    ensures Conversion(s, env, a).Ok? && !Skips(env, a) ==> SetContents(s, env, a).pending == Some(Conversion(s, env, a).value)
  {
  }

  /** With live transform off, `skipUpdate` turns a successful conversion into neither a session
      write nor a propagation. */
  lemma SkippedUpdateIsSilent(s: State, env: Env, a: ContentsArgs)
    requires !env.liveTransformEnabled && a.skipUpdate
    ensures SetContents(s, env, a).sessionContent == s.sessionContent
    ensures SetContents(s, env, a).sessionFormat == s.sessionFormat
    ensures SetContents(s, env, a).pending == s.pending
  {
  }

  /** Calling `setContents` twice with the same argument ends where calling it once does. */
  lemma SetContentsIdempotent(s: State, env: Env, a: ContentsArgs)
    ensures SetContents(SetContents(s, env, a), env, a) == SetContents(s, env, a)
  {
    var r := SetContents(s, env, a);
    assert Installed(r, a) == r.(error := None);
    assert Conversion(r, env, a) == Conversion(s, env, a);
  }

  /** The store's `error` stays null after a failed conversion whose exception carries neither a
      snippet nor a message, although the buffer does not convert under its format. */
  lemma SilentFailureLeavesNoError(s: State, env: Env, a: ContentsArgs)
    requires Conversion(s, env, a) == Err(ConvError("", ""))
    ensures SetContents(s, env, a).error == None
    ensures env.conv.contentToJson(SetContents(s, env, a).contents, SetContents(s, env, a).format).Err?
  {
  }

  // ---------------------------------------------------------------- debounce flush

  /** The debounced callback firing: graph loading on, the renderer's json set to the
      pretty-printed pending value; nothing happens with nothing pending. */
  function Flush(s: State, env: Env): (r: State)
    ensures r.pending == None
    ensures s.pending.Some? ==> r.graphLoading && r.rendererJson == env.conv.stringify(s.pending.value)
    ensures s.pending.None? ==> r == s
    ensures r.(pending := s.pending, graphLoading := s.graphLoading, rendererJson := s.rendererJson) == s
  {
    var (rest, emitted) := Debounce.Fire(s.pending);
    if emitted == [] then s.(pending := rest)
    else s.(pending := rest, graphLoading := true, rendererJson := env.conv.stringify(emitted[0]))
  }

  /** Two edits before the quiet window ends reach the renderer as one update carrying the later
      edit's value. */
  lemma FlushShowsLastEdit(s: State, env: Env, a1: ContentsArgs, a2: ContentsArgs)
    requires Conversion(s, env, a1).Ok? && !Skips(env, a1)
    requires Conversion(SetContents(s, env, a1), env, a2).Ok? && !Skips(env, a2)
    ensures Flush(SetContents(SetContents(s, env, a1), env, a2), env).rendererJson ==
            env.conv.stringify(Conversion(SetContents(s, env, a1), env, a2).value)
    ensures Flush(SetContents(SetContents(s, env, a1), env, a2), env).pending == None
  {
  }

  // ---------------------------------------------------------------- clear, setFile, setters

  /** `clear`: the buffer emptied and the json store cleared; nothing else changes. */
  function Clear(s: State): (r: State)
    ensures r.contents == "" && r.rendererJson == ""
    ensures r.error == s.error && r.hasChanges == s.hasChanges && r.format == s.format
    ensures r.(contents := s.contents, rendererJson := s.rendererJson) == s
  {
    s.(contents := "", rendererJson := "")
  }

  /** `setFile`: the document and its format (JSON when it has none) installed as an unmodified load. */
  function SetFile(s: State, env: Env, file: File): (r: State)
    ensures r.fileData == Some(file)
    ensures r.format == (if file.format.Some? then file.format.value else JSON)
    ensures !r.hasChanges
    ensures r.contents == (if file.content != "" then file.content else s.contents)
    ensures r.sessionContent == s.sessionContent && r.sessionFormat == s.sessionFormat
    // everything else is what `setContents` makes of the content, under the file's format
    ensures r == SetContents(s.(fileData := Some(file), format := r.format), env, Load(file.content))
  {
    var s1 := s.(fileData := Some(file), format := if file.format.Some? then file.format.value else JSON);
    SetContents(s1, env, Load(file.content))
  }

  function SetError(s: State, error: Option<string>): State
  {
    s.(error := error)
  }

  function SetHasChanges(s: State, hasChanges: bool): State
  {
    s.(hasChanges := hasChanges)
  }

  function SetJsonSchema(s: State, jsonSchema: Option<Json>): State
  {
    s.(jsonSchema := jsonSchema)
  }

  // ---------------------------------------------------------------- setFormat

  /** The two conversions of a format switch: the buffer from its old format to the canonical
      value, then that value's pretty-printed text to the new format. */
  function Reencoded(env: Env, contents: string, from: FileFormat, to: FileFormat): Result<string, ConvError>
  {
    match env.conv.contentToJson(contents, from)
    case Err(e) => Err(e)
    case Ok(v) => env.conv.jsonToContent(env.conv.stringify(v), to)
  }

  /** `setFormat(f)`. The nested `setContents` is not awaited, so its own failures stay inside it;
      only a failure of the two conversions here reaches the `catch`, which clears the buffer. */
  function SetFormat(s: State, env: Env, f: FileFormat): (r: State)
    ensures r.format == f
    // all or nothing: a failed conversion leaves the cleared state under the new format
    ensures Reencoded(env, s.contents, s.format, f).Err? ==>
      r.contents == "" && r.rendererJson == "" &&
      r.(contents := s.contents, format := s.format, rendererJson := s.rendererJson) == s
    ensures Reencoded(env, s.contents, s.format, f).Ok? ==>
      r == SetContents(s.(format := f), env, Edit(Reencoded(env, s.contents, s.format, f).value))
  {
    var prevFormat := s.format;
    var s1 := s.(format := f);
    match env.conv.contentToJson(s1.contents, prevFormat)
    case Err(_) => Clear(s1)
    case Ok(contentJson) =>
      match env.conv.jsonToContent(env.conv.stringify(contentJson), f)
      case Err(_) => Clear(s1)
      case Ok(jsonContent) => SetContents(s1, env, Edit(jsonContent))
  }

  /** The round-trip law of the converters: re-encoding a value's pretty-printed text into a
      format and converting that text back gives the value again. */
  ghost predicate RoundTrips(conv: Converters)
  {
    forall v: Json, f: FileFormat :: conv.jsonToContent(conv.stringify(v), f).Ok? ==>
      conv.contentToJson(conv.jsonToContent(conv.stringify(v), f).value, f) == Ok(v)
  }

  /** Under the round-trip law, a successful format switch keeps the document: the new text
      converts without error to the canonical value of the old text, and that value is what is
      propagated to the renderer. */
  lemma SetFormatKeepsDocument(s: State, env: Env, f: FileFormat)
    requires RoundTrips(env.conv)
    requires env.conv.contentToJson(s.contents, s.format).Ok?
    requires Reencoded(env, s.contents, s.format, f).Ok? && Reencoded(env, s.contents, s.format, f).value != ""
    ensures SetFormat(s, env, f).format == f
    ensures SetFormat(s, env, f).contents == Reencoded(env, s.contents, s.format, f).value
    ensures SetFormat(s, env, f).error == None
    ensures SetFormat(s, env, f).pending == Some(env.conv.contentToJson(s.contents, s.format).value)
    ensures SetFormat(s, env, f).hasChanges
  {
    var v := env.conv.contentToJson(s.contents, s.format).value;
    var text := Reencoded(env, s.contents, s.format, f).value;
    assert env.conv.jsonToContent(env.conv.stringify(v), f) == Ok(text);
    assert Conversion(s.(format := f), env, Edit(text)) == Ok(v);
  }

  /** A switch whose re-encoded text is empty keeps the old buffer, now labelled with the new
      format: `setContents` ignores an empty `contents`. */
  lemma EmptyReencodingKeepsOldText(s: State, env: Env, f: FileFormat)
    requires Reencoded(env, s.contents, s.format, f) == Ok("")
    ensures SetFormat(s, env, f).contents == s.contents
    ensures SetFormat(s, env, f).format == f
  {
  }

  // ---------------------------------------------------------------- fetchUrl

  /** `fetchUrl`: the fetched value's pretty text installed as an edit (so `hasChanges` becomes
      true) and handed straight to the json store; a failed fetch or body parse (`None`) clears. */
  function FetchUrl(s: State, env: Env, fetched: Option<Json>): (r: State)
    ensures fetched.None? ==> r == Clear(s)
    ensures fetched.Some? ==>
      var text := env.conv.stringify(fetched.value);
      r.rendererJson == text && !r.jsonLoading && r.hasChanges &&
      r.contents == (if text != "" then text else s.contents)
    // the format, schema and file stay; the rest is what `setContents` makes of the text
    ensures r.format == s.format && r.jsonSchema == s.jsonSchema && r.fileData == s.fileData
    ensures fetched.Some? ==>
      var text := env.conv.stringify(fetched.value);
      r == SetContents(s, env, Edit(text)).(rendererJson := text, jsonLoading := false)
  {
    match fetched
    case None => Clear(s)
    case Some(json) =>
      var jsonStr := env.conv.stringify(json);
      SetContents(s, env, Edit(jsonStr)).(rendererJson := jsonStr, jsonLoading := false)
  }

  // ---------------------------------------------------------------- checkEditorSession

  /** `url && typeof url === "string" && isURL(url)`. */
  predicate IsUrlQuery(env: Env, q: Query)
  {
    q.Single? && q.value != "" && env.conv.isUrl(q.value)
  }

  /** `if (format) set({ format })` with the stored session format. */
  function WithSessionFormat(s: State): State
  {
    if s.sessionFormat.Some? then s.(format := s.sessionFormat.value) else s
  }

  /** Session content is used when it is present, non-empty and the page is not a widget. */
  predicate SessionUsable(s: State, widget: bool)
  {
    s.sessionContent.Some? && s.sessionContent.value != "" && !widget
  }

  /** The text a page load without a URL query installs, in the order `checkEditorSession` tries
      the sources: the remote document when the API returns data, else the session content when
      it is usable, else the built-in default document. Session content and format are read before
      the remote call, and a thrown call falls through like one without data. */
  function StartupText(s: State, env: Env, widget: bool, api: JsonApi.ApiCall): (text: string)
    ensures JsonApi.HasData(api) ==> text == env.conv.stringify(JsonApi.Payload(api))
    ensures !JsonApi.HasData(api) && SessionUsable(s, widget) ==> text == s.sessionContent.value
    ensures !JsonApi.HasData(api) && !SessionUsable(s, widget) ==> text == env.defaultJson
  {
    if api.Returned? && api.response.success && api.response.data.Some? && Truthy(api.response.data.value) then
      env.conv.stringify(api.response.data.value)
    else if s.sessionContent.Some? && s.sessionContent.value != "" && !widget then
      s.sessionContent.value
    else
      env.defaultJson
  }

  /** `checkEditorSession(url, widget)`, with the outcome of the remote `getJsonData` call and of the
      fetch `fetchUrl` would make given as parameters. */
  function CheckEditorSession(s: State, env: Env, q: Query, widget: bool, api: JsonApi.ApiCall, fetched: Option<Json>): (r: State)
    // anything else is an unmodified load of the startup text under the session format, which
    // writes no session storage
    ensures !IsUrlQuery(env, q) ==>
      var text := StartupText(s, env, widget, api);
      r.contents == (if text != "" then text else s.contents) &&
      !r.hasChanges &&
      r.format == (if s.sessionFormat.Some? then s.sessionFormat.value else s.format) &&
      r.sessionContent == s.sessionContent && r.sessionFormat == s.sessionFormat
    ensures !IsUrlQuery(env, q) ==>
      r == SetContents(WithSessionFormat(s), env, Load(StartupText(s, env, widget, api)))
    ensures IsUrlQuery(env, q) ==> r == FetchUrl(s, env, fetched)
  {
    if q.Single? && q.value != "" && env.conv.isUrl(q.value) then
      FetchUrl(s, env, fetched)
    else
      OpenStartupDocument(s, env, widget, api)
  }

  /** The non-URL branches of `checkEditorSession`: the session format, if stored, is applied and
      the startup text is installed as an unmodified load. */
  function OpenStartupDocument(s: State, env: Env, widget: bool, api: JsonApi.ApiCall): State
  {
    SetContents(WithSessionFormat(s), env, Load(StartupText(s, env, widget, api)))
  }

  /** A URL query is resolved without consulting the remote API, the widget flag or session
      storage: any other remote outcome, widget flag or stored session gives the same document. */
  lemma UrlQueryIgnoresRemoteAndSession(s: State, env: Env, q: Query, widget: bool, api: JsonApi.ApiCall,
                                        fetched: Option<Json>, widget': bool, api': JsonApi.ApiCall,
                                        sessionContent': Option<string>, sessionFormat': Option<FileFormat>)
    requires IsUrlQuery(env, q)
    ensures
      var r := CheckEditorSession(s, env, q, widget, api, fetched);
      var r' := CheckEditorSession(s.(sessionContent := sessionContent', sessionFormat := sessionFormat'),
                                   env, q, widget', api', fetched);
      r == FetchUrl(s, env, fetched) &&
      r'.contents == r.contents && r'.format == r.format && r'.error == r.error &&
      r'.hasChanges == r.hasChanges && r'.pending == r.pending && r'.rendererJson == r.rendererJson
  {
    var s' := s.(sessionContent := sessionContent', sessionFormat := sessionFormat');
    if fetched.Some? {
      var args := Edit(env.conv.stringify(fetched.value));
      assert Conversion(s', env, args) == Conversion(s, env, args);
    }
  }

  /** With no query and a remote API that returns data, the page opens that document's
      pretty-printed text as an unmodified load. */
  lemma RemoteDocumentOpensUnmodified(s: State, env: Env, widget: bool, api: JsonApi.ApiCall, fetched: Option<Json>)
    requires JsonApi.HasData(api)
    requires env.conv.stringify(JsonApi.Payload(api)) != ""
    ensures CheckEditorSession(s, env, NoQuery, widget, api, fetched).contents == env.conv.stringify(JsonApi.Payload(api))
    ensures !CheckEditorSession(s, env, NoQuery, widget, api, fetched).hasChanges
  {
  }

  // ---------------------------------------------------------------- remote load and save

  /** `loadFromApi`: a remote document with data is installed as an unmodified load; any other
      outcome leaves the state as it was. */
  function LoadFromApi(s: State, env: Env, api: JsonApi.ApiCall): (r: State)
    ensures JsonApi.HasData(api) ==> r == SetContents(s, env, Load(env.conv.stringify(JsonApi.Payload(api))))
    ensures JsonApi.HasData(api) ==> !r.hasChanges && r.sessionContent == s.sessionContent
    ensures !JsonApi.HasData(api) ==> r == s
  {
    match api
    case Threw => s
    case Returned(response) =>
      if response.success && response.data.Some? && Truthy(response.data.value) then
        SetContents(s, env, Load(env.conv.stringify(response.data.value)))
      else s
  }

  /** The value `saveToApi` sends, or `None` when it rejects the buffer before any network call:
      an empty buffer, or one `JSON.parse` rejects, whatever the current format. */
  function SaveRequest(s: State, env: Env): (request: Option<Json>)
    ensures s.contents == "" ==> request.None?
    ensures s.contents != "" ==> request == env.conv.parse(s.contents)
  {
    if s.contents == "" then None else env.conv.parse(s.contents)
  }

  /** `saveToApi`, given the outcome of the `updateJsonData` call it makes when the buffer passes
      the pre-checks: only `hasChanges` can change, and only a successful response clears it. */
  function SaveToApi(s: State, env: Env, api: JsonApi.ApiCall): (r: State)
    ensures SaveRequest(s, env).None? ==> r == s
    ensures r.hasChanges == (if SaveRequest(s, env).Some? && JsonApi.Succeeded(api) then false else s.hasChanges)
    ensures r.(hasChanges := s.hasChanges) == s
  {
    if s.contents == "" then s
    else
      match env.conv.parse(s.contents)
      case None => s
      case Some(_) =>
        if api.Returned? && api.response.success then s.(hasChanges := false) else s
  }
}
