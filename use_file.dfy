/** The `useFile` store itself: one object whose actions update its fields step by step, as the
    zustand store does with successive `set` calls, together with the parts of its surroundings
    that those actions write (session storage, the renderer's flags and text, the debounce slot).
    Each action is one atomic method; its postcondition says the object ends in the state the
    matching function of FileModel describes, whose properties are proved there. */
module UseFile {
  import opened Wrappers
  import opened Canonical
  import JsonApi
  import Debounce
  import FM = FileModel

  class FileStore {
    /** The collaborators and page facts, fixed for the life of the store. */
    const env: FM.Env

    // the store's own fields
    var contents: string
    var format: FM.FileFormat
    var error: Option<string>
    var hasChanges: bool
    var jsonSchema: Option<Json>
    var fileData: Option<FM.File>

    // session storage, keys `content` and `format`
    var sessionContent: Option<string>
    var sessionFormat: Option<FM.FileFormat>

    // the renderer: the json store's text and loading flag, the graph's loading flag
    var rendererJson: string
    var jsonLoading: bool
    var graphLoading: bool

    // the value the debounced renderer update is waiting to deliver
    var pending: Option<Json>

    /** Everything the actions read or write, as one value. */
    function Snapshot(): FM.State
      reads this
    {
      FM.State(contents, format, error, hasChanges, jsonSchema, fileData,
               sessionContent, sessionFormat, rendererJson, jsonLoading, graphLoading, pending)
    }

    /** The store at start-up: the default document in JSON, no error, no changes, no schema,
        inside whatever session storage and renderer state the page already has. */
    constructor (env: FM.Env, sessionContent: Option<string>, sessionFormat: Option<FM.FileFormat>,
                 rendererJson: string, jsonLoading: bool, graphLoading: bool)
      ensures this.env == env
      ensures contents == env.defaultJson && format == FM.JSON && error == None
      ensures !hasChanges && jsonSchema == None && fileData == None && pending == None
      ensures Snapshot() == FM.Initial(env, sessionContent, sessionFormat, rendererJson, jsonLoading, graphLoading)
    {
      this.env := env;
      fileData := None;
      format := FM.JSON;
      contents := env.defaultJson;
      error := None;
      hasChanges := false;
      jsonSchema := None;
      this.sessionContent := sessionContent;
      this.sessionFormat := sessionFormat;
      this.rendererJson := rendererJson;
      this.jsonLoading := jsonLoading;
      this.graphLoading := graphLoading;
      pending := None;
    }

    /** `setContents`: install what is given, convert, then persist and propagate, or record the
        failure. */
    method SetContents(a: FM.ContentsArgs)
      modifies this
      ensures Snapshot() == FM.SetContents(old(Snapshot()), env, a)
    {
      ghost var before := Snapshot();
      if a.contents != "" {
        contents := a.contents;
      }
      error := None;
      hasChanges := a.hasChanges;
      format := if a.format.Some? then a.format.value else format;
      ghost var installed := Snapshot();
      assert installed == FM.Installed(before, a);

      var converted := env.conv.contentToJson(contents, format);
      assert FM.SetContents(before, env, a) == FM.Converted(installed, env, a, converted);
      match converted
      case Ok(json) => Propagate(a, json);
      case Err(e) => RecordFailure(e);
    }

    /** The success path of `setContents`: stop if the update is skipped, else write session
        storage when the guard allows and schedule the value for the renderer. */
    method Propagate(a: FM.ContentsArgs, json: Json)
      modifies this
      ensures Snapshot() == FM.Propagated(old(Snapshot()), env, a, json)
    {
      var isFetchUrl := env.hrefHasQuery;
      if !env.liveTransformEnabled && a.skipUpdate {
        return;
      }
      if hasChanges && a.contents != "" && |a.contents| < FM.MaxSessionLength && !env.isIframe && !isFetchUrl {
        sessionContent := Some(a.contents);
        sessionFormat := Some(format);
        hasChanges := true;
      }
      pending := Debounce.Schedule(pending, json);
    }

    /** The `catch` of `setContents`. */
    method RecordFailure(e: FM.ConvError)
      modifies this
      ensures Snapshot() == FM.Failed(old(Snapshot()), e)
    {
      if e.snippet != "" {
        error := Some(e.snippet);
        return;
      }
      if e.message != "" {
        error := Some(e.message);
      }
      jsonLoading := false;
      graphLoading := false;
    }

    /** The debounced renderer update firing at the end of its quiet window. */
    method Flush()
      modifies this
      ensures Snapshot() == FM.Flush(old(Snapshot()), env)
    {
      var (rest, emitted) := Debounce.Fire(pending);
      pending := rest;
      if emitted != [] {
        graphLoading := true;
        rendererJson := env.conv.stringify(emitted[0]);
      }
    }

    /** `clear`: empty the buffer and the json store. */
    method Clear()
      modifies this
      ensures Snapshot() == FM.Clear(old(Snapshot()))
    {
      contents := "";
      rendererJson := "";
    }

    method SetJsonSchema(jsonSchema: Option<Json>)
      modifies this
      ensures Snapshot() == FM.SetJsonSchema(old(Snapshot()), jsonSchema)
    {
      this.jsonSchema := jsonSchema;
    }

    method SetError(error: Option<string>)
      modifies this
      ensures Snapshot() == FM.SetError(old(Snapshot()), error)
    {
      this.error := error;
    }

    method SetHasChanges(hasChanges: bool)
      modifies this
      ensures Snapshot() == FM.SetHasChanges(old(Snapshot()), hasChanges)
    {
      this.hasChanges := hasChanges;
    }

    method GetContents() returns (c: string)
      ensures c == contents
    {
      c := contents;
    }

    method GetFormat() returns (f: FM.FileFormat)
      ensures f == format
    {
      f := format;
    }

    method GetHasChanges() returns (b: bool)
      ensures b == hasChanges
    {
      b := hasChanges;
    }

    /** `setFile`: record the document, take its format (JSON when it has none), install its
        content as an unmodified load. */
    method SetFile(file: FM.File)
      modifies this
      ensures Snapshot() == FM.SetFile(old(Snapshot()), env, file)
    {
      fileData := Some(file);
      format := if file.format.Some? then file.format.value else FM.JSON;
      SetContents(FM.Load(file.content));
    }

    /** `setFormat`: switch the format first, then re-encode the buffer through the canonical
        value; a failed conversion clears the buffer. */
    method SetFormat(f: FM.FileFormat)
      modifies this
      ensures Snapshot() == FM.SetFormat(old(Snapshot()), env, f)
    {
      var prevFormat := format;
      format := f;
      var contentJson := env.conv.contentToJson(contents, prevFormat);
      if contentJson.Err? {
        Clear();
        return;
      }
      var jsonContent := env.conv.jsonToContent(env.conv.stringify(contentJson.value), f);
      if jsonContent.Err? {
        Clear();
        return;
      }
      SetContents(FM.Edit(jsonContent.value));
    }

    /** `fetchUrl`, given what the fetch and body parse produced (`None` when either failed). */
    method FetchUrl(fetched: Option<Json>)
      modifies this
      ensures Snapshot() == FM.FetchUrl(old(Snapshot()), env, fetched)
    {
      if fetched.None? {
        Clear();
        return;
      }
      var jsonStr := env.conv.stringify(fetched.value);
      SetContents(FM.Edit(jsonStr));
      rendererJson := jsonStr;
      jsonLoading := false;
    }

    /** `checkEditorSession`: a URL query goes to `fetchUrl`; otherwise the remote document, the
        session content or the default document is installed, under the session format. */
    method CheckEditorSession(q: FM.Query, widget: bool, api: JsonApi.ApiCall, fetched: Option<Json>)
      modifies this
      ensures Snapshot() == FM.CheckEditorSession(old(Snapshot()), env, q, widget, api, fetched)
    {
      if q.Single? && q.value != "" && env.conv.isUrl(q.value) {
        FetchUrl(fetched);
        return;
      }
      OpenStartupDocument(widget, api);
    }

    /** The rest of `checkEditorSession`: read the stored session, pick the remote document, the
        session content or the default document, apply the stored format and install the text. */
    method OpenStartupDocument(widget: bool, api: JsonApi.ApiCall)
      modifies this
      ensures Snapshot() == FM.OpenStartupDocument(old(Snapshot()), env, widget, api)
    {
      ghost var before := Snapshot();
      var storedContent := sessionContent;
      var storedFormat := sessionFormat;

      // the remote document first; a thrown call or one without data falls through
      var text: string;
      if api.Returned? && api.response.success && api.response.data.Some? && Truthy(api.response.data.value) {
        text := env.conv.stringify(api.response.data.value);
      } else {
        text := env.defaultJson;
        if storedContent.Some? && storedContent.value != "" && !widget {
          text := storedContent.value;
        }
      }
      assert text == FM.StartupText(before, env, widget, api);
      if storedFormat.Some? {
        format := storedFormat.value;
      }
      assert Snapshot() == FM.WithSessionFormat(before);
      SetContents(FM.Load(text));
    }

    /** `loadFromApi`, given the outcome of the `getJsonData` call. */
    method LoadFromApi(api: JsonApi.ApiCall)
      modifies this
      ensures Snapshot() == FM.LoadFromApi(old(Snapshot()), env, api)
    {
      if api.Returned? && api.response.success && api.response.data.Some? && Truthy(api.response.data.value) {
        var jsonString := env.conv.stringify(api.response.data.value);
        SetContents(FM.Load(jsonString));
      }
    }

    /** `saveToApi`: returns the value sent to `updateJsonData`, or `None` when the pre-checks
        reject the buffer and no call is made; `api` is that call's outcome. */
    method SaveToApi(api: JsonApi.ApiCall) returns (request: Option<Json>)
      modifies this
      ensures request == FM.SaveRequest(old(Snapshot()), env)
      ensures Snapshot() == FM.SaveToApi(old(Snapshot()), env, api)
    {
      if contents == "" {
        return None;
      }
      var jsonData := env.conv.parse(contents);
      if jsonData.None? {
        return None;
      }
      request := jsonData;
      if api.Returned? && api.response.success {
        hasChanges := false;
      }
    }

    /** `isApiConnected`, given the outcome of the health check: its `success`, or `false` when the
        call threw; it never fails and changes nothing. */
    method IsApiConnected(health: JsonApi.ApiCall) returns (connected: bool)
      ensures connected == JsonApi.Succeeded(health)
      ensures health.Threw? ==> !connected
    {
      match health
      case Threw => connected := false;
      case Returned(response) => connected := response.success;
    }
  }
}
