/** Any sequence of store actions, run one after another from a given state, and what stays true
    along every such sequence: session storage only ever receives a non-empty buffer under the
    80,000-character ceiling together with a format, and a framed or query-loaded page never
    writes it at all. */
module StoreTraces {
  import opened Wrappers
  import opened Canonical
  import JsonApi
  import FM = FileModel

  /** One call of a public action of the store, with the outcomes of its collaborators. */
  datatype Action =
    | SetContents(args: FM.ContentsArgs)
    | SetFormat(format: FM.FileFormat)
    | SetFile(file: FM.File)
    | Clear
    | FetchUrl(fetched: Option<Json>)
    | CheckEditorSession(query: FM.Query, widget: bool, api: JsonApi.ApiCall, fetched: Option<Json>)
    | LoadFromApi(api: JsonApi.ApiCall)
    | SaveToApi(api: JsonApi.ApiCall)
    | SetError(error: Option<string>)
    | SetHasChanges(hasChanges: bool)
    | SetJsonSchema(jsonSchema: Option<Json>)
    | Flush

  function Step(s: FM.State, env: FM.Env, act: Action): FM.State
  {
    match act
    case SetContents(a) => FM.SetContents(s, env, a)
    case SetFormat(f) => FM.SetFormat(s, env, f)
    case SetFile(file) => FM.SetFile(s, env, file)
    case Clear => FM.Clear(s)
    case FetchUrl(fetched) => FM.FetchUrl(s, env, fetched)
    case CheckEditorSession(q, widget, api, fetched) => FM.CheckEditorSession(s, env, q, widget, api, fetched)
    case LoadFromApi(api) => FM.LoadFromApi(s, env, api)
    case SaveToApi(api) => FM.SaveToApi(s, env, api)
    case SetError(e) => FM.SetError(s, e)
    case SetHasChanges(b) => FM.SetHasChanges(s, b)
    case SetJsonSchema(j) => FM.SetJsonSchema(s, j)
    case Flush => FM.Flush(s, env)
  }

  function Run(s: FM.State, env: FM.Env, trace: seq<Action>): FM.State
    decreases |trace|
  {
    if trace == [] then s else Run(Step(s, env, trace[0]), env, trace[1..])
  }

  /** Running two traces one after the other is running their concatenation. */
  lemma {:induction false} RunAppend(s: FM.State, env: FM.Env, t1: seq<Action>, t2: seq<Action>)
    ensures Run(s, env, t1 + t2) == Run(Run(s, env, t1), env, t2)
    decreases |t1|
  {
    if t1 != [] {
      assert (t1 + t2)[0] == t1[0];
      assert (t1 + t2)[1..] == t1[1..] + t2;
      RunAppend(Step(s, env, t1[0]), env, t1[1..], t2);
    } else {
      assert t1 + t2 == t2;
    }
  }

  /** A burst of edits: one `setContents` call per argument, in order. */
  function Edits(args: seq<FM.ContentsArgs>): (trace: seq<Action>)
    ensures |trace| == |args|
    ensures forall i :: 0 <= i < |args| ==> trace[i] == SetContents(args[i])
    decreases |args|
  {
    if args == [] then [] else [SetContents(args[0])] + Edits(args[1..])
  }

  /** No edit of a burst reaches the renderer by itself: the json text changes only when the
      debounced update fires. */
  lemma {:induction false} EditsNeverRender(s: FM.State, env: FM.Env, args: seq<FM.ContentsArgs>)
    ensures Run(s, env, Edits(args)).rendererJson == s.rendererJson
    decreases |args|
  {
    if args != [] {
      assert Edits(args)[0] == SetContents(args[0]);
      assert Edits(args)[1..] == Edits(args[1..]);
      EditsNeverRender(FM.SetContents(s, env, args[0]), env, args[1..]);
    }
  }

  /** A trace of one action is that action's step. */
  lemma RunOne(s: FM.State, env: FM.Env, act: Action)
    ensures Run(s, env, [act]) == Step(s, env, act)
  {
    assert [act][1..] == [];
  }

  /** A burst followed by a flush, split at its last edit. */
  lemma EditsThenFlush(s: FM.State, env: FM.Env, args: seq<FM.ContentsArgs>)
    requires |args| >= 1
    ensures Run(s, env, Edits(args) + [Flush]) ==
            FM.Flush(FM.SetContents(Run(s, env, Edits(args[..|args| - 1])), env, args[|args| - 1]), env)
  {
    var a := args[|args| - 1];
    var prefix := args[..|args| - 1];
    var before := Run(s, env, Edits(prefix));
    assert Edits(args) == Edits(prefix) + [SetContents(a)];
    RunAppend(s, env, Edits(prefix), [SetContents(a)]);
    RunOne(before, env, SetContents(a));
    RunAppend(s, env, Edits(args), [Flush]);
    RunOne(FM.SetContents(before, env, a), env, Flush);
  }

  /** Any number of edits followed by one flush show the renderer the value of the last edit
      alone, when that edit converts and is not skipped; the slot is then empty, so a further
      flush changes nothing. */
  lemma BurstRendersLastEdit(s: FM.State, env: FM.Env, args: seq<FM.ContentsArgs>)
    requires |args| >= 1
    requires FM.Conversion(Run(s, env, Edits(args[..|args| - 1])), env, args[|args| - 1]).Ok?
    requires !FM.Skips(env, args[|args| - 1])
    ensures
      var last := FM.Conversion(Run(s, env, Edits(args[..|args| - 1])), env, args[|args| - 1]).value;
      var after := Run(s, env, Edits(args) + [Flush]);
      after.rendererJson == env.conv.stringify(last) && after.graphLoading && after.pending == None &&
      FM.Flush(after, env) == after
  {
    EditsThenFlush(s, env, args);
  }

  /** What the store may leave in session storage: a non-empty buffer under the ceiling, stored
      together with a format. */
  predicate Persistable(s: FM.State)
  {
    s.sessionContent.Some? && s.sessionContent.value != "" &&
    |s.sessionContent.value| < FM.MaxSessionLength && s.sessionFormat.Some?
  }

  /** Session storage is untouched, or holds what the store may write. */
  predicate SessionKeptOrPersistable(before: FM.State, after: FM.State)
  {
    (after.sessionContent == before.sessionContent && after.sessionFormat == before.sessionFormat) ||
    Persistable(after)
  }

  lemma StepKeepsSessionPersistable(s: FM.State, env: FM.Env, act: Action)
    ensures SessionKeptOrPersistable(s, Step(s, env, act))
  {
    match act
    case SetFormat(f) => SetFormatKeepsSessionPersistable(s, env, f);
    case _ =>
  }

  lemma FramedStepKeepsSession(s: FM.State, env: FM.Env, act: Action)
    requires env.isIframe || env.hrefHasQuery
    ensures Step(s, env, act).sessionContent == s.sessionContent
    ensures Step(s, env, act).sessionFormat == s.sessionFormat
  {
    match act
    case SetFormat(f) => SetFormatKeepsSessionPersistable(s, env, f);
    case _ =>
  }

  /** The format switch ends in `clear` or in one `setContents`; either way the session is kept or
      receives what `setContents` may write. */
  lemma SetFormatKeepsSessionPersistable(s: FM.State, env: FM.Env, f: FM.FileFormat)
    ensures SessionKeptOrPersistable(s, FM.SetFormat(s, env, f))
    ensures env.isIframe || env.hrefHasQuery ==>
      FM.SetFormat(s, env, f).sessionContent == s.sessionContent && FM.SetFormat(s, env, f).sessionFormat == s.sessionFormat
  {
    var text := FM.Reencoded(env, s.contents, s.format, f);
    if text.Ok? {
      assert FM.SetFormat(s, env, f) == FM.SetContents(s.(format := f), env, FM.Edit(text.value));
    }
  }

  /** Whatever actions run, session storage ends as it began or holds a non-empty buffer shorter
      than 80,000 characters and a format: a buffer of 80,000 characters or more is never persisted. */
  lemma {:induction false} RunKeepsSessionPersistable(s: FM.State, env: FM.Env, trace: seq<Action>)
    ensures SessionKeptOrPersistable(s, Run(s, env, trace))
    decreases |trace|
  {
    if trace != [] {
      var next := Step(s, env, trace[0]);
      StepKeepsSessionPersistable(s, env, trace[0]);
      RunKeepsSessionPersistable(next, env, trace[1..]);
    }
  }

  /** In a framed page, or one loaded with a query string, no sequence of actions writes session
      storage. */
  lemma {:induction false} FramedPageNeverPersists(s: FM.State, env: FM.Env, trace: seq<Action>)
    requires env.isIframe || env.hrefHasQuery
    ensures Run(s, env, trace).sessionContent == s.sessionContent
    ensures Run(s, env, trace).sessionFormat == s.sessionFormat
    decreases |trace|
  {
    if trace != [] {
      FramedStepKeepsSession(s, env, trace[0]);
      FramedPageNeverPersists(Step(s, env, trace[0]), env, trace[1..]);
    }
  }
}
