/**
 * The conversation-context builder of the backend (backend/src/ai_tasks/ai_tasks.py): the
 * list of `{role, content}` items sent to the AI model, edited in place; the normalisation
 * of the model's reply; and the data-analysis prompt. The HTTP call to the model is a
 * function parameter from the request payload to the parsed JSON reply.
 */
module Tasks {
  import opened Wrappers
  import opened Text
  import opened Py
  import Serializer

  /** `ChatContextItem`. */
  datatype ContextItem = ContextItem(role: string, content: string)

  /** `AiGeneratorConfig`. */
  datatype GeneratorConfig = GeneratorConfig(baseUrl: string, aiModelName: string)

  /** `AiResponse`: the reply text, the whole context after the exchange, and the generator used. */
  datatype AiResponse = AiResponse(response: string, updatedContext: seq<ContextItem>, config: GeneratorConfig)

  /** `AiRequest`: the payload sent to the model. */
  datatype AiRequest = AiRequest(messages: seq<ContextItem>, model: string)

  /** The exception `_extract_data_from_response` raises for a malformed reply. */
  const InvalidFormat := ValueError("Invalid AI response format")

  /** A Python list of context items, which the builder edits in place. */
  class ChatList {
    var items: seq<ContextItem>

    constructor (items: seq<ContextItem>)
      ensures this.items == items
    {
      this.items := items;
    }
  }

  function SystemItem(text: string): ContextItem
  {
    ContextItem("system", text)
  }

  function UserItem(text: string): ContextItem
  {
    ContextItem("user", text)
  }

  /**
   * The context after `_update_system_context`. An empty context becomes the single system
   * item. When appending is asked for and item 0 is a system item, its content gets a space
   * and the new text; nothing else changes. Otherwise a new system item is put in front and
   * every previous item moves up by one, even when item 0 is already a system item.
   */
  function WithSystemContext(items: seq<ContextItem>, text: string, append: bool): (r: seq<ContextItem>)
    ensures |r| >= 1 && r[0].role == "system" && EndsWith(r[0].content, text)
    ensures |items| == 0 ==> r == [SystemItem(text)]
    ensures |items| > 0 && append && items[0].role == "system" ==>
      |r| == |items| && r[0].content == items[0].content + " " + text && r[1..] == items[1..]
    ensures |items| > 0 && !(append && items[0].role == "system") ==>
      |r| == |items| + 1 && r[0] == SystemItem(text) && r[1..] == items
  {
    if |items| == 0 then [SystemItem(text)]
    else if append && items[0].role == "system" then items[0 := items[0].(content := items[0].content + " " + text)]
    else [SystemItem(text)] + items
  }

  /**
   * The context after `_update_context`: the system context (when given) is applied first,
   * then the latest message (when given) is appended, so it always ends up last.
   */
  function UpdatedContext(items: seq<ContextItem>, latest: Option<ContextItem>, systemContext: Option<string>, append: bool): (r: seq<ContextItem>)
    ensures latest.Some? ==> |r| >= 1 && r[|r| - 1] == latest.value
    ensures latest.Some? ==> r[..|r| - 1] == (if systemContext.Some? then WithSystemContext(items, systemContext.value, append) else items)
    ensures latest.None? && systemContext.None? ==> r == items
  {
    var withSystem := if systemContext.Some? then WithSystemContext(items, systemContext.value, append) else items;
    if latest.Some? then withSystem + [latest.value] else withSystem
  }

  /** Subscription `v[key]` of a value by a string key. */
  function Subscript(v: Value, key: string): (r: Result<Value, Error>)
    ensures r.Ok? <==> v.Dict? && key in v.entries
    ensures r.Ok? ==> r.value == v.entries[key]
    ensures r.Err? ==> r.error == (if v.Dict? then KeyError else TypeError)
  {
    if !v.Dict? then Err(TypeError)
    else if key !in v.entries then Err(KeyError)
    else Ok(v.entries[key])
  }

  /** `choice["message"]["content"]`. */
  function ChoiceContent(choice: Value): Result<Value, Error>
  {
    var message := Subscript(choice, "message");
    if message.Err? then Err(message.error) else Subscript(message.value, "content")
  }

  /** The contents of a list of choices, in order; the first failing choice decides the error. */
  function ContentsOf(choices: seq<Value>): (r: Result<seq<Value>, Error>)
    ensures r.Ok? ==> |r.value| == |choices|
    ensures r.Ok? ==> forall i :: 0 <= i < |choices| ==> ChoiceContent(choices[i]) == Ok(r.value[i])
    ensures (forall i :: 0 <= i < |choices| ==> ChoiceContent(choices[i]).Ok?) ==> r.Ok?
  {
    if |choices| == 0 then Ok([])
    else
      var first := ChoiceContent(choices[0]);
      var rest := ContentsOf(choices[1..]);
      if first.Err? then Err(first.error)
      else if rest.Err? then Err(rest.error)
      else Ok([first.value] + rest.value)
  }

  /**
   * `[choice["message"]["content"] for choice in choices]`. Iterating a string or a dict
   * yields strings, which cannot be subscripted by a string, so only an empty one gets
   * through; any other value is not iterable.
   */
  function ChoiceContents(choices: Value): Result<seq<Value>, Error>
  {
    match choices
    case List(items) => ContentsOf(items)
    case Str(s) => if s == "" then Ok([]) else Err(TypeError)
    case Dict(m) => if |m| == 0 then Ok([]) else Err(TypeError)
    case _ => Err(TypeError)
  }

  /** `" ".join(values)` needs every value to be a string. */
  function StringsOf(values: seq<Value>): (r: Result<seq<string>, Error>)
    ensures r.Ok? <==> forall i :: 0 <= i < |values| ==> values[i].Str?
    ensures r.Ok? ==> |r.value| == |values| && forall i :: 0 <= i < |values| ==> r.value[i] == values[i].s
  {
    if forall i :: 0 <= i < |values| ==> values[i].Str?
    then Ok(seq(|values|, i requires 0 <= i < |values| => values[i].s))
    else Err(TypeError)
  }

  /**
   * The texts of all choices, in choice order. A missing key is reported as the
   * `ValueError` the source raises; a value of the wrong type raises `TypeError`.
   */
  function ChoiceTexts(response: Value): Result<seq<string>, Error>
  {
    var contents :=
      match Subscript(response, "choices")
      case Err(e) => Err(e)
      case Ok(choices) => ChoiceContents(choices);
    if contents.Err? then Err(if contents.error == KeyError then InvalidFormat else contents.error)
    else StringsOf(contents.value)
  }

  /** `re.sub(r"^\s+|\s+$", " ", s)`: the leading and the trailing run of whitespace each become one space. */
  function SubstituteOuterWhitespace(s: string): string
  {
    var rest := s[LeadingRun(s, IsPySpace)..];
    var trail := TrailingRun(rest, IsPySpace);
    (if LeadingRun(s, IsPySpace) > 0 then " " else "") + rest[..|rest| - trail] + (if trail > 0 then " " else "")
  }

  /**
   * The substitution followed by `strip()` is `strip()` alone: only outer whitespace goes,
   * and whitespace inside the text (newlines included) survives.
   */
  lemma NormalisationIsStrip(s: string)
    ensures StripBy(SubstituteOuterWhitespace(s), IsPySpace) == StripBy(s, IsPySpace)
  {
    var core := StripBy(s, IsPySpace);
    var a := if LeadingRun(s, IsPySpace) > 0 then " " else "";
    var b := if TrailingRun(s[LeadingRun(s, IsPySpace)..], IsPySpace) > 0 then " " else "";
    assert SubstituteOuterWhitespace(s) == a + core + b;
    assert IsPySpace(' ');
    StripFramed(a, core, b, IsPySpace);
  }

  /**
   * `_extract_data_from_response`: an assistant item whose content is the choices' texts
   * joined by single spaces, in choice order, with outer whitespace removed.
   */
  function ExtractDataFromResponse(response: Value): (r: Result<ContextItem, Error>)
    ensures r.Ok? ==> r.value.role == "assistant"
    ensures ChoiceTexts(response).Err? ==> r == Err(ChoiceTexts(response).error)
    ensures ChoiceTexts(response).Ok? ==>
      r == Ok(ContextItem("assistant", StripBy(Join(ChoiceTexts(response).value, " "), IsPySpace)))
  {
    match ChoiceTexts(response)
    case Err(e) => Err(e)
    case Ok(texts) =>
      var joined := Join(texts, " ");
      NormalisationIsStrip(joined);
      Ok(ContextItem("assistant", StripBy(SubstituteOuterWhitespace(joined), IsPySpace)))
  }

  /** A response without a "choices" key is rejected as malformed. */
  lemma MissingChoicesIsInvalidFormat(response: Value)
    requires response.Dict? && "choices" !in response.entries
    ensures ExtractDataFromResponse(response) == Err(InvalidFormat)
  {
  }

  /**
   * A list of choices in which choice `i` lacks "message" or "content" (and every earlier
   * choice is well formed) is rejected as malformed.
   */
  lemma MissingChoiceKeyIsInvalidFormat(response: Value, i: nat)
    requires response.Dict? && "choices" in response.entries && response.entries["choices"].List?
    requires i < |response.entries["choices"].items|
    requires forall j :: 0 <= j < i ==> ChoiceContent(response.entries["choices"].items[j]).Ok?
    requires ChoiceContent(response.entries["choices"].items[i]) == Err(KeyError)
    ensures ExtractDataFromResponse(response) == Err(InvalidFormat)
  {
    var choices := response.entries["choices"];
    ContentsFirstError(choices.items, i);
    assert Subscript(response, "choices") == Ok(choices);
    assert ChoiceContents(choices) == Err(KeyError);
  }

  /** The contents of a list of choices fail with the error of the first failing choice. */
  lemma {:induction false} ContentsFirstError(choices: seq<Value>, i: nat)
    requires i < |choices|
    requires forall j :: 0 <= j < i ==> ChoiceContent(choices[j]).Ok?
    requires ChoiceContent(choices[i]).Err?
    ensures ContentsOf(choices) == Err(ChoiceContent(choices[i]).error)
    decreases i
  {
    if i > 0 {
      ContentsFirstError(choices[1..], i - 1);
    }
  }

  /** A well-formed reply with one choice gives that choice's text with its outer whitespace removed. */
  lemma SingleChoiceReply(text: string)
    ensures var response := Dict(map["choices" := List([Dict(map["message" := Dict(map["content" := Str(text)])])])]);
            ExtractDataFromResponse(response) == Ok(ContextItem("assistant", StripBy(text, IsPySpace)))
  {
    var message := Dict(map["content" := Str(text)]);
    var choice := Dict(map["message" := message]);
    assert Subscript(choice, "message") == Ok(message);
    assert Subscript(message, "content") == Ok(Str(text));
    assert ContentsOf([choice]) == Ok([Str(text)]) by {
      assert [choice][1..] == [];
      assert ContentsOf([]) == Ok([]);
      assert [Str(text)] + [] == [Str(text)];
    }
    assert seq(1, i requires 0 <= i < 1 => [Str(text)][i].s) == [text];
    assert StringsOf([Str(text)]) == Ok([text]);
    assert Join([text], " ") == text;
  }

  /** A choice `{"message": {"content": text}}`. */
  function ChoiceWith(text: string): Value
  {
    Dict(map["message" := Dict(map["content" := Str(text)])])
  }

  /** A reply `{"choices": [...]}` with one well-formed choice per text. */
  function ReplyWith(texts: seq<string>): Value
  {
    Dict(map["choices" := List(seq(|texts|, i requires 0 <= i < |texts| => ChoiceWith(texts[i])))])
  }

  lemma ChoiceWithContent(text: string)
    ensures ChoiceContent(ChoiceWith(text)) == Ok(Str(text))
  {
    var message := Dict(map["content" := Str(text)]);
    assert Subscript(ChoiceWith(text), "message") == Ok(message);
    assert Subscript(message, "content") == Ok(Str(text));
  }

  /** The texts of a reply of well-formed choices are the texts it was built from. */
  lemma ReplyWithTexts(texts: seq<string>)
    ensures ChoiceTexts(ReplyWith(texts)) == Ok(texts)
  {
    var choices := seq(|texts|, i requires 0 <= i < |texts| => ChoiceWith(texts[i]));
    forall i | 0 <= i < |choices|
      ensures ChoiceContent(choices[i]) == Ok(Str(texts[i]))
    {
      ChoiceWithContent(texts[i]);
    }
    assert Subscript(ReplyWith(texts), "choices") == Ok(List(choices));
    var contents := ContentsOf(choices).value;
    assert forall i :: 0 <= i < |texts| ==> contents[i] == Str(texts[i]);
    assert StringsOf(contents).value == texts;
  }

  /**
   * A well-formed reply with any number of choices gives the choices' texts joined by single
   * spaces, in choice order, with the outer whitespace removed.
   */
  lemma WellFormedReply(texts: seq<string>)
    ensures ExtractDataFromResponse(ReplyWith(texts)) == Ok(ContextItem("assistant", StripBy(Join(texts, " "), IsPySpace)))
  {
    ReplyWithTexts(texts);
  }

  /**
   * Whitespace inside a reply (newlines included) survives the normalisation; only the
   * whitespace around it goes.
   */
  lemma InteriorWhitespaceSurvives(a: string, m: string, b: string)
    requires forall i :: 0 <= i < |a| ==> IsPySpace(a[i])
    requires forall i :: 0 <= i < |b| ==> IsPySpace(b[i])
    requires m == [] || (!IsPySpace(m[0]) && !IsPySpace(m[|m| - 1]))
    ensures StripBy(SubstituteOuterWhitespace(a + m + b), IsPySpace) == m
  {
    NormalisationIsStrip(a + m + b);
    StripFramed(a, m, b, IsPySpace);
  }

  /**
   * `_fetch_data_from_query`: not implemented in the source, it always returns `None`.
   * The dataset preparation takes the query hook as a parameter, and `AiTasks` passes this one.
   */
  function FetchDataFromQuery(query: string): (r: Option<Value>)
    ensures r.None?
  {
    None
  }

  /** `"\n".join(values)`: every element must be a string. */
  function JoinValues(values: seq<Value>, sep: string): (r: Result<string, Error>)
    ensures r.Ok? <==> forall i :: 0 <= i < |values| ==> values[i].Str?
  {
    match StringsOf(values)
    case Err(e) => Err(e)
    case Ok(texts) => Ok(Join(texts, sep))
  }

  /** The prompt text of a dataset, or the error raised while building it. */
  function DatasetText(data: Value, lib: Lib): Result<Value, Error>
  {
    var text := Serializer.PromptText(Serializer.CsvRows(data, Serializer.NoDataAvailable, lib), lib);
    if text.Err? then Err(text.error) else Ok(Str(text.value))
  }

  /**
   * The list `_prepare_datasets` builds before joining it: the main dataset (as prompt text
   * when it is csv, as given otherwise), the file section when a file dataset is given, and
   * the query section when a query is given. Sections are evaluated in order and the first
   * exception wins.
   */
  function PreparedParts(isCsv: bool, data: Value, datasetFromFile: Option<string>, query: Option<string>, fetch: string -> Option<Value>, lib: Lib): Result<seq<Value>, Error>
  {
    var main := MainSection(isCsv, data, lib);
    var file := FileSection(datasetFromFile, lib);
    var queried := QuerySection(query, fetch, lib);
    if main.Err? then Err(main.error)
    else if file.Err? then Err(file.error)
    else if queried.Err? then Err(queried.error)
    else Ok(main.value + file.value + queried.value)
  }

  /** "Main dataset:" and the data: its prompt text when it is csv, the data itself otherwise. */
  function MainSection(isCsv: bool, data: Value, lib: Lib): (r: Result<seq<Value>, Error>)
    ensures !isCsv ==> r == Ok([Str("Main dataset:"), data])
  {
    if !isCsv then Ok([Str("Main dataset:"), data])
    else
      var text := DatasetText(data, lib);
      if text.Err? then Err(text.error) else Ok([Str("Main dataset:"), text.value])
  }

  /** The file section, present only when a file dataset is given. */
  function FileSection(datasetFromFile: Option<string>, lib: Lib): (r: Result<seq<Value>, Error>)
    ensures datasetFromFile.None? ==> r == Ok([])
  {
    if datasetFromFile.None? then Ok([])
    else
      var text := DatasetText(Str(datasetFromFile.value), lib);
      if text.Err? then Err(text.error) else Ok([Str("\nDataset from file:"), text.value])
  }

  /** The query section, present only when a query is given. */
  function QuerySection(query: Option<string>, fetch: string -> Option<Value>, lib: Lib): (r: Result<seq<Value>, Error>)
    ensures query.None? ==> r == Ok([])
  {
    if query.None? then Ok([])
    else
      var queryData := fetch(query.value);
      if queryData.Some? then
        var text := Serializer.PromptText(queryData.value, lib);
        if text.Err? then Err(text.error) else Ok([Str("Dataset from query:"), Str(text.value)])
      else Ok([Str("Dataset from query:"), Str("Query yielded no results.")])
  }

  /** What `_prepare_datasets` returns: the parts joined by newlines. */
  /** The prepared text fails with the first failing section's error, and otherwise joins the sections. */
  lemma PreparedBySections(isCsv: bool, data: Value, datasetFromFile: Option<string>, query: Option<string>,
                           fetch: string -> Option<Value>, lib: Lib)
    ensures var main, file, queried := MainSection(isCsv, data, lib), FileSection(datasetFromFile, lib), QuerySection(query, fetch, lib);
      PreparedText(isCsv, data, datasetFromFile, query, fetch, lib)
      == if main.Err? then Err(main.error)
         else if file.Err? then Err(file.error)
         else if queried.Err? then Err(queried.error)
         else JoinValues(main.value + file.value + queried.value, "\n")
  {
  }

  function PreparedText(isCsv: bool, data: Value, datasetFromFile: Option<string>, query: Option<string>, fetch: string -> Option<Value>, lib: Lib): Result<string, Error>
  {
    match PreparedParts(isCsv, data, datasetFromFile, query, fetch, lib)
    case Err(e) => Err(e)
    case Ok(parts) => JoinValues(parts, "\n")
  }

  /**
   * The shape of the prepared parts with the source's query hook: they start with
   * "Main dataset:"; the file section is there exactly when a file dataset is given; a query
   * always yields the "no results" line, at the end; plain (non-csv) data is passed through
   * as it is.
   */
  lemma PreparedPartsShape(isCsv: bool, data: Value, datasetFromFile: Option<string>, query: Option<string>, lib: Lib)
    requires PreparedParts(isCsv, data, datasetFromFile, query, FetchDataFromQuery, lib).Ok?
    ensures var parts := PreparedParts(isCsv, data, datasetFromFile, query, FetchDataFromQuery, lib).value;
      && |parts| == 2 + (if datasetFromFile.Some? then 2 else 0) + (if query.Some? then 2 else 0)
      && parts[0] == Str("Main dataset:")
      && (!isCsv ==> parts[1] == data)
      && (datasetFromFile.Some? ==> parts[2] == Str("\nDataset from file:"))
      && (query.Some? ==> parts[|parts| - 2..] == [Str("Dataset from query:"), Str("Query yielded no results.")])
  {
    var main := MainSection(isCsv, data, lib).value;
    var file := FileSection(datasetFromFile, lib).value;
    var queried := QuerySection(query, FetchDataFromQuery, lib).value;
    var parts := main + file + queried;
    assert parts[0] == main[0];
    assert datasetFromFile.Some? ==> parts[2] == file[0];
    assert query.Some? ==> parts[|parts| - 2..] == queried;
  }

  /** The prepared text always starts with "Main dataset:". */
  lemma PreparedTextStartsWithMain(isCsv: bool, data: Value, datasetFromFile: Option<string>, query: Option<string>,
                                   fetch: string -> Option<Value>, lib: Lib)
    requires PreparedText(isCsv, data, datasetFromFile, query, fetch, lib).Ok?
    ensures StartsWith(PreparedText(isCsv, data, datasetFromFile, query, fetch, lib).value, "Main dataset:")
  {
    var parts := PreparedParts(isCsv, data, datasetFromFile, query, fetch, lib).value;
    assert parts[0] == MainSection(isCsv, data, lib).value[0];
    var texts := StringsOf(parts).value;
    assert texts[0] == "Main dataset:";
    JoinStartsWithFirst(texts, "\n");
  }

  /** Plain data that is not a string cannot be joined into the prompt. */
  lemma PlainNonStringDataIsTypeError(data: Value, fetch: string -> Option<Value>, lib: Lib)
    requires !data.Str?
    ensures PreparedText(false, data, None, None, fetch, lib) == Err(TypeError)
  {
    var parts := [Str("Main dataset:"), data];
    assert parts + [] + [] == parts;
    assert PreparedParts(false, data, None, None, fetch, lib) == Ok(parts);
    assert !parts[1].Str?;
  }

  /** The analysis prompt: data, a blank line, then the question, or the other way round. */
  function AnalysisPrompt(question: string, serializedData: string, dataBeforePrompt: bool): (r: string)
    ensures dataBeforePrompt ==> StartsWith(r, serializedData) && EndsWith(r, question)
    ensures !dataBeforePrompt ==> StartsWith(r, question) && EndsWith(r, serializedData)
    ensures |r| == |question| + |serializedData| + 2
    ensures dataBeforePrompt ==> r[|serializedData|..|serializedData| + 2] == "\n\n"
    ensures !dataBeforePrompt ==> r[|question|..|question| + 2] == "\n\n"
  {
    if dataBeforePrompt then serializedData + "\n\n" + question else question + "\n\n" + serializedData
  }

  /** `AiTasks`: a client of one model at one endpoint. */
  class AiTasks {
    const apiEndpoint: string
    const apiKey: string
    const model: string

    constructor (apiEndpoint: string, apiKey: string, defaultModel: string)
      ensures this.apiEndpoint == apiEndpoint && this.apiKey == apiKey && model == defaultModel
    {
      this.apiEndpoint := apiEndpoint;
      this.apiKey := apiKey;
      this.model := defaultModel;
    }

    /** `_update_system_context`: edits the list in place, except that an empty list is replaced by a new one. */
    static method UpdateSystemContext(systemContext: string, context: ChatList, appendToSystemContext: bool) returns (r: ChatList)
      modifies context
      ensures r.items == WithSystemContext(old(context.items), systemContext, appendToSystemContext)
      ensures old(context.items) == [] ==> fresh(r) && context.items == []
      ensures old(context.items) != [] ==> r == context
    {
      var systemContextItem := SystemItem(systemContext);
      if |context.items| == 0 {
        r := new ChatList([systemContextItem]);
        return;
      }
      var currentSysContext := if context.items[0].role == "system" then Some(context.items[0]) else None;
      if appendToSystemContext && currentSysContext.Some? {
        var current := currentSysContext.value;
        context.items := context.items[0 := current.(content := current.content + " " + systemContext)];
        return context;
      }
      context.items := [systemContextItem] + context.items;
      return context;
    }

    /**
     * `_update_context`: a missing list becomes a new empty one; the system context is
     * applied, then the latest message appended. A caller's list is edited in place, except
     * an empty one that receives a system context, which stays empty.
     */
    method UpdateContext(latestMessage: Option<ContextItem>, systemContext: Option<string>, context: ChatList?, appendToSystemContext: bool)
      returns (r: ChatList)
      modifies context
      ensures r.items == UpdatedContext(old(if context == null then [] else context.items), latestMessage, systemContext, appendToSystemContext)
      ensures context != null && (systemContext.None? || old(context.items) != []) ==> r == context
      ensures context == null || (systemContext.Some? && old(context.items) == []) ==> fresh(r)
      ensures context != null && systemContext.Some? && old(context.items) == [] ==> context.items == []
    {
      if context == null {
        r := new ChatList([]);
      } else {
        r := context;
      }
      if systemContext.Some? {
        r := UpdateSystemContext(systemContext.value, r, appendToSystemContext);
      }
      if latestMessage.Some? {
        r.items := r.items + [latestMessage.value];
      }
    }

    /** `_build_request_payload`. */
    function BuildRequestPayload(context: seq<ContextItem>): (r: AiRequest)
      ensures r.messages == context && r.model == model
    {
      AiRequest(context, model)
    }

    /** The context `ask_a_question` sends: the prior items, the system item if any, then the user item. */
    function AskedContext(before: seq<ContextItem>, question: string, systemContext: Option<string>): seq<ContextItem>
    {
      UpdatedContext(before, Some(UserItem(question)), systemContext, false)
    }

    /** What `ask_a_question` returns, for a model that answers a request with `send(request)`. */
    function AskOutcome(before: seq<ContextItem>, question: string, systemContext: Option<string>, send: AiRequest -> Value): Result<AiResponse, Error>
    {
      var asked := AskedContext(before, question, systemContext);
      match ExtractDataFromResponse(send(BuildRequestPayload(asked)))
      case Err(e) => Err(e)
      case Ok(reply) => Ok(AiResponse(reply.content, asked + [reply], GeneratorConfig(apiEndpoint, model)))
    }

    /**
     * A successful exchange grows the context by the user item and the assistant item, after
     * a new system item when a system context is given: the prior items are kept in order,
     * and the response is the content of the last item.
     */
    lemma AskGrowsContext(before: seq<ContextItem>, question: string, systemContext: Option<string>, send: AiRequest -> Value)
      requires AskOutcome(before, question, systemContext, send).Ok?
      ensures var out := AskOutcome(before, question, systemContext, send).value;
        var ctx := out.updatedContext;
        && |ctx| == |before| + (if systemContext.Some? then 3 else 2)
        && ctx[..|ctx| - 2] == (if systemContext.Some? then [SystemItem(systemContext.value)] + before else before)
        && ctx[|ctx| - 2] == UserItem(question)
        && ctx[|ctx| - 1] == ContextItem("assistant", out.response)
        && out.config == GeneratorConfig(apiEndpoint, model)
    {
      var withSystem := if systemContext.Some? then [SystemItem(systemContext.value)] + before else before;
      AskedContextShape(before, question, systemContext);
      AskOutcomeShape(before, question, systemContext, send);
      var out := AskOutcome(before, question, systemContext, send).value;
      var ctx := withSystem + [UserItem(question)] + [ContextItem("assistant", out.response)];
      assert ctx[..|ctx| - 2] == withSystem;
    }

    lemma AskedContextShape(before: seq<ContextItem>, question: string, systemContext: Option<string>)
      ensures AskedContext(before, question, systemContext)
           == (if systemContext.Some? then [SystemItem(systemContext.value)] + before else before) + [UserItem(question)]
    {
      if systemContext.Some? {
        assert WithSystemContext(before, systemContext.value, false) == [SystemItem(systemContext.value)] + before;
      }
    }

    lemma AskOutcomeShape(before: seq<ContextItem>, question: string, systemContext: Option<string>, send: AiRequest -> Value)
      requires AskOutcome(before, question, systemContext, send).Ok?
      ensures var out := AskOutcome(before, question, systemContext, send).value;
        && out.updatedContext == AskedContext(before, question, systemContext) + [ContextItem("assistant", out.response)]
        && out.config == GeneratorConfig(apiEndpoint, model)
    {
      var reply := ExtractDataFromResponse(send(BuildRequestPayload(AskedContext(before, question, systemContext))));
      assert reply.Ok? && reply.value.role == "assistant";
    }

    /**
     * `ask_a_question`. The user item (and the system item) are added to the caller's list
     * before the model is asked, and the assistant item after, so a caller's list ends up
     * holding the updated context, and keeps the user item even when the reply is rejected.
     */
    method AskAQuestion(questionOrPrompt: string, systemContext: Option<string>, context: ChatList?, send: AiRequest -> Value)
      returns (r: Result<AiResponse, Error>)
      modifies context
      ensures r == AskOutcome(old(if context == null then [] else context.items), questionOrPrompt, systemContext, send)
      ensures context != null && (systemContext.None? || old(context.items) != []) ==>
        context.items == (if r.Ok? then r.value.updatedContext
                          else AskedContext(old(context.items), questionOrPrompt, systemContext))
      ensures context != null && systemContext.Some? && old(context.items) == [] ==> context.items == []
    {
      var message := UserItem(questionOrPrompt);
      var updatedContext := UpdateContext(Some(message), systemContext, context, false);
      var jsonResponse := send(BuildRequestPayload(updatedContext.items));
      var response := ExtractDataFromResponse(jsonResponse);
      if response.Err? {
        return Err(response.error);
      }
      var reply := response.value;
      updatedContext := UpdateContext(Some(reply), None, updatedContext, false);
      r := Ok(AiResponse(reply.content, updatedContext.items, GeneratorConfig(apiEndpoint, model)));
    }

    /** `_prepare_datasets`, appending the sections to a local list as the source does. */
    method PrepareDatasets(isCsv: bool, data: Value, datasetFromFile: Option<string>, query: Option<string>,
                           fetch: string -> Option<Value>, lib: Lib)
      returns (r: Result<string, Error>)
      ensures r == PreparedText(isCsv, data, datasetFromFile, query, fetch, lib)
    {
      PreparedBySections(isCsv, data, datasetFromFile, query, fetch, lib);
      var main := data;
      if isCsv {
        var rows := Serializer.CsvStringToDictList(data, Serializer.NoDataAvailable, lib);
        var text := Serializer.DatasetToPromptText(rows, lib);
        if text.Err? {
          assert MainSection(isCsv, data, lib) == Err(text.error);
          return Err(text.error);
        }
        main := Str(text.value);
      }
      var prepared := [Str("Main dataset:"), main];
      assert MainSection(isCsv, data, lib) == Ok(prepared);
      ghost var mainPart := prepared;
      if datasetFromFile.Some? {
        prepared := prepared + [Str("\nDataset from file:")];
        var rows := Serializer.CsvStringToDictList(Str(datasetFromFile.value), Serializer.NoDataAvailable, lib);
        var text := Serializer.DatasetToPromptText(rows, lib);
        if text.Err? {
          assert FileSection(datasetFromFile, lib) == Err(text.error);
          return Err(text.error);
        }
        prepared := prepared + [Str(text.value)];
        assert FileSection(datasetFromFile, lib) == Ok([Str("\nDataset from file:"), Str(text.value)]);
      }
      ghost var filePart := FileSection(datasetFromFile, lib).value;
      assert prepared == mainPart + filePart;
      if query.Some? {
        var queryData := fetch(query.value);
        prepared := prepared + [Str("Dataset from query:")];
        if queryData.Some? {
          var text := Serializer.DatasetToPromptText(queryData.value, lib);
          if text.Err? {
            assert QuerySection(query, fetch, lib) == Err(text.error);
            return Err(text.error);
          }
          prepared := prepared + [Str(text.value)];
        } else {
          prepared := prepared + [Str("Query yielded no results.")];
        }
      }
      assert prepared == mainPart + filePart + QuerySection(query, fetch, lib).value;
      r := JoinValues(prepared, "\n");
    }

    /**
     * `analyze_data`: the prepared datasets and the question form the prompt, which is asked
     * with `agent` as the system context. A failure while preparing leaves the caller's list alone;
     * otherwise the list changes as `ask_a_question` changes it.
     */
    method AnalyzeData(questionOrPrompt: string, data: Value, isCsv: bool, dataBeforePrompt: bool, agent: Option<string>,
                       context: ChatList?, query: Option<string>, dataFromFile: Option<string>, lib: Lib, send: AiRequest -> Value)
      returns (r: Result<AiResponse, Error>)
      modifies context
      ensures var prepared := PreparedText(isCsv, data, dataFromFile, query, FetchDataFromQuery, lib);
        r == if prepared.Err? then Err(prepared.error)
             else AskOutcome(old(if context == null then [] else context.items),
                             AnalysisPrompt(questionOrPrompt, prepared.value, dataBeforePrompt), agent, send)
      ensures PreparedText(isCsv, data, dataFromFile, query, FetchDataFromQuery, lib).Err? ==> context == null || context.items == old(context.items)
      ensures var prepared := PreparedText(isCsv, data, dataFromFile, query, FetchDataFromQuery, lib);
        prepared.Ok? && context != null && (agent.None? || old(context.items) != []) ==>
          context.items == (if r.Ok? then r.value.updatedContext
                            else AskedContext(old(context.items), AnalysisPrompt(questionOrPrompt, prepared.value, dataBeforePrompt), agent))
      ensures PreparedText(isCsv, data, dataFromFile, query, FetchDataFromQuery, lib).Ok? && context != null && agent.Some? && old(context.items) == [] ==>
        context.items == []
    {
      var serializedData := PrepareDatasets(isCsv, data, dataFromFile, query, FetchDataFromQuery, lib);
      if serializedData.Err? {
        return Err(serializedData.error);
      }
      var prompt := AnalysisPrompt(questionOrPrompt, serializedData.value, dataBeforePrompt);
      r := AskAQuestion(prompt, agent, context, send);
    }
  }
}
