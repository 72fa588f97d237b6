/**
 * The message composer of frontend/src/components/MessageInput.tsx: a draft made of the
 * message text, an optional selected file and a query, changed by the component's event
 * handlers. The three environment switches are read once, when the component is created.
 */
module MessageInput {
  import opened Wrappers
  import opened Text

  /** A browser `File`, as far as the composer looks at it. */
  datatype File = File(name: string, mimeType: string)

  /** One call of `onSendMessage(text, query)`; `None` stands for `undefined`. */
  datatype Sent = Sent(text: string, query: Option<string>)

  /** The agent type that shows the query box. */
  const DataAnalystAgentType := "data-analyst"

  /** The alert shown for a rejected file. */
  const RejectedFileAlert := "Only .txt, .csv, or .json files are allowed"

  /** A file type the composer accepts; a `.csv` named file may come as `application/vnd.ms-excel`. */
  predicate IsAcceptedFile(file: File)
  {
    || file.mimeType == "text/plain"
    || file.mimeType == "application/json"
    || file.mimeType == "text/csv"
    || (file.mimeType == "application/vnd.ms-excel" && EndsWith(file.name, ".csv"))
  }

  /** `message.trim()` is falsy: the message is empty once JavaScript whitespace is trimmed. */
  predicate IsBlank(message: string)
  {
    StripBy(message, IsJsSpace) == []
  }

  /**
   * What a submit sends: nothing for a message made only of whitespace; otherwise the
   * untrimmed message, with the query when it is forwarded.
   */
  function SubmitOutcome(message: string, query: string, forwardQuery: bool): (r: Option<Sent>)
    ensures r.None? <==> forall i :: 0 <= i < |message| ==> IsJsSpace(message[i])
    ensures r.Some? ==> r.value.text == message
    ensures r.Some? ==> (r.value.query.Some? <==> forwardQuery)
    ensures r.Some? && forwardQuery ==> r.value.query == Some(query)
  {
    if IsBlank(message) then None else Some(Sent(message, if forwardQuery then Some(query) else None))
  }

  /** A message with one visible character is sent, whatever whitespace surrounds it. */
  lemma VisibleCharacterIsSent(before: string, c: char, after: string, query: string, forwardQuery: bool)
    requires !IsJsSpace(c)
    ensures SubmitOutcome(before + [c] + after, query, forwardQuery) == Some(Sent(before + [c] + after, if forwardQuery then Some(query) else None))
  {
    assert (before + [c] + after)[|before|] == c;
  }

  /** A spreadsheet-typed file is accepted only under a `.csv` name; other types are judged by type alone. */
  lemma AcceptedFileExamples()
    ensures IsAcceptedFile(File("report.csv", "application/vnd.ms-excel"))
    ensures !IsAcceptedFile(File("report.xls", "application/vnd.ms-excel"))
    ensures !IsAcceptedFile(File("photo.csv", "image/png"))
    ensures IsAcceptedFile(File("notes", "text/plain"))
  {
    assert "report.xls"[|"report.xls"| - 4..] == ".xls";
  }

  /** The component's state. */
  class DraftState {
    /** `REACT_APP_AGENT_TYPE === 'data-analyst'`. */
    const isDataAnalyst: bool
    /** `REACT_APP_DA_QUERY_ENABLED === 'true'`. */
    const isQueryEnabled: bool
    /** `REACT_APP_DA_CLEAR_QUERY_AFTER_SEND === 'true'`. */
    const clearQueryAfterSend: bool

    var message: string
    var selectedFile: Option<File>
    var query: string

    /** A fresh composer: empty message, no file, empty query; the switches are read from the environment. */
    constructor (agentType: Option<string>, queryEnabled: Option<string>, clearQuery: Option<string>)
      ensures isDataAnalyst <==> agentType == Some(DataAnalystAgentType)
      ensures isQueryEnabled <==> queryEnabled == Some("true")
      ensures clearQueryAfterSend <==> clearQuery == Some("true")
      ensures message == "" && selectedFile == None && query == ""
    {
      isDataAnalyst := agentType == Some(DataAnalystAgentType);
      isQueryEnabled := queryEnabled == Some("true");
      clearQueryAfterSend := clearQuery == Some("true");
      message := "";
      selectedFile := None;
      query := "";
    }

    /** The message box's `onChange`. */
    method SetMessage(text: string)
      modifies this`message
      ensures message == text
    {
      message := text;
    }

    /** The query box's `onChange`. */
    method SetQuery(text: string)
      modifies this`query
      ensures query == text
    {
      query := text;
    }

    /**
     * `handleSubmit`: a blank message changes nothing and sends nothing; otherwise the
     * message is sent, the message and the file are cleared, and the query is cleared only
     * when the environment asks for it. The file itself is never sent.
     */
    method HandleSubmit() returns (sent: Option<Sent>)
      modifies this`message, this`selectedFile, this`query
      ensures sent == SubmitOutcome(old(message), old(query), isDataAnalyst && isQueryEnabled)
      ensures sent.None? ==> message == old(message) && selectedFile == old(selectedFile) && query == old(query)
      ensures sent.Some? ==> message == "" && selectedFile == None
      ensures sent.Some? ==> query == if clearQueryAfterSend then "" else old(query)
    {
      if !IsBlank(message) {
        sent := Some(Sent(message, if isDataAnalyst && isQueryEnabled then Some(query) else None));
        message := "";
        selectedFile := None;
        if clearQueryAfterSend {
          query := "";
        }
      } else {
        sent := None;
      }
    }

    /**
     * `handleFileChange`: the first file of a non-empty selection replaces the selected file
     * when its type is accepted; a rejected file raises the alert and keeps the previous
     * selection; an empty selection does nothing.
     */
    method HandleFileChange(files: seq<File>) returns (alert: Option<string>)
      modifies this`selectedFile
      ensures |files| == 0 ==> selectedFile == old(selectedFile) && alert == None
      ensures |files| > 0 && IsAcceptedFile(files[0]) ==> selectedFile == Some(files[0]) && alert == None
      ensures |files| > 0 && !IsAcceptedFile(files[0]) ==> selectedFile == old(selectedFile) && alert == Some(RejectedFileAlert)
    {
      alert := None;
      if |files| > 0 {
        var file := files[0];
        if IsAcceptedFile(file) {
          selectedFile := Some(file);
        } else {
          alert := Some(RejectedFileAlert);
        }
      }
    }

    /** `handleRemoveFile`: only the selected file is cleared. */
    method HandleRemoveFile()
      modifies this`selectedFile
      ensures selectedFile == None
    {
      selectedFile := None;
    }

    /** `handleKeyDown`: Ctrl+Enter submits; any other key does nothing. */
    method HandleKeyDown(ctrlKey: bool, key: string) returns (sent: Option<Sent>)
      modifies this`message, this`selectedFile, this`query
      ensures !(ctrlKey && key == "Enter") ==> sent == None && message == old(message) && selectedFile == old(selectedFile) && query == old(query)
      ensures ctrlKey && key == "Enter" ==> sent == SubmitOutcome(old(message), old(query), isDataAnalyst && isQueryEnabled)
      ensures sent.Some? ==> message == "" && selectedFile == None && query == (if clearQueryAfterSend then "" else old(query))
      ensures ctrlKey && key == "Enter" && sent.None? ==> message == old(message) && selectedFile == old(selectedFile) && query == old(query)
    {
      sent := None;
      if ctrlKey && key == "Enter" {
        sent := HandleSubmit();
      }
    }
  }
}
