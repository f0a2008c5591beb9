/** The AI campaign analyser page: it sends pasted campaign data to the
    traffic-manager function, shows the analysis, saves analyses to a
    per-user history, deletes them, and loads the history.  Each backend
    call is split into the call and its completion; what the backend
    answers is a parameter of the completion. */
module AnalisadorIA {
  import opened Common

  type UserId = string

  /** One history entry. */
  datatype Analysis = Analysis(id: int, title: string, createdAt: string)

  datatype SaveStatus = Idle | Success | Error

  /** How the function call ends: no session, the client reports an error,
      or the function answers with a body whose `error` field may be set. */
  datatype InvokeOutcome =
    | NoSession
    | FuncError(message: string)
    | Returned(errorField: string, analysis: string)

  /** The history query's answer: rows, or an error with its code. */
  datatype HistoryResult = HistoryRows(rows: seq<Analysis>) | HistoryFailed(code: string)

  /** The row `handleSaveAnalysis` inserts. */
  datatype Insert = Insert(userId: UserId, title: string, campaignData: string, analysisResult: string)

  const EmptyDataMessage := "Por favor, insira os dados da campanha para análise."
  const NoSessionMessage := "Sessão do usuário não encontrada. Por favor, faça login novamente."
  const NetworkMessage := "Erro de rede. Verifique sua conexão ou a disponibilidade da função."
  const AgentPrefix := "Ocorreu um erro ao conectar com o agente: "
  const SaveRefusedMessage := "Título, dados da campanha e resultado da análise são necessários para salvar."
  const SaveFailedMessage := "Erro ao salvar a análise."
  const HistoryFailedMessage := "Não foi possível carregar o histórico de análises."
  /** PostgreSQL's `undefined_table`: the history table does not exist yet. */
  const UndefinedTable := "42P01"

  /** The message shown for a failed analysis. */
  function ErrorMessage(message: string): (shown: string)
    ensures Contains(message, "fetch failed") ==> shown == NetworkMessage
    ensures !Contains(message, "fetch failed") ==>
              |shown| == |AgentPrefix| + |message|
              && shown[..|AgentPrefix|] == AgentPrefix && shown[|AgentPrefix|..] == message
  {
    if Contains(message, "fetch failed") then NetworkMessage else AgentPrefix + message
  }

  /** The message a failed call carries: the thrown error's message. */
  function OutcomeMessage(outcome: InvokeOutcome): string
    requires !IsSuccess(outcome)
  {
    match outcome
    case NoSession => NoSessionMessage
    case FuncError(m) => m
    case Returned(e, _) => e
  }

  /** The call succeeds when there is a session, no client error, and an
      empty (falsy) `error` field. */
  predicate IsSuccess(outcome: InvokeOutcome)
  {
    outcome.Returned? && outcome.errorField == ""
  }

  /** The key `deleteAnalysis` filters on. */
  function AnalysisId(a: Analysis): int
  {
    a.id
  }

  /** Saving an analysis and then deleting it restores the history, when
      the new id was not in use. */
  lemma SaveThenDeleteRestores(list: seq<Analysis>, row: Analysis)
    requires forall i :: 0 <= i < |list| ==> list[i].id != row.id
    ensures WithoutId([row] + list, AnalysisId, row.id) == list
  {
    WithoutIdAppend([row], list, AnalysisId, row.id);
    WithoutAbsentId(list, AnalysisId, row.id);
  }

  class AnalyzerPage {
    const user: Option<UserId>

    var isLoading: bool
    var isSaving: bool
    var saveStatus: SaveStatus
    var error: string
    var campaignData: string
    var analysisResult: string
    var analysisTitle: string
    var savedAnalyses: seq<Analysis>
    var isHistoryLoading: bool
    /** Armed two-second timers that will set `saveStatus` back to idle. */
    var statusResets: nat

    constructor (user: Option<UserId>)
      ensures this.user == user
      ensures !isLoading && !isSaving && saveStatus == Idle && error == ""
      ensures campaignData == "" && analysisResult == "" && analysisTitle == ""
      ensures savedAnalyses == [] && isHistoryLoading && statusResets == 0
    {
      this.user := user;
      isLoading := false;
      isSaving := false;
      saveStatus := Idle;
      error := "";
      campaignData := "";
      analysisResult := "";
      analysisTitle := "";
      savedAnalyses := [];
      isHistoryLoading := true;
      statusResets := 0;
    }

    /** The text area. */
    method EditCampaignData(text: string)
      modifies this`campaignData
      ensures campaignData == text
    {
      campaignData := text;
    }

    /** `fetchHistory`: without a user nothing is asked.  Otherwise the
        rows replace the history; an error leaves it, and sets the message
        unless the table does not exist yet (code 42P01). */
    method FetchHistory(result: HistoryResult)
      modifies this`savedAnalyses, this`error, this`isHistoryLoading
      ensures !isHistoryLoading
      ensures user.None? ==> savedAnalyses == old(savedAnalyses) && error == old(error)
      ensures user.Some? && result.HistoryRows? ==> savedAnalyses == result.rows && error == old(error)
      ensures user.Some? && result.HistoryFailed? ==>
                savedAnalyses == old(savedAnalyses)
                && error == (if result.code == UndefinedTable then old(error) else HistoryFailedMessage)
    {
      if user.Some? {
        isHistoryLoading := true;
        match result {
          case HistoryRows(rows) =>
            savedAnalyses := rows;
          case HistoryFailed(code) =>
            if code != UndefinedTable {
              error := HistoryFailedMessage;
            }
        }
      }
      isHistoryLoading := false;
    }

    /** `handleAnalyze` up to its first `await`: blank data (empty after
        `trim`) is refused with a message and no call; otherwise loading
        starts, the result is cleared, the title is dated, and the data is
        sent. */
    method BeginAnalyze(today: string) returns (sent: Option<string>)
      modifies this`error, this`isLoading, this`analysisResult, this`analysisTitle
      ensures IsBlank(campaignData) ==>
                sent == None && error == EmptyDataMessage && isLoading == old(isLoading)
                && analysisResult == old(analysisResult) && analysisTitle == old(analysisTitle)
      ensures !IsBlank(campaignData) ==>
                sent == Some(campaignData) && error == "" && isLoading
                && analysisResult == "" && analysisTitle == "Análise de " + today
    {
      TrimEmptyIffBlank(campaignData);
      error := "";
      if Trim(campaignData) == [] {
        error := EmptyDataMessage;
        sent := None;
        return;
      }
      isLoading := true;
      analysisResult := "";
      analysisTitle := "Análise de " + today;
      sent := Some(campaignData);
    }

    /** The call ends: a success shows the analysis; any failure shows its
        mapped message.  Loading ends on every path. */
    method CompleteAnalyze(outcome: InvokeOutcome)
      modifies this`error, this`isLoading, this`analysisResult
      ensures !isLoading
      ensures IsSuccess(outcome) ==> analysisResult == outcome.analysis && error == old(error)
      ensures !IsSuccess(outcome) ==>
                analysisResult == old(analysisResult) && error == ErrorMessage(OutcomeMessage(outcome))
    {
      if IsSuccess(outcome) {
        analysisResult := outcome.analysis;
      } else {
        error := ErrorMessage(OutcomeMessage(outcome));
      }
      isLoading := false;
    }

    /** `handleSaveAnalysis` up to its `await`: refused with a message and
        no insert unless a user is signed in and the title, the data and
        the result are all non-blank; otherwise saving starts. */
    method BeginSave() returns (sent: Option<Insert>)
      modifies this`error, this`isSaving, this`saveStatus
      ensures var allowed := user.Some? && !IsBlank(campaignData) && !IsBlank(analysisResult)
                             && !IsBlank(analysisTitle);
              (!allowed ==> sent == None && error == SaveRefusedMessage
                            && isSaving == old(isSaving) && saveStatus == old(saveStatus))
              && (allowed ==> sent == Some(Insert(user.value, analysisTitle, campaignData, analysisResult))
                              && isSaving && saveStatus == Idle && error == old(error))
    {
      TrimEmptyIffBlank(campaignData);
      TrimEmptyIffBlank(analysisResult);
      TrimEmptyIffBlank(analysisTitle);
      if user.None? || Trim(campaignData) == [] || Trim(analysisResult) == [] || Trim(analysisTitle) == [] {
        error := SaveRefusedMessage;
        sent := None;
        return;
      }
      isSaving := true;
      saveStatus := Idle;
      sent := Some(Insert(user.value, analysisTitle, campaignData, analysisResult));
    }

    /** The insert ends: the inserted row (when it succeeded) is put at the
        head of the history; saving ends and a reset timer is armed on
        every path. */
    method CompleteSave(inserted: Option<Analysis>)
      modifies this`error, this`isSaving, this`saveStatus, this`savedAnalyses, this`statusResets
      ensures !isSaving && statusResets == old(statusResets) + 1
      ensures inserted.Some? ==>
                saveStatus == Success && savedAnalyses == [inserted.value] + old(savedAnalyses)
                && error == old(error)
      ensures inserted.None? ==>
                saveStatus == Error && savedAnalyses == old(savedAnalyses) && error == SaveFailedMessage
    {
      if inserted.Some? {
        saveStatus := Success;
        savedAnalyses := [inserted.value] + savedAnalyses;
      } else {
        saveStatus := Error;
        error := SaveFailedMessage;
      }
      isSaving := false;
      statusResets := statusResets + 1;
    }

    /** One of the two-second timers fires and shows `idle` again. */
    method StatusResetFires()
      requires statusResets > 0
      modifies this`saveStatus, this`statusResets
      ensures saveStatus == Idle && statusResets == old(statusResets) - 1
    {
      saveStatus := Idle;
      statusResets := statusResets - 1;
    }

    /** `deleteAnalysis`: the entries with that id leave the history only
        once the backend delete has succeeded. */
    method DeleteAnalysis(id: int, deleted: bool)
      modifies this`savedAnalyses
      ensures savedAnalyses == if deleted then WithoutId(old(savedAnalyses), AnalysisId, id) else old(savedAnalyses)
    {
      if deleted {
        savedAnalyses := WithoutId(savedAnalyses, AnalysisId, id);
      }
    }
  }

  /** Blank data never reaches the function: analysing whitespace sends
      nothing and leaves the page idle. */
  method AnalyzeBlank(user: Option<UserId>, blank: string, today: string) returns (sent: Option<string>)
    requires IsBlank(blank)
    ensures sent == None
  {
    var page := new AnalyzerPage(user);
    page.EditCampaignData(blank);
    sent := page.BeginAnalyze(today);
    assert !page.isLoading;
  }
}
