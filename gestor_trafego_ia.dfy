/** The `gestor-trafego-ia` edge function: answers CORS preflight, checks
    the posted campaign data and the configured API key, sends a fixed
    five-turn conversation ending with the data to the language-model API,
    and returns the first candidate's text.  The handler is a function of
    the request, the environment's key and what the upstream API answers;
    the prompt and knowledge-base texts are parameters. */
module GestorTrafegoIA {
  import opened Common

  /** The JSON value destructured as `campaignData`. */
  datatype JsValue = Undefined | JsNull | JsBool(b: bool) | JsNumber(x: real) | JsString(s: string) | JsObject

  /** What `await req.json()` yields: a parse failure (thrown, with its
      message) or the body's `campaignData` property. */
  datatype Body = Malformed(message: string) | Parsed(campaignData: JsValue)

  datatype HttpRequest = HttpRequest(httpMethod: string, body: Body)

  datatype Role = User | Model

  datatype Turn = Turn(role: Role, text: string)

  /** The texts the function embeds in the conversation. */
  datatype Prompts = Prompts(masterPrompt: string, knowledgeBase: string)

  /** `parts[0]`, `content`, `candidates[0]` of the API's answer; each
      level may be missing. */
  datatype Part = Part(text: Option<string>)
  datatype Content = Content(parts: Option<seq<Part>>)
  datatype Candidate = Candidate(content: Option<Content>)
  datatype ApiResult = ApiResult(candidates: Option<seq<Candidate>>)

  /** How the upstream call ends: `fetch` or `json()` throws, the answer is
      not OK (with its status and body text), or it is OK and parsed. */
  datatype Upstream = Threw(message: string) | NotOk(status: int, errorBody: string) | Ok(result: ApiResult)

  datatype ResponseBody = PlainOk | ErrorJson(error: string) | AnalysisJson(analysis: string)

  datatype Response = Response(status: int, body: ResponseBody)

  /** The response, and the conversation sent upstream (if any was). */
  datatype Outcome = Outcome(response: Response, sent: Option<seq<Turn>>)

  const MaxCampaignData := 10000
  const InvalidDataMessage := "Dados da campanha inválidos ou excedem o limite de 10.000 caracteres."
  const MissingKeyMessage := "Chave da API do Gemini não configurada nos secrets do projeto."
  const ApiErrorPrefix := "Erro na API do Gemini: "
  const Fallback := "Não foi possível obter uma análise."
  const DataPrefix := "Excelente. Aqui estão os dados para análise:\n\n"
  const KnowledgePrefix := "Use o seguinte documento como sua base de conhecimento: \n\n"

  /** JavaScript truthiness (NaN is not modelled). */
  predicate Truthy(v: JsValue)
  {
    match v
    case Undefined => false
    case JsNull => false
    case JsBool(b) => b
    case JsNumber(x) => x != 0.0
    case JsString(s) => s != ""
    case JsObject => true
  }

  /** The guard's negation: truthy, a string, at most 10000 long. */
  predicate ValidCampaignData(v: JsValue)
  {
    Truthy(v) && v.JsString? && |v.s| <= MaxCampaignData
  }

  /** Accepted exactly: a non-empty string of at most 10000 characters. */
  lemma ValidCampaignDataMeaning(v: JsValue)
    ensures ValidCampaignData(v) <==> v.JsString? && 0 < |v.s| <= MaxCampaignData
  {
  }

  /** `!geminiApiKey` fails for a missing and for an empty secret. */
  predicate KeyConfigured(apiKey: Option<string>)
  {
    apiKey.Some? && apiKey.value != ""
  }

  /** `chatHistory`: five turns alternating user and model, the last one
      carrying the campaign data after a fixed prefix. */
  function ChatHistory(prompts: Prompts, campaignData: string): (h: seq<Turn>)
    ensures |h| == 5
    ensures forall i :: 0 <= i < 5 ==> h[i].role == (if i % 2 == 0 then User else Model)
    ensures h[4].text == DataPrefix + campaignData
  {
    [ Turn(User, prompts.masterPrompt),
      Turn(Model, "Entendido. Estou pronto para atuar."),
      Turn(User, KnowledgePrefix + prompts.knowledgeBase),
      Turn(Model, "Base de conhecimento integrada. Pode enviar os dados."),
      Turn(User, DataPrefix + campaignData) ]
  }

  /** The data is recovered verbatim from the last turn, so distinct data
      give distinct conversations. */
  lemma ChatHistoryCarriesData(prompts: Prompts, a: string, b: string)
    ensures ChatHistory(prompts, a)[4].text[|DataPrefix|..] == a
    ensures ChatHistory(prompts, a) == ChatHistory(prompts, b) ==> a == b
  {
    var ta, tb := ChatHistory(prompts, a)[4].text, ChatHistory(prompts, b)[4].text;
    assert ta[|DataPrefix|..] == a;
    assert tb[|DataPrefix|..] == b;
  }

  /** `result.candidates?.[0]?.content?.parts?.[0]?.text`. */
  function FirstText(result: ApiResult): Option<string>
  {
    if result.candidates.Some? && |result.candidates.value| > 0 then
      var c := result.candidates.value[0];
      if c.content.Some? && c.content.value.parts.Some? && |c.content.value.parts.value| > 0 then
        c.content.value.parts.value[0].text
      else None
    else None
  }

  /** `FirstText(...) || fallback`. */
  function AnalysisText(result: ApiResult): (t: string)
    ensures t != ""
    ensures t == Fallback || FirstText(result) == Some(t)
    ensures FirstText(result).Some? && FirstText(result).value != "" ==> t == FirstText(result).value
    ensures FirstText(result).None? || FirstText(result) == Some("") ==> t == Fallback
  {
    var first := FirstText(result);
    if first.Some? && first.value != "" then first.value else Fallback
  }

  /** The request reaches the upstream call. */
  predicate Reaches(req: HttpRequest, apiKey: Option<string>)
  {
    req.httpMethod != "OPTIONS" && req.body.Parsed? && ValidCampaignData(req.body.campaignData)
    && KeyConfigured(apiKey)
  }

  /** The handler passed to `serve`. */
  function Handle(prompts: Prompts, req: HttpRequest, apiKey: Option<string>, upstream: Upstream): (r: Outcome)
    ensures r.sent.Some? <==> Reaches(req, apiKey)
    ensures r.sent.Some? ==> r.sent.value == ChatHistory(prompts, req.body.campaignData.s)
    ensures req.httpMethod == "OPTIONS" ==> r.response == Response(200, PlainOk)
    ensures req.httpMethod != "OPTIONS" && req.body.Malformed? ==>
              r.response == Response(500, ErrorJson(req.body.message))
    ensures req.httpMethod != "OPTIONS" && req.body.Parsed? && !ValidCampaignData(req.body.campaignData) ==>
              r.response == Response(400, ErrorJson(InvalidDataMessage))
    ensures req.httpMethod != "OPTIONS" && req.body.Parsed? && ValidCampaignData(req.body.campaignData)
            && !KeyConfigured(apiKey) ==>
              r.response == Response(500, ErrorJson(MissingKeyMessage))
    ensures Reaches(req, apiKey) ==>
              r.response == match upstream
                            case Threw(m) => Response(500, ErrorJson(m))
                            case NotOk(status, text) => Response(status, ErrorJson(ApiErrorPrefix + text))
                            case Ok(result) => Response(200, AnalysisJson(AnalysisText(result)))
  {
    if req.httpMethod == "OPTIONS" then Outcome(Response(200, PlainOk), None)
    else match req.body
      case Malformed(m) => Outcome(Response(500, ErrorJson(m)), None)
      case Parsed(data) =>
        if !Truthy(data) || !data.JsString? || |data.s| > MaxCampaignData then
          Outcome(Response(400, ErrorJson(InvalidDataMessage)), None)
        else if apiKey.None? || apiKey.value == "" then
          Outcome(Response(500, ErrorJson(MissingKeyMessage)), None)
        else
          var history := ChatHistory(prompts, data.s);
          match upstream
          case Threw(m) => Outcome(Response(500, ErrorJson(m)), Some(history))
          case NotOk(status, text) => Outcome(Response(status, ErrorJson(ApiErrorPrefix + text)), Some(history))
          case Ok(result) => Outcome(Response(200, AnalysisJson(AnalysisText(result))), Some(history))
  }

  /** Invalid data is answered 400 whatever the key: the data check comes
      first, and neither check contacts the upstream API. */
  lemma DataCheckedBeforeKey(prompts: Prompts, data: JsValue, k1: Option<string>, k2: Option<string>,
                             u1: Upstream, u2: Upstream)
    requires !ValidCampaignData(data)
    ensures var req := HttpRequest("POST", Parsed(data));
            Handle(prompts, req, k1, u1) == Handle(prompts, req, k2, u2)
            && Handle(prompts, req, k1, u1).response.status == 400
  {
  }

  /** An analysis is returned exactly when the call went through and the
      API answered OK; it is never empty. */
  lemma AnalysisOnlyFromUpstream(prompts: Prompts, req: HttpRequest, apiKey: Option<string>, upstream: Upstream)
    ensures var r := Handle(prompts, req, apiKey, upstream);
            (r.response.body.AnalysisJson? <==> Reaches(req, apiKey) && upstream.Ok?)
            && (r.response.body.AnalysisJson? ==> r.response.body.analysis != "")
  {
  }
}
