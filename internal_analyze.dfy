/**
 * POST /api/internal/analyze: the dashboard's analysis route.  Allowance
 * first, then the body, then the analysis, its saved row and the charge.
 */
module InternalAnalyze {
  import opened Wrappers
  import opened Strings
  import opened Http
  import opened Schema
  import opened Rows
  import opened Stores
  import opened RequestSchemas
  import opened InternalAuth
  import opened Quota

  // ---------------------------------------------------------------------
  // The request schema

  const ContentTooShort := "Content must be at least 100 characters"

  /** The boolean options, in declaration order; each defaults to true. */
  const FlagNames := ["include_keywords", "include_readability", "include_seo", "include_grammar",
                      "include_accessibility", "include_engagement", "include_originality",
                      "include_sentiment", "include_enhancements"]

  const Tones := ["professional", "casual", "academic", "persuasive"]
  const ToneList := "'professional' | 'casual' | 'academic' | 'persuasive'"

  datatype Options = Options(flags: map<string, bool>, keywordFocus: Option<string>, sourceContext: Option<string>,
                             enhancementTone: Option<string>)

  datatype AnalyzeRequest = AnalyzeRequest(content: string, title: Option<string>, options: Option<Options>)

  predicate OptionsWellTyped(o: Json)
  {
    && o.JObj?
    && (forall k :: 0 <= k < |FlagNames| ==> Field(o, FlagNames[k]).None? || Field(o, FlagNames[k]).value.JBool?)
    && (Field(o, "keyword_focus").None? || Field(o, "keyword_focus").value.JStr?)
    && (Field(o, "source_context").None? || Field(o, "source_context").value.JStr?)
    && (Field(o, "enhancement_tone").None? || (Field(o, "enhancement_tone").value.JStr? && Field(o, "enhancement_tone").value.s in Tones))
  }

  function ToneIssue(v: Option<Json>): (r: Option<Issue>)
    ensures r.None? <==> v.None? || (v.value.JStr? && v.value.s in Tones)
  {
    if v.None? then None else EnumIssue(v, "options.enhancement_tone", Tones, ToneList)
  }

  function OptionsIssue(o: Json): (r: Option<Issue>)
    ensures r.None? <==> OptionsWellTyped(o)
  {
    if !o.JObj? then Some(Expected("object", Some(o), "options"))
    else
      var flags := seq(|FlagNames|, k requires 0 <= k < |FlagNames| => OptionalBool(Field(o, FlagNames[k]), "options." + FlagNames[k]));
      var rest := [OptionalString(Field(o, "keyword_focus"), "options.keyword_focus"),
                   OptionalString(Field(o, "source_context"), "options.source_context"),
                   ToneIssue(Field(o, "enhancement_tone"))];
      var checks := flags + rest;
      assert OptionsWellTyped(o) <==> forall k :: 0 <= k < |checks| ==> checks[k].None? by {
        forall k | 0 <= k < |flags|
          ensures flags[k].None? <==> Field(o, FlagNames[k]).None? || Field(o, FlagNames[k]).value.JBool?
        {
          assert flags[k] == OptionalBool(Field(o, FlagNames[k]), "options." + FlagNames[k]);
        }
        assert rest[0].None? <==> Field(o, "keyword_focus").None? || Field(o, "keyword_focus").value.JStr?;
        assert rest[1].None? <==> Field(o, "source_context").None? || Field(o, "source_context").value.JStr?;
        assert rest[2].None? <==>
               Field(o, "enhancement_tone").None? || (Field(o, "enhancement_tone").value.JStr? && Field(o, "enhancement_tone").value.s in Tones);
        assert forall k :: 0 <= k < |flags| ==> checks[k] == flags[k];
        assert forall k :: 0 <= k < |rest| ==> checks[|flags| + k] == rest[k];
      }
      FirstIssue(checks)
  }

  predicate RequestWellFormed(body: Json)
  {
    && body.JObj?
    && Field(body, "content").Some? && Field(body, "content").value.JStr?
    && 100 <= |Field(body, "content").value.s| <= 50000
    && (Field(body, "title").None? || Field(body, "title").value.JStr?)
    && (Field(body, "options").None? || OptionsWellTyped(Field(body, "options").value))
  }

  function RequestIssue(body: Json): (r: Option<Issue>)
    ensures r.None? <==> RequestWellFormed(body)
  {
    if !body.JObj? then Some(Expected("object", Some(body), ""))
    else
      var checks := [RequiredString(Field(body, "content"), "content", 100, ContentTooShort, 50000, AtMost(50000)),
                     OptionalString(Field(body, "title"), "title"),
                     if Field(body, "options").None? then None else OptionsIssue(Field(body, "options").value)];
      assert RequestWellFormed(body) <==> forall k :: 0 <= k < |checks| ==> checks[k].None? by {
        assert checks[0].None? <==> Field(body, "content").Some? && Field(body, "content").value.JStr?
                                    && 100 <= |Field(body, "content").value.s| <= 50000;
        assert checks[1].None? <==> Field(body, "title").None? || Field(body, "title").value.JStr?;
        assert checks[2].None? <==> Field(body, "options").None? || OptionsWellTyped(Field(body, "options").value);
      }
      FirstIssue(checks)
  }

  function ParsedOptions(o: Json): Options
  {
    Options(map k | k in FlagNames :: BoolOr(Field(o, k), true), StrOf(Field(o, "keyword_focus")),
            StrOf(Field(o, "source_context")), StrOf(Field(o, "enhancement_tone")))
  }

  function ParseRequest(body: Json): (r: Result<AnalyzeRequest, Issue>)
    ensures r.Success? <==> RequestWellFormed(body)
    ensures r.Failure? ==> r.error == RequestIssue(body).value
    ensures r.Success? ==> r.value.content == Field(body, "content").value.s && 100 <= |r.value.content| <= 50000
    ensures r.Success? && r.value.options.Some? ==> r.value.options.value.flags.Keys == set k | k in FlagNames
  {
    match RequestIssue(body)
    case Some(issue) => Failure(issue)
    case None =>
      Success(AnalyzeRequest(Field(body, "content").value.s, StrOf(Field(body, "title")),
                      if Field(body, "options").None? then None else Some(ParsedOptions(Field(body, "options").value))))
  }

  /** A flag left out of the options is on; one given is taken as given. */
  lemma FlagDefaults(o: Json, name: string)
    requires OptionsWellTyped(o) && name in FlagNames
    ensures ParsedOptions(o).flags[name] == (Field(o, name).None? || Field(o, name).value.b)
  {
    var k :| 0 <= k < |FlagNames| && FlagNames[k] == name;
    assert Field(o, FlagNames[k]).None? || Field(o, FlagNames[k]).value.JBool?;
  }

  /** Short content is reported with the schema's own message on the `content` field. */
  lemma ShortContentMessage(body: Json)
    requires body.JObj? && Field(body, "content").Some? && Field(body, "content").value.JStr?
    requires |Field(body, "content").value.s| < 100
    ensures ParseRequest(body) == Failure(Issue(ContentTooShort, "content"))
  {
  }

  // ---------------------------------------------------------------------
  // The handler

  const Untitled := "Untitled"
  const Noun := "analyses"
  const Fallback := "Analysis failed"

  datatype Env = Env(analyze: AnalyzeRequest -> Result<AnalysisResult, string>, newId: string, now: int, monthOf: int -> int)

  datatype Step = Step(response: Response, users: seq<User>, analyses: seq<AnalysisRow>)

  function InvalidBody(issue: Issue): Response
  {
    InternalRouteError(issue.message, 400).(body := JObj(map["success" := JBool(false), "error" := JObj(map[
      "message" := JStr(issue.message), "field" := JStr(issue.path)])]))
  }

  function SavedRow(userId: string, req: AnalyzeRequest, result: AnalysisResult): AnalysisRow
  {
    AnalysisRow(userId, if req.title.None? || req.title.value == "" then Untitled else req.title.value, req.content,
                IntField(result.fields, "tokens_used"))
  }

  /** `{ analysisId, ...result }`: a result field of the same name would win. */
  function Served(id: string, result: AnalysisResult, used: int, limit: int): Response
  {
    JsonResponse(JObj(map["success" := JBool(true), "data" := JObj(map["analysisId" := JStr(id)] + result.fields),
                          "usage" := UsageJson(used, limit)]), 200)
  }

  function Analyze(users: seq<User>, analyses: seq<AnalysisRow>, session: Option<string>, body: Result<Json, string>, env: Env): Step
  {
    var g := QuotaGate(users, session, env.now, env.monthOf, Noun);
    match g.gate
    case Stop(resp) => Step(resp, g.users, analyses)
    case Proceed(userId, used, limit) =>
      if body.Failure? then Step(InternalFailure(body.error, Fallback), g.users, analyses)
      else match ParseRequest(body.value)
        case Failure(issue) => Step(InvalidBody(issue), g.users, analyses)
        case Success(req) =>
          match env.analyze(req)
          case Failure(msg) => Step(InternalFailure(msg, Fallback), g.users, analyses)
          case Success(result) =>
            Step(Served(env.newId, result, used, limit), UpdateWhere(g.users, UserIdIs(userId), Charge),
                 analyses + [SavedRow(userId, req, result)])
  }

  method AnalyzeRoute(db: Db, session: Option<string>, body: Result<Json, string>, env: Env) returns (resp: Response)
    modifies db`users, db`analyses
    ensures Step(resp, db.users, db.analyses) == Analyze(old(db.users), old(db.analyses), session, body, env)
  {
    var g := CheckQuota(db, session, env.now, env.monthOf, Noun);
    if g.Stop? {
      return g.response;
    }
    if body.Failure? {
      return InternalFailure(body.error, Fallback);
    }
    var validation := ParseRequest(body.value);
    if validation.Failure? {
      return InvalidBody(validation.error);
    }
    var req := validation.value;
    var analysis := env.analyze(req);
    if analysis.Failure? {
      return InternalFailure(analysis.error, Fallback);
    }
    var result := analysis.value;
    db.analyses := db.analyses + [SavedRow(g.userId, req, result)];
    db.users := UpdateWhere(db.users, UserIdIs(g.userId), Charge);
    resp := Served(env.newId, result, g.used, g.limit);
  }

  // ---------------------------------------------------------------------
  // Properties

  /**
   * Only a served analysis is charged and saved: the caller's two counters
   * go up by one, every other user is unchanged, and the usage block
   * reports the request itself.
   */
  lemma ServedIsCharged(users: seq<User>, analyses: seq<AnalysisRow>, session: Option<string>, body: Result<Json, string>, env: Env)
    requires UniqueUserIds(users)
    requires Analyze(users, analyses, session, body, env).response.status == 200
    ensures var s := Analyze(users, analyses, session, body, env);
      var i := Authenticate(users, session).value;
      var g := QuotaGate(users, session, env.now, env.monthOf, Noun).gate;
      && Authenticate(users, session).Success? && g.Proceed?
      && |s.analyses| == |analyses| + 1 && s.analyses[..|analyses|] == analyses && s.analyses[|analyses|].userId == users[i].id
      && |s.users| == |users|
      && s.users[i].monthlyAnalysesUsed == g.used + 1
      && s.users[i].analysesCount == users[i].analysesCount + 1
      && (forall j :: 0 <= j < |users| && j != i ==> s.users[j] == users[j])
      && s.response.body.fields["usage"] == UsageJson(g.used, g.limit)
      && 0 <= g.limit - g.used - 1
  {
    ChargeAfterGate(users, session, env.now, env.monthOf, Noun);
  }

  /** Every refusal (sign-in, allowance, body, analyzer) leaves the counters as the gate left them and saves nothing. */
  lemma RefusalsCostNothing(users: seq<User>, analyses: seq<AnalysisRow>, session: Option<string>, body: Result<Json, string>, env: Env)
    requires Analyze(users, analyses, session, body, env).response.status != 200
    ensures Analyze(users, analyses, session, body, env).analyses == analyses
    ensures Analyze(users, analyses, session, body, env).users == QuotaGate(users, session, env.now, env.monthOf, Noun).users
  {
  }

  /** The allowance is checked before the body: an over-quota caller gets 402 whatever it sent. */
  lemma QuotaBeforeBody(users: seq<User>, analyses: seq<AnalysisRow>, session: Option<string>, b1: Result<Json, string>,
                        b2: Result<Json, string>, env: Env)
    requires Authenticate(users, session).Success?
    requires QuotaGate(users, session, env.now, env.monthOf, Noun).gate.Stop?
    ensures Analyze(users, analyses, session, b1, env) == Analyze(users, analyses, session, b2, env)
    ensures Analyze(users, analyses, session, b1, env).response.status == 402
  {
    RefusalWritesOnlyReset(users, session, env.now, env.monthOf, Noun);
  }

  /** An invalid body is 400 naming the first bad field, and the analyzer is not consulted. */
  lemma InvalidBodyIsReported(users: seq<User>, analyses: seq<AnalysisRow>, session: Option<string>, body: Json, env: Env,
                              other: AnalyzeRequest -> Result<AnalysisResult, string>)
    requires QuotaGate(users, session, env.now, env.monthOf, Noun).gate.Proceed?
    requires !RequestWellFormed(body)
    ensures Analyze(users, analyses, session, Result.Success(body), env).response == InvalidBody(RequestIssue(body).value)
    ensures Analyze(users, analyses, session, Result.Success(body), env) == Analyze(users, analyses, session, Result.Success(body), env.(analyze := other))
  {
  }
}
