/**
 * POST /api/internal/enhance: the same allowance flow as the analysis
 * route, a fixed per-goal template around the original text, and a short
 * summary of the changes.
 */
module Enhance {
  import opened Wrappers
  import opened Strings
  import opened Http
  import opened Schema
  import opened Rows
  import opened Stores
  import opened RequestSchemas
  import opened InternalAuth
  import opened Quota
  import V1Usage

  // ---------------------------------------------------------------------
  // The request schema

  const ContentTooShort := "Content must be at least 50 characters"
  const Tones := ["professional", "casual", "academic", "persuasive"]
  const ToneList := "'professional' | 'casual' | 'academic' | 'persuasive'"
  const Goals := ["improve", "simplify", "expand", "formal", "casual", "persuasive", "seo"]
  const GoalList := "'improve' | 'simplify' | 'expand' | 'formal' | 'casual' | 'persuasive' | 'seo'"

  datatype EnhanceOptions = EnhanceOptions(tone: string, goal: string)
  datatype EnhanceRequest = EnhanceRequest(content: string, title: Option<string>, options: Option<EnhanceOptions>)

  /** An enum with a default: absent is fine, present must be one of the names. */
  function DefaultedEnum(v: Option<Json>, path: string, names: seq<string>, list: string): (r: Option<Issue>)
    ensures r.None? <==> v.None? || (v.value.JStr? && v.value.s in names)
  {
    if v.None? then None else EnumIssue(v, path, names, list)
  }

  predicate EnumOrAbsent(v: Option<Json>, names: seq<string>)
  {
    v.None? || (v.value.JStr? && v.value.s in names)
  }

  predicate RequestWellFormed(body: Json)
  {
    && body.JObj?
    && Field(body, "content").Some? && Field(body, "content").value.JStr?
    && 50 <= |Field(body, "content").value.s| <= 50000
    && (Field(body, "title").None? || Field(body, "title").value.JStr?)
    && (Field(body, "options").None? ||
        (Field(body, "options").value.JObj?
         && EnumOrAbsent(Field(Field(body, "options").value, "tone"), Tones)
         && EnumOrAbsent(Field(Field(body, "options").value, "goal"), Goals)))
  }

  function OptionsIssue(o: Json): (r: Option<Issue>)
    ensures r.None? <==> o.JObj? && EnumOrAbsent(Field(o, "tone"), Tones) && EnumOrAbsent(Field(o, "goal"), Goals)
  {
    if !o.JObj? then Some(Expected("object", Some(o), "options"))
    else
      var checks := [DefaultedEnum(Field(o, "tone"), "options.tone", Tones, ToneList),
                     DefaultedEnum(Field(o, "goal"), "options.goal", Goals, GoalList)];
      assert checks[0].None? <==> EnumOrAbsent(Field(o, "tone"), Tones);
      assert checks[1].None? <==> EnumOrAbsent(Field(o, "goal"), Goals);
      FirstIssue(checks)
  }

  function RequestIssue(body: Json): (r: Option<Issue>)
    ensures r.None? <==> RequestWellFormed(body)
  {
    if !body.JObj? then Some(Expected("object", Some(body), ""))
    else
      var checks := [RequiredString(Field(body, "content"), "content", 50, ContentTooShort, 50000, AtMost(50000)),
                     OptionalString(Field(body, "title"), "title"),
                     if Field(body, "options").None? then None else OptionsIssue(Field(body, "options").value)];
      assert RequestWellFormed(body) <==> forall k :: 0 <= k < |checks| ==> checks[k].None? by {
        assert checks[0].None? <==> Field(body, "content").Some? && Field(body, "content").value.JStr?
                                    && 50 <= |Field(body, "content").value.s| <= 50000;
        assert checks[1].None? <==> Field(body, "title").None? || Field(body, "title").value.JStr?;
        assert checks[2].None? <==> (Field(body, "options").None? ||
          (Field(body, "options").value.JObj?
           && EnumOrAbsent(Field(Field(body, "options").value, "tone"), Tones)
           && EnumOrAbsent(Field(Field(body, "options").value, "goal"), Goals)));
      }
      FirstIssue(checks)
  }

  function ParseRequest(body: Json): (r: Result<EnhanceRequest, Issue>)
    ensures r.Success? <==> RequestWellFormed(body)
    ensures r.Failure? ==> r.error == RequestIssue(body).value
    ensures r.Success? ==> r.value.content == Field(body, "content").value.s && |r.value.content| >= 50
    ensures r.Success? ==> (r.value.options.Some? <==> Field(body, "options").Some?)
    ensures r.Success? && r.value.options.Some? ==> r.value.options.value.tone in Tones && r.value.options.value.goal in Goals
  {
    match RequestIssue(body)
    case Some(issue) => Failure(issue)
    case None =>
      var o := Field(body, "options");
      Success(EnhanceRequest(Field(body, "content").value.s, StrOf(Field(body, "title")),
        if o.None? then None
        else Some(EnhanceOptions(StrOf(Field(o.value, "tone")).GetOr("professional"), StrOf(Field(o.value, "goal")).GetOr("improve")))))
  }

  // ---------------------------------------------------------------------
  // The enhancement itself

  datatype Goal = Improve | Simplify | Expand | Formal | Casual | Persuasive | Seo

  /** `enhancements[goal] || enhancements.improve`. */
  function GoalOf(name: string): (g: Goal)
    ensures name == "improve" ==> g == Improve
  {
    if name == "simplify" then Simplify
    else if name == "expand" then Expand
    else if name == "formal" then Formal
    else if name == "casual" then Casual
    else if name == "persuasive" then Persuasive
    else if name == "seo" then Seo
    else Improve
  }

  /** The lead-in of a goal's template. */
  function Intro(g: Goal): string
  {
    match g
    case Improve => "Here is an improved version of your content with enhanced clarity and engagement:\n\n"
    case Simplify => "Here is a simplified version of your content:\n\n"
    case Expand => "Here is an expanded version of your content with additional details:\n\n"
    case Formal => "Here is a more formal version of your content:\n\n"
    case Casual => "Here is a more casual version of your content:\n\n"
    case Persuasive => "Here is a more persuasive version of your content:\n\n"
    case Seo => "Here is an SEO-optimized version of your content:\n\n"
  }

  const ExpandSection :=
    "\n\n---\n\n## Additional Supporting Information\n\n"
    + "This section provides expanded context and examples to support the main content above. "
    + "The original ideas have been elaborated with more depth and supporting details to create a more comprehensive piece."
  const SeoSection := "\n\n---\n\n**Keywords naturally integrated throughout for SEO optimization.**"

  function Note(g: Goal): string
  {
    match g
    case Improve => "This content has been refined for better readability, flow, and impact while maintaining the original meaning."
    case Simplify => "The language has been simplified to improve accessibility and understanding."
    case Expand => "Content has been expanded with additional context and supporting information."
    case Formal => "The tone has been adjusted to be more professional and formal."
    case Casual => "The tone has been adjusted to be more conversational and friendly."
    case Persuasive => "The content has been refined to be more compelling and persuasive."
    case Seo => "Content has been optimized for search engines while maintaining readability."
  }

  /** What follows the content: an extra section for `expand` and `seo`, then the bracketed note. */
  function Outro(g: Goal): (r: string)
    ensures |r| > 0
  {
    (match g case Expand => ExpandSection case Seo => SeoSection case _ => "")
    + "\n\n[AI Enhancement Applied: " + Note(g) + "]"
  }

  /** The template for the goal, with the content embedded verbatim. */
  function EnhanceContent(content: string, goalName: string): (r: string)
    ensures |r| == |Intro(GoalOf(goalName))| + |content| + |Outro(GoalOf(goalName))|
    ensures StartsWith(r, Intro(GoalOf(goalName)))
    ensures r[|Intro(GoalOf(goalName))|..|Intro(GoalOf(goalName))| + |content|] == content
  {
    var g := GoalOf(goalName);
    var r := Template(content, g);
    assert r[..|Intro(g)|] == Intro(g);
    assert r[|Intro(g)|..|Intro(g)| + |content|] == content;
    r
  }

  /** The template of a goal; "improve" is the one for `Improve`. */
  function Template(content: string, g: Goal): string
  {
    Intro(g) + content + Outro(g)
  }

  /** A goal outside the table gets the `improve` template. */
  lemma UnknownGoalImproves(content: string, goalName: string)
    requires goalName !in Goals
    ensures GoalOf(goalName) == Improve
    ensures EnhanceContent(content, goalName) == Template(content, Improve)
  {
    UnlistedGoal(goalName);
  }

  lemma UnlistedGoal(goalName: string)
    requires goalName !in Goals
    ensures GoalOf(goalName) == Improve
  {
    assert goalName != Goals[1] && goalName != Goals[2] && goalName != Goals[3];
    assert goalName != Goals[4] && goalName != Goals[5] && goalName != Goals[6];
  }

  /** Every template adds text around the content. */
  lemma EnhancedIsLonger(content: string, goalName: string)
    ensures |EnhanceContent(content, goalName)| > |content|
  {
  }

  datatype Change = Change(original: string, improved: string, reason: string)

  const Applied := Change("Original content", "Enhanced version", "Applied tone and goal improvements")

  /** A length entry first when the text grew by more than a tenth. */
  function ChangesSummary(original: string, enhanced: string): (r: seq<Change>)
    ensures |r| >= 1 && r[|r| - 1] == Applied
    ensures |r| == 2 <==> 10 * |enhanced| > 11 * |original|
    ensures |r| <= 2
  {
    (if 10 * |enhanced| > 11 * |original|
     then [Change("Original length", IntToString(|enhanced|) + " characters", "Content expanded with additional details")]
     else [])
    + [Applied]
  }

  function ChangeJson(c: Change): Json
  {
    JObj(map["original" := JStr(c.original), "improved" := JStr(c.improved), "reason" := JStr(c.reason)])
  }

  // ---------------------------------------------------------------------
  // The handler

  const Noun := "enhancements"
  const Fallback := "Enhancement failed"

  /** What the runtime reports when the prompt reads `options.goal` of an absent `options`. */
  const MissingOptionsMessage := "Cannot read properties of undefined (reading 'goal')"

  datatype Step = Step(response: Response, users: seq<User>)

  function Served(content: string, enhanced: string, used: int, limit: int): Response
    requires |content| > 0
  {
    var changes := ChangesSummary(content, enhanced);
    JsonResponse(JObj(map["success" := JBool(true), "data" := JObj(map[
      "enhanced_content" := JStr(enhanced),
      "changes_summary" := JArr(seq(|changes|, k requires 0 <= k < |changes| => ChangeJson(changes[k]))),
      "original_length" := JInt(|content|),
      "enhanced_length" := JInt(|enhanced|),
      "improvement_percentage" := JInt(V1Usage.Round((|enhanced| - |content|) as real / |content| as real * 100.0))]),
      "usage" := UsageJson(used, limit)]), 200)
  }

  function Enhance(users: seq<User>, session: Option<string>, body: Result<Json, string>, now: int, monthOf: int -> int): Step
  {
    var g := QuotaGate(users, session, now, monthOf, Noun);
    match g.gate
    case Stop(resp) => Step(resp, g.users)
    case Proceed(userId, used, limit) =>
      if body.Failure? then Step(InternalFailure(body.error, Fallback), g.users)
      else match ParseRequest(body.value)
        case Failure(issue) => Step(InternalRouteError(issue.message, 400), g.users)
        case Success(req) =>
          if req.options.None? then Step(InternalFailure(MissingOptionsMessage, Fallback), g.users)
          else
            var enhanced := EnhanceContent(req.content, req.options.value.goal);
            Step(Served(req.content, enhanced, used, limit), UpdateWhere(g.users, UserIdIs(userId), Charge))
  }

  method EnhanceRoute(db: Db, session: Option<string>, body: Result<Json, string>, now: int, monthOf: int -> int)
    returns (resp: Response)
    modifies db`users
    ensures Step(resp, db.users) == Enhance(old(db.users), session, body, now, monthOf)
  {
    var g := CheckQuota(db, session, now, monthOf, Noun);
    if g.Stop? {
      return g.response;
    }
    if body.Failure? {
      return InternalFailure(body.error, Fallback);
    }
    var validation := ParseRequest(body.value);
    if validation.Failure? {
      return InternalRouteError(validation.error.message, 400);
    }
    var req := validation.value;
    if req.options.None? {
      return InternalFailure(MissingOptionsMessage, Fallback);
    }
    var enhanced := EnhanceContent(req.content, req.options.value.goal);
    db.users := UpdateWhere(db.users, UserIdIs(g.userId), Charge);
    resp := Served(req.content, enhanced, g.used, g.limit);
  }

  // ---------------------------------------------------------------------
  // Properties

  /**
   * As written, a valid body without `options` fails when the prompt reads
   * the goal: a 500, and the request is not charged.
   */
  lemma MissingOptionsFails(users: seq<User>, session: Option<string>, body: Json, now: int, monthOf: int -> int)
    requires QuotaGate(users, session, now, monthOf, Noun).gate.Proceed?
    requires RequestWellFormed(body) && Field(body, "options").None?
    ensures Enhance(users, session, Result.Success(body), now, monthOf) ==
            Step(InternalFailure(MissingOptionsMessage, Fallback), QuotaGate(users, session, now, monthOf, Noun).users)
    ensures Enhance(users, session, Result.Success(body), now, monthOf).response.status == 500
  {
  }

  /** Only one path answers 200: admitted, parsed, with options, enhanced and charged. */
  lemma ServedPath(users: seq<User>, session: Option<string>, body: Result<Json, string>, now: int, monthOf: int -> int)
    requires Enhance(users, session, body, now, monthOf).response.status == 200
    ensures var g := QuotaGate(users, session, now, monthOf, Noun);
      && g.gate.Proceed? && body.Success? && ParseRequest(body.value).Success?
      && ParseRequest(body.value).value.options.Some?
      && var req := ParseRequest(body.value).value;
         Enhance(users, session, body, now, monthOf) ==
         Step(Served(req.content, EnhanceContent(req.content, req.options.value.goal), g.gate.used, g.gate.limit),
              UpdateWhere(g.users, UserIdIs(g.gate.userId), Charge))
  {
  }

  /** A served enhancement charges the caller once and leaves every other user alone. */
  lemma ServedIsCharged(users: seq<User>, session: Option<string>, body: Result<Json, string>, now: int, monthOf: int -> int)
    requires UniqueUserIds(users)
    requires Enhance(users, session, body, now, monthOf).response.status == 200
    ensures var s := Enhance(users, session, body, now, monthOf);
      var i := Authenticate(users, session).value;
      var g := QuotaGate(users, session, now, monthOf, Noun).gate;
      && Authenticate(users, session).Success? && g.Proceed?
      && |s.users| == |users|
      && s.users[i].monthlyAnalysesUsed == g.used + 1
      && s.users[i].analysesCount == users[i].analysesCount + 1
      && (forall j :: 0 <= j < |users| && j != i ==> s.users[j] == users[j])
  {
    ServedPath(users, session, body, now, monthOf);
    ChargeAfterGate(users, session, now, monthOf, Noun);
  }

  /** Same allowance rule as the analysis route: an over-quota caller gets 402 whatever it sent. */
  lemma QuotaBeforeBody(users: seq<User>, session: Option<string>, b1: Result<Json, string>, b2: Result<Json, string>,
                        now: int, monthOf: int -> int)
    requires QuotaGate(users, session, now, monthOf, Noun).gate.Stop?
    ensures Enhance(users, session, b1, now, monthOf) == Enhance(users, session, b2, now, monthOf)
  {
  }

  /** Given options without a goal or tone, the `improve` template is used. */
  lemma DefaultGoal(content: string)
    requires 50 <= |content| <= 50000
    ensures var body := JObj(map["content" := JStr(content), "options" := JObj(map[])]);
      ParseRequest(body) == Result.Success(EnhanceRequest(content, None, Some(EnhanceOptions("professional", "improve"))))
  {
    var body := JObj(map["content" := JStr(content), "options" := JObj(map[])]);
    assert RequestWellFormed(body);
  }
}
