/** `applyForProject`: the prompt that asks the model for an offer message, the
    reading of its answer, and `apply_for_project`, which joins the two around
    one call of the model. */
module Apply {
  import opened Wrappers
  import opened Text
  import opened Json
  import opened Llama

  /** `OfferMessage`; the field holds whatever the model put under `offer_message`. */
  datatype OfferMessage = OfferMessage(offer: Json)

  const SystemPrompt: string :=
    "You are a helper responsible for generating the offer " +
    "message for the project, and can only output JSON format message."
  const NoProfile: string := "No candidate profile."
  const Closing: string := "Please only return JSON, do not include extra text."
  const ExemplarMessage: string :=
    "\U{ff08}please generate the message in the same language as the " +
    "project description, for example, if the project description " +
    "is in French, please generate the message in French; if it " +
    "is in English, use English.\U{ff09}Bonjour, je suis tr\U{e8}s " +
    "enthousiaste \U{e0} l\U{2019}id\U{e9}e de participer \U{e0} votre projet. Mes " +
    "comp\U{e9}tences et exp\U{e9}riences vari\U{e9}es me permettent d\U{2019}apporter " +
    "des solutions efficaces et cr\U{e9}atives, parfaitement adapt\U{e9}es " +
    "\U{e0} vos besoins. I have a strong ability to solve complex " +
    "problems, design robust architectures, and ensure the " +
    "quality of development. I put a lot of emphasis on " +
    "communication, listening, and accompaniment at each stage of " +
    "the project to ensure the success of our collaboration. " +
    "Contact me to discuss more: I am ready to transform your " +
    "vision into reality!"

  /** The instructions at the top of the prompt. */
  const Instructions: seq<string> := [
    "Please generate a persuasive, eye-catching, genuine, and " +
      "professional human-like offer message for the project. The " +
      "message must output JSON only.",
    "Instructions for the message:",
    "- offer_message: string. The offer message for the project.",
    "- Maximize the candidate's advantages, highlight strengths " +
      "and outstanding skills as much as possible, minimize or " +
      "downplay any shortcomings.",
    "- Avoid mentioning age or years of work experience if " +
      "possible.",
    "- Within 1000 characters, create the most compelling, " +
      "positive, and attention-grabbing message that clearly " +
      "demonstrates value to the client.",
    "- The message should be friendly, professional, and sincere.",
    "- Please match the language of the offer message with the " +
      "project's language. For example, if the project description " +
      "is in French, generate the message in French; if it is in " +
      "English, use English."
  ]

  /** `json.dumps(exemplar, ensure_ascii=False)`: one key, no escaping needed. */
  function Exemplar(): string
  {
    "{\"offer_message\": \"" + ExemplarMessage + "\"}"
  }

  /** Everything before the candidate profile header. */
  function Preamble(): seq<string>
  {
    Instructions + ["", "Here is an example output:", Exemplar()]
  }

  /** `person_profile or "No candidate profile."`. */
  function ProfileLine(profile: string): (r: string)
    ensures r != ""
  {
    if profile != "" then profile else NoProfile
  }

  const CandidateHeader: string := "[Candidate profile]"
  const DescriptionHeader: string := "[Project description]"

  /** `build_prompt(person_profile, project_description)`: the prompt blocks joined
      by line breaks. */
  function BuildPrompt(profile: string, description: string): string
  {
    Join(Preamble() + ["", CandidateHeader, ProfileLine(profile), "", DescriptionHeader, description, "", Closing], "\n")
  }

  lemma JoinSnoc(a: seq<string>, x: string, sep: string)
    requires a != []
    ensures Join(a + [x], sep) == Join(a, sep) + sep + x
  {
    JoinAppend(a, [x], sep);
  }

  /** The prompt is the joined preamble, then line by line a blank line, the
      profile header, the profile line (or the placeholder), a blank line, the
      description header, the description verbatim, a blank line and the
      closing line. */
  lemma PromptLayout(profile: string, description: string)
    ensures BuildPrompt(profile, description)
         == Join(Preamble(), "\n") + "\n" + "" + "\n" + CandidateHeader + "\n" + ProfileLine(profile)
            + "\n" + "" + "\n" + DescriptionHeader + "\n" + description + "\n" + "" + "\n" + Closing
  {
    BlocksLayout(Preamble(), CandidateHeader, ProfileLine(profile), DescriptionHeader, description, Closing);
  }

  /** `PromptLayout` for any preamble and any texts. */
  lemma BlocksLayout(p: seq<string>, h1: string, line: string, h2: string, d: string, c: string)
    requires p != []
    ensures Join(p + ["", h1, line, "", h2, d, "", c], "\n")
         == Join(p, "\n") + "\n" + "" + "\n" + h1 + "\n" + line + "\n" + "" + "\n" + h2 + "\n" + d + "\n" + "" + "\n" + c
  {
    JoinFour(p, "", h1, line, "");
    JoinFour(p + ["", h1, line, ""], h2, d, "", c);
    assert p + ["", h1, line, ""] + [h2, d, "", c] == p + ["", h1, line, "", h2, d, "", c];
  }

  lemma JoinFour(p: seq<string>, a: string, b: string, c: string, d: string)
    requires p != []
    ensures Join(p + [a, b, c, d], "\n") == Join(p, "\n") + "\n" + a + "\n" + b + "\n" + c + "\n" + d
  {
    JoinSnoc(p, a, "\n");
    JoinSnoc(p + [a], b, "\n");
    assert p + [a] + [b] == p + [a, b];
    JoinSnoc(p + [a, b], c, "\n");
    assert p + [a, b] + [c] == p + [a, b, c];
    JoinSnoc(p + [a, b, c], d, "\n");
    assert p + [a, b, c] + [d] == p + [a, b, c, d];
  }

  /** The text before the description: it depends on the profile only. */
  function DescriptionPrefix(profile: string): string
  {
    Join(Preamble(), "\n") + "\n" + "" + "\n" + CandidateHeader + "\n" + ProfileLine(profile)
    + "\n" + "" + "\n" + DescriptionHeader + "\n"
  }

  /** The prompt ends with the closing line; the description sits right after its
      header and the text before it depends on the profile only, so two prompts for
      the same profile are equal exactly when the descriptions are; an empty
      profile is replaced by the placeholder. */
  lemma PromptProperties(profile: string, description: string, other: string)
    ensures var p := BuildPrompt(profile, description);
      |Closing| <= |p| && p[|p| - |Closing|..] == Closing
    ensures var p := BuildPrompt(profile, description); var pre := DescriptionPrefix(profile);
      |pre| + |description| <= |p| && p[..|pre|] == pre && p[|pre|..|pre| + |description|] == description
    ensures BuildPrompt("", description) == BuildPrompt(NoProfile, description)
    ensures BuildPrompt(profile, description) == BuildPrompt(profile, other) <==> description == other
  {
    PromptLayout(profile, description);
    PromptLayout(profile, other);
    Surrounded(DescriptionPrefix(profile), description, other, Closing);
  }

  /** In `x + m + "\n" + "" + "\n" + c`, `x`, `m` and `c` can be read back. */
  lemma Surrounded(x: string, m: string, other: string, c: string)
    ensures var p := x + m + "\n" + "" + "\n" + c;
      |x| + |m| <= |p| && |c| <= |p|
      && p[..|x|] == x && p[|x|..|x| + |m|] == m && p[|p| - |c|..] == c
    ensures x + m + "\n" + "" + "\n" + c == x + other + "\n" + "" + "\n" + c <==> m == other
  {
    var t := "\n" + "" + "\n" + c;
    var p := x + m + "\n" + "" + "\n" + c;
    assert p == x + m + t;
    var q := x + other + "\n" + "" + "\n" + c;
    assert q == x + other + t;
    if p == q {
      assert m == p[|x|..|x| + |m|];
      assert other == q[|x|..|x| + |other|];
    }
  }

  /** `parse_ai_decision(result)`: the value under `offer_message` when `result` is
      an object holding it; any other answer gives the empty message. */
  function ParseAiDecision(result: Json): OfferMessage
  {
    if result.JObj? && "offer_message" in result.fields then OfferMessage(result.fields["offer_message"])
    else OfferMessage(JStr(""))
  }

  /** The answer shape the prompt asks for. */
  function AsAnswer(m: OfferMessage): Json
  {
    JObj(map["offer_message" := m.offer])
  }

  /** Reading back a message in the asked-for shape gives the message; extra keys
      do not matter; an answer without the key (or not an object) gives the empty
      message. */
  lemma ParseAiDecisionProperties(m: OfferMessage, extra: map<string, Json>, other: Json)
    ensures ParseAiDecision(AsAnswer(m)) == m
    ensures ParseAiDecision(JObj(extra + map["offer_message" := m.offer])) == m
    ensures !(other.JObj? && "offer_message" in other.fields) ==> ParseAiDecision(other) == OfferMessage(JStr(""))
  {
  }

  /** Why `apply_for_project` raises. */
  datatype ApplyError =
    | MissingDescription     // `project["description"]` raises `KeyError`
    | DescriptionNotText     // joining a non-string block raises `TypeError`
    | ModelFailed(cause: LlamaError)

  /** `apply_for_project(project)` with the candidate profile `profile`: the
      description goes into the prompt, the model is called with the default
      model, format and timeout, and its answer is read as an offer. */
  function ApplyForProject(project: map<string, Json>, profile: string, svc: Services): Result<OfferMessage, ApplyError>
  {
    if "description" !in project then Err(MissingDescription)
    else if !project["description"].JStr? then Err(DescriptionNotText)
    else
      match CallLlama(BuildPrompt(profile, project["description"].s), SystemPrompt, None, "json", None, svc)
      case Err(e) => Err(ModelFailed(e))
      case Ok(answer) => Ok(ParseAiDecision(answer))
  }

  /** A project without a text description fails before the model is asked; the
      model failing fails the call; otherwise the offer is what the model's
      answer holds, and the chat request carries the prompt built from the
      description as the user message, the system prompt, and the JSON format. */
  lemma ApplyProperties(project: map<string, Json>, profile: string, svc: Services)
    ensures ApplyForProject(project, profile, svc).Err? <==>
      "description" !in project || !project["description"].JStr?
      || CallLlama(BuildPrompt(profile, project["description"].s), SystemPrompt, None, "json", None, svc).Err?
    ensures ApplyForProject(project, profile, svc).Ok? ==>
      var prompt := BuildPrompt(profile, project["description"].s);
      var request := ChatRequest(prompt, SystemPrompt, None, "json", RequestTimeout(None, svc.env).value, svc.env);
      request.payload.fields["messages"] == JArr([Message("system", SystemPrompt), Message("user", prompt)])
      && request.payload.fields["format"] == JStr("json")
      && prompt == DescriptionPrefix(profile) + project["description"].s + "\n" + "" + "\n" + Closing
      && ApplyForProject(project, profile, svc).value
         == ParseAiDecision(CallLlama(prompt, SystemPrompt, None, "json", None, svc).value)
  {
    if ApplyForProject(project, profile, svc).Ok? {
      PromptLayout(profile, project["description"].s);
    }
  }
}
