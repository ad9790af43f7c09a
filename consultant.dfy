/** The AI consultant widget: its chat transcript and input box, the brief
    generated from the transcript, and the project record assembled from the
    brief and a concept image. The widget's React state is the `Session`
    class; provider outcomes, clock readings and the id suffix are
    parameters of its methods. */
module Consultant {
  import opened Types
  import opened JsText
  import opened GeminiService

  const Greeting := "Olá! Sou a Nova, sua Arquiteta Técnica de IA. Fale-me sobre a aplicação web que deseja construir. Seria uma Landing Page, um site CMS ou uma plataforma SaaS?"
  const ThinkingText := "Estou pensando..."
  const ConnectionErrorText := "Encontrei um erro de conexão. Por favor, tente novamente."
  /** Fewer messages than this and brief generation does nothing. */
  const MinBriefMessages := 3
  /** The "Gerar Briefing" button shows only above this many messages. */
  const BriefButtonThreshold := 3
  const GeneratedIdPrefix := "ai-generated-"
  const GeneratedGradient := "from-slate-700 to-slate-900"

  /** How `chatInstance.sendMessage` settled: a result whose `text` may be
      undefined, or a thrown error. */
  datatype ChatOutcome = Replied(text: Option<string>) | ChatFailed

  function RoleName(r: Role): string {
    match r
    case User => "user"
    case Model => "model"
  }

  /** One transcript line: `${m.role}: ${m.text}`. */
  function HistoryLine(m: Message): string {
    RoleName(m.role) + ": " + m.text
  }

  function HistoryLines(ms: seq<Message>): seq<string> {
    seq(|ms|, i requires 0 <= i < |ms| => HistoryLine(ms[i]))
  }

  /** The transcript handed to brief generation: one line per message, in
      order, joined with newlines. */
  function SerializeHistory(ms: seq<Message>): string {
    Join(HistoryLines(ms), "\n")
  }

  /** Reading one transcript line back into its role and text. */
  function ReadLine(line: string): Option<(Role, string)> {
    if StartsWith(line, "user: ") then Some((User, line[6..]))
    else if StartsWith(line, "model: ") then Some((Model, line[7..]))
    else None
  }

  /** A line gives back the role and text of its message. */
  lemma ReadHistoryLine(m: Message)
    ensures ReadLine(HistoryLine(m)) == Some((m.role, m.text))
  {
    var line := HistoryLine(m);
    match m.role
    case User =>
      assert line == "user: " + m.text;
      assert line[..6] == "user: ";
      assert line[6..] == m.text;
    case Model =>
      assert line == "model: " + m.text;
      assert line[..6] != "user: " by {
        assert line[0] == 'm';
      }
      assert line[..7] == "model: ";
      assert line[7..] == m.text;
  }

  /** Appending a message to a non-empty transcript appends one line. */
  lemma SerializeHistoryAppend(ms: seq<Message>, m: Message)
    requires |ms| > 0
    ensures SerializeHistory(ms + [m]) == SerializeHistory(ms) + "\n" + HistoryLine(m)
  {
    assert HistoryLines(ms + [m]) == HistoryLines(ms) + [HistoryLine(m)];
    JoinConcat(HistoryLines(ms), [HistoryLine(m)], "\n");
  }

  /** When no message text holds a newline, cutting the transcript at its
      newlines gives back one line per message, in order. */
  lemma SerializeHistoryRoundTrip(ms: seq<Message>)
    requires |ms| > 0
    requires forall i :: 0 <= i < |ms| ==> '\n' !in ms[i].text
    ensures Split(SerializeHistory(ms), '\n') == HistoryLines(ms)
    ensures forall i :: 0 <= i < |ms| ==> ReadLine(Split(SerializeHistory(ms), '\n')[i]) == Some((ms[i].role, ms[i].text))
  {
    var lines := HistoryLines(ms);
    forall i | 0 <= i < |lines| ensures '\n' !in lines[i] {
      assert lines[i] == RoleName(ms[i].role) + ": " + ms[i].text;
    }
    SplitJoin(lines, '\n');
    forall i | 0 <= i < |ms| ensures ReadLine(lines[i]) == Some((ms[i].role, ms[i].text)) {
      ReadHistoryLine(ms[i]);
    }
  }

  /** The SaaS keywords: "saas" in the title, "plataforma" or "sistema" in
      the summary, after lowercasing. */
  predicate SaasSignal(title: string, summary: string) {
    Contains(Lower(title), "saas") || Contains(Lower(summary), "plataforma") || Contains(Lower(summary), "sistema")
  }

  /** The CMS keywords: "blog" or "cms" in the title, "notícias" in the
      summary, after lowercasing. */
  predicate CmsSignal(title: string, summary: string) {
    Contains(Lower(title), "blog") || Contains(Lower(title), "cms") || Contains(Lower(summary), "notícias")
  }

  /** The category of a generated project, first match wins: SaaS keywords
      beat CMS keywords, and Landing Page is the default. */
  function Classify(title: string, summary: string): (c: Category)
    ensures c == SaaS <==> SaasSignal(title, summary)
    ensures c == Cms <==> !SaasSignal(title, summary) && CmsSignal(title, summary)
    ensures c == LandingPage <==> !SaasSignal(title, summary) && !CmsSignal(title, summary)
  {
    if SaasSignal(title, summary) then SaaS
    else if CmsSignal(title, summary) then Cms
    else LandingPage
  }

  /** Classification ignores case: it gives the same answer on lowercased
      text. */
  lemma ClassifyIgnoresCase(title: string, summary: string)
    ensures Classify(Lower(title), Lower(summary)) == Classify(title, summary)
  {
    LowerIdempotent(title);
    LowerIdempotent(summary);
  }

  /** A "saas" title is SaaS. */
  lemma ClassifySaasTitle(title: string, summary: string)
    requires title == "SaaS Dashboard" && summary == "plataforma de gestão"
    ensures Classify(title, summary) == SaaS
  {
    assert Lower(title)[..4] == "saas";
  }

  /** A letter of "saas" missing from the lowercased title, and letters of
      "plataforma" and of "sistema" missing from the lowercased summary,
      rule out every SaaS keyword. */
  lemma NoSaasSignal(title: string, summary: string, t: char, p: char, q: char)
    requires t in "saas" && t !in Lower(title)
    requires p in "plataforma" && p !in Lower(summary)
    requires q in "sistema" && q !in Lower(summary)
    ensures !SaasSignal(title, summary)
  {
    MissingCharNotContained(Lower(title), "saas", t);
    MissingCharNotContained(Lower(summary), "plataforma", p);
    MissingCharNotContained(Lower(summary), "sistema", q);
  }

  /** Letters of "blog" and of "cms" missing from the lowercased title, and
      a letter of "notícias" missing from the lowercased summary, rule out
      every CMS keyword. */
  lemma NoCmsSignal(title: string, summary: string, b: char, c: char, n: char)
    requires b in "blog" && b !in Lower(title)
    requires c in "cms" && c !in Lower(title)
    requires n in "notícias" && n !in Lower(summary)
    ensures !CmsSignal(title, summary)
  {
    MissingCharNotContained(Lower(title), "blog", b);
    MissingCharNotContained(Lower(title), "cms", c);
    MissingCharNotContained(Lower(summary), "notícias", n);
  }

  lemma BlogTitleLetters(title: string)
    requires title == "Blog Corporativo"
    ensures Lower(title)[..4] == "blog" && 's' !in Lower(title)
  {
    AbsentFromLower(title, 's');
  }

  lemma NewsSummaryLetters(summary: string)
    requires summary == "notícias diárias"
    ensures 'p' !in Lower(summary) && 'e' !in Lower(summary)
  {
    AbsentFromLower(summary, 'p');
    AbsentFromLower(summary, 'e');
  }

  /** A blog title with news in the summary is CMS. */
  lemma ClassifyBlog(title: string, summary: string)
    requires title == "Blog Corporativo" && summary == "notícias diárias"
    ensures Classify(title, summary) == Cms
  {
    BlogTitleLetters(title);
    NewsSummaryLetters(summary);
    NoSaasSignal(title, summary, 's', 'p', 'e');
  }

  /** A CMS keyword in the title loses to a SaaS keyword in the summary. */
  lemma ClassifySaasBeatsCms(title: string, summary: string)
    requires title == "Blog da Empresa" && summary == "um sistema de gestão"
    ensures Classify(title, summary) == SaaS
  {
    var lower := Lower(summary);
    assert summary[3..10] == "sistema";
    assert forall k | 3 <= k < 10 :: lower[k] == summary[k];
    assert lower[3..10] == "sistema";
    assert OccursAt(lower, "sistema", 3);
    ContainsIff(lower, "sistema");
  }

  lemma CaptureTitleLetters(title: string)
    requires title == "Página de Captura"
    ensures 's' !in Lower(title) && 'b' !in Lower(title)
  {
    AbsentFromLower(title, 's');
    AbsentFromLower(title, 'b');
  }

  lemma LeadsSummaryLetters(summary: string)
    requires summary == "conversão de leads"
    ensures 'p' !in Lower(summary) && 'i' !in Lower(summary)
  {
    AbsentFromLower(summary, 'p');
    AbsentFromLower(summary, 'i');
  }

  /** No keyword at all gives the Landing Page default. */
  lemma ClassifyDefault(title: string, summary: string)
    requires title == "Página de Captura" && summary == "conversão de leads"
    ensures Classify(title, summary) == LandingPage
  {
    CaptureTitleLetters(title);
    LeadsSummaryLetters(summary);
    NoSaasSignal(title, summary, 's', 'p', 'i');
    NoCmsSignal(title, summary, 'b', 's', 'i');
  }

  /** The short prompt sent for the concept image: `${title} - ${summary}`. */
  function ConceptPrompt(b: ProjectBrief): (prompt: string)
    ensures StartsWith(prompt, b.title) && EndsWith(prompt, b.summary)
    ensures |prompt| == |b.title| + 3 + |b.summary|
    ensures prompt[|b.title|..|b.title| + 3] == " - "
  {
    b.title + " - " + b.summary
  }

  /** The record emitted for a generated project. */
  function GeneratedProject(b: ProjectBrief, imageUrl: string, idSuffix: string): (p: ProjectData)
    ensures StartsWith(p.id, GeneratedIdPrefix) && p.id[|GeneratedIdPrefix|..] == idSuffix
    ensures p.title == b.title && p.description == b.summary && p.techStack == b.techStack
    ensures p.category == Classify(b.title, b.summary) && p.imageGradient == GeneratedGradient
    ensures p.previewImage == Some(imageUrl) && p.generatedHtml == None
  {
    ProjectData(
      GeneratedIdPrefix + idSuffix, b.title, Classify(b.title, b.summary), b.summary,
      GeneratedGradient, b.techStack, Some(imageUrl), None)
  }

  /** The model message appended once a send settles: never an empty
      bubble, flagged as an error exactly when the call threw, and carrying
      the reply verbatim whenever the reply has text. */
  function ReplyMessage(outcome: ChatOutcome, now: int): (m: Message)
    ensures m.role == Model && m.timestamp == now
    ensures m.isError <==> outcome.ChatFailed?
    ensures outcome.ChatFailed? ==> m.text == ConnectionErrorText
    ensures m.text != ""
    ensures outcome.Replied? && Truthy(outcome.text) ==> m.text == outcome.text.value
    ensures outcome.Replied? && !Truthy(outcome.text) ==> m.text == ThinkingText
  {
    match outcome
    case Replied(text) => Message(Model, if Truthy(text) then text.value else ThinkingText, now, false)
    case ChatFailed => Message(Model, ConnectionErrorText, now, true)
  }

  /** Roles alternate model, user, model, … starting and ending with a model
      message: the shape of a transcript built by whole sends. */
  ghost predicate Alternates(ms: seq<Message>) {
    && |ms| % 2 == 1
    && forall i :: 0 <= i < |ms| ==> ms[i].role == (if i % 2 == 0 then Model else User)
  }

  class Session {
    var hasChat: bool
    var messages: seq<Message>
    var inputValue: string
    var isTyping: bool
    var projectBrief: Option<ProjectBrief>
    var isGeneratingBrief: bool
    var isGeneratingImage: bool
    /** Whether the parent passed `onViewProject`. */
    const canViewProject: bool

    /** Once the chat exists, the transcript opens with the greeting. */
    ghost predicate Valid()
      reads this
    {
      hasChat ==> |messages| > 0 && messages[0].role == Model && messages[0].text == Greeting
    }

    /** Between whole sends: no reply pending and the roles alternate. */
    ghost predicate Settled()
      reads this
    {
      !isTyping && Alternates(messages)
    }

    /** The state before the mount effect has run. */
    constructor(canViewProject: bool)
      ensures Valid()
      ensures !hasChat && messages == [] && inputValue == "" && !isTyping
      ensures projectBrief == None && !isGeneratingBrief && !isGeneratingImage
      ensures this.canViewProject == canViewProject
    {
      hasChat := false;
      messages := [];
      inputValue := "";
      isTyping := false;
      projectBrief := None;
      isGeneratingBrief := false;
      isGeneratingImage := false;
      this.canViewProject := canViewProject;
    }

    /** The mount effect: the chat is created and the transcript is exactly
        the greeting. */
    method Mount(now: int)
      modifies this
      ensures Valid()
      ensures !old(isTyping) ==> Settled()
      ensures hasChat && messages == [Message(Model, Greeting, now, false)]
      ensures inputValue == old(inputValue) && isTyping == old(isTyping)
      ensures projectBrief == old(projectBrief)
      ensures isGeneratingBrief == old(isGeneratingBrief) && isGeneratingImage == old(isGeneratingImage)
    {
      hasChat := true;
      messages := [Message(Model, Greeting, now, false)];
    }

    /** The input's change handler. */
    method SetInput(value: string)
      modifies this
      ensures inputValue == value
      ensures hasChat == old(hasChat) && messages == old(messages) && isTyping == old(isTyping)
      ensures projectBrief == old(projectBrief)
      ensures isGeneratingBrief == old(isGeneratingBrief) && isGeneratingImage == old(isGeneratingImage)
    {
      inputValue := value;
    }

    /** `handleSendMessage` up to the provider call. A blank input or a
        missing chat changes nothing (the guard `!inputValue.trim()` is
        written `IsBlank`, which `TrimEmptyIffBlank` shows to be the same
        test); otherwise the input is cleared, the typing flag is raised and
        the untrimmed text is appended as a user message. `sent` is the text
        passed to the provider. */
    method BeginSend(now: int) returns (sent: Option<string>)
      requires Valid()
      modifies this
      ensures Valid()
      ensures sent.None? <==> IsBlank(old(inputValue)) || !hasChat
      ensures sent.None? ==> messages == old(messages) && inputValue == old(inputValue) && isTyping == old(isTyping)
      ensures sent.Some? ==> sent.value == old(inputValue) && inputValue == "" && isTyping
      ensures sent.Some? ==> messages == old(messages) + [Message(User, old(inputValue), now, false)]
      ensures hasChat == old(hasChat) && projectBrief == old(projectBrief)
      ensures isGeneratingBrief == old(isGeneratingBrief) && isGeneratingImage == old(isGeneratingImage)
    {
      if IsBlank(inputValue) || !hasChat {
        return None;
      }
      var userText := inputValue;
      inputValue := "";
      messages := messages + [Message(User, userText, now, false)];
      isTyping := true;
      sent := Some(userText);
    }

    /** `handleSendMessage` once the provider call settles: exactly one
        model message is appended (the reply, or the apology on failure),
        nothing is removed, and the typing flag drops in both cases. */
    method CompleteSend(outcome: ChatOutcome, now: int)
      requires Valid()
      modifies this
      ensures Valid()
      ensures messages == old(messages) + [ReplyMessage(outcome, now)]
      ensures !isTyping
      ensures hasChat == old(hasChat) && inputValue == old(inputValue)
      ensures projectBrief == old(projectBrief)
      ensures isGeneratingBrief == old(isGeneratingBrief) && isGeneratingImage == old(isGeneratingImage)
    {
      messages := messages + [ReplyMessage(outcome, now)];
      isTyping := false;
    }

    /** A whole send with no other event in between: the user message and
        the reply are appended together, and a settled transcript stays
        settled. */
    method SendMessage(outcome: ChatOutcome, sentAt: int, repliedAt: int) returns (sent: Option<string>)
      requires Valid()
      modifies this
      ensures Valid()
      ensures sent.None? <==> IsBlank(old(inputValue)) || !hasChat
      ensures sent.None? ==> messages == old(messages) && inputValue == old(inputValue) && isTyping == old(isTyping)
      ensures sent.Some? ==> sent.value == old(inputValue) && inputValue == "" && !isTyping
      ensures sent.Some? ==> messages == old(messages) + [Message(User, sent.value, sentAt, false), ReplyMessage(outcome, repliedAt)]
      ensures old(Settled()) ==> Settled()
      ensures hasChat == old(hasChat) && projectBrief == old(projectBrief)
      ensures isGeneratingBrief == old(isGeneratingBrief) && isGeneratingImage == old(isGeneratingImage)
    {
      sent := BeginSend(sentAt);
      if sent.Some? {
        CompleteSend(outcome, repliedAt);
        ghost var n := |old(messages)|;
        assert messages[n].role == User && messages[n + 1].role == Model;
      }
    }

    /** `handleGenerateBrief`. With fewer than three messages nothing
        happens. Otherwise the serialised transcript goes to the provider
        (`history`) and the brief becomes whatever the service returned,
        null included, so a failed retry clears an earlier brief. */
    method GenerateBrief(resp: TextResponse, parse: string -> Option<ProjectBrief>) returns (history: Option<string>)
      modifies this
      ensures history.None? <==> |messages| < MinBriefMessages
      ensures history.None? ==> projectBrief == old(projectBrief) && isGeneratingBrief == old(isGeneratingBrief)
      ensures history.Some? ==> history.value == SerializeHistory(messages)
      ensures history.Some? ==> projectBrief == ProjectBriefResult(resp, parse) && !isGeneratingBrief
      ensures hasChat == old(hasChat) && messages == old(messages) && inputValue == old(inputValue)
      ensures isTyping == old(isTyping) && isGeneratingImage == old(isGeneratingImage)
    {
      if |messages| < MinBriefMessages {
        return None;
      }
      isGeneratingBrief := true;
      var historyText := SerializeHistory(messages);
      var brief := ProjectBriefResult(resp, parse);
      projectBrief := brief;
      isGeneratingBrief := false;
      history := Some(historyText);
    }

    /** `handleGenerateAndNavigate`. Without a brief nothing happens.
        Otherwise the concept prompt goes to the image provider (`prompt`),
        and a project is emitted to `onViewProject` only when an image URL
        came back and the callback exists; the image flag is down again
        afterwards either way. */
    method GenerateAndNavigate(resp: ImageResponse, idSuffix: string) returns (prompt: Option<string>, emitted: Option<ProjectData>)
      modifies this
      ensures prompt.None? <==> projectBrief.None?
      ensures prompt.None? ==> emitted.None? && isGeneratingImage == old(isGeneratingImage)
      ensures prompt.Some? ==> prompt.value == projectBrief.value.title + " - " + projectBrief.value.summary
      ensures prompt.Some? ==> !isGeneratingImage
      ensures emitted.Some? <==> projectBrief.Some? && canViewProject && Truthy(FirstImageBytes(resp))
      ensures emitted.Some? ==>
        var b, p := projectBrief.value, emitted.value;
        && StartsWith(p.id, GeneratedIdPrefix) && p.id[|GeneratedIdPrefix|..] == idSuffix
        && p.title == b.title && p.description == b.summary && p.techStack == b.techStack
        && p.category == Classify(b.title, b.summary)
        && p.imageGradient == GeneratedGradient
        && p.previewImage == ConceptImageResult(resp) && p.generatedHtml.None?
      ensures hasChat == old(hasChat) && messages == old(messages) && inputValue == old(inputValue)
      ensures isTyping == old(isTyping) && projectBrief == old(projectBrief)
      ensures isGeneratingBrief == old(isGeneratingBrief)
    {
      if projectBrief.None? {
        return None, None;
      }
      isGeneratingImage := true;
      var brief := projectBrief.value;
      var request := ConceptPrompt(brief);
      var imageUrl := ConceptImageResult(resp);
      emitted := None;
      if Truthy(imageUrl) && canViewProject {
        var project := GeneratedProject(brief, imageUrl.value, idSuffix);
        assert project.id[..|GeneratedIdPrefix|] == GeneratedIdPrefix;
        emitted := Some(project);
      }
      isGeneratingImage := false;
      prompt := Some(request);
    }

    /** The send button is enabled when the trimmed input is non-empty and
        no reply is pending; pressing Enter skips this check. */
    function SendButtonEnabled(): (enabled: bool)
      reads this
      ensures enabled <==> !IsBlank(inputValue) && !isTyping
    {
      TrimEmptyIffBlank(inputValue);
      Trim(inputValue) != "" && !isTyping
    }

    /** The brief button shows only above three messages, so whenever it
        shows, the handler's own guard lets the request through. */
    function BriefButtonVisible(): (visible: bool)
      reads this
      ensures visible <==> |messages| > BriefButtonThreshold
      ensures visible ==> |messages| >= MinBriefMessages
    {
      |messages| > BriefButtonThreshold
    }
  }
}
