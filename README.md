# NovaDevX agency site — model of its client-side logic

The site is a single-page React application for a web agency. Besides static
marketing sections it has three pieces of logic:

- **The AI consultant widget** (`Consultant`). A visitor chats with a model.
  The widget then turns the transcript into a structured project brief.
  From the brief it asks for a concept image and builds a project record,
  which it hands to the page so that the record opens as a detail page.
- **The router** (`App`). One view flag and one selected project decide
  whether the home sections or a project's detail page is shown.
- **The detail page** (`ProjectPage`). It picks what fills a mock browser
  window: generated page code, a concept image, or a fixed mock for the
  project's category. It also picks the address shown in the mock address
  bar and decides when a "concept image" notice appears.

Around the three provider calls (chat, JSON brief, image), the service layer
(`GeminiService`) does local post-processing:

- it strips markdown fences from generated code;
- it turns image bytes into a data URL;
- it returns null for every failure.

The project has these modules:

- `JsText`: the JavaScript string operations the logic relies on. These are
  `trim` and the `\s` white-space class, `startsWith`, end-anchored
  matching, `includes`, `toLowerCase` and `join`.
- `Types`: the records. `Option` stands for an optional or nullable value.
  `Truthy` is JavaScript truthiness of an optional string.
- `GeminiService`: the post-processing functions. The provider's answer
  arrives as a datatype parameter.
- `Consultant`: the pure parts (transcript serialisation, category
  classification, the generated record) and the class `Session`. `Session`
  holds the widget's React state; its methods are the event handlers.
  - The send handler awaits the provider. It is split at that point into
    `BeginSend` and `CompleteSend`.
  - `SendMessage` runs both halves with nothing in between.
- `ProjectPage`: the preview choice as a function returning a `Preview`
  datatype. Also the address-bar text and the notice condition.
- `App`: the class `Router`, holding the view state and its three handlers.
  It also holds the consultant-to-router wiring.

Clock readings (`Date.now()`) and the id suffix built from them are method
parameters. So are the provider outcomes (`ChatOutcome`, `TextResponse`,
`ImageResponse`) and the JSON parser (`parse`).

## Model

| member | source | states |
|---|---|---|
| JsText.TrimEmptyIffBlank | components/Consultant.tsx:41 | `Trim(s)` (`s.trim()`) is empty exactly when every character of `s` is JavaScript white space. |
| JsText.SkipSpace | services/geminiService.ts:89 | The greedy `\s*` skips a blank prefix of the text and stops at a non-space character or at the end. |
| JsText.TrimEnd | components/Consultant.tsx:41 | Trailing trimming keeps a prefix, removes only white space, and leaves no trailing white space. |
| JsText.ContainsIff | components/Consultant.tsx:84-86 | `Contains` (the `includes` scan) finds a keyword exactly when the keyword occurs at some index. |
| JsText.MissingCharNotContained | components/Consultant.tsx:84-86 | A keyword holding a character the text lacks is not found. |
| JsText.AbsentFromLower | components/Consultant.tsx:81-82 | A lower-case letter the text holds in neither case does not appear in `Lower` of it (`toLowerCase`). |
| JsText.LowerIdempotent | components/Consultant.tsx:81-82 | `Lower` applied twice is the same as `Lower` applied once. |
| JsText.JoinConcat | components/Consultant.tsx:63 | `Join` (`join`) of two concatenated lists puts exactly one separator between the two joins. |
| JsText.Split | components/Consultant.tsx:63 | The reference inverse of the `join('\n')` at this line: cutting at a separator always yields at least one piece. |
| JsText.SplitJoin | components/Consultant.tsx:63 | `Split` at `c` undoes `Join` with `[c]` when no piece contains `c`. |
| GeminiService.DropHtmlFence | services/geminiService.ts:89 | `replace(/^```html\s*/, '')` keeps a suffix. Text without a leading "```html" is unchanged. Otherwise exactly the fence and a blank run are removed, and the result does not start with white space. |
| GeminiService.DropOpeningFence | services/geminiService.ts:89 | `replace(/^```\s*/, '')` keeps a suffix. Text without a leading "```" is unchanged. Otherwise exactly the fence and a blank run are removed, and the result does not start with white space. |
| GeminiService.DropClosingFence | services/geminiService.ts:89 | `replace(/```$/, '')` either changes nothing or removes exactly one "```" from the very end. |
| GeminiService.StripFences | services/geminiService.ts:86-91 | Text not starting with "```" is returned unchanged. Otherwise the result is a tail of the input, possibly short of a final "```", that does not start with white space. |
| GeminiService.HtmlFencedRoundTrip | services/geminiService.ts:88-89 | "```html", white space, code and "```" clean up to exactly the code, provided the code does not start with white space or a backquote. |
| GeminiService.BareFencedRoundTrip | services/geminiService.ts:88-89 | The same holds for a bare "```" fence, provided the text after it does not start with "html". |
| GeminiService.SkipBlankPrefix | services/geminiService.ts:89 | `\s*` over a blank prefix lands exactly on the following non-space text. |
| GeminiService.ClosedBodyCleanup | services/geminiService.ts:89 | After the "```html" step, code followed by its closing fence loses only the closing fence. |
| GeminiService.BareFenceNotHtml | services/geminiService.ts:89 | The "```html" rewrite does not fire on a bare fence that is not followed by "html". |
| GeminiService.BareFenceOpening | services/geminiService.ts:89 | After a bare fence and white space, the second rewrite stops exactly at the code. |
| GeminiService.ClosingFenceOff | services/geminiService.ts:89 | A "```" at the very end is removed. |
| GeminiService.StripFencesExample | services/geminiService.ts:88-89 | "```html\n<div/>\n```" cleans up to "<div/>\n". |
| GeminiService.StripFencesKeepsUnanchoredClosingFence | services/geminiService.ts:89 | A closing fence followed by a newline is not at the end, so it stays. |
| GeminiService.UnclosedHtmlBlock | services/geminiService.ts:88-89 | A truncated answer, "```html" and white space followed by code with no closing fence, cleans up to exactly the code. |
| GeminiService.UnclosedHtmlBlockExample | services/geminiService.ts:88-89 | "```html\n<div/>" cleans up to "<div/>". |
| GeminiService.ProjectCodeResult | services/geminiService.ts:64-96 | The result is null exactly when the call threw or the text is undefined. Any defined text, the empty one included, comes back as its fence clean-up `StripFences`. |
| GeminiService.ProjectBriefResult | services/geminiService.ts:54-61 | A brief comes back exactly when the call succeeded, the text is non-empty and it parses; it is then the parsed value. Every other case gives null. |
| GeminiService.ConceptImageResult | services/geminiService.ts:110-117 | A URL comes back exactly when the first image has non-empty bytes. It is non-empty and starts with "data:image/jpeg;base64,". |
| GeminiService.ConceptImageRoundTrip | services/geminiService.ts:110-113 | The payload after the data-URL prefix is exactly the provider's bytes. |
| GeminiService.FirstImageOnly | services/geminiService.ts:110 | `FirstImageBytes` reads only the first generated image: its bytes when it has image data, null when it has none, when the list is empty or missing, or when the call threw. |
| Consultant.ReadHistoryLine | components/Consultant.tsx:63 | A `HistoryLine` (`role: text`) reads back as its message's role and text. |
| Consultant.SerializeHistoryAppend | components/Consultant.tsx:63 | Appending a message appends one newline and one line to `SerializeHistory`. |
| Consultant.SerializeHistoryRoundTrip | components/Consultant.tsx:63 | When no text holds a newline, splitting `SerializeHistory` at newlines gives one line per message, in order, and each reads back as that message. |
| Consultant.Classify | components/Consultant.tsx:80-88 | The category is SaaS exactly on a SaaS keyword, CMS exactly on a CMS keyword without a SaaS one, and otherwise Landing Page. |
| Consultant.ClassifyIgnoresCase | components/Consultant.tsx:81-82 | Classification gives the same answer on lowercased text. |
| Consultant.NoSaasSignal | components/Consultant.tsx:84-85 | A letter of "saas" missing from the lowercased title and letters of "plataforma" and "sistema" missing from the lowercased summary rule out the SaaS branch. |
| Consultant.NoCmsSignal | components/Consultant.tsx:86-87 | Letters of "blog" and "cms" missing from the lowercased title and a letter of "notícias" missing from the lowercased summary rule out the CMS branch. |
| Consultant.ClassifySaasTitle | components/Consultant.tsx:84-85 | "SaaS Dashboard" is SaaS. |
| Consultant.ClassifyBlog | components/Consultant.tsx:84-87 | "Blog Corporativo" with "notícias diárias" is CMS. |
| Consultant.ClassifySaasBeatsCms | components/Consultant.tsx:84-87 | A "blog" title loses to "sistema" in the summary. |
| Consultant.ClassifyDefault | components/Consultant.tsx:80-88 | "Página de Captura" with "conversão de leads" matches no keyword and is a Landing Page. |
| Consultant.ReplyMessage | components/Consultant.tsx:49-55 | The settling message is a model message and never empty. It is flagged as an error exactly on failure, and then carries the connection-error apology. On success it is the reply when the reply has text, "Estou pensando..." otherwise. |
| Consultant.ConceptPrompt | components/Consultant.tsx:75 | The image prompt is the brief's title, then " - ", then its summary. |
| Consultant.GeneratedProject | components/Consultant.tsx:90-98 | The record's id is "ai-generated-" followed by the suffix. Title, summary and stack are copied, the category is the classifier's, the gradient is fixed, the image is the URL, and there is no generated code. |
| Consultant.Session.constructor | components/Consultant.tsx:13-19 | The state starts with no chat, no messages, empty input, no brief and all flags down. |
| Consultant.Session.Mount | components/Consultant.tsx:24-34 | After mounting, the chat exists and the transcript is exactly the one greeting model message. |
| Consultant.Session.SetInput | components/Consultant.tsx:178 | Only the input changes. |
| Consultant.Session.BeginSend | components/Consultant.tsx:40-46 | A blank input or a missing chat changes nothing. Otherwise the input is cleared, typing is set, and exactly one user message with the untrimmed text is appended. |
| Consultant.Session.CompleteSend | components/Consultant.tsx:48-57 | Exactly one model message (the reply or the apology) is appended, nothing is removed, and typing is false. |
| Consultant.Session.SendMessage | components/Consultant.tsx:40-58 | A whole send appends the user message and then the reply, and keeps model/user alternation. |
| Consultant.Session.GenerateBrief | components/Consultant.tsx:60-67 | Fewer than three messages: nothing happens. Otherwise the newline-joined transcript is sent, and the brief becomes the service's result, null included. |
| Consultant.Session.GenerateAndNavigate | components/Consultant.tsx:69-107 | No brief: nothing happens. A record is emitted exactly when a URL came back and a callback exists. It copies title, summary and stack, carries the URL, the fixed gradient, an "ai-generated-" id and the classified category. The image flag is down afterwards. |
| Consultant.Session.SendButtonEnabled | components/Consultant.tsx:185 | The send button is enabled exactly when the input is not blank and no reply is pending. |
| Consultant.Session.BriefButtonVisible | components/Consultant.tsx:129 | The brief button shows above three messages, so it never offers a request the handler would ignore. |
| ProjectPage.RenderMockUI | components/ProjectPage.tsx:13-123 | Non-empty generated code gives the frame. Otherwise a non-empty image gives the picture with its alt text. Otherwise the category's own mock is shown. |
| ProjectPage.GeneratedCodeWins | components/ProjectPage.tsx:15-24 | Generated code takes the viewport whatever the image and the category. |
| ProjectPage.PreviewImageBeatsCategory | components/ProjectPage.tsx:27-37 | Without code, an image takes the viewport whatever the category. |
| ProjectPage.MockIdentifiesCategory | components/ProjectPage.tsx:39-122 | With neither optional field, two projects show the same mock exactly when their categories are equal. |
| ProjectPage.AddressBar | components/ProjectPage.tsx:215 | With generated code the bar shows the live-preview address. Otherwise it shows "https://novadevx-clients.com/" followed by the id. |
| ProjectPage.AddressBarMatchesViewport | components/ProjectPage.tsx:215 | The bar shows the live-preview address exactly when the viewport shows the generated page. |
| ProjectPage.ConceptNoticeAndViewport | components/ProjectPage.tsx:192-201 | `ShowsConceptNotice` holds exactly when an image is present, including when generated code took the viewport, so a picture in the viewport always comes with the notice. |
| ProjectPage.CatalogPages | components/PortfolioSection.tsx:15-40 | Each sample project shows its category mock under its client address and without the notice. |
| App.Router.constructor | App.tsx:14-15 | The router starts in the home view with nothing selected. |
| App.Router.ScrollToSection | App.tsx:17-29 | The view becomes home and the selection is kept. The scroll is immediate from home, and deferred by 100 ms from the project view. |
| App.Router.HandleProjectClick | App.tsx:31-35 | The project view with the clicked project. |
| App.Router.HandleBackToHome | App.tsx:37-41 | Home with nothing selected, independently of the previous state, so a repeat changes nothing. |
| App.Router.CurrentScreen | App.tsx:46-61 | Home sections exactly in the home view. The detail page exactly in the project view with a selection. |
| App.Router.ValidShowsSomething | App.tsx:46-61 | Under the router invariant (project view implies a selection), something is always shown. |
| App.Router.ViewGeneratedProject | App.tsx:54 | A project emitted by the consultant opens its detail page. Otherwise the router is untouched, and the invariant is kept. |
| App.GeneratedProjectPage | components/ProjectPage.tsx:27-215 | A generated project shows its concept image, the notice, and the address ending in "ai-generated-" and the id suffix. |

## Left out

- Provider calls. The chat creation, `sendMessage`, `generateContent` and `generateImages` are foreign network calls. Their outcomes are parameters, and the prompt and system-instruction texts are not modelled.
- `JSON.parse` and the response schema. Parsing is the `parse` parameter. The cast to a brief validates no field, so the model makes no claim about missing fields.
- Async interleaving. Sends are modelled one at a time. The handler itself does not check `isTyping`, and the Enter key bypasses the disabled button, so overlapping sends are possible in the application but not modelled.
- Timestamps and ids. `Date.now()` values are parameters.
- DOM effects: `scrollIntoView`, `window.scrollTo`, the auto-scroll on new messages, and the 100 ms timer. `ScrollToSection` returns the scroll it would request instead.
- JsText.LowerChar: `toLowerCase` is modelled for Basic Latin and Latin-1 only. Other scripts are left unchanged.
- Consultant.Session.GenerateAndNavigate: the surrounding `try`/`catch` is not modelled. An exception thrown by the `onViewProject` callback still leaves the image flag down in the application.
- `generateProjectCode` has no caller in the widget or the router. Its post-processing is modelled as `ProjectCodeResult`, and nothing wires it to state.
- Static sections: the hero, navigation, services, pricing, footer and portfolio grid markup, and the navigation bar's scroll and menu state. The rendered mock contents (texts, colours) are reduced to the `Preview` constructors.
- Consultant.Session.BeginSend: the source's guard is `!inputValue.trim()`. The model writes it as `IsBlank`, the equivalent test proved by `TrimEmptyIffBlank`.
- The brief threshold differs between the button and the handler. The handler refuses fewer than 3 messages, while the button appears only above 3. The model follows the code, and `BriefButtonVisible` proves that the button never offers a request the handler ignores.
- The model follows the code in three places where the documented behaviour differs:
  - A transcript of exactly three messages is accepted by `generateBrief`, whose guard `< 3` refuses only fewer.
  - `handleSendMessage` does not refuse a send while a reply is pending.
  - A parsed brief with missing fields is kept as it is.
- App.Router.ViewGeneratedProject: the consultant widget is rendered only in the home view, so opening a project unmounts it. Its transcript and brief are then discarded, and returning home mounts a fresh session holding only the greeting. The model keeps one `Session` across navigation and does not capture this reset.
- Consultant.Session.GenerateBrief: a failed request replaces an earlier brief with null. The model follows the code here.
