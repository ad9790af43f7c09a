/** The project detail page: which preview fills the mock browser window,
    what its address bar shows, and when the concept-image notice appears.
    All three depend only on the project record the page is given. */
module ProjectPage {
  import opened Types
  import opened JsText

  const LivePreviewUrl := "https://preview.novadevx-ai.gen/live"
  const ClientsUrlBase := "https://novadevx-clients.com/"
  const ImageAltPrefix := "Visual do projeto "

  /** What `renderMockUI` puts in the viewport: the generated page in a
      sandboxed frame, the concept image, or one of the three fixed mocks. */
  datatype Preview =
    | Frame(srcDoc: string)
    | Picture(src: string, alt: string)
    | SaasMock
    | CmsMock
    | LandingMock

  /** The fixed mock for a category. */
  function CategoryMock(c: Category): Preview {
    match c
    case SaaS => SaasMock
    case Cms => CmsMock
    case LandingPage => LandingMock
  }

  /** `renderMockUI`: generated code first, then the preview image, then the
      mock of the category. Each optional field counts only when it is a
      non-empty string. */
  function RenderMockUI(p: ProjectData): (v: Preview)
    ensures v.Frame? <==> Truthy(p.generatedHtml)
    ensures v.Frame? ==> v.srcDoc == p.generatedHtml.value
    ensures v.Picture? <==> !Truthy(p.generatedHtml) && Truthy(p.previewImage)
    ensures v.Picture? ==> v.src == p.previewImage.value && v.alt == ImageAltPrefix + p.title
    ensures !v.Frame? && !v.Picture? ==> v == CategoryMock(p.category)
  {
    if Truthy(p.generatedHtml) then Frame(p.generatedHtml.value)
    else if Truthy(p.previewImage) then Picture(p.previewImage.value, ImageAltPrefix + p.title)
    else if p.category == SaaS then SaasMock
    else if p.category == Cms then CmsMock
    else LandingMock
  }

  /** Generated code wins whatever the image and the category are. */
  lemma GeneratedCodeWins(p: ProjectData, image: Option<string>, c: Category)
    requires Truthy(p.generatedHtml)
    ensures RenderMockUI(p.(previewImage := image, category := c)) == Frame(p.generatedHtml.value)
  {
  }

  /** Without generated code, the image wins whatever the category is. */
  lemma PreviewImageBeatsCategory(p: ProjectData, c: Category)
    requires !Truthy(p.generatedHtml) && Truthy(p.previewImage)
    ensures RenderMockUI(p.(category := c)) == RenderMockUI(p)
    ensures RenderMockUI(p).Picture?
  {
  }

  /** Each category has its own mock: with neither optional field set, the
      viewport tells the three categories apart. */
  lemma MockIdentifiesCategory(p: ProjectData, q: ProjectData)
    requires !Truthy(p.generatedHtml) && !Truthy(p.previewImage)
    requires !Truthy(q.generatedHtml) && !Truthy(q.previewImage)
    ensures RenderMockUI(p) == RenderMockUI(q) <==> p.category == q.category
  {
  }

  /** The address bar: the fixed live-preview address for generated code,
      the client address ending in the project id otherwise. */
  function AddressBar(p: ProjectData): (url: string)
    ensures Truthy(p.generatedHtml) ==> url == LivePreviewUrl
    ensures !Truthy(p.generatedHtml) ==> StartsWith(url, ClientsUrlBase) && url[|ClientsUrlBase|..] == p.id
  {
    if Truthy(p.generatedHtml) then LivePreviewUrl else ClientsUrlBase + p.id
  }

  /** The address bar shows the live-preview address exactly when the
      viewport shows the generated page: no client address can be mistaken
      for it, whatever the id. */
  lemma AddressBarMatchesViewport(p: ProjectData)
    ensures AddressBar(p) == LivePreviewUrl <==> RenderMockUI(p).Frame?
  {
    if !Truthy(p.generatedHtml) {
      var url := AddressBar(p);
      assert url[8] == ClientsUrlBase[8] == 'n';
      assert LivePreviewUrl[8] == 'p';
    }
  }

  /** The "Conceito Visual Gerado" notice: shown whenever the project has a
      non-empty preview image, independently of the viewport. */
  predicate ShowsConceptNotice(p: ProjectData) {
    Truthy(p.previewImage)
  }

  /** An image in the viewport always comes with the notice, and the
      notice still shows when generated code took the viewport. */
  lemma ConceptNoticeAndViewport(p: ProjectData)
    ensures RenderMockUI(p).Picture? ==> ShowsConceptNotice(p)
    ensures ShowsConceptNotice(p) <==> RenderMockUI(p).Picture? || (RenderMockUI(p).Frame? && Truthy(p.previewImage))
  {
  }

  /** The sample projects have neither optional field, so each shows the
      mock of its category under its client address. */
  lemma CatalogPages(i: int)
    requires 0 <= i < |ProjectsData|
    ensures RenderMockUI(ProjectsData[i]) == CategoryMock(ProjectsData[i].category)
    ensures AddressBar(ProjectsData[i]) == ClientsUrlBase + ProjectsData[i].id
    ensures !ShowsConceptNotice(ProjectsData[i])
  {
  }
}
