/** The records the site passes around: chat messages, the generated project
    brief and the project record shown on the detail page, plus the fixed
    catalogue of three sample projects. */
module Types {

  datatype Option<+T> = None | Some(value: T)

  /** JavaScript truthiness of an optional string: present and not empty. */
  predicate Truthy(o: Option<string>) {
    o.Some? && o.value != ""
  }

  datatype Role = User | Model

  /** One chat message. `isError` is false where the source leaves the
      optional flag out. */
  datatype Message = Message(role: Role, text: string, timestamp: int, isError: bool)

  /** The structured proposal extracted from a conversation. */
  datatype ProjectBrief = ProjectBrief(
    title: string,
    summary: string,
    techStack: seq<string>,
    estimatedTimeline: string,
    estimatedBudgetRange: string)

  datatype Category = SaaS | LandingPage | Cms

  /** A project as the portfolio and the detail page show it; the last two
      fields are optional. */
  datatype ProjectData = ProjectData(
    id: string,
    title: string,
    category: Category,
    description: string,
    imageGradient: string,
    techStack: seq<string>,
    previewImage: Option<string>,
    generatedHtml: Option<string>)

  /** The three sample projects of the portfolio section. */
  const ProjectsData: seq<ProjectData> := [
    ProjectData(
      "saas-analytics", "Nexus Analytics", SaaS,
      "Uma plataforma de análise de dados em tempo real para e-commerce com dashboards customizáveis.",
      "from-blue-600 to-indigo-900", ["React", "Node.js", "PostgreSQL"], None, None),
    ProjectData(
      "landing-fitness", "Pulse Gym", LandingPage,
      "Site de alta conversão para uma rede de academias boutique, focado em captação de leads.",
      "from-emerald-500 to-cyan-900", ["Next.js", "Tailwind", "Framer Motion"], None, None),
    ProjectData(
      "cms-blog", "TechDaily", Cms,
      "Portal de notícias de tecnologia com gestão de conteúdo headless e renderização estática.",
      "from-orange-500 to-red-900", ["Sanity", "Gatsby", "Vercel"], None, None)
  ]
}
