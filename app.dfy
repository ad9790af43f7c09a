/** The single-page router: whether the home sections or the detail page of
    one project is on screen, and the three handlers that switch between
    them. Scrolling and its timer are not modelled; `ScrollToSection`
    returns the scroll it would request instead. */
module App {
  import opened Types
  import opened GeminiService
  import Consultant
  import ProjectPage

  datatype View = Home | ProjectView

  /** What the router renders between the header and the footer. */
  datatype Screen = HomeSections | Detail(project: ProjectData) | NothingShown

  /** A scroll to a section: at once, or after the given delay once the
      home view has rendered again. */
  datatype ScrollRequest = ScrollNow(id: string) | ScrollAfter(id: string, delayMs: nat)

  const ScrollDelayMs := 100

  class Router {
    var view: View
    var selectedProject: Option<ProjectData>

    /** The detail view always has a project to show. */
    ghost predicate Valid()
      reads this
    {
      view.ProjectView? ==> selectedProject.Some?
    }

    /** The initial state: home, nothing selected. */
    constructor()
      ensures Valid()
      ensures view.Home? && selectedProject == None
    {
      view := Home;
      selectedProject := None;
    }

    /** `scrollToSection`: back to the home view, keeping whatever project
        was selected; the scroll waits for the home view to render only when
        it was not already showing. */
    method ScrollToSection(id: string) returns (req: ScrollRequest)
      modifies this
      ensures Valid()
      ensures view.Home? && selectedProject == old(selectedProject)
      ensures old(view).Home? ==> req == ScrollNow(id)
      ensures !old(view).Home? ==> req == ScrollAfter(id, ScrollDelayMs)
    {
      if !view.Home? {
        view := Home;
        req := ScrollAfter(id, ScrollDelayMs);
      } else {
        req := ScrollNow(id);
      }
    }

    /** `handleProjectClick`: the detail view of `p`. */
    method HandleProjectClick(p: ProjectData)
      modifies this
      ensures Valid()
      ensures view.ProjectView? && selectedProject == Some(p)
    {
      selectedProject := Some(p);
      view := ProjectView;
    }

    /** `handleBackToHome`: home with nothing selected. The new state does
        not depend on the old one, so a second call changes nothing. */
    method HandleBackToHome()
      modifies this
      ensures Valid()
      ensures view.Home? && selectedProject == None
    {
      view := Home;
      selectedProject := None;
    }

    /** The render: home sections exactly in the home view, the detail page
        exactly in the project view with a selection. */
    function CurrentScreen(): (s: Screen)
      reads this
      ensures s.HomeSections? <==> view.Home?
      ensures s.Detail? <==> view.ProjectView? && selectedProject.Some?
      ensures s.Detail? ==> s.project == selectedProject.value
    {
      if view.Home? then HomeSections
      else if selectedProject.Some? then Detail(selectedProject.value)
      else NothingShown
    }

    /** In a valid state something is always on screen. */
    lemma ValidShowsSomething()
      requires Valid()
      ensures CurrentScreen() != NothingShown
    {
    }

    /** The consultant's "view project" path: the consultant builds the
        record and, when it emits one, the router opens its detail page;
        otherwise the router is left as it was. */
    method ViewGeneratedProject(session: Consultant.Session, resp: ImageResponse, idSuffix: string)
      returns (emitted: Option<ProjectData>)
      requires session.canViewProject
      modifies this, session
      ensures old(Valid()) ==> Valid()
      ensures emitted.Some? <==> old(session.projectBrief).Some? && Truthy(FirstImageBytes(resp))
      ensures emitted.Some? ==> view.ProjectView? && selectedProject == emitted
      ensures emitted.None? ==> view == old(view) && selectedProject == old(selectedProject)
    {
      var prompt;
      prompt, emitted := session.GenerateAndNavigate(resp, idSuffix);
      if emitted.Some? {
        HandleProjectClick(emitted.value);
      }
    }
  }

  /** The page of a generated project: the concept image fills the
      viewport, the notice shows, and the address bar ends in the generated
      id. */
  lemma GeneratedProjectPage(b: ProjectBrief, imageUrl: string, idSuffix: string)
    requires imageUrl != ""
    ensures var p := Consultant.GeneratedProject(b, imageUrl, idSuffix);
      && ProjectPage.RenderMockUI(p) == ProjectPage.Picture(imageUrl, ProjectPage.ImageAltPrefix + b.title)
      && ProjectPage.ShowsConceptNotice(p)
      && ProjectPage.AddressBar(p) == ProjectPage.ClientsUrlBase + Consultant.GeneratedIdPrefix + idSuffix
  {
  }
}
