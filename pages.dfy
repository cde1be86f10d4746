/**
 * The two server-rendered pages that read the store: the public home page (src/app/page.tsx) and the
 * administration dashboard page (src/app/admin/dashboard/page.tsx). Each falls back, collection by
 * collection, to the bundled static data of src/data/projects.ts when the store has nothing.
 */
module Pages {
  import opened Wrappers
  import opened Documents
  import opened Text
  import opened ContentStore

  // ---------------------------------------------------------------------------
  // the bundled static data

  /** The two bundled projects; `createdAt` is the time the module is loaded. */
  function StaticProjects(loadTime: Millis): seq<Doc>
  {
    [ map["id" := Str("1"), "title" := Str("Neon Nexus"),
          "description" := Str("A high-performance trading platform with real-time analytics and a futuristic dark interface."),
          "tags" := Str("Next.js, Three.js, GSAP"),
          "createdAt" := Date(loadTime)],
      map["id" := Str("2"), "title" := Str("Void Interface"),
          "description" := Str("Minimalist command-line based portfolio for developers who prefer the terminal look."),
          "tags" := Str("TypeScript, Tailwind, Lucide"),
          "createdAt" := Date(loadTime)] ]
  }

  const StaticSkills: seq<Doc> :=
    [ map["id" := Str("1"), "name" := Str("Frontend"), "skills" := Arr([Str("React"), Str("Next.js"), Str("Three.js"), Str("Tailwind")])],
      map["id" := Str("2"), "name" := Str("Backend"), "skills" := Arr([Str("Node.js"), Str("PostgreSQL"), Str("Auth.js")])],
      map["id" := Str("3"), "name" := Str("Core"), "skills" := Arr([Str("TypeScript"), Str("JavaScript"), Str("Python"), Str("C++")])],
      map["id" := Str("4"), "name" := Str("Protocols"), "skills" := Arr([Str("API REST"), Str("GraphQL"), Str("WebSockets"), Str("gRPC")])] ]

  const StaticSiteContent: Doc :=
    map["origin" := Obj(map[
          "title" := Str("MISSION_ORIGIN"),
          "operatorName" := Str("Operator_01"),
          "protocol" := Str("Full_Stack_Entity"),
          "description" := Arr([
            Str("Initialized in the digital void, I've spent years synthesizing complex code into fluid interfaces. My core logic is built on innovation and precision."),
            Str("I specialize in building high-performance decentralized systems, immersive 3D experiences, and robust architectures that stand the test of time (or bit rot).")]),
          "xpYears" := Str("5+ YEARS"),
          "successRate" := Str("100%_COMMIT"),
          "image" := Str("/me.jpg")]),
        "contact" := Obj(map[
          "email" := Str("contact@example.com"),
          "cvUrl" := Str("#"),
          "discord" := Str("operator_01"),
          "twitter" := Str("titouan_dev"),
          "location" := Str("[HIDDEN]")])]

  /** The bundled ids are not ObjectIds, so any save or delete of a bundled entry is rejected by the store. */
  lemma StaticIdsAreNotObjectIds()
    ensures !IsObjectIdText("1") && !IsObjectIdText("2") && !IsObjectIdText("3") && !IsObjectIdText("4")
  {
  }

  // ---------------------------------------------------------------------------
  // the home page

  /** What the home page renders from. */
  datatype HomeView = HomeView(
    projects: seq<Doc>, content: Doc, skills: seq<Doc>, experiences: seq<Doc>,
    shownCount: nat, awaitingData: bool)

  /**
   * `Home()`, given what `getProjects()`, `getSiteContent()` and `getSkills()` returned (see
   * `Store.GetProjects`, `Store.GetSiteContent`, `Store.GetSkills`). The page also awaits
   * `getExperiences()` and falls back on `staticExperiences`, but neither src/app/actions/projects.ts
   * nor src/data/projects.ts defines them; the model assumes the call yields a list and takes both
   * lists as parameters.
   */
  method Home(fetchedProjects: seq<Doc>, fetchedContent: Option<Doc>, fetchedSkills: seq<Doc>,
              fetchedExperiences: seq<Doc>, staticExperiences: seq<Doc>, loadTime: Millis)
    returns (view: HomeView)
    ensures view.projects == (if |fetchedProjects| == 0 then StaticProjects(loadTime) else fetchedProjects)
    ensures view.content == (if fetchedContent.None? then StaticSiteContent else fetchedContent.value)
    ensures view.skills == (if |fetchedSkills| == 0 then StaticSkills else fetchedSkills)
    ensures view.experiences == (if |fetchedExperiences| == 0 then staticExperiences else fetchedExperiences)
    ensures view.shownCount == |view.projects|
    ensures !view.awaitingData && view.shownCount > 0
  {
    var projects := fetchedProjects;
    var content := fetchedContent;
    var skills := fetchedSkills;
    var experiences := fetchedExperiences;

    if |projects| == 0 { projects := StaticProjects(loadTime); }
    if content.None? { content := Some(StaticSiteContent); }
    if |skills| == 0 { skills := StaticSkills; }
    if |experiences| == 0 { experiences := staticExperiences; }

    view := HomeView(projects, content.value, skills, experiences, |projects|, |projects| == 0);
  }

  /** `project.tags.split(',').map(tag => tag.trim())` */
  function RenderTags(tags: string): (r: seq<string>)
    ensures |r| == |Split(tags, ",")| && forall i :: 0 <= i < |r| ==> r[i] == Trim(Split(tags, ",")[i])
  {
    var pieces := Split(tags, ",");
    seq(|pieces|, i requires 0 <= i < |pieces| => Trim(pieces[i]))
  }

  /**
   * The rendered tags are the comma-separated pieces of `tags`, in order, each without the white
   * space around it: no tag holds a comma or starts or ends with white space, there is at least one
   * tag, and the pieces joined with commas give back `tags`.
   */
  lemma RenderTagsSpec(tags: string)
    ensures |RenderTags(tags)| >= 1
    ensures Join(Split(tags, ","), ",") == tags
    ensures forall i :: 0 <= i < |RenderTags(tags)| ==> !Contains(RenderTags(tags)[i], ",")
    ensures forall i :: 0 <= i < |RenderTags(tags)| ==> var t := RenderTags(tags)[i];
      t == [] || (!IsWhiteSpace(t[0]) && !IsWhiteSpace(t[|t| - 1]))
  {
    JoinSplit(tags, ",");
    SplitPiecesFree(tags, ",");
    var pieces := Split(tags, ",");
    forall i | 0 <= i < |pieces| ensures !Contains(Trim(pieces[i]), ",") {
      TrimKeepsOut(pieces[i], ",");
    }
  }

  // ---------------------------------------------------------------------------
  // the administration dashboard page

  datatype DashboardView = DashboardView(projects: seq<Doc>, skills: seq<Doc>, content: Doc, totalMissions: nat)

  /**
   * `AdminDashboard()`, given what the three fetches returned: what it hands to the dashboard client,
   * and the "Total Missions" figure.
   */
  method AdminDashboard(fetchedProjects: seq<Doc>, fetchedSkills: seq<Doc>, fetchedContent: Option<Doc>, loadTime: Millis)
    returns (view: DashboardView)
    ensures view.projects == (if |fetchedProjects| == 0 then StaticProjects(loadTime) else fetchedProjects)
    ensures view.skills == (if |fetchedSkills| == 0 then StaticSkills else fetchedSkills)
    ensures view.content == (if fetchedContent.None? then StaticSiteContent else fetchedContent.value)
    ensures view.totalMissions == |view.projects| && view.totalMissions > 0
  {
    var projects := fetchedProjects;
    var skills := fetchedSkills;
    var content := fetchedContent;

    if |projects| == 0 { projects := StaticProjects(loadTime); }
    if |skills| == 0 { skills := StaticSkills; }
    if content.None? { content := Some(StaticSiteContent); }

    view := DashboardView(projects, skills, content.value, |projects|);
  }
}
