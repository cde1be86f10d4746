/**
 * The administration dashboard's client state (src/app/admin/dashboard/DashboardClient.tsx): the lists
 * of projects and skill categories it shows, the forms being edited, the site content being edited
 * and the `isSaving` flag, with the handlers that call the server actions and then update that state.
 * Notifications are not modelled.
 */
module Dashboard {
  import opened Wrappers
  import opened Documents
  import opened Text
  import opened Base64
  import opened Upload
  import opened ContentStore

  // ---------------------------------------------------------------------------
  // resizeImage: the dimension arithmetic

  const MaxDimension: real := 1200.0

  /** Scaling `a` by 1200 / `b`, for `a` at most `b` and `b` over 1200, gives at most 1200 and at most `a`. */
  lemma ScaleDown(a: real, b: real)
    requires 0.0 <= a <= b && b > MaxDimension
    ensures var q := a * MaxDimension / b;
      0.0 <= q <= MaxDimension && q <= a && q * b == a * MaxDimension
  {
    var q := a * MaxDimension / b;
    assert q * b == a * MaxDimension;
    assert q >= 0.0;
    assert q * b <= b * MaxDimension;
    assert q <= MaxDimension;
    assert q * b <= b * a;
    assert q <= a;
  }

  /** The canvas side taken from a drawn side is at most 1200 pixels. */
  lemma FloorAtMost(x: real)
    requires 0.0 <= x <= MaxDimension
    ensures 0 <= x.Floor <= 1200
  {
  }

  /**
   * The width and height `resizeImage` draws at: a landscape image wider than 1200 is scaled to width
   * 1200, otherwise an image taller than 1200 is scaled to height 1200, otherwise nothing changes.
   * The canvas takes the integer part of each (`canvas.width = width`).
   */
  method ResizeImage(width0: nat, height0: nat) returns (width: real, height: real, canvasWidth: nat, canvasHeight: nat)
    ensures width0 > height0 && width0 as real > MaxDimension ==>
      width == MaxDimension && height == height0 as real * MaxDimension / width0 as real
    ensures !(width0 > height0 && width0 as real > MaxDimension) && height0 as real > MaxDimension ==>
      height == MaxDimension && width == width0 as real * MaxDimension / height0 as real
    ensures width0 as real <= MaxDimension && height0 as real <= MaxDimension ==>
      width == width0 as real && height == height0 as real
    ensures 0.0 <= width <= MaxDimension && 0.0 <= height <= MaxDimension
    ensures width <= width0 as real && height <= height0 as real
    ensures width * height0 as real == height * width0 as real
    ensures canvasWidth == width.Floor && canvasHeight == height.Floor
    ensures canvasWidth <= 1200 && canvasHeight <= 1200
  {
    width := width0 as real;
    height := height0 as real;
    if width > height && width > MaxDimension {
      ScaleDown(height, width);
      height := (height * MaxDimension) / width;
      width := MaxDimension;
    } else if height > MaxDimension {
      ScaleDown(width, height);
      width := (width * MaxDimension) / height;
      height := MaxDimension;
    }
    FloorAtMost(width);
    FloorAtMost(height);
    canvasWidth := width.Floor;
    canvasHeight := height.Floor;
  }

  // ---------------------------------------------------------------------------
  // list updates

  /**
   * `p.id` as the client compares it: the entry's text id, or `undefined` when it has none. An entry
   * listed from the store or from the bundled data has a text id.
   */
  datatype ClientId = Undefined | Id(text: string)

  function ClientIdOf(p: Doc): ClientId
  {
    if "id" in p && p["id"].Str? then Id(p["id"].s) else Undefined
  }

  /** `p.id === id` */
  predicate HasClientId(p: Doc, id: ClientId)
  {
    ClientIdOf(p) == id
  }

  /** `list.map(p => p.id === id ? { ...p, ...form } : p)` */
  function ReplaceById(list: seq<Doc>, id: ClientId, form: Doc): (r: seq<Doc>)
    ensures |r| == |list|
    ensures forall i :: 0 <= i < |list| && !HasClientId(list[i], id) ==> r[i] == list[i]
    ensures forall i :: 0 <= i < |list| && HasClientId(list[i], id) ==>
      r[i].Keys == list[i].Keys + form.Keys
      && (forall k :: k in form ==> r[i][k] == form[k])
      && (forall k :: k in list[i] && k !in form ==> r[i][k] == list[i][k])
  {
    seq(|list|, i requires 0 <= i < |list| => if HasClientId(list[i], id) then list[i] + form else list[i])
  }

  /** `list.filter(p => p.id !== id)`: the entries without the id, and no other. */
  function RemoveById(list: seq<Doc>, id: ClientId): (r: seq<Doc>)
    ensures |r| <= |list|
    ensures forall p :: p in r <==> p in list && !HasClientId(p, id)
    decreases |list|
  {
    if list == [] then []
    else
      var rest := RemoveById(list[1..], id);
      assert list == [list[0]] + list[1..];
      if HasClientId(list[0], id) then rest else [list[0]] + rest
  }

  /** The filter keeps every entry without the id as often as it occurs, and drops every entry with it. */
  lemma {:induction false} RemoveByIdCounts(list: seq<Doc>, id: ClientId, p: Doc)
    ensures multiset(RemoveById(list, id))[p] == if HasClientId(p, id) then 0 else multiset(list)[p]
    decreases |list|
  {
    if list != [] {
      RemoveByIdCounts(list[1..], id, p);
      assert list == [list[0]] + list[1..];
      assert multiset(list) == multiset{list[0]} + multiset(list[1..]);
    }
  }

  /** The filter keeps the order of the entries: filtering a concatenation filters each part. */
  lemma {:induction false} RemoveByIdAppend(a: seq<Doc>, b: seq<Doc>, id: ClientId)
    ensures RemoveById(a + b, id) == RemoveById(a, id) + RemoveById(b, id)
    decreases |a|
  {
    if a != [] {
      RemoveByIdAppend(a[1..], b, id);
      assert (a + b)[1..] == a[1..] + b;
    } else {
      assert a + b == b;
    }
  }

  /** The filter keeps the order of what it keeps, so removing twice is removing once. */
  lemma {:induction false} RemoveByIdIdempotent(list: seq<Doc>, id: ClientId)
    ensures RemoveById(RemoveById(list, id), id) == RemoveById(list, id)
    decreases |list|
  {
    if list != [] {
      RemoveByIdIdempotent(list[1..], id);
      if !HasClientId(list[0], id) {
        var r := [list[0]] + RemoveById(list[1..], id);
        assert r[0] == list[0] && r[1..] == RemoveById(list[1..], id);
      }
    }
  }

  /** A list where no entry has the id is left exactly as it was by either update. */
  lemma {:induction false} AbsentIdNoChange(list: seq<Doc>, id: ClientId, form: Doc)
    requires forall i :: 0 <= i < |list| ==> !HasClientId(list[i], id)
    ensures ReplaceById(list, id, form) == list
    ensures RemoveById(list, id) == list
    decreases |list|
  {
    if list != [] {
      AbsentIdNoChange(list[1..], id, form);
      assert list == [list[0]] + list[1..];
    }
  }

  // ---------------------------------------------------------------------------
  // the description paragraphs: `join('\n\n')` into the text area, `split('\n\n')` back

  const ParagraphBreak: string := "\n\n"

  /** A paragraph without a blank line and not ending in a line break is followed by its first break. */
  lemma BreakEndsParagraph(p: string)
    requires !Contains(p, ParagraphBreak)
    requires p == [] || p[|p| - 1] != '\n'
    ensures IndexOf(p + ParagraphBreak, ParagraphBreak) == Some(|p|)
  {
    var w := p + ParagraphBreak;
    assert OccursAt(w, ParagraphBreak, |p|) by {
      assert w[|p|..|p| + 2] == ParagraphBreak;
    }
    forall j | 0 <= j < |p| ensures !OccursAt(w, ParagraphBreak, j) {
      if j + 2 <= |p| {
        assert p[j..j + 2] == w[j..j + 2];
        ContainsIff(p, ParagraphBreak);
        assert !OccursAt(p, ParagraphBreak, j);
      } else {
        assert w[j..j + 2][0] == p[|p| - 1];
      }
    }
    IndexOfIs(w, ParagraphBreak, |p|);
  }

  /**
   * The paragraphs come back unchanged from the text area exactly when `SplitsBack` holds; a simple
   * way to meet it: at least one paragraph, none holding a blank line, none but the last ending in
   * a line break.
   */
  lemma {:induction false} ParagraphsRoundTrip(ps: seq<string>)
    requires |ps| > 0
    requires forall k :: 0 <= k < |ps| ==> !Contains(ps[k], ParagraphBreak)
    requires forall k :: 0 <= k < |ps| - 1 ==> ps[k] == [] || ps[k][|ps[k]| - 1] != '\n'
    ensures Split(Join(ps, ParagraphBreak), ParagraphBreak) == ps
  {
    forall k | 0 <= k < |ps| - 1 ensures IndexOf(ps[k] + ParagraphBreak, ParagraphBreak) == Some(|ps[k]|) {
      BreakEndsParagraph(ps[k]);
    }
    SplitPiecesFree(Join(ps, ParagraphBreak), ParagraphBreak);
    SplitJoin(ps, ParagraphBreak);
  }

  /** Whatever is typed, splitting it into paragraphs and showing them again gives the same text. */
  lemma TextRoundTrip(text: string)
    ensures Join(Split(text, ParagraphBreak), ParagraphBreak) == text
  {
    JoinSplit(text, ParagraphBreak);
  }

  /** No paragraphs come back as one empty paragraph. */
  lemma EmptyListComesBackAsOneParagraph()
    ensures Split(Join([], ParagraphBreak), ParagraphBreak) == [""]
  {
  }

  /** A paragraph ending in a line break moves that break into the next paragraph. */
  lemma TrailingBreakMoves()
    ensures Split(Join(["a\n", "b"], ParagraphBreak), ParagraphBreak) == ["a", "\nb"]
  {
    assert Join(["a\n", "b"], ParagraphBreak) == "a\n\n\nb";
    var s := "a\n\n\nb";
    assert s[1..3] == ParagraphBreak;
    assert s[0..2] == "a\n";
    IndexOfIs(s, ParagraphBreak, 1);
    assert s[..1] == "a" && s[3..] == "\nb";
    var t := "\nb";
    assert t[0..2] == t;
    assert IndexOf(t, ParagraphBreak) == None;
  }

  // ---------------------------------------------------------------------------
  // the component's state

  datatype UploadTarget = ProfileImage | Cv | ProjectImage

  /** The placeholder mission the "new mission" button creates. */
  const NewMission: Doc :=
    map["title" := Str("NEW_MISSION"),
        "description" := Str("Mission description required..."),
        "tags" := Str("Protocol, System")]

  /**
   * The text `new ObjectId(...)` is given for a client id: the id's text, or for `undefined` the
   * fresh ObjectId the driver generates, which no stored document has.
   */
  function ObjectIdArg(id: ClientId, freshId: string): string
  {
    match id
    case Id(t) => t
    case Undefined => freshId
  }

  class DashboardState {
    var projects: seq<Doc>
    var editingProjectId: Option<ClientId>  // `None` is `null`: nothing is being edited
    var projectForm: Doc
    var skills: seq<Doc>
    var editingSkillId: Option<ClientId>
    var skillForm: Doc
    var content: Doc
    var isSaving: bool

    /** The initial state from the page's props. */
    constructor (initialProjects: seq<Doc>, initialSkills: seq<Doc>, initialContent: Doc)
      ensures projects == initialProjects && skills == initialSkills && content == initialContent
      ensures editingProjectId == None && editingSkillId == None
      ensures projectForm == map[] && skillForm == map[]
      ensures !isSaving
    {
      projects, skills, content := initialProjects, initialSkills, initialContent;
      editingProjectId, editingSkillId := None, None;
      projectForm, skillForm := map[], map[];
      isSaving := false;
    }

    /**
     * `handleEditProject(project)`: the project's id, `undefined` for a project without one, becomes
     * the edited id, and the form starts as the project.
     */
    method EditProject(project: Doc)
      modifies this
      ensures editingProjectId == Some(ClientIdOf(project))
      ensures "id" in project && project["id"].Str? ==> editingProjectId == Some(Id(project["id"].s))
      ensures "id" !in project ==> editingProjectId == Some(Undefined)
      ensures projectForm == project
      ensures projects == old(projects) && skills == old(skills) && content == old(content)
      ensures editingSkillId == old(editingSkillId) && skillForm == old(skillForm) && isSaving == old(isSaving)
    {
      editingProjectId := Some(ClientIdOf(project));
      projectForm := project;
    }

    /** The skill edit button: the category's id becomes the edited id and the form starts as the category. */
    method EditSkill(category: Doc)
      modifies this
      ensures editingSkillId == Some(ClientIdOf(category))
      ensures "id" in category && category["id"].Str? ==> editingSkillId == Some(Id(category["id"].s))
      ensures "id" !in category ==> editingSkillId == Some(Undefined)
      ensures skillForm == category
      ensures projects == old(projects) && skills == old(skills) && content == old(content)
      ensures editingProjectId == old(editingProjectId) && projectForm == old(projectForm) && isSaving == old(isSaving)
    {
      editingSkillId := Some(ClientIdOf(category));
      skillForm := category;
    }

    /**
     * `handleSaveProject()`. The save button is only shown while a project is edited, so with nothing
     * edited nothing happens. A save the server accepts merges the form into every listed project
     * with the edited id and ends editing; a save it rejects (a malformed id) changes neither the
     * store nor the list. An `undefined` id reaches the driver as a fresh ObjectId: the store is left
     * as it was, the save succeeds, and the form is merged into every listed project without an id.
     */
    method SaveProject(store: Store, freshId: string)
      requires store.Valid()
      requires IsCanonicalHex(freshId) && !HasId(store.projects, Oid(freshId))
      modifies this, store
      ensures store.Valid() && !isSaving
      ensures old(editingProjectId).None? ==> unchanged(store) && projects == old(projects) && editingProjectId == None
      ensures old(editingProjectId).Some? ==> var id := old(editingProjectId).value;
        var key := ObjectIdArg(id, freshId);
        && store.projects == (match UpdateById(old(store.projects), key, old(projectForm))
                             case Ok(c) => c
                             case Err(_) => old(store.projects))
        && store.skills == old(store.skills) && store.content == old(store.content)
        && (IsObjectIdText(key) ==> projects == ReplaceById(old(projects), id, old(projectForm)) && editingProjectId == None)
        && (!IsObjectIdText(key) ==> projects == old(projects) && editingProjectId == old(editingProjectId))
      ensures old(editingProjectId) == Some(Undefined) ==>
        && store.projects == old(store.projects)
        && projects == ReplaceById(old(projects), Undefined, old(projectForm)) && editingProjectId == None
      ensures projectForm == old(projectForm) && skills == old(skills) && content == old(content)
      ensures editingSkillId == old(editingSkillId) && skillForm == old(skillForm)
    {
      isSaving := true;
      match editingProjectId {
        case None =>
        case Some(id) =>
          if id.Undefined? {
            UpdateByFreshId(store.projects, freshId, projectForm);
          }
          var res := store.UpdateProject(ObjectIdArg(id, freshId), projectForm);
          if res.Pass? {
            projects := ReplaceById(projects, id, projectForm);
            editingProjectId := None;
          }
      }
      isSaving := false;
    }

    /** `handleSaveSkill()`, the same steps on the skill categories. */
    method SaveSkill(store: Store, freshId: string)
      requires store.Valid()
      requires IsCanonicalHex(freshId) && !HasId(store.skills, Oid(freshId))
      modifies this, store
      ensures store.Valid() && !isSaving
      ensures old(editingSkillId).None? ==> unchanged(store) && skills == old(skills) && editingSkillId == None
      ensures old(editingSkillId).Some? ==> var id := old(editingSkillId).value;
        var key := ObjectIdArg(id, freshId);
        && store.skills == (match UpdateById(old(store.skills), key, old(skillForm))
                           case Ok(c) => c
                           case Err(_) => old(store.skills))
        && store.projects == old(store.projects) && store.content == old(store.content)
        && (IsObjectIdText(key) ==> skills == ReplaceById(old(skills), id, old(skillForm)) && editingSkillId == None)
        && (!IsObjectIdText(key) ==> skills == old(skills) && editingSkillId == old(editingSkillId))
      ensures old(editingSkillId) == Some(Undefined) ==>
        && store.skills == old(store.skills)
        && skills == ReplaceById(old(skills), Undefined, old(skillForm)) && editingSkillId == None
      ensures skillForm == old(skillForm) && projects == old(projects) && content == old(content)
      ensures editingProjectId == old(editingProjectId) && projectForm == old(projectForm)
    {
      isSaving := true;
      match editingSkillId {
        case None =>
        case Some(id) =>
          if id.Undefined? {
            UpdateByFreshId(store.skills, freshId, skillForm);
          }
          var res := store.UpdateSkillCategory(ObjectIdArg(id, freshId), skillForm);
          if res.Pass? {
            skills := ReplaceById(skills, id, skillForm);
            editingSkillId := None;
          }
      }
      isSaving := false;
    }

    /**
     * `handleDeleteProject(project.id)`: the list loses the entries with that id only after the store
     * accepted the delete. For an `undefined` id the store deletes nothing and the list loses every
     * entry without an id.
     */
    method DeleteProject(store: Store, id: ClientId, freshId: string)
      requires store.Valid()
      requires IsCanonicalHex(freshId) && !HasId(store.projects, Oid(freshId))
      modifies this, store
      ensures store.Valid() && !isSaving
      ensures store.projects == (match DeleteById(old(store.projects), ObjectIdArg(id, freshId))
                                 case Ok(c) => c
                                 case Err(_) => old(store.projects))
      ensures store.skills == old(store.skills) && store.content == old(store.content)
      ensures projects == (if IsObjectIdText(ObjectIdArg(id, freshId)) then RemoveById(old(projects), id) else old(projects))
      ensures id.Undefined? ==> store.projects == old(store.projects) && projects == RemoveById(old(projects), Undefined)
      ensures editingProjectId == old(editingProjectId) && projectForm == old(projectForm)
      ensures skills == old(skills) && editingSkillId == old(editingSkillId) && skillForm == old(skillForm)
      ensures content == old(content)
    {
      isSaving := true;
      if id.Undefined? {
        DeleteByFreshId(store.projects, freshId);
      }
      var res := store.DeleteProject(ObjectIdArg(id, freshId));
      if res.Pass? {
        projects := RemoveById(projects, id);
      }
      isSaving := false;
    }

    /** `handleSaveContent()`: sends the whole content being edited, its `id` included; the client state stays. */
    method SaveContent(store: Store, generatedId: string)
      requires store.Valid()
      requires IsCanonicalHex(generatedId) && !HasId(store.content, Oid(generatedId))
      modifies this, store
      ensures store.Valid() && !isSaving
      ensures store.content == UpsertGlobal(old(store.content), StripStoreId(content), generatedId)
      ensures store.projects == old(store.projects) && store.skills == old(store.skills)
      ensures projects == old(projects) && skills == old(skills) && content == old(content)
      ensures editingProjectId == old(editingProjectId) && projectForm == old(projectForm)
      ensures editingSkillId == old(editingSkillId) && skillForm == old(skillForm)
    {
      isSaving := true;
      var _ := store.UpdateSiteContent(content, generatedId);
      isSaving := false;
    }

    /** The project form's text inputs (title, tags, description): the field takes the typed text. */
    method EditProjectField(key: string, text: string)
      modifies this
      ensures projectForm == old(projectForm)[key := Str(text)]
      ensures projects == old(projects) && skills == old(skills) && content == old(content) && isSaving == old(isSaving)
      ensures editingProjectId == old(editingProjectId) && editingSkillId == old(editingSkillId) && skillForm == old(skillForm)
    {
      projectForm := projectForm[key := Str(text)];
    }

    /** The cancel button of the project editor: editing ends and nothing is saved. */
    method CancelProjectEdit()
      modifies this
      ensures editingProjectId == None
      ensures projects == old(projects) && skills == old(skills) && content == old(content) && isSaving == old(isSaving)
      ensures projectForm == old(projectForm) && editingSkillId == old(editingSkillId) && skillForm == old(skillForm)
    {
      editingProjectId := None;
    }

    /**
     * The text inputs of the origin and contact panels (operator name, protocol, experience, success
     * rate, e-mail, discord): the one sub-field takes the typed text.
     */
    method EditContentField(outer: string, inner: string, text: string)
      modifies this
      ensures content == SetSubField(old(content), outer, inner, Str(text))
      ensures projects == old(projects) && skills == old(skills) && isSaving == old(isSaving)
      ensures editingProjectId == old(editingProjectId) && projectForm == old(projectForm)
      ensures editingSkillId == old(editingSkillId) && skillForm == old(skillForm)
    {
      content := SetSubField(content, outer, inner, Str(text));
    }

    /**
     * `handleCreateProject()`: inserts the placeholder mission; the insert always succeeds, so the
     * page reloads (`reload`), and this state is left as it was.
     */
    method CreateProject(store: Store, generatedId: string, now: Millis) returns (reload: bool)
      requires store.Valid()
      requires IsCanonicalHex(generatedId) && !HasId(store.projects, Oid(generatedId))
      modifies store
      ensures store.Valid() && reload
      ensures store.projects == old(store.projects) + [NewProject(NewMission, generatedId, now)]
      ensures store.skills == old(store.skills) && store.content == old(store.content)
    {
      var res := store.CreateProject(NewMission, generatedId, now);
      reload := res.Ok?;
    }

    /** The description text area's change handler: the typed text becomes the paragraph list. */
    method EditDescription(text: string)
      modifies this
      ensures content == old(content)["origin" := Obj(Fields(ContentField(old(content), "origin"))["description" := Texts(Split(text, ParagraphBreak))])]
      ensures projects == old(projects) && skills == old(skills) && isSaving == old(isSaving)
      ensures editingProjectId == old(editingProjectId) && projectForm == old(projectForm)
      ensures editingSkillId == old(editingSkillId) && skillForm == old(skillForm)
    {
      content := SetSubField(content, "origin", "description", Texts(Split(text, ParagraphBreak)));
    }

    /**
     * `handleFileUpload(event, type)` given the chosen file and what `resizeImage` produces for it
     * (`None` when the browser fails to read or draw the image). Without a file nothing happens.
     * Otherwise an image for the profile or a project goes through the resize and a CV through the
     * upload action, and on success exactly one field takes the resulting URL: `origin.image`,
     * `contact.cvUrl` or the project form's `image`. A failure changes no field.
     */
    method HandleFileUpload(target: UploadTarget, file: Option<File>, resized: Option<string>)
      modifies this
      ensures file.None? ==> unchanged(this)
      ensures file.Some? ==> !isSaving
      ensures file.Some? ==> var url := UploadedUrl(target, file.value, resized);
        && content == (match (target, url)
                       case (ProfileImage, Some(u)) => SetSubField(old(content), "origin", "image", Str(u))
                       case (Cv, Some(u)) => SetSubField(old(content), "contact", "cvUrl", Str(u))
                       case _ => old(content))
        && projectForm == (match (target, url)
                           case (ProjectImage, Some(u)) => old(projectForm)["image" := Str(u)]
                           case _ => old(projectForm))
      ensures projects == old(projects) && skills == old(skills)
      ensures editingProjectId == old(editingProjectId) && editingSkillId == old(editingSkillId)
      ensures skillForm == old(skillForm)
    {
      if file.None? {
        return;
      }
      isSaving := true;
      var url := UploadedUrl(target, file.value, resized);
      if url.Some? {
        match target
        case ProfileImage =>
          content := SetSubField(content, "origin", "image", Str(url.value));
        case Cv =>
          content := SetSubField(content, "contact", "cvUrl", Str(url.value));
        case ProjectImage =>
          projectForm := projectForm["image" := Str(url.value)];
      }
      isSaving := false;
    }
  }

  /** A top-level field of the content, or null when it is missing. */
  function ContentField(content: Doc, key: string): Value
  {
    if key in content then content[key] else Null
  }

  /** `{ ...content, [outer]: { ...content[outer], [inner]: v } }` */
  function SetSubField(content: Doc, outer: string, inner: string, v: Value): (r: Doc)
    ensures r.Keys == content.Keys + {outer}
    ensures forall k :: k in content && k != outer ==> r[k] == content[k]
    ensures r[outer].Obj? && inner in r[outer].fields && r[outer].fields[inner] == v
    ensures forall k :: k in Fields(ContentField(content, outer)) && k != inner ==>
      k in r[outer].fields && r[outer].fields[k] == Fields(ContentField(content, outer))[k]
  {
    content[outer := Obj(Fields(ContentField(content, outer))[inner := v])]
  }

  /** The URL the upload produces: the resized image for a picture, the upload action's data URL for a CV. */
  function UploadedUrl(target: UploadTarget, file: File, resized: Option<string>): (r: Option<string>)
    ensures target == Cv ==> r == Some(DataUrl(file.mimeType, Encode(file.bytes)))
    ensures target != Cv ==> r == resized
  {
    if target == Cv then
      match UploadFile(FileField(file))
      case Ok(res) => Some(res.url)
      case Err(_) => None
    else resized
  }

  /** Each kind of upload writes one field and only that one. */
  lemma UploadTouchesOneField(content: Doc, u: string)
    ensures var r := SetSubField(content, "origin", "image", Str(u));
      forall k :: k in content && k != "origin" ==> r[k] == content[k]
    ensures var r := SetSubField(content, "contact", "cvUrl", Str(u));
      forall k :: k in content && k != "contact" ==> r[k] == content[k]
  {
  }
}
