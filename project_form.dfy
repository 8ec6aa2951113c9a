/** The admin form that creates or edits a project
    (client/src/pages/ProjectForm.jsx): its state, the tag checkboxes, the
    removal of kept images, the text inputs, and the multipart form it
    submits, followed through to what the server reads from it. */
module ProjectForm {
  import opened Wrappers
  import opened Json
  import opened Seqs
  import opened ProjectModel
  import ProjectController

  /** A file picked in the file input. */
  datatype File = File(name: string)

  /** One entry of a `FormData`: text, or a file. */
  datatype FormValue = Text(text: string) | Attached(file: File)
  datatype Entry = Entry(name: string, value: FormValue)

  datatype Verb = POST | PUT
  datatype Submission = Submission(verb: Verb, url: string, form: seq<Entry>)

  /** `JSON.stringify` on a list of strings. */
  type Stringifier = seq<string> -> string

  /** `JSON.parse` reads back what `JSON.stringify` wrote. */
  ghost predicate RoundTrip(stringify: Stringifier, parse: ProjectController.Parser)
  {
    forall xs :: parse(stringify(xs)) == Some(Arr(Strs(xs)))
  }

  /** The tag choices offered, in display order (ProjectForm.jsx:43-49). */
  const Categories: seq<string> := [
    "C#", "C", "Java", "JavaScript", "TypeScript", "HTML/CSS", "PHP", "Python", "Powershell", "GDScript",
    "React", "Bootstrap", "Tailwind CSS", "Vue.js", "Angular", "Django", "JavaFX", "Express.js",
    "PostgreSQL", "MySQL", "Oracle SQL", "MongoDB", "PL/SQL",
    "VS Code", "PyCharm", "IntelliJ IDEA",
    "phpMyAdmin", "Node.js", "API Rest", "Junit", "Multer", "JWT", "Git/GitHub", "Docker", "AWS", "GLPI", "Zabbix", "Cloudinary", "Godot"
  ]

  /** The fields the empty form starts with (ProjectForm.jsx:25-30). */
  const BlankProject: Object := map["title" := Str(""), "description" := Str(""), "demoUrl" := Str(""), "githubUrl" := Str("")]

  // ---------------------------------------------------------------------------
  // List edits

  /** `xs.filter(y => y !== x)`: every copy of `x` goes, the rest stay in order. */
  function Without(xs: seq<string>, x: string): (r: seq<string>)
  {
    Filter(xs, y => y != x)
  }

  /** Removal takes out exactly the copies of `x` and keeps the order of the rest. */
  lemma {:induction false} WithoutRemovesExactly(xs: seq<string>, x: string)
    ensures multiset(Without(xs, x)) == multiset(xs)[x := 0]
    ensures IsSubsequence(Without(xs, x), xs)
    ensures x !in Without(xs, x)
  {
    FilterIsSubsequence(xs, y => y != x);
    if xs != [] {
      WithoutRemovesExactly(xs[1..], x);
      assert xs == [xs[0]] + xs[1..];
      assert multiset(xs) == multiset([xs[0]]) + multiset(xs[1..]);
    }
  }

  /** The checkbox of `category` is ticked (ProjectForm.jsx:177). */
  predicate IsChecked(tags: seq<string>, category: string)
  {
    category in tags
  }

  /** A checkbox change (ProjectForm.jsx:180-183): ticking appends the
      category, unticking removes every copy of it. */
  function ToggledTags(tags: seq<string>, category: string, checked: bool): (r: seq<string>)
    ensures checked ==> r == tags + [category]
    ensures !checked ==> r == Without(tags, category)
  {
    if checked then tags + [category] else Without(tags, category)
  }

  /** After a change the box shows what was clicked, and the other tags keep
      their relative order. */
  lemma ToggleShowsChoice(tags: seq<string>, category: string, checked: bool)
    ensures IsChecked(ToggledTags(tags, category, checked), category) == checked
    ensures forall t :: t != category ==> multiset(ToggledTags(tags, category, checked))[t] == multiset(tags)[t]
  {
    WithoutRemovesExactly(tags, category);
  }

  /** `{ ...project, [name]: value }`: only the named field changes. */
  function WithField(project: Object, name: string, value: string): (r: Object)
    ensures Get(r, name) == Str(value)
    ensures forall k :: k != name ==> Get(r, k) == Get(project, k)
    ensures r.Keys == project.Keys + {name}
  {
    project[name := Str(value)]
  }

  // ---------------------------------------------------------------------------
  // The submitted form

  /** The entries for the picked files, one per file, in order, all under "images". */
  function FileEntries(files: seq<File>): (r: seq<Entry>)
    ensures |r| == |files| && forall i :: 0 <= i < |files| ==> r[i] == Entry("images", Attached(files[i]))
  {
    seq(|files|, i requires 0 <= i < |files| => Entry("images", Attached(files[i])))
  }

  /** The form `submitForm` builds (ProjectForm.jsx:92-101); `append` turns
      every value into text with `String`. */
  function FormEntries(project: Object, existingImages: seq<string>, files: seq<File>, tags: seq<string>,
                       stringify: Stringifier): seq<Entry>
  {
    [Entry("title", Text(ToText(Get(project, "title")))),
     Entry("description", Text(ToText(Get(project, "description")))),
     Entry("existingImages", Text(stringify(existingImages)))]
    + FileEntries(files)
    + [Entry("demoUrl", Text(ToText(Get(project, "demoUrl")))),
       Entry("githubUrl", Text(ToText(Get(project, "githubUrl")))),
       Entry("tags", Text(stringify(tags)))]
  }

  /** The text fields as the server's body parser reads them: each name bound
      to its text. The form sends every name once; a repeated name, which the
      parser would collect into an array, is outside this model. */
  function Received(form: seq<Entry>): Object
  {
    if form == [] then map[]
    else
      var last := form[|form| - 1];
      var before := Received(form[..|form| - 1]);
      match last.value
      case Text(text) => before[last.name := Str(text)]
      case Attached(_) => before
  }

  /** The files of a form, in order. */
  function Files(form: seq<Entry>): seq<File>
  {
    if form == [] then []
    else
      var before := Files(form[..|form| - 1]);
      match form[|form| - 1].value
      case Text(_) => before
      case Attached(file) => before + [file]
  }

  lemma AppendFile(form: seq<Entry>, file: File)
    ensures Received(form + [Entry("images", Attached(file))]) == Received(form)
    ensures Files(form + [Entry("images", Attached(file))]) == Files(form) + [file]
  {
    assert (form + [Entry("images", Attached(file))])[..|form|] == form;
  }

  lemma FileEntriesSnoc(files: seq<File>)
    requires files != []
    ensures FileEntries(files) == FileEntries(files[..|files| - 1]) + [Entry("images", Attached(files[|files| - 1]))]
  {
  }

  lemma {:induction false} FileEntriesCarryNoText(prefix: seq<Entry>, files: seq<File>)
    ensures Received(prefix + FileEntries(files)) == Received(prefix)
    ensures Files(prefix + FileEntries(files)) == Files(prefix) + files
  {
    if files == [] {
      assert prefix + FileEntries(files) == prefix;
    } else {
      var init := files[..|files| - 1];
      var file := files[|files| - 1];
      FileEntriesCarryNoText(prefix, init);
      FileEntriesSnoc(files);
      var entry := Entry("images", Attached(file));
      var before := prefix + FileEntries(init);
      assert prefix + FileEntries(files) == before + [entry];
      AppendFile(before, file);
      assert init + [file] == files;
    }
  }

  lemma AppendText(form: seq<Entry>, name: string, text: string)
    ensures Received(form + [Entry(name, Text(text))]) == Received(form)[name := Str(text)]
    ensures Files(form + [Entry(name, Text(text))]) == Files(form)
  {
    assert (form + [Entry(name, Text(text))])[..|form|] == form;
  }

  /** The text fields of the submitted form as the server reads them: the
      lists as JSON text, every other field as `String` of the form's value. */
  function FormBody(project: Object, existingImages: seq<string>, tags: seq<string>, stringify: Stringifier): (body: Object)
    ensures Get(body, "title") == Str(ToText(Get(project, "title")))
    ensures Get(body, "description") == Str(ToText(Get(project, "description")))
    ensures Get(body, "demoUrl") == Str(ToText(Get(project, "demoUrl")))
    ensures Get(body, "githubUrl") == Str(ToText(Get(project, "githubUrl")))
    ensures Get(body, "existingImages") == Str(stringify(existingImages))
    ensures Get(body, "tags") == Str(stringify(tags))
  {
    map["title" := Str(ToText(Get(project, "title"))),
        "description" := Str(ToText(Get(project, "description"))),
        "existingImages" := Str(stringify(existingImages)),
        "demoUrl" := Str(ToText(Get(project, "demoUrl"))),
        "githubUrl" := Str(ToText(Get(project, "githubUrl"))),
        "tags" := Str(stringify(tags))]
  }

  lemma ReceivedThree(e0: Entry, e1: Entry, e2: Entry)
    requires e0.value.Text? && e1.value.Text? && e2.value.Text?
    ensures Received([e0, e1, e2]) == map[e0.name := Str(e0.value.text), e1.name := Str(e1.value.text), e2.name := Str(e2.value.text)]
    ensures Files([e0, e1, e2]) == []
  {
    assert [e0, e1, e2] == [] + [e0] + [e1] + [e2];
    AppendText([], e0.name, e0.value.text);
    AppendText([] + [e0], e1.name, e1.value.text);
    AppendText([] + [e0] + [e1], e2.name, e2.value.text);
  }

  /** What the server reads from the submitted form: `FormBody` as its text
      fields, and the files one by one in the order they were picked. */
  lemma {:induction false} FormAsReceived(project: Object, existingImages: seq<string>, files: seq<File>, tags: seq<string>,
                                          stringify: Stringifier)
    ensures Received(FormEntries(project, existingImages, files, tags, stringify)) == FormBody(project, existingImages, tags, stringify)
    ensures Files(FormEntries(project, existingImages, files, tags, stringify)) == files
  {
    var e0 := Entry("title", Text(ToText(Get(project, "title"))));
    var e1 := Entry("description", Text(ToText(Get(project, "description"))));
    var e2 := Entry("existingImages", Text(stringify(existingImages)));
    var e3 := Entry("demoUrl", Text(ToText(Get(project, "demoUrl"))));
    var e4 := Entry("githubUrl", Text(ToText(Get(project, "githubUrl"))));
    var e5 := Entry("tags", Text(stringify(tags)));
    var head := [e0, e1, e2];
    ReceivedThree(e0, e1, e2);
    var withFiles := head + FileEntries(files);
    FileEntriesCarryNoText(head, files);
    AppendText(withFiles, e3.name, e3.value.text);
    AppendText(withFiles + [e3], e4.name, e4.value.text);
    AppendText(withFiles + [e3] + [e4], e5.name, e5.value.text);
    assert FormEntries(project, existingImages, files, tags, stringify) == withFiles + [e3] + [e4] + [e5];
  }

  /** Submitting an edit reaches the server's `update` with the tags chosen
      and the images kept followed by the new uploads, in order. */
  lemma EditReachesUpdate(project: Object, existingImages: seq<string>, files: seq<File>, tags: seq<string>,
                          stringify: Stringifier, parse: ProjectController.Parser, uploaded: seq<string>)
    requires RoundTrip(stringify, parse)
    ensures var body := Received(FormEntries(project, existingImages, files, tags, stringify));
            && ProjectController.UpdateTags(Get(body, "tags"), parse) == Arr(Strs(tags))
            && ProjectController.MergeImages(ProjectController.KeptImages(Get(body, "existingImages"), parse), uploaded)
               == Some(Strs(existingImages + uploaded))
  {
    var body := Received(FormEntries(project, existingImages, files, tags, stringify));
    FormAsReceived(project, existingImages, files, tags, stringify);
    assert Get(body, "tags") == Str(stringify(tags));
    assert Get(body, "existingImages") == Str(stringify(existingImages));
    assert parse(stringify(existingImages)) == Some(Arr(Strs(existingImages)));
    assert parse(stringify(tags)) == Some(Arr(Strs(tags)));
    var kept := ProjectController.KeptImages(Get(body, "existingImages"), parse);
    assert kept == Arr(Strs(existingImages));
    assert Spread(kept) == Some(Strs(existingImages));
    StrsAppend(existingImages, uploaded);
  }

  /** Submitting a new project reaches the server's `create` with the tags chosen. */
  lemma NewReachesCreate(project: Object, files: seq<File>, tags: seq<string>,
                         stringify: Stringifier, parse: ProjectController.Parser)
    requires RoundTrip(stringify, parse)
    ensures ProjectController.CreateTags(Get(Received(FormEntries(project, [], files, tags, stringify)), "tags"), parse)
            == Arr(Strs(tags))
  {
    FormAsReceived(project, [], files, tags, stringify);
    assert parse(stringify(tags)) == Some(Arr(Strs(tags)));
  }

  /** Editing a document that has no demo link, without touching the field,
      submits the text "undefined" for it, which `update` then stores. */
  lemma AbsentLinkSubmittedAsText(p: Project, files: seq<File>, stringify: Stringifier)
    requires p.demoUrl.None?
    ensures Get(Received(FormEntries(DocumentJson(p), p.images, files, p.tags, stringify)), "demoUrl") == Str("undefined")
  {
    FormAsReceived(DocumentJson(p), p.images, files, p.tags, stringify);
    assert Get(FormBody(DocumentJson(p), p.images, p.tags, stringify), "demoUrl") == Str(ToText(Undefined));
  }

  const NewProjectUrl: string := "/api/project/new-project"

  function UpdateUrl(id: string): string
  {
    "/api/project/update/" + id
  }

  /** The form, mounted at /new-project (no id) or /project/:id. */
  class ProjectForm {
    const routeId: Option<string>
    var isNewProject: bool
    var project: Object
    var images: seq<File>
    var existingImages: seq<string>
    var tags: seq<string>

    /** `if (id)`: the route carries a non-empty id. */
    predicate Editing()
    {
      routeId.Some? && routeId.value != ""
    }

    /** First render (ProjectForm.jsx:33-37). */
    constructor (routeId: Option<string>)
      ensures this.routeId == routeId && isNewProject
      ensures project == BlankProject && images == [] && existingImages == [] && tags == []
    {
      this.routeId := routeId;
      isNewProject := true;
      project := BlankProject;
      images := [];
      existingImages := [];
      tags := [];
    }

    /** The load effect (ProjectForm.jsx:52-70): with an id the form switches
        to edit mode and, when the fetch succeeds, takes the document's fields,
        tags and images. */
    method Mount(fetched: Option<Project>)
      modifies this
      ensures isNewProject == (old(isNewProject) && !Editing())
      ensures Editing() && fetched.Some? ==>
                project == DocumentJson(fetched.value) && tags == fetched.value.tags
                && existingImages == fetched.value.images && images == old(images)
      ensures !(Editing() && fetched.Some?) ==> unchanged(this`project, this`tags, this`existingImages, this`images)
    {
      if Editing() {
        isNewProject := false;
        match fetched
        case Some(p) =>
          project := DocumentJson(p);
          tags := p.tags;
          existingImages := p.images;
        case None =>
      }
    }

    /** The Delete button under a kept image. */
    method RemoveExistingImage(image: string)
      modifies this`existingImages
      ensures existingImages == Without(old(existingImages), image)
    {
      existingImages := Without(existingImages, image);
    }

    /** A text input changes. */
    method HandleChange(name: string, value: string)
      modifies this`project
      ensures project == WithField(old(project), name, value)
    {
      project := project[name := Str(value)];
    }

    /** Files are picked. */
    method HandleImagesChange(files: seq<File>)
      modifies this`images
      ensures images == files
    {
      images := files;
    }

    /** A tag checkbox changes. */
    method ToggleTag(category: string, checked: bool)
      modifies this`tags
      ensures tags == ToggledTags(old(tags), category, checked)
    {
      tags := if checked then tags + [category] else Without(tags, category);
    }

    /** `submitForm`: the request sent, POST in new mode and PUT otherwise. */
    method SubmitForm(stringify: Stringifier) returns (request: Submission)
      ensures request.form == FormEntries(project, existingImages, images, tags, stringify)
      ensures isNewProject ==> request.verb == POST && request.url == NewProjectUrl
      ensures !isNewProject ==> request.verb == PUT && request.url == UpdateUrl(ToText(RouteIdValue(routeId)))
    {
      var form := [Entry("title", Text(ToText(Get(project, "title")))),
                   Entry("description", Text(ToText(Get(project, "description")))),
                   Entry("existingImages", Text(stringify(existingImages)))];
      var i := 0;
      while i < |images|
        invariant 0 <= i <= |images|
        invariant form == [Entry("title", Text(ToText(Get(project, "title")))),
                           Entry("description", Text(ToText(Get(project, "description")))),
                           Entry("existingImages", Text(stringify(existingImages)))]
                          + FileEntries(images[..i])
      {
        form := form + [Entry("images", Attached(images[i]))];
        i := i + 1;
      }
      assert images[..i] == images;
      form := form + [Entry("demoUrl", Text(ToText(Get(project, "demoUrl")))),
                      Entry("githubUrl", Text(ToText(Get(project, "githubUrl")))),
                      Entry("tags", Text(stringify(tags)))];
      if isNewProject {
        request := Submission(POST, NewProjectUrl, form);
      } else {
        request := Submission(PUT, UpdateUrl(ToText(RouteIdValue(routeId))), form);
      }
    }
  }

  /** `${id}` of the route parameter. */
  function RouteIdValue(id: Option<string>): JsValue
  {
    if id.Some? then Str(id.value) else Undefined
  }
}
