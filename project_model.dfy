/** The project document (server/model/projectModel.js) and the two ways the
    database layer turns the object a handler passes it into a stored document. */
module ProjectModel {
  import opened Wrappers
  import opened Json

  /** Document identifiers, allocated by the store. */
  type Id = nat

  /** A stored project: required `title`, `description` and `tags`, optional
      `images`, `demoUrl` and `githubUrl`. The schema declares no unique index:
      nothing here relates one document to another. */
  datatype Project = Project(
    title: string,
    description: string,
    images: seq<string>,
    demoUrl: Option<string>,
    githubUrl: Option<string>,
    tags: seq<string>)

  /** The object a handler passes to the database: each field holds whatever
      JavaScript value the handler computed for it. */
  datatype Draft = Draft(
    title: JsValue,
    description: JsValue,
    images: JsValue,
    demoUrl: JsValue,
    githubUrl: JsValue,
    tags: JsValue)

  /** The database's cast of one value to a String: a string stays, a number
      or a boolean becomes its text; `null`, `undefined`, arrays and objects
      are not cast here. */
  function CastText(v: JsValue): (r: Option<string>)
    ensures r.Some? <==> v.Str? || v.Num? || v.Bool?
    ensures r.Some? ==> r.value == ToText(v)
  {
    match v
    case Str(s) => Some(s)
    case Num(n) => Some(IntToText(n))
    case Bool(b) => Some(if b then "true" else "false")
    case _ => None
  }

  /** Every element cast to a String, in order; `None` when one does not cast. */
  function CastTextList(items: seq<JsValue>): (r: Option<seq<string>>)
    ensures r.Some? <==> forall i :: 0 <= i < |items| ==> CastText(items[i]).Some?
    ensures r.Some? ==> |r.value| == |items| && forall i :: 0 <= i < |items| ==> r.value[i] == ToText(items[i])
  {
    if items == [] then Some([])
    else match (CastText(items[0]), CastTextList(items[1..]))
      case (Some(head), Some(rest)) =>
        assert forall i :: 1 <= i < |items| ==> items[i] == items[1..][i - 1];
        Some([head] + rest)
      case (None, _) => None
      case (_, None) =>
        assert forall i :: 0 <= i < |items| - 1 ==> items[1..][i] == items[i + 1];
        None
  }

  /** The cast of a `[String]` path: an array has each element cast, and a
      single value is first wrapped as a one-element array. */
  function CastArray(v: JsValue): (r: Option<seq<string>>)
    ensures v.Arr? ==> r == CastTextList(v.items)
    ensures !v.Arr? && r.Some? ==> r.value == [ToText(v)]
    ensures !v.Arr? ==> (r.Some? <==> CastText(v).Some?)
  {
    if v.Arr? then CastTextList(v.items)
    else match CastText(v)
      case Some(text) => Some([text])
      case None => None
  }

  /** A list of strings casts to itself. */
  lemma {:induction false} CastArrayOfStrs(xs: seq<string>)
    ensures CastArray(Arr(Strs(xs))) == Some(xs)
  {
    var r := CastTextList(Strs(xs));
    assert r.Some?;
    assert |r.value| == |xs|;
    forall i | 0 <= i < |xs|
      ensures r.value[i] == xs[i]
    {
      assert Strs(xs)[i] == Str(xs[i]);
      assert r.value[i] == ToText(Str(xs[i]));
    }
    assert r.value == xs;
  }

  /** A `required` String field: it casts, and its text is not empty. */
  predicate RequiredText(v: JsValue)
  {
    CastText(v).Some? && CastText(v).value != ""
  }

  /** An optional String field: unset when absent or null, cast otherwise. */
  function OptionalText(v: JsValue): (r: Option<Option<string>>)
    ensures v.Undefined? || v.Null? ==> r == Some(None)
    ensures !v.Undefined? && !v.Null? ==> (r.Some? <==> CastText(v).Some?)
    ensures !v.Undefined? && !v.Null? && r.Some? ==> r.value == CastText(v)
  {
    match v
    case Undefined => Some(None)
    case Null => Some(None)
    case _ =>
      match CastText(v)
      case Some(text) => Some(Some(text))
      case None => None
  }

  /** Saving a new document: every field cast to its declared type, then the
      `required` validators. `None` is the validation or cast error. */
  function Validate(d: Draft): (r: Option<Project>)
    ensures r.Some? <==>
              && RequiredText(d.title) && RequiredText(d.description)
              && (d.images.Undefined? || CastArray(d.images).Some?)
              && OptionalText(d.demoUrl).Some? && OptionalText(d.githubUrl).Some?
              && CastArray(d.tags).Some?
    ensures r.Some? ==>
              && Some(r.value.title) == CastText(d.title) && Some(r.value.description) == CastText(d.description)
              && (d.images.Undefined? ==> r.value.images == [])
              && (!d.images.Undefined? ==> Some(r.value.images) == CastArray(d.images))
              && Some(r.value.tags) == CastArray(d.tags)
              && Some(r.value.demoUrl) == OptionalText(d.demoUrl)
              && Some(r.value.githubUrl) == OptionalText(d.githubUrl)
  {
    if !RequiredText(d.title) || !RequiredText(d.description) then None
    else
      var images := if d.images.Undefined? then Some([]) else CastArray(d.images);
      match (images, OptionalText(d.demoUrl), OptionalText(d.githubUrl), CastArray(d.tags))
      case (Some(im), Some(demo), Some(github), Some(tags)) =>
        Some(Project(CastText(d.title).value, CastText(d.description).value, im, demo, github, tags))
      case _ => None
  }

  /** The document written back as the object that would create it. */
  function ToDraft(p: Project): Draft
  {
    Draft(Str(p.title), Str(p.description), Arr(Strs(p.images)),
          if p.demoUrl.Some? then Str(p.demoUrl.value) else Undefined,
          if p.githubUrl.Some? then Str(p.githubUrl.value) else Undefined,
          Arr(Strs(p.tags)))
  }

  lemma ValidateToDraft(p: Project)
    requires p.title != "" && p.description != ""
    ensures Validate(ToDraft(p)) == Some(p)
  {
    CastArrayOfStrs(p.images);
    CastArrayOfStrs(p.tags);
  }

  /** One field of `findByIdAndUpdate`: an `undefined` key is dropped from the
      update, so the stored value stays; any other value is cast. */
  function UpdateText(stored: string, v: JsValue): Option<string>
  {
    if v.Undefined? then Some(stored) else CastText(v)
  }

  function UpdateOptionalText(stored: Option<string>, v: JsValue): Option<Option<string>>
  {
    if v.Undefined? then Some(stored) else OptionalText(v)
  }

  function UpdateStrings(stored: seq<string>, v: JsValue): Option<seq<string>>
  {
    if v.Undefined? then Some(stored) else CastArray(v)
  }

  /** Overwriting a stored document (`findByIdAndUpdate`): each defined field is
      cast and replaces the stored one; validators do not run on updates. */
  function ApplyUpdate(stored: Project, d: Draft): (r: Option<Project>)
    ensures r.Some? <==>
              && (d.title.Undefined? || CastText(d.title).Some?)
              && (d.description.Undefined? || CastText(d.description).Some?)
              && (d.images.Undefined? || CastArray(d.images).Some?)
              && OptionalText(d.demoUrl).Some? && OptionalText(d.githubUrl).Some?
              && (d.tags.Undefined? || CastArray(d.tags).Some?)
    ensures r.Some? ==>
              && (if d.title.Undefined? then r.value.title == stored.title else Some(r.value.title) == CastText(d.title))
              && (if d.description.Undefined? then r.value.description == stored.description
                  else Some(r.value.description) == CastText(d.description))
              && (if d.images.Undefined? then r.value.images == stored.images else Some(r.value.images) == CastArray(d.images))
              && (if d.tags.Undefined? then r.value.tags == stored.tags else Some(r.value.tags) == CastArray(d.tags))
              && (d.demoUrl.Undefined? ==> r.value.demoUrl == stored.demoUrl)
              && (!d.demoUrl.Undefined? ==> Some(r.value.demoUrl) == OptionalText(d.demoUrl))
              && (d.githubUrl.Undefined? ==> r.value.githubUrl == stored.githubUrl)
              && (!d.githubUrl.Undefined? ==> Some(r.value.githubUrl) == OptionalText(d.githubUrl))
  {
    match (UpdateText(stored.title, d.title), UpdateText(stored.description, d.description),
           UpdateStrings(stored.images, d.images),
           UpdateOptionalText(stored.demoUrl, d.demoUrl), UpdateOptionalText(stored.githubUrl, d.githubUrl),
           UpdateStrings(stored.tags, d.tags))
    case (Some(title), Some(description), Some(images), Some(demo), Some(github), Some(tags)) =>
      Some(Project(title, description, images, demo, github, tags))
    case _ => None
  }

  /** Updating a document with its own fields leaves it as it was. */
  lemma ApplyUpdateOwnFields(p: Project)
    ensures ApplyUpdate(p, ToDraft(p)) == Some(p)
  {
    CastArrayOfStrs(p.images);
    CastArrayOfStrs(p.tags);
  }

  /** A document as the server sends it: fields it does not hold are absent. */
  function DocumentJson(p: Project): (r: Object)
    ensures Get(r, "title") == Str(p.title) && Get(r, "description") == Str(p.description)
    ensures Get(r, "demoUrl") == (if p.demoUrl.Some? then Str(p.demoUrl.value) else Undefined)
    ensures Get(r, "githubUrl") == (if p.githubUrl.Some? then Str(p.githubUrl.value) else Undefined)
    ensures Get(r, "images") == Arr(Strs(p.images)) && Get(r, "tags") == Arr(Strs(p.tags))
  {
    var fields := map["title" := Str(p.title), "description" := Str(p.description),
                      "images" := Arr(Strs(p.images)), "tags" := Arr(Strs(p.tags))];
    var withDemo := if p.demoUrl.Some? then fields["demoUrl" := Str(p.demoUrl.value)] else fields;
    if p.githubUrl.Some? then withDemo["githubUrl" := Str(p.githubUrl.value)] else withDemo
  }
}
