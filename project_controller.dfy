/** The project service (server/controller/projectController.js): the five
    handlers over the project collection, with the normalisation of `tags` and
    `existingImages` and the merge of kept and newly uploaded images. */
module ProjectController {
  import opened Wrappers
  import opened Json
  import opened ProjectModel
  import opened Http

  /** `JSON.parse` on a string: the parsed value, or `None` where it throws. */
  type Parser = string -> Option<JsValue>

  // ---------------------------------------------------------------------------
  // Normalisation of the request body

  /** `tags` in `create`: `JSON.parse(tags)` (which first converts `tags` to a
      string) is used as it is, list or not; when it throws, an array is kept
      and any other value is wrapped as a one-element array. */
  function CreateTags(tags: JsValue, parse: Parser): (r: JsValue)
    ensures parse(ToText(tags)).Some? ==> r == parse(ToText(tags)).value
    ensures parse(ToText(tags)).None? ==> r.Arr? && r == (if tags.Arr? then tags else Arr([tags]))
  {
    match parse(ToText(tags))
    case Some(parsed) => parsed
    case None => if tags.Arr? then tags else Arr([tags])
  }

  /** `tags` in `update`: only a string is parsed; a value that is not a string
      is passed through unchanged, and a string that fails to parse is wrapped
      as a one-element array. */
  function UpdateTags(tags: JsValue, parse: Parser): (r: JsValue)
    ensures !tags.Str? ==> r == tags
    ensures tags.Str? && parse(tags.s).Some? ==> r == parse(tags.s).value
    ensures tags.Str? && parse(tags.s).None? ==> r == Arr([tags])
  {
    if !tags.Str? then tags
    else match parse(tags.s)
      case Some(parsed) => parsed
      case None => Arr([tags])
  }

  /** `existingImages` in `update`: a string is parsed, and counts as `[]` when
      it fails to parse; any other value is used as it is. */
  function KeptImages(existingImages: JsValue, parse: Parser): (r: JsValue)
    ensures !existingImages.Str? ==> r == existingImages
    ensures existingImages.Str? && parse(existingImages.s).Some? ==> r == parse(existingImages.s).value
    ensures existingImages.Str? && parse(existingImages.s).None? ==> r == Arr([])
  {
    if !existingImages.Str? then existingImages
    else match parse(existingImages.s)
      case Some(parsed) => parsed
      case None => Arr([])
  }

  /** `[...kept, ...uploaded]`: the kept images first, then the uploads, each in
      its own order. Spreading a value that is neither an array nor a string
      throws (`None`). */
  function MergeImages(kept: JsValue, uploaded: seq<string>): (r: Option<seq<JsValue>>)
    ensures r.Some? <==> kept.Arr? || kept.Str?
    ensures r.Some? ==> |r.value| == |Spread(kept).value| + |uploaded|
    ensures r.Some? ==> r.value[..|Spread(kept).value|] == Spread(kept).value
    ensures r.Some? ==> r.value[|Spread(kept).value|..] == Strs(uploaded)
  {
    match Spread(kept)
    case Some(items) =>
      var merged := items + Strs(uploaded);
      assert merged[..|items|] == items && merged[|items|..] == Strs(uploaded);
      Some(merged)
    case None => None
  }

  /** The object `create` passes to `new Project(...)`: the images are the
      upload paths in upload order. */
  function CreateDraft(body: Object, uploaded: seq<string>, parse: Parser): Draft
  {
    Draft(Get(body, "title"), Get(body, "description"), Arr(Strs(uploaded)),
          Get(body, "demoUrl"), Get(body, "githubUrl"), CreateTags(Get(body, "tags"), parse))
  }

  /** The object `update` passes to `findByIdAndUpdate`. */
  function UpdateDraft(body: Object, images: seq<JsValue>, parse: Parser): Draft
  {
    Draft(Get(body, "title"), Get(body, "description"), Arr(images),
          Get(body, "demoUrl"), Get(body, "githubUrl"), UpdateTags(Get(body, "tags"), parse))
  }

  /** `Project.findOne({ title })` finds a document: the filter value is cast
      as the `title` path is, then matched exactly and case-sensitively. */
  predicate TitleTaken(docs: map<Id, Project>, title: JsValue)
  {
    exists id :: id in docs && CastText(title) == Some(docs[id].title)
  }

  /** `req.params.id` read as a document id; `None` is the cast error a
      malformed id raises. */
  function DecodeId(raw: string): Option<Id>
  {
    ParseNat(raw)
  }

  /** How an id appears in a URL. */
  function IdText(id: Id): string
  {
    NatToText(id)
  }

  lemma IdTextDecodes(id: Id)
    ensures DecodeId(IdText(id)) == Some(id)
  {
    ParseNatToText(id);
  }

  const ProjectNotFound: Response := Response(NotFound, Message("Project not found"))

  // ---------------------------------------------------------------------------
  // The collection and its handlers

  /** The project collection. Ids are allocated from `nextId`, which only grows,
      so an id is never reused after a deletion. */
  class ProjectStore {
    var docs: map<Id, Project>
    var nextId: Id

    ghost predicate Valid()
      reads this
    {
      forall id :: id in docs ==> id < nextId
    }

    constructor ()
      ensures Valid() && docs == map[] && nextId == 0
    {
      docs := map[];
      nextId := 0;
    }

    /** `create`. */
    method Create(body: Object, uploaded: seq<string>, parse: Parser) returns (res: Response)
      requires Valid()
      modifies this
      ensures Valid()
      ensures old(TitleTaken(docs, Get(body, "title"))) ==>
                res == Response(BadRequest, Message("Project already exist."))
                && docs == old(docs) && nextId == old(nextId)
      ensures !old(TitleTaken(docs, Get(body, "title"))) ==>
                match Validate(CreateDraft(body, uploaded, parse))
                case None =>
                  res == Response(ServerError, Failure) && docs == old(docs) && nextId == old(nextId)
                case Some(p) =>
                  && res == Response(OK, Message("Project added."))
                  && old(nextId) !in old(docs)
                  && docs == old(docs)[old(nextId) := p]
                  && nextId == old(nextId) + 1
    {
      var draft := CreateDraft(body, uploaded, parse);
      if TitleTaken(docs, draft.title) {
        return Response(BadRequest, Message("Project already exist."));
      }
      match Validate(draft)
      case None =>
        res := Response(ServerError, Failure);
      case Some(p) =>
        docs := docs[nextId := p];
        nextId := nextId + 1;
        res := Response(OK, Message("Project added."));
    }

    /** `getAllProject`: 404 on an empty collection, otherwise every document. */
    method GetAll() returns (res: Response)
      ensures docs == map[] ==> res == Response(NotFound, Message("Project data not found"))
      ensures docs != map[] ==> res == Response(OK, Records(docs))
    {
      if |docs| == 0 {
        return Response(NotFound, Message("Project data not found"));
      }
      assert docs != map[];
      res := Response(OK, Records(docs));
    }

    /** `getProjectById`. */
    method GetById(rawId: string) returns (res: Response)
      ensures DecodeId(rawId).None? ==> res == Response(ServerError, Failure)
      ensures DecodeId(rawId).Some? && DecodeId(rawId).value !in docs ==> res == ProjectNotFound
      ensures DecodeId(rawId).Some? && DecodeId(rawId).value in docs ==>
                res == Response(OK, Record(DecodeId(rawId).value, docs[DecodeId(rawId).value]))
    {
      match DecodeId(rawId)
      case None =>
        res := Response(ServerError, Failure);
      case Some(id) =>
        if id !in docs {
          return ProjectNotFound;
        }
        res := Response(OK, Record(id, docs[id]));
    }

    /** `update`: the target document only, with no title-uniqueness check. */
    method Update(rawId: string, body: Object, uploaded: seq<string>, parse: Parser) returns (res: Response)
      requires Valid()
      modifies this
      ensures Valid() && nextId == old(nextId)
      ensures DecodeId(rawId).None? ==> res == Response(ServerError, Failure) && docs == old(docs)
      ensures DecodeId(rawId).Some? && DecodeId(rawId).value !in old(docs) ==>
                res == ProjectNotFound && docs == old(docs)
      ensures DecodeId(rawId).Some? && DecodeId(rawId).value in old(docs) ==>
                var id := DecodeId(rawId).value;
                match MergeImages(KeptImages(Get(body, "existingImages"), parse), uploaded)
                case None => res == Response(ServerError, Failure) && docs == old(docs)
                case Some(images) =>
                  match ApplyUpdate(old(docs)[id], UpdateDraft(body, images, parse))
                  case None => res == Response(ServerError, Failure) && docs == old(docs)
                  case Some(p) =>
                    res == Response(OK, Message("Project updated successfully.")) && docs == old(docs)[id := p]
    {
      match DecodeId(rawId)
      case None =>
        res := Response(ServerError, Failure);
      case Some(id) =>
        if id !in docs {
          return ProjectNotFound;
        }
        var kept := KeptImages(Get(body, "existingImages"), parse);
        match MergeImages(kept, uploaded)
        case None =>
          res := Response(ServerError, Failure);
        case Some(images) =>
          match ApplyUpdate(docs[id], UpdateDraft(body, images, parse))
          case None =>
            res := Response(ServerError, Failure);
          case Some(p) =>
            docs := docs[id := p];
            res := Response(OK, Message("Project updated successfully."));
    }

    /** `deleteProjectById`: removes exactly the target document. */
    method Delete(rawId: string) returns (res: Response)
      requires Valid()
      modifies this
      ensures Valid() && nextId == old(nextId)
      ensures DecodeId(rawId).None? ==> res == Response(ServerError, Failure) && docs == old(docs)
      ensures DecodeId(rawId).Some? && DecodeId(rawId).value !in old(docs) ==>
                res == ProjectNotFound && docs == old(docs)
      ensures DecodeId(rawId).Some? && DecodeId(rawId).value in old(docs) ==>
                res == Response(OK, Message("Project deleted successfully."))
                && docs == old(docs) - {DecodeId(rawId).value}
    {
      match DecodeId(rawId)
      case None =>
        res := Response(ServerError, Failure);
      case Some(id) =>
        if id !in docs {
          return ProjectNotFound;
        }
        docs := docs - {id};
        res := Response(OK, Message("Project deleted successfully."));
    }
  }

  // ---------------------------------------------------------------------------
  // Properties of the normalisation and of the documents written

  /** The document `create` stores holds the upload paths, in upload order, as
      its images, the parsed tags cast to strings as its tags, and the
      submitted title and description cast to text. */
  lemma CreatedDocument(body: Object, uploaded: seq<string>, parse: Parser)
    requires Validate(CreateDraft(body, uploaded, parse)).Some?
    ensures var p := Validate(CreateDraft(body, uploaded, parse)).value;
            && p.images == uploaded
            && Some(p.tags) == CastArray(CreateTags(Get(body, "tags"), parse))
            && Some(p.title) == CastText(Get(body, "title")) && Some(p.description) == CastText(Get(body, "description"))
  {
    CastArrayOfStrs(uploaded);
  }

  /** A tag list sent as JSON text is stored exactly, in order; with no files
      the document has no images. */
  lemma CreateFromJsonTags(body: Object, parse: Parser, tagsText: string, tags: seq<string>)
    requires Get(body, "tags") == Str(tagsText) && parse(tagsText) == Some(Arr(Strs(tags)))
    requires RequiredText(Get(body, "title")) && RequiredText(Get(body, "description"))
    requires OptionalText(Get(body, "demoUrl")).Some? && OptionalText(Get(body, "githubUrl")).Some?
    ensures Validate(CreateDraft(body, [], parse)).Some?
    ensures Validate(CreateDraft(body, [], parse)).value.images == []
    ensures Validate(CreateDraft(body, [], parse)).value.tags == tags
  {
    CastArrayOfStrs(tags);
    CastArrayOfStrs([]);
  }

  /** Without a `tags` field, `String(undefined)` is not JSON, so the tags
      become `[undefined]`. The model's cast takes no `undefined` element and
      refuses the document; the database would keep the element as null. */
  lemma CreateWithoutTags(body: Object, uploaded: seq<string>, parse: Parser)
    requires "tags" !in body && parse("undefined").None?
    ensures CreateTags(Get(body, "tags"), parse) == Arr([Undefined])
    ensures Validate(CreateDraft(body, uploaded, parse)).None?
  {
  }

  /** `create` keeps a parsed value that is not a list at all: tags that parse
      to a number are passed on as that number, and the cast stores them as a
      one-element list holding its decimal text. */
  lemma CreateKeepsParsedNonList(body: Object, uploaded: seq<string>, parse: Parser, text: string, n: int)
    requires Get(body, "tags") == Str(text) && parse(text) == Some(Num(n))
    requires RequiredText(Get(body, "title")) && RequiredText(Get(body, "description"))
    requires OptionalText(Get(body, "demoUrl")).Some? && OptionalText(Get(body, "githubUrl")).Some?
    ensures CreateTags(Get(body, "tags"), parse) == Num(n)
    ensures Validate(CreateDraft(body, uploaded, parse)).Some?
    ensures Validate(CreateDraft(body, uploaded, parse)).value.tags == [IntToText(n)]
  {
    CastArrayOfStrs(uploaded);
  }

  /** A JSON body may carry the title as a number. It is stored as its
      decimal text, and the duplicate check compares that text with the
      stored titles. */
  lemma NumericTitle(body: Object, uploaded: seq<string>, parse: Parser, n: int, docs: map<Id, Project>)
    requires Get(body, "title") == Num(n) && RequiredText(Get(body, "description"))
    requires OptionalText(Get(body, "demoUrl")).Some? && OptionalText(Get(body, "githubUrl")).Some?
    requires CastArray(CreateTags(Get(body, "tags"), parse)).Some?
    ensures Validate(CreateDraft(body, uploaded, parse)).Some?
    ensures Validate(CreateDraft(body, uploaded, parse)).value.title == IntToText(n)
    ensures TitleTaken(docs, Get(body, "title")) <==> exists id :: id in docs && docs[id].title == IntToText(n)
  {
    CastArrayOfStrs(uploaded);
    assert |NatToText(if n < 0 then -n else n)| >= 1;
  }

  /** An image merge: keeping "b.png" of ["a.png", "b.png"] while
      uploading "c.png" gives ["b.png", "c.png"]. */
  lemma MergeExample(parse: Parser, keptText: string)
    requires parse(keptText) == Some(Arr([Str("b.png")]))
    ensures MergeImages(KeptImages(Str(keptText), parse), ["c.png"]) == Some([Str("b.png"), Str("c.png")])
  {
    assert Strs(["c.png"]) == [Str("c.png")];
    assert KeptImages(Str(keptText), parse) == Arr([Str("b.png")]);
    assert Spread(Arr([Str("b.png")])) == Some([Str("b.png")]);
    assert [Str("b.png")] + [Str("c.png")] == [Str("b.png"), Str("c.png")];
  }

  /** An `existingImages` text that does not parse keeps nothing: the images
      become the uploads alone. */
  lemma UnparsableKeptImages(text: string, parse: Parser, uploaded: seq<string>)
    requires parse(text).None?
    ensures MergeImages(KeptImages(Str(text), parse), uploaded) == Some(Strs(uploaded))
  {
    assert [] + Strs(uploaded) == Strs(uploaded);
  }

  /** Without an `existingImages` field the spread throws, so `update` answers
      500 and writes nothing. */
  lemma MissingKeptImagesThrows(body: Object, parse: Parser, uploaded: seq<string>)
    requires "existingImages" !in body
    ensures MergeImages(KeptImages(Get(body, "existingImages"), parse), uploaded).None?
  {
  }

  /** The stored images after a successful `update` are the kept list followed by
      the uploads. */
  lemma {:induction false} UpdatedImages(stored: Project, body: Object, kept: seq<string>, uploaded: seq<string>,
                                         parse: Parser)
    requires KeptImages(Get(body, "existingImages"), parse) == Arr(Strs(kept))
    requires MergeImages(Arr(Strs(kept)), uploaded).Some?
    requires ApplyUpdate(stored, UpdateDraft(body, MergeImages(Arr(Strs(kept)), uploaded).value, parse)).Some?
    ensures ApplyUpdate(stored, UpdateDraft(body, MergeImages(Arr(Strs(kept)), uploaded).value, parse)).value.images
            == kept + uploaded
  {
    var merged := MergeImages(Arr(Strs(kept)), uploaded).value;
    var p := ApplyUpdate(stored, UpdateDraft(body, merged, parse)).value;
    assert merged == Strs(kept) + Strs(uploaded);
    StrsAppend(kept, uploaded);
    CastArrayOfStrs(kept + uploaded);
  }

  // ---------------------------------------------------------------------------
  // Scenarios over a fresh collection

  /** A body with a title, a description and the tags "[]" validates to the
      document holding them and the uploads. */
  lemma PlainBodyValidates(title: string, description: string, uploaded: seq<string>, parse: Parser)
    requires title != "" && description != "" && parse("[]") == Some(Arr([]))
    ensures Validate(CreateDraft(map["title" := Str(title), "description" := Str(description), "tags" := Str("[]")],
                                 uploaded, parse))
            == Some(Project(title, description, uploaded, None, None, []))
  {
    var p := Project(title, description, uploaded, None, None, []);
    var body := map["title" := Str(title), "description" := Str(description), "tags" := Str("[]")];
    assert Strs([]) == [];
    assert CreateDraft(body, uploaded, parse) == ToDraft(p);
    ValidateToDraft(p);
  }

  /** An update that sets only the title and keeps no image renames the
      document and empties its images. */
  lemma RenameApplies(stored: Project, title: string, parse: Parser)
    requires parse("[]") == Some(Arr([]))
    ensures var rename := map["title" := Str(title), "existingImages" := Str("[]")];
            && MergeImages(KeptImages(Get(rename, "existingImages"), parse), []) == Some([])
            && ApplyUpdate(stored, UpdateDraft(rename, [], parse)) == Some(stored.(title := title, images := []))
  {
    var rename := map["title" := Str(title), "existingImages" := Str("[]")];
    assert Strs([]) == [];
    CastArrayOfStrs([]);
  }

  /** The round trip: a project created with tags ["Go", "Rust"] and no
      images reads back with exactly those tags and no images. */
  method CreateThenRead(parse: Parser) returns (created: Response, read: Response)
    requires parse("[\"Go\",\"Rust\"]") == Some(Arr([Str("Go"), Str("Rust")]))
    ensures created == Response(OK, Message("Project added."))
    ensures read.status == OK && read.body.Record?
    ensures read.body.project.images == [] && read.body.project.tags == ["Go", "Rust"]
  {
    var store := new ProjectStore();
    var body := map["title" := Str("Portfolio"), "description" := Str("Site"), "tags" := Str("[\"Go\",\"Rust\"]")];
    assert Strs(["Go", "Rust"]) == [Str("Go"), Str("Rust")];
    CreateFromJsonTags(body, parse, "[\"Go\",\"Rust\"]", ["Go", "Rust"]);
    assert !TitleTaken(store.docs, Get(body, "title"));
    created := store.Create(body, [], parse);
    IdTextDecodes(0);
    read := store.GetById(IdText(0));
  }

  /** A second `create` with the same title is refused, whatever the other
      fields say; an `update` may still give two documents the same title. */
  method DuplicateTitles(parse: Parser) returns (second: Response, renamed: Response, titles: seq<string>)
    requires parse("[]") == Some(Arr([]))
    ensures second == Response(BadRequest, Message("Project already exist."))
    ensures renamed == Response(OK, Message("Project updated successfully."))
    ensures titles == ["A", "A"]
  {
    var store := new ProjectStore();
    var a := map["title" := Str("A"), "description" := Str("first"), "tags" := Str("[]")];
    var b := map["title" := Str("B"), "description" := Str("second"), "tags" := Str("[]")];
    PlainBodyValidates("A", "first", [], parse);
    PlainBodyValidates("B", "second", [], parse);
    assert !TitleTaken(store.docs, Get(a, "title"));
    var r := store.Create(a, [], parse);
    assert !TitleTaken(store.docs, Get(b, "title"));
    r := store.Create(b, [], parse);
    var stored := store.docs[1];
    assert store.docs[0].title == "A";
    second := store.Create(map["title" := Str("A"), "description" := Str("other")], ["x.png"], parse);
    RenameApplies(stored, "A", parse);
    IdTextDecodes(1);
    renamed := store.Update(IdText(1), map["title" := Str("A"), "existingImages" := Str("[]")], [], parse);
    titles := [store.docs[0].title, store.docs[1].title];
  }

  /** Deleting an id removes it, after which reading it is 404;
      deleting it again is 404 too. */
  method DeleteThenRead(parse: Parser) returns (deleted: Response, read: Response, again: Response)
    requires parse("[]") == Some(Arr([]))
    ensures deleted == Response(OK, Message("Project deleted successfully."))
    ensures read == ProjectNotFound && again == ProjectNotFound
  {
    var store := new ProjectStore();
    CastArrayOfStrs([]);
    var r := store.Create(map["title" := Str("A"), "description" := Str("d"), "tags" := Str("[]")], [], parse);
    IdTextDecodes(0);
    deleted := store.Delete(IdText(0));
    read := store.GetById(IdText(0));
    again := store.Delete(IdText(0));
  }
}
