/** The public project gallery (client/src/components/ProjectsSection.jsx):
    the fetched list with `images` and `tags` forced to arrays, and what each
    card shows. */
module ProjectsSection {
  import opened Wrappers
  import opened Json
  import opened ProjectModel
  import opened Carousel

  /** `{ ...p, images: …, tags: … }` (ProjectsSection.jsx:25-29). */
  function Normalized(p: Object): (r: Object)
    ensures Get(r, "images") == (if Get(p, "images").Arr? then Get(p, "images") else Arr([]))
    ensures Get(r, "tags") == (if Get(p, "tags").Arr? then Get(p, "tags") else Arr([]))
    ensures forall k :: k != "images" && k != "tags" ==> Get(r, k) == Get(p, k)
  {
    var images := Get(p, "images");
    var tags := Get(p, "tags");
    p["images" := if images.Arr? then images else Arr([])]["tags" := if tags.Arr? then tags else Arr([])]
  }

  /** Normalising twice is normalising once. */
  lemma NormalizedIdempotent(p: Object)
    ensures Normalized(Normalized(p)) == Normalized(p)
  {
    var once := Normalized(p);
    assert Get(once, "images").Arr? && Get(once, "tags").Arr?;
    assert once["images" := Get(once, "images")]["tags" := Get(once, "tags")] == once;
  }

  /** The whole list, one card per project, in the order fetched. */
  function NormalizedAll(projects: seq<Object>): (r: seq<Object>)
    ensures |r| == |projects|
    ensures forall i :: 0 <= i < |projects| ==> r[i] == Normalized(projects[i])
  {
    seq(|projects|, i requires 0 <= i < |projects| => Normalized(projects[i]))
  }

  /** Documents the server sends come through normalisation with all their
      fields as they were. */
  lemma ServerDocumentsUnchanged(p: Project)
    ensures forall k :: Get(Normalized(DocumentJson(p)), k) == Get(DocumentJson(p), k)
  {
  }

  /** A slide of a card's carousel. */
  datatype Slide = Picture(src: JsValue, position: nat) | Placeholder

  /** The carousel's children (ProjectsSection.jsx:55-73): one picture per
      image as a list, or, with no images, the placeholder on its own. */
  function CarouselChildren(p: Object): (c: Children<Slide>)
    ensures c.Single? <==> !(Get(p, "images").Arr? && |Get(p, "images").items| > 0)
    ensures c.Single? ==> c.item == Placeholder
    ensures c.Many? ==> |c.items| == |Get(p, "images").items|
    ensures c.Many? ==> forall i :: 0 <= i < |c.items| ==> c.items[i] == Picture(Get(p, "images").items[i], i)
  {
    var images := Get(p, "images");
    if images.Arr? && |images.items| > 0 then
      Many(seq(|images.items|, i requires 0 <= i < |images.items| => Picture(images.items[i], i)))
    else Single(Placeholder)
  }

  /** The placeholder is shown exactly when the card has no images; otherwise
      every image is shown, in order. */
  lemma PlaceholderIffNoImages(p: Object)
    ensures Slides(CarouselChildren(Normalized(p))) == [Placeholder] <==> |Get(Normalized(p), "images").items| == 0
    ensures |Get(Normalized(p), "images").items| > 0 ==>
              |Slides(CarouselChildren(Normalized(p)))| == |Get(Normalized(p), "images").items|
  {
    var n := Normalized(p);
    if |Get(n, "images").items| > 0 {
      assert Slides(CarouselChildren(n))[0].Picture?;
    }
  }

  /** As written, a card whose project has no images hands the carousel a bare
      element, and the carousel cannot map over it: a project saved without
      files (which `create` stores with no images) breaks the gallery. */
  lemma ImagelessCardAsWritten(p: Project)
    requires p.images == []
    ensures SlidesAsWritten(CarouselChildren(Normalized(DocumentJson(p)))).None?
    ensures Slides(CarouselChildren(Normalized(DocumentJson(p)))) == [Placeholder]
  {
    assert Get(Normalized(DocumentJson(p)), "images") == Arr([]);
  }

  /** The demo link is shown when the demo URL is truthy (ProjectsSection.jsx:100). */
  predicate ShowsDemoLink(p: Object)
  {
    Truthy(Get(p, "demoUrl"))
  }

  /** The GitHub link is shown when the GitHub URL is truthy (ProjectsSection.jsx:111). */
  predicate ShowsGithubLink(p: Object)
  {
    Truthy(Get(p, "githubUrl"))
  }

  /** For a stored document: a link shows exactly when its URL is set and non-empty. */
  lemma LinksFollowUrls(p: Project)
    ensures ShowsDemoLink(Normalized(DocumentJson(p))) <==> p.demoUrl.Some? && p.demoUrl.value != ""
    ensures ShowsGithubLink(Normalized(DocumentJson(p))) <==> p.githubUrl.Some? && p.githubUrl.value != ""
  {
  }

  /** The section's state. */
  class ProjectsSection {
    var projects: seq<Object>

    constructor ()
      ensures projects == []
    {
      projects := [];
    }

    /** The fetch effect: `data` is the response's list, or `None` when the
        request failed (the server answers 404 on an empty collection). A
        failure leaves the list as it was. */
    method Load(data: Option<seq<Object>>)
      modifies this
      ensures data.Some? ==> projects == NormalizedAll(data.value)
      ensures data.None? ==> projects == old(projects)
    {
      if data.Some? {
        projects := NormalizedAll(data.value);
      }
    }
  }

  /** A failed fetch on a fresh section leaves it empty. */
  method FailedFetch() returns (shown: seq<Object>)
    ensures shown == []
  {
    var section := new ProjectsSection();
    section.Load(None);
    shown := section.projects;
  }
}
