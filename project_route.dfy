/** The project routes (server/routes/projectRoute.js), mounted under
    /api/project: an ordered table whose first matching entry handles a request,
    each entry running its middleware in order before its handler. */
module ProjectRoute {
  import opened Wrappers
  import opened Json
  import opened Jwt
  import opened Http
  import opened VerifyToken
  import opened ProjectModel
  import opened ProjectController

  datatype Verb = GET | POST | PUT | DELETE

  /** A path segment of a route: literal text, or a parameter (`:id`). */
  datatype Segment = Lit(text: string) | Param

  datatype Middleware =
    | Guarded                                // verifyToken
    | UploadArray(field: string, maxCount: nat) // upload.array(field, maxCount)

  datatype Handler = Create | GetAllProject | GetProjectById | Update | DeleteProjectById

  datatype Route = Route(verb: Verb, pattern: seq<Segment>, middleware: seq<Middleware>, handler: Handler)

  /** The table, in registration order. */
  const Routes: seq<Route> := [
    Route(POST, [Lit("new-project")], [Guarded, UploadArray("images", 10)], Create),
    Route(GET, [Lit("all-projects")], [], GetAllProject),
    Route(GET, [Param], [Guarded], GetProjectById),
    Route(PUT, [Lit("update"), Param], [Guarded, UploadArray("images", 10)], Update),
    Route(DELETE, [Lit("delete"), Param], [Guarded], DeleteProjectById)
  ]

  /** A path (its segments) fits a pattern: same length, literals equal, and
      every parameter bound to a non-empty segment. */
  predicate Fits(pattern: seq<Segment>, path: seq<string>)
  {
    |pattern| == |path|
    && forall i :: 0 <= i < |pattern| ==>
         (pattern[i].Lit? ==> pattern[i].text == path[i]) && (pattern[i].Param? ==> path[i] != "")
  }

  predicate Handles(route: Route, verb: Verb, path: seq<string>)
  {
    route.verb == verb && Fits(route.pattern, path)
  }

  /** The index of the first entry from `from` on that handles the request. */
  function DispatchFrom(routes: seq<Route>, verb: Verb, path: seq<string>, from: nat): (r: Option<nat>)
    requires from <= |routes|
    ensures r.Some? ==> from <= r.value < |routes| && Handles(routes[r.value], verb, path)
    ensures r.Some? ==> forall j :: from <= j < r.value ==> !Handles(routes[j], verb, path)
    ensures r.None? ==> forall j :: from <= j < |routes| ==> !Handles(routes[j], verb, path)
    decreases |routes| - from
  {
    if from == |routes| then None
    else if Handles(routes[from], verb, path) then Some(from)
    else DispatchFrom(routes, verb, path, from + 1)
  }

  /** First match: the entry that handles the request is the earliest one that can. */
  function Dispatch(verb: Verb, path: seq<string>): (r: Option<nat>)
    ensures r.Some? ==> r.value < |Routes| && Handles(Routes[r.value], verb, path)
    ensures r.Some? ==> forall j :: 0 <= j < r.value ==> !Handles(Routes[j], verb, path)
    ensures r.None? ==> forall j :: 0 <= j < |Routes| ==> !Handles(Routes[j], verb, path)
  {
    DispatchFrom(Routes, verb, path, 0)
  }

  /** The value of the route's `:id`, when it has one. */
  function IdParam(pattern: seq<Segment>, path: seq<string>): string
    requires |pattern| == |path|
  {
    if pattern == [] then ""
    else if pattern[|pattern| - 1].Param? then path[|path| - 1]
    else IdParam(pattern[..|pattern| - 1], path[..|path| - 1])
  }

  // ---------------------------------------------------------------------------
  // Properties of the table

  /** Reading all projects is the only public route. */
  lemma OnlyAllProjectsIsPublic()
    ensures forall i :: 0 <= i < |Routes| ==> (Guarded !in Routes[i].middleware <==> Routes[i].handler == GetAllProject)
  {
  }

  /** Every guarded route runs the guard first. */
  lemma GuardRunsFirst()
    ensures forall i :: 0 <= i < |Routes| && Routes[i].middleware != [] ==> Routes[i].middleware[0] == Guarded
  {
  }

  /** Only create and update take uploads: at most 10 files, under "images". */
  lemma UploadsOnlyOnWrites()
    ensures forall i, k :: 0 <= i < |Routes| && 0 <= k < |Routes[i].middleware| && Routes[i].middleware[k].UploadArray? ==>
              Routes[i].middleware[k] == UploadArray("images", 10) && Routes[i].handler in {Create, Update}
    ensures forall i :: 0 <= i < |Routes| && Routes[i].handler in {Create, Update} ==>
              Routes[i].middleware == [Guarded, UploadArray("images", 10)]
  {
  }

  /** "/all-projects" is registered before "/:id", so a GET of it is never read
      as an id; any other single-segment GET is. */
  lemma AllProjectsShadowsId(segment: string)
    requires segment != ""
    ensures Dispatch(GET, ["all-projects"]) == Some(1)
    ensures segment != "all-projects" ==> Dispatch(GET, [segment]) == Some(2)
  {
    assert Handles(Routes[1], GET, ["all-projects"]);
    if segment != "all-projects" {
      assert Handles(Routes[2], GET, [segment]);
      assert Routes[1].pattern[0].text != [segment][0];
    }
  }

  // ---------------------------------------------------------------------------
  // Running a route

  /** One uploaded file: the form field it came under and the locator the
      storage backend returned for it. */
  datatype Upload = Upload(field: string, path: string)

  datatype Request = Request(
    verb: Verb,
    path: seq<string>,
    authorization: Option<string>,
    body: Object,
    files: seq<Upload>)

  function Paths(files: seq<Upload>): (r: seq<string>)
    ensures |r| == |files| && forall i :: 0 <= i < |files| ==> r[i] == files[i].path
  {
    seq(|files|, i requires 0 <= i < |files| => files[i].path)
  }

  /** `upload.array(field, maxCount)` accepts the files: all under `field`, and
      no more than `maxCount` of them. */
  predicate Accepts(field: string, maxCount: nat, files: seq<Upload>)
  {
    |files| <= maxCount && forall i :: 0 <= i < |files| ==> files[i].field == field
  }

  /** Where the middleware chain leaves a request: halted with a response, or
      passed on to the handler; either way, with the paths of the files it stored. */
  datatype Gate = Halt(response: Response, stored: seq<string>) | Proceed(stored: seq<string>)

  function RunMiddleware(chain: seq<Middleware>, req: Request, verify: Verifier, now: int): (g: Gate)
    ensures chain == [] ==> g == Proceed([])
    ensures chain != [] && chain[0] == Guarded && Guard(req.authorization, verify, now).Reject? ==>
              g == Halt(Guard(req.authorization, verify, now).response, [])
    ensures chain != [] && chain[0].UploadArray? && !Accepts(chain[0].field, chain[0].maxCount, req.files) ==>
              g == Halt(Response(ServerError, Failure), [])
  {
    if chain == [] then Proceed([])
    else match chain[0]
      case Guarded =>
        (match Guard(req.authorization, verify, now)
         case Reject(response) => Halt(response, [])
         case Admit(_) => RunMiddleware(chain[1..], req, verify, now))
      case UploadArray(field, maxCount) =>
        if !Accepts(field, maxCount, req.files) then Halt(Response(ServerError, Failure), [])
        else match RunMiddleware(chain[1..], req, verify, now)
          case Halt(response, stored) => Halt(response, Paths(req.files) + stored)
          case Proceed(stored) => Proceed(Paths(req.files) + stored)
  }

  /** On a write route: a request the guard refuses stores no file; one it
      admits with acceptable files stores them all, in order, before the
      handler runs. */
  lemma {:induction false} WriteRouteGate(i: nat, req: Request, verify: Verifier, now: int)
    requires i < |Routes| && Routes[i].handler in {Create, Update}
    ensures var g := RunMiddleware(Routes[i].middleware, req, verify, now);
            && (Guard(req.authorization, verify, now).Reject? ==> g == Halt(Guard(req.authorization, verify, now).response, []))
            && (Guard(req.authorization, verify, now).Admit? && !Accepts("images", 10, req.files) ==>
                  g == Halt(Response(ServerError, Failure), []))
            && (Guard(req.authorization, verify, now).Admit? && Accepts("images", 10, req.files) ==>
                  g == Proceed(Paths(req.files)))
  {
    UploadsOnlyOnWrites();
    var chain := Routes[i].middleware;
    assert chain[1..] == [UploadArray("images", 10)];
    assert chain[1..][1..] == [];
    assert Paths(req.files) + [] == Paths(req.files);
  }

  /** The server: the project collection and the storage backend's files. */
  class Server {
    const store: ProjectStore
    var media: seq<string>

    ghost predicate Valid()
      reads this, store
    {
      store.Valid()
    }

    constructor ()
      ensures Valid() && fresh(store) && store.docs == map[] && store.nextId == 0 && media == []
    {
      store := new ProjectStore();
      media := [];
    }

    /** Serve one request: dispatch, the route's middleware, then its handler.
        Files an upload step stores stay stored whatever the handler answers. */
    method Serve(req: Request, verify: Verifier, parse: Parser, now: int) returns (res: Response)
      requires Valid()
      modifies this, store
      ensures Valid()
      ensures Dispatch(req.verb, req.path).None? ==>
                res == Response(NotFound, Failure) && media == old(media) && store.docs == old(store.docs)
      ensures Dispatch(req.verb, req.path).Some? ==>
                match RunMiddleware(Routes[Dispatch(req.verb, req.path).value].middleware, req, verify, now)
                case Halt(response, stored) =>
                  res == response && media == old(media) + stored && store.docs == old(store.docs)
                case Proceed(stored) =>
                  var route := Routes[Dispatch(req.verb, req.path).value];
                  var rawId := IdParam(route.pattern, req.path);
                  && media == old(media) + stored
                  && (route.handler == Create ==>
                        if old(TitleTaken(store.docs, Get(req.body, "title"))) then
                          res == Response(BadRequest, Message("Project already exist.")) && store.docs == old(store.docs)
                        else
                          match Validate(CreateDraft(req.body, stored, parse))
                          case None => res == Response(ServerError, Failure) && store.docs == old(store.docs)
                          case Some(p) =>
                            res == Response(OK, Message("Project added.")) && store.docs == old(store.docs)[old(store.nextId) := p])
                  && (route.handler == GetAllProject ==>
                        && store.docs == old(store.docs)
                        && res == if old(store.docs) == map[] then Response(NotFound, Message("Project data not found"))
                                  else Response(OK, Records(old(store.docs))))
                  && (route.handler == GetProjectById ==>
                        && store.docs == old(store.docs)
                        && res == match DecodeId(rawId)
                                  case None => Response(ServerError, Failure)
                                  case Some(id) =>
                                    if id in old(store.docs) then Response(OK, Record(id, old(store.docs)[id]))
                                    else ProjectNotFound)
                  && (route.handler == Update ==>
                        match DecodeId(rawId)
                        case None => res == Response(ServerError, Failure) && store.docs == old(store.docs)
                        case Some(id) =>
                          if id !in old(store.docs) then res == ProjectNotFound && store.docs == old(store.docs)
                          else match MergeImages(KeptImages(Get(req.body, "existingImages"), parse), stored)
                            case None => res == Response(ServerError, Failure) && store.docs == old(store.docs)
                            case Some(images) =>
                              match ApplyUpdate(old(store.docs)[id], UpdateDraft(req.body, images, parse))
                              case None => res == Response(ServerError, Failure) && store.docs == old(store.docs)
                              case Some(p) =>
                                res == Response(OK, Message("Project updated successfully."))
                                && store.docs == old(store.docs)[id := p])
                  && (route.handler == DeleteProjectById ==>
                        match DecodeId(rawId)
                        case None => res == Response(ServerError, Failure) && store.docs == old(store.docs)
                        case Some(id) =>
                          if id !in old(store.docs) then res == ProjectNotFound && store.docs == old(store.docs)
                          else res == Response(OK, Message("Project deleted successfully."))
                               && store.docs == old(store.docs) - {id})
    {
      match Dispatch(req.verb, req.path)
      case None =>
        res := Response(NotFound, Failure);
      case Some(i) =>
        var route := Routes[i];
        match RunMiddleware(route.middleware, req, verify, now)
        case Halt(response, stored) =>
          media := media + stored;
          res := response;
        case Proceed(stored) =>
          media := media + stored;
          var id := IdParam(route.pattern, req.path);
          match route.handler
          case Create =>
            res := store.Create(req.body, stored, parse);
          case GetAllProject =>
            res := store.GetAll();
          case GetProjectById =>
            res := store.GetById(id);
          case Update =>
            res := store.Update(id, req.body, stored, parse);
          case DeleteProjectById =>
            res := store.Delete(id);
    }
  }

  /** A POST to /new-project by an admitted caller with acceptable files
      reaches `create` with those files stored. */
  lemma NewProjectReachesCreate(req: Request, verify: Verifier, now: int)
    requires req.verb == POST && req.path == ["new-project"]
    requires Guard(req.authorization, verify, now).Admit? && Accepts("images", 10, req.files)
    ensures Dispatch(POST, ["new-project"]) == Some(0) && Routes[0].handler == Create
    ensures RunMiddleware(Routes[0].middleware, req, verify, now) == Proceed(Paths(req.files))
  {
    assert Handles(Routes[0], POST, ["new-project"]);
    WriteRouteGate(0, req, verify, now);
  }

  /** Files are stored before `create` looks for a duplicate title, so a
      refused duplicate still leaves its uploads in storage. */
  method DuplicateKeepsUploads(verify: Verifier, parse: Parser, now: int, header: string, user: Claims)
    returns (first: Response, second: Response, media: seq<string>)
    requires Guard(Some(header), verify, now) == Admit(user)
    requires parse("[]") == Some(Arr([]))
    ensures first == Response(OK, Message("Project added."))
    ensures second == Response(BadRequest, Message("Project already exist."))
    ensures media == ["one.png", "two.png"]
  {
    var server := new Server();
    var body := map["title" := Str("A"), "description" := Str("d"), "tags" := Str("[]")];
    var p := Project("A", "d", ["one.png"], None, None, []);
    PlainBodyValidates("A", "d", ["one.png"], parse);
    var one := Request(POST, ["new-project"], Some(header), body, [Upload("images", "one.png")]);
    NewProjectReachesCreate(one, verify, now);
    assert Paths(one.files) == ["one.png"];
    assert RunMiddleware(Routes[0].middleware, one, verify, now) == Proceed(["one.png"]);
    assert Validate(CreateDraft(one.body, ["one.png"], parse)) == Some(p);
    assert !TitleTaken(server.store.docs, Json.Get(body, "title"));
    first := server.Serve(one, verify, parse, now);
    assert server.media == ["one.png"];
    assert server.store.docs == map[0 := p];
    var two := Request(POST, ["new-project"], Some(header), body, [Upload("images", "two.png")]);
    NewProjectReachesCreate(two, verify, now);
    assert Paths(two.files) == ["two.png"];
    assert RunMiddleware(Routes[0].middleware, two, verify, now) == Proceed(["two.png"]);
    assert 0 in server.store.docs && CastText(Json.Get(body, "title")) == Some(server.store.docs[0].title);
    assert TitleTaken(server.store.docs, Json.Get(two.body, "title"));
    second := server.Serve(two, verify, parse, now);
    media := server.media;
  }
}
