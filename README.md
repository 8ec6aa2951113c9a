# portfolio-mern in Dafny

This project models the project catalogue of a MERN portfolio site (NicodeH/portfolio-mern) and proves properties of that model.

The server side covers:

- the project document and how the database layer stores it;
- the five project handlers over the collection: create, read all, read one, update and delete;
- the route table that guards them and takes uploads;
- the bearer-token guard;
- the administrator login.

The client side covers the small pieces of state logic:

- the image carousel;
- the light/dark toggle;
- the create/edit form and the multipart form it submits;
- the normalisation of the public gallery;
- the skills filter;
- the admin list with its delete;
- the navigation bar.

A few design choices hold across the model:

- **JavaScript values** are a `JsValue` datatype (module `Json`), with the language's truthiness, strict equality, `String()` conversion and array spread.
- **`JSON.parse`, `JSON.stringify`, `jwt.sign` and `jwt.verify`** are function parameters.
  - Properties that depend on them carry a hypothesis: `ProjectForm.RoundTrip` for the JSON pair, `Jwt.Sound` for the token pair (a signed token verifies to its claims until it expires).
  - The clock is a parameter, `now`.
- **The collection** is a class holding a `map<Id, Project>`, with ids allocated from a counter that only grows.
- **The client components** are classes whose fields are the React state, plus the local storage entry or the document class list they touch. Each state change is tied to a pure function, and the properties are proved about that function.

The schema has no unique index on `title`. Only `create` checks for a duplicate, so `update` may give two documents the same title (`ProjectController.DuplicateTitles`).

## Model

| member | source | states |
|---|---|---|
| ProjectModel.CastText | server/model/projectModel.js:5-25 | The cast of one value to a String succeeds iff it is a string, a number or a boolean, and gives `String(v)`. |
| ProjectModel.CastTextList | server/model/projectModel.js:13-25 | An array casts iff every element does, giving each element's text in order. |
| ProjectModel.CastArray | server/model/projectModel.js:13-25 | A `[String]` path casts an array element by element. A single string, number or boolean becomes a one-element list of its text. |
| ProjectModel.CastArrayOfStrs | server/model/projectModel.js:13-25 | A list of strings casts to itself. |
| ProjectModel.OptionalText | server/model/projectModel.js:16-21 | An optional String field is unset when absent or null; any other value is kept iff it casts, as its text. |
| ProjectModel.Validate | server/model/projectModel.js:4-26 | Saving succeeds iff all of these hold: title and description cast to non-empty text (a string as it is, a number or boolean as its text); images are absent or cast as a `[String]`; each URL is absent, null or casts to text; tags cast as a `[String]`. The stored document then holds the cast title and description, the cast images (none when absent), the cast tags and the cast URLs. |
| ProjectModel.ValidateToDraft | server/model/projectModel.js:4-26 | Every document with a non-empty title and description is accepted back unchanged when written out as the object that creates it. |
| ProjectModel.ApplyUpdate | server/controller/projectController.js:120-131 | `findByIdAndUpdate` casts each field to its type without running `required`. It succeeds iff every defined field casts: `CastText` for the title, description and URLs (a null URL unsets it), `CastArray` for the lists. A field left `undefined` keeps the stored value; every other field is replaced by its cast value. |
| ProjectModel.ApplyUpdateOwnFields | server/controller/projectController.js:120-131 | Updating a document with its own fields leaves it unchanged. |
| ProjectModel.DocumentJson | server/controller/projectController.js:76 | The JSON of a stored document gives its title, description, images and tags. A URL the document does not hold reads as `undefined`. |
| ProjectController.CreateTags | server/controller/projectController.js:15-20 | `create` takes the parsed `tags` as they are, list or not. When parsing throws, an array is kept and anything else becomes a one-element array. |
| ProjectController.UpdateTags | server/controller/projectController.js:96-101 | `update` parses only a string. Anything else passes through unchanged, and a string that fails to parse becomes a one-element array. |
| ProjectController.KeptImages | server/controller/projectController.js:104-111 | A string `existingImages` is parsed, and counts as `[]` when parsing throws. Any other value is used as it is. |
| ProjectController.MergeImages | server/controller/projectController.js:114-117 | The merge succeeds iff the kept value can be spread (array or string). The kept items come first, then the uploads as strings, each part in order, and the length is the sum. |
| ProjectController.IdTextDecodes | server/controller/projectController.js:69-70 | The id written into a URL decodes back to the same document id. |
| ProjectController.ProjectStore.constructor | server/model/projectModel.js:29 | The "Projects" collection starts empty, and the first id is 0. |
| ProjectController.ProjectStore.Create | server/controller/projectController.js:5-49 | An existing document whose title equals the submitted title, cast to text, gives 400 "Project already exist." and no change. A failed validation gives 500 and no change. Otherwise exactly one document is added under a fresh id and the answer is 200 "Project added.". |
| ProjectController.ProjectStore.GetAll | server/controller/projectController.js:52-64 | 404 "Project data not found" iff the collection is empty, otherwise 200 with every document. |
| ProjectController.ProjectStore.GetById | server/controller/projectController.js:67-80 | A malformed id gives 500 and an absent id gives 404 "Project not found". Otherwise 200 with that document. |
| ProjectController.ProjectStore.Update | server/controller/projectController.js:83-139 | A malformed id gives 500 and an absent id gives 404. Either way nothing changes. Otherwise, if the image merge or the update cast fails the answer is 500 with no change. If both succeed, only the target is replaced, by the updated document, and the answer is 200. |
| ProjectController.ProjectStore.Delete | server/controller/projectController.js:142-157 | A malformed id gives 500 and an absent id gives 404, with no change. Otherwise exactly the target is removed and the answer is 200 "Project deleted successfully.". |
| ProjectController.CreatedDocument | server/controller/projectController.js:23-43 | A document `create` stores has the uploaded paths as its images in upload order, the parsed tags cast to strings, and the submitted title and description cast to text. |
| ProjectController.CreateFromJsonTags | server/controller/projectController.js:15-20 | JSON tags text that parses to a list of strings is stored as exactly that list, and no files give no images. |
| ProjectController.CreateWithoutTags | server/controller/projectController.js:15-20 | A body with no `tags` gives the tags `[undefined]`, since `JSON.parse("undefined")` throws. The model's cast refuses that element (see Left out). |
| ProjectController.CreateKeepsParsedNonList | server/controller/projectController.js:15-20 | Tags that parse to a number are passed on as that number, and the document is stored with the one tag holding its decimal text. |
| ProjectController.NumericTitle | server/controller/projectController.js:26-43 | A title sent as a JSON number is stored as its decimal text, and it counts as taken iff a stored document has that text as its title. |
| ProjectController.MergeExample | server/controller/projectController.js:104-117 | Keeping `["b.png"]` and uploading `c.png` gives `["b.png", "c.png"]`. |
| ProjectController.UnparsableKeptImages | server/controller/projectController.js:109-111 | Unparsable `existingImages` text keeps no old image, only the uploads. |
| ProjectController.MissingKeptImagesThrows | server/controller/projectController.js:104-117 | An update without `existingImages` fails at the spread (500, nothing written). |
| ProjectController.UpdatedImages | server/controller/projectController.js:117-128 | An updated document's images are the kept images followed by the uploads. |
| ProjectController.CreateThenRead | server/controller/projectController.js:5-80 | A project created with tags ["Go", "Rust"] and no files reads back with exactly those tags and no images. |
| ProjectController.DuplicateTitles | server/controller/projectController.js:26-29 | A second create with an existing title is refused, while an update can still give two documents the same title. |
| ProjectController.DeleteThenRead | server/controller/projectController.js:142-153 | After a delete, both reading and deleting that id again give 404. |
| ProjectRoute.DispatchFrom | server/routes/projectRoute.js:29-59 | The table entry chosen is the first one at or after the start that matches the verb and path, or none when none matches. |
| ProjectRoute.Dispatch | server/routes/projectRoute.js:29-59 | A request goes to the earliest matching route, and no earlier route matches it. |
| ProjectRoute.OnlyAllProjectsIsPublic | server/routes/projectRoute.js:36 | A route runs without the guard iff it is the read-all route. |
| ProjectRoute.GuardRunsFirst | server/routes/projectRoute.js:29-59 | Every route that has middleware runs the guard first. |
| ProjectRoute.UploadsOnlyOnWrites | server/routes/projectRoute.js:29-52 | Only create and update take uploads: at most 10 files under "images", after the guard. |
| ProjectRoute.AllProjectsShadowsId | server/routes/projectRoute.js:36-43 | GET /all-projects goes to the read-all handler. Any other single-segment GET goes to get-by-id. |
| ProjectRoute.Paths | server/controller/projectController.js:23 | The storage paths of the uploaded files, in upload order. |
| ProjectRoute.RunMiddleware | server/routes/projectRoute.js:29-59 | A refused guard halts the request with its response and nothing stored. Files the upload step refuses halt it with 500. |
| ProjectRoute.WriteRouteGate | server/routes/projectRoute.js:29-52 | On create and update: a refused request stores no file, and an admitted one with acceptable files stores them all, in order, before the handler runs. |
| ProjectRoute.Server.constructor | server/routes/projectRoute.js:20 | The server starts with an empty collection and no stored files. |
| ProjectRoute.Server.Serve | server/routes/projectRoute.js:29-59 | An unmatched request gives 404. A halted request gives the middleware's answer with the store unchanged. For a request that reaches its handler, the files stored stay stored, and the answer and the new store are those of the handler with the id taken from the path: `create` as `ProjectStore.Create`; read-all gives 404 on an empty store, else every document; read-by-id, update and delete give 500 for a malformed id and 404 for an unknown one; otherwise read-by-id gives the document, update writes the cast fields over it, and delete removes exactly it. Reads leave the store unchanged. |
| ProjectRoute.NewProjectReachesCreate | server/routes/projectRoute.js:29 | An admitted POST /new-project with acceptable files reaches `create` with those files stored. |
| ProjectRoute.DuplicateKeepsUploads | server/routes/projectRoute.js:29 | A refused duplicate create still leaves its upload in storage. |
| VerifyToken.Split | server/middlewares/verifyToken.js:16 | `split(" ")` gives at least one part, no part contains the separator, and joining the parts gives the header back. |
| VerifyToken.SplitWithoutSeparator | server/middlewares/verifyToken.js:16 | Text without a space splits into itself alone. |
| VerifyToken.SplitAfterField | server/middlewares/verifyToken.js:16 | A field, a space, then text: the field comes first and the split of the text follows. |
| VerifyToken.SecondField | server/middlewares/verifyToken.js:16 | For a bearer header, `split(" ")[1]` is the credential after "Bearer ", cut at the next space. |
| VerifyToken.Guard | server/middlewares/verifyToken.js:5-32 | No header, or one not starting with "Bearer ", gives 401 "Access denied. No token provided.". Otherwise a verified token admits its claims as `req.user`, and a refused one gives 403 "Invalid or expired token.". |
| VerifyToken.CredentialExamples | server/middlewares/verifyToken.js:16 | "Bearer a b" carries "a" and "Bearer " carries "". A space-free token is carried whole. |
| VerifyToken.SchemeIsExact | server/middlewares/verifyToken.js:10-13 | "bearer abc", "Bearer" and "Basic abc" are all refused with 401. |
| VerifyToken.IssuedTokenAdmittedForOneHour | server/middlewares/verifyToken.js:16-31 | A token from a successful login is admitted, with the signed username as the user, until one hour after issue. From then on it is refused with 403. |
| AuthController.Login | server/controller/authController.js:11-37 | 200 iff both fields strictly equal the configured ones, with a token over `{username}` that expires one hour later. Otherwise 401 "Invalid credentials". Nothing is changed. |
| AuthController.FailuresIndistinguishable | server/controller/authController.js:20-23 | A wrong username and a wrong password give the identical answer. |
| AuthController.NoNormalisation | server/controller/authController.js:20 | No trimming and no case folding: " admin" and "Admin" fail, and "admin" passes. |
| AuthController.UnsetConfigurationAdmitsEmptyBody | server/controller/authController.js:13-20 | With neither variable set, a body without both fields logs in. |
| AuthController.OnlyStringsMatch | server/controller/authController.js:20 | A non-string username never matches a configured one. |
| Carousel.SlidesAsWritten | client/src/components/Carousel.jsx:8-34 | `images.map` works only when the children are a list. A single element is a render error. |
| Carousel.Slides | client/src/components/Carousel.jsx:8-34 | The children as a list: a single element is one slide. |
| Carousel.SlidesRefinesAsWritten | client/src/components/Carousel.jsx:34 | Wherever the as-written reading works, it agrees with the corrected one. For a single element the corrected reading gives one slide. |
| Carousel.PrevIndex | client/src/components/Carousel.jsx:14-15 | 0 goes to the last index, and any other index goes back by one. |
| Carousel.NextIndex | client/src/components/Carousel.jsx:19-20 | The last index goes to 0, and any other index goes up by one. |
| Carousel.StepsStayInRange | client/src/components/Carousel.jsx:14-20 | Both steps keep an index in [0, n). |
| Carousel.StepsAreInverse | client/src/components/Carousel.jsx:14-20 | `prev(next(i)) = i` and `next(prev(i)) = i`. |
| Carousel.EmptyCarouselEscapes | client/src/components/Carousel.jsx:14-20 | With no slides, `next` from 0 gives 1 and `prev` gives -1, both out of range. |
| Carousel.NextTimesClimbs | client/src/components/Carousel.jsx:19-20 | Below the last slide, k steps forward add k. |
| Carousel.NextTimesAdds | client/src/components/Carousel.jsx:19-20 | Stepping a times and then b times is stepping a + b times. |
| Carousel.FullTurn | client/src/components/Carousel.jsx:19-20 | n steps forward come back to the same slide. |
| Carousel.Carousel.constructor | client/src/components/Carousel.jsx:10 | The index starts at 0. |
| Carousel.Carousel.Prev | client/src/components/Carousel.jsx:14-15 | The index becomes `prev` of the old one, and stays in range. |
| Carousel.Carousel.Next | client/src/components/Carousel.jsx:19-20 | The index becomes `next` of the old one, and stays in range. |
| Carousel.Carousel.Offset | client/src/components/Carousel.jsx:31 | The strip shifts left by `100 * currentIndex` percent, a whole number of slides between 0 and the last slide. |
| Carousel.Carousel.Dots | client/src/components/Carousel.jsx:65-72 | There is one dot per slide, and a dot is highlighted iff it is the current one. |
| Carousel.OneDotHighlighted | client/src/components/Carousel.jsx:65-72 | Exactly one dot is highlighted. |
| Carousel.ClickAround | client/src/components/Carousel.jsx:10-20 | With three slides, right then left shows the first slide again, and left from the first shows the last. |
| ThemeToggle.Mounted | client/src/components/ThemeToggle.jsx:21-36 | After mount, dark mode holds iff the stored theme is exactly "dark". Storage is untouched, and the three states agree. |
| ThemeToggle.Toggled | client/src/components/ThemeToggle.jsx:39-58 | The mode flips. Turning dark mode off stores "light" and removes the class; turning it on stores "dark" and adds the class. Other classes stay. |
| ThemeToggle.ToggleEstablishesConsistency | client/src/components/ThemeToggle.jsx:39-58 | After any toggle the flag, the class and the stored theme agree. |
| ThemeToggle.ToggleTwice | client/src/components/ThemeToggle.jsx:39-58 | Two toggles restore the flag and the class list. |
| ThemeToggle.ToggleSurvivesReload | client/src/components/ThemeToggle.jsx:21-58 | Mounting after a toggle gives the mode the toggle chose. |
| ThemeToggle.ButtonIcon | client/src/components/ThemeToggle.jsx:72 | The Sun shows iff dark mode is on. |
| ThemeToggle.ThemeToggle.constructor | client/src/components/ThemeToggle.jsx:18 | The first render is dark. |
| ThemeToggle.ThemeToggle.Mount | client/src/components/ThemeToggle.jsx:21-36 | The new state is `Mounted` of the old. |
| ThemeToggle.ThemeToggle.Toggle | client/src/components/ThemeToggle.jsx:39-58 | The new state is `Toggled` of the old. |
| ThemeToggle.FirstVisit | client/src/components/ThemeToggle.jsx:18-72 | With nothing stored, the page shows the Sun before mount and the Moon after it. A click then stores "dark". |
| ProjectForm.WithoutRemovesExactly | client/src/pages/ProjectForm.jsx:73-75 | Removing an entry takes out exactly its copies and keeps the rest as a subsequence. |
| ProjectForm.ToggledTags | client/src/pages/ProjectForm.jsx:180-183 | Ticking appends the category at the end. Unticking removes every copy of it. |
| ProjectForm.ToggleShowsChoice | client/src/pages/ProjectForm.jsx:177-183 | After a change the box is ticked iff it was ticked, and every other tag keeps its count. |
| ProjectForm.WithField | client/src/pages/ProjectForm.jsx:78-81 | Only the named field changes. |
| ProjectForm.FileEntries | client/src/pages/ProjectForm.jsx:96-98 | One "images" entry per picked file, in order. |
| ProjectForm.FormBody | client/src/pages/ProjectForm.jsx:92-101 | The server reads the lists as JSON text and every other field as `String` of the form's value. |
| ProjectForm.FormAsReceived | client/src/pages/ProjectForm.jsx:92-101 | The submitted form reaches the server as `FormBody` plus the picked files, in order. |
| ProjectForm.EditReachesUpdate | client/src/pages/ProjectForm.jsx:92-110 | An edit reaches `update` with exactly the chosen tags, and images equal to the kept images followed by the uploads. |
| ProjectForm.NewReachesCreate | client/src/pages/ProjectForm.jsx:101-107 | A new project reaches `create` with exactly the chosen tags. |
| ProjectForm.AbsentLinkSubmittedAsText | client/src/pages/ProjectForm.jsx:59-99 | Editing a document that has no demo link submits the text "undefined" for it. |
| ProjectForm.ProjectForm.constructor | client/src/pages/ProjectForm.jsx:25-37 | The form starts in new mode, with blank fields and empty lists. |
| ProjectForm.ProjectForm.Mount | client/src/pages/ProjectForm.jsx:52-70 | The form is in edit mode iff the route has an id. A successful fetch loads the fields, tags and images; otherwise nothing changes. |
| ProjectForm.ProjectForm.RemoveExistingImage | client/src/pages/ProjectForm.jsx:73-75 | The kept images lose every copy of the removed one. |
| ProjectForm.ProjectForm.HandleChange | client/src/pages/ProjectForm.jsx:78-81 | Only the named field of the project changes. |
| ProjectForm.ProjectForm.HandleImagesChange | client/src/pages/ProjectForm.jsx:84-86 | The picked files replace the previous pick. |
| ProjectForm.ProjectForm.ToggleTag | client/src/pages/ProjectForm.jsx:178-183 | The tags become `ToggledTags` of the old tags. |
| ProjectForm.ProjectForm.SubmitForm | client/src/pages/ProjectForm.jsx:89-111 | The form is `FormEntries` of the current state, assembled by a loop over the files. New mode POSTs to /api/project/new-project; edit mode PUTs to /api/project/update/:id. |
| ProjectsSection.Normalized | client/src/components/ProjectsSection.jsx:25-29 | Images and tags become [] when they are not arrays and stay as they are otherwise. Every other field is unchanged. |
| ProjectsSection.NormalizedIdempotent | client/src/components/ProjectsSection.jsx:25-29 | Normalising twice is normalising once. |
| ProjectsSection.NormalizedAll | client/src/components/ProjectsSection.jsx:25-29 | The number and order of projects are kept. |
| ProjectsSection.ServerDocumentsUnchanged | client/src/components/ProjectsSection.jsx:25-29 | A document from the server comes through normalisation unchanged. |
| ProjectsSection.CarouselChildren | client/src/components/ProjectsSection.jsx:53-74 | One picture per image, as a list, in order. With no images, the placeholder on its own. |
| ProjectsSection.PlaceholderIffNoImages | client/src/components/ProjectsSection.jsx:55-73 | The placeholder shows iff the project has no images, and otherwise every image shows. |
| ProjectsSection.ImagelessCardAsWritten | client/src/components/ProjectsSection.jsx:55-73 | For a stored project with no images, the as-written carousel cannot render, while the corrected one shows the placeholder. |
| ProjectsSection.LinksFollowUrls | client/src/components/ProjectsSection.jsx:100-111 | A link shows iff its URL is set and non-empty, that is, truthy. |
| ProjectsSection.ProjectsSection.constructor | client/src/components/ProjectsSection.jsx:16 | The list starts empty. |
| ProjectsSection.ProjectsSection.Load | client/src/components/ProjectsSection.jsx:18-37 | A successful fetch shows the normalised list. A failed one leaves the list unchanged. |
| ProjectsSection.FailedFetch | client/src/components/ProjectsSection.jsx:16-34 | A failed fetch leaves the section empty. |
| SkillsSection.FilteredSkills | client/src/components/SkillsSection.jsx:56-57 | Every skill shown is in the table and passes the filter, and every table skill that passes is shown. |
| SkillsSection.AllShowsEverything | client/src/components/SkillsSection.jsx:56-57 | Under "all", the whole table shows in order. |
| SkillsSection.CategoryShowsExactlyItsSkills | client/src/components/SkillsSection.jsx:56-57 | Any other category shows exactly its own skills, as a subsequence of the table. |
| SkillsSection.ButtonlessCategoryOnlyUnderAll | client/src/components/SkillsSection.jsx:48-57 | A category that occurs in the table but has no button shows only under "all". |
| SkillsSection.DatabaseOnlyUnderAll | client/src/components/SkillsSection.jsx:28-48 | Database skills show only under "all". |
| SkillsSection.LevelsArePercentages | client/src/components/SkillsSection.jsx:5-45 | Every level lies between 0 and 100. |
| SkillsSection.LevelText | client/src/components/SkillsSection.jsx:100-107 | The width and label are the level in decimal followed by "%", and the level reads back from them. |
| SkillsSection.SkillsSection.constructor | client/src/components/SkillsSection.jsx:53 | The active category starts as "all". |
| SkillsSection.SkillsSection.Select | client/src/components/SkillsSection.jsx:73 | A click makes that category the active one. |
| SkillsSection.Browse | client/src/components/SkillsSection.jsx:53-73 | On opening, the whole table shows with "all" highlighted. A category then shows exactly its skills. |
| ProjectsPage.WithoutId | client/src/pages/Projects.jsx:63-65 | No remaining row has the deleted id, and every other row remains. |
| ProjectsPage.WithoutIdRemovesOne | client/src/pages/Projects.jsx:63-65 | With distinct ids, exactly one row goes when the id is listed, and none otherwise. |
| ProjectsPage.WithoutIdKeepsOrder | client/src/pages/Projects.jsx:63-65 | The remaining rows keep their order, and their ids stay distinct. |
| ProjectsPage.RowNumbers | client/src/pages/Projects.jsx:115 | Row i is numbered i + 1, so the numbers are 1 to n with no gaps. |
| ProjectsPage.ProjectsPage.constructor | client/src/pages/Projects.jsx:33 | The list starts empty. |
| ProjectsPage.ProjectsPage.Load | client/src/pages/Projects.jsx:36-50 | A successful fetch shows the fetched rows. A failed one changes nothing. |
| ProjectsPage.ProjectsPage.DeleteProject | client/src/pages/Projects.jsx:53-74 | A cancelled confirmation sends nothing and changes nothing. A confirmed delete sends the request; on success the list is filtered by id, and on failure it is unchanged. |
| ProjectsPage.DeleteFirst | client/src/pages/Projects.jsx:53-115 | Deleting the first of two rows leaves the second, numbered 1. |
| Navbar.RenderNavItems | client/src/components/Navbar.jsx:58-68 | Signed in: exactly Home, Projects, Logout. Signed out: exactly Home, Login. |
| Navbar.Navbar.constructor | client/src/components/Navbar.jsx:21-26 | The bar starts neither scrolled nor with the menu open. |
| Navbar.Navbar.HandleScroll | client/src/components/Navbar.jsx:33-36 | `isScrolled` holds iff the scroll is past 10. |
| Navbar.Navbar.HandleLogout | client/src/components/Navbar.jsx:46-55 | Logout removes the stored token, clears the token and goes to "/". |
| Navbar.Navbar.ToggleMenu | client/src/components/Navbar.jsx:121 | The menu flips. |
| Navbar.Navbar.Select | client/src/components/Navbar.jsx:71-95 | Any entry closes the menu. A link navigates to its target and leaves the token alone; the button logs out. |
| Navbar.LogoutFromMenu | client/src/components/Navbar.jsx:46-121 | After logging out from the open menu, the menu is closed and only Home and Login remain. |
| Seqs.Filter | client/src/pages/Projects.jsx:64 | `filter` keeps only elements that pass, and keeps every element that passes. |
| Seqs.FilterIsSubsequence | client/src/pages/Projects.jsx:64 | `filter` keeps the original order. |
| Json.Spread | server/controller/projectController.js:117 | Spreading works on arrays (their items) and strings (their characters). Anything else throws. |
| Json.ParseNatAcceptsNumerals | server/controller/projectController.js:69-70 | A path id is read as a document id iff it is a non-empty run of decimal digits. Anything else is the cast error. |
| Json.ParseNatToText | server/controller/projectController.js:69-70 | A decimal id reads back to itself. |

## Left out

- The database itself (connection, persistence, `_id`/`__v`) is a map from natural numbers. A malformed id stands for the cast error `findById` raises, and every database failure reduces to the generic 500 branch.
- ProjectModel.Validate: a `null` or `undefined` element of a list is refused, although the database would keep it as null.
- ProjectModel.CastText: objects with their own `toString` are refused, and numbers are integers only. The database would cast the former, and `JSON.parse` may give fractions.
- ProjectModel.ApplyUpdate: a `null` title, description or `tags` is refused with 500. `findByIdAndUpdate` would store the null without validation, for example for `tags` sent as the text "null". A `null` or `undefined` element in the tags or kept images is refused as well, although the database would keep it as null.
- ProjectController.CreateWithoutTags: the model refuses the document. The database would most likely keep the `undefined` element as null and store it with 200.
- ProjectController.ProjectStore.Create: a title that does not cast to text (`null`, `undefined`, an array, an object) is taken to match no stored document. The database would match an array as any of its elements and would apply an object's keys as query operators. What it does with an `undefined` filter value is not modelled either.
- The JSON grammar: `JSON.parse` and `JSON.stringify` are parameters, related only by `ProjectForm.RoundTrip` where a property needs it.
- JSON Web Token cryptography and the clock: signing and verification are parameters, related by `Jwt.Sound`, and the time is a parameter.
- Upload mechanics (the storage service, formats, resizing, clean-up after an error): each upload is a given path. More than 10 files, or a file under another field name, gives 500 with nothing stored.
- Express routing details beyond exact segment matching (trailing slashes, case-insensitive paths). An unmatched request is a bare 404.
- The race between the duplicate-title check and the save under concurrent requests: concurrency.
- HTTP calls from the client, toasts, `navigate` after a submit, and `console` output: I/O. Their outcomes enter as parameters (a fetched list or `None`, whether a delete succeeded).
- ProjectForm.ProjectForm.Mount: the fetched record is a stored document, so the `if (response.data.tags)` and `if (response.data.images)` tests always pass and are not modelled separately. The token captured when the module loads is not modelled.
- ProjectForm.Received: a text field sent twice under one name, which the body parser would collect into an array, is not modelled. The form sends each name once.
- ProjectsSection.ProjectsSection.Load: a fetched list is a list of objects. Elements that are not objects, which would make the spread or `p.images` behave differently, are not modelled.
- SkillsSection.Browse: it states which skills show under a category, not how many. Counting through the 30-entry table is too costly for the verifier.
- Styling, icons, the unused `navItems` constant in Navbar.jsx, and the scroll listener's registration and removal.
- The login page (client/src/pages/Login.jsx), the app shell (client/src/App.jsx), the star background, the utility wrapper, and the pages and sections that are markup only. These are not part of this model.

## Findings

| source | as written | input that shows it | evidently intended | confidence | as-written member | corrected member |
|---|---|---|---|---|---|---|
| client/src/components/ProjectsSection.jsx:55-73 | With no images the card passes Carousel a single placeholder element, not an array. Carousel.jsx:34 and 65 then call `images.map` on it, which is not a function, so the render throws. | A project created without files: `create` stores `images: []`. The same happens after an update that removes every image. | The placeholder is shown as the carousel's one slide. | not executed | ProjectsSection.ImagelessCardAsWritten | Carousel.Slides |
