# Portfolio backend: services, handlers and helpers

This project is a verified model of the create/read/update/delete core of a
small Flask portfolio backend. The backend keeps three tables: posts,
projects and technologies.

- **Services** (`PostService`, `ProjectService`, `TechnologyService`):
  - Each service is a class holding its table as a `map<int, Row>`, with methods that create, overwrite, list, fetch and delete rows.
  - Every mutation either commits, or rolls back and re-raises. A rolled-back call leaves the map unchanged.
  - The error the ORM or the database may raise is a parameter: `storeError` for a read or a commit, and `lookupError` for the `query.get(id)` lookup that update and delete run first.
- **Route handlers** (`PostRoutes`, `ProjectRoutes`, `TechnologyRoutes`):
  - Each handler is a pure function. It takes the request method, the form or id, and what the service call returned or raised, and gives the response: a status and a JSON body.
  - The handlers share their guard chain, missing-fields message and 500 response through `Http`.
  - Small client methods run a service method and then the handler, so that whole request scenarios can be stated end to end.
- **Helpers** (`Utilities`):
  - `check_method`: case-insensitive comparison of the request method.
  - `image_url`: the fixed asset-URL prefix.
  - `json`: copies an object's public attributes. It is a method with a loop, proved against the function `Serialized`.
- **Rows and their JSON** (`Models`): one datatype per column list, and what `json` makes of a loaded row.
- **Table scans and id allocation** (`Table`): the database engine is chosen by configuration, so the model fixes two of its choices.
  - A scan, which the services run without an ordering, yields the rows in ascending key order.
  - Keys are positive, and a new row gets the key one past the largest key in use, or 1 in an empty table. This stands for "a fresh id above every id in use".
- **Python notions** (`Runtime`): forms, attribute values, exceptions and their `str()`.

## Model

| member | source | states |
|---|---|---|
| Utilities.CheckMethodIgnoresCase | utilities.py:12-13 | `check_method(a, b)` holds exactly when `a` and `b` have equal length and agree letter by letter up to case, with non-letters equal |
| Utilities.CheckMethodIsEquivalence | utilities.py:12-13 | `check_method` is reflexive, symmetric and transitive |
| Utilities.ImageUrl | utilities.py:16-17 | the URL is the fixed asset base followed by the path; its length is the base length plus the path length |
| Utilities.ImageUrlInjective | utilities.py:16-17 | two paths with the same URL are the same path |
| Utilities.PublicAttributesKeys | utilities.py:24-29 | the loop's dictionary has exactly the attribute names that do not start with '_' |
| Utilities.PublicAttributesValues | utilities.py:24-29 | when the names are distinct, every public attribute is copied with its own value |
| Utilities.Json | utilities.py:20-31 | the loop computes `Serialized(obj)`: `{}` for `None`; otherwise the keys are exactly the public names, no key starts with '_', and every public attribute keeps its value |
| Models.PostJson | models/post.py:3-11 | `json` of a loaded post is its six columns under their names, without the ORM state |
| Models.ProjectJson | models/projects.py:3-11 | `json` of a loaded project is its six columns under their names, without the ORM state |
| Models.TechnologyJson | models/technology.py:3-9 | `json` of a loaded technology is its four columns under their names, without the ORM state |
| Runtime.FirstMissing | services/post_service.py:9-16 | no key fault exactly when the form holds every key read; otherwise the fault names a key that is read and absent |
| Runtime.FirstMissingAt | services/post_service.py:9-16 | the `KeyError` names the first absent key in reading order |
| Table.SortedKeys | services/post_service.py:50 | a scan visits every key once, in strictly ascending order, and nothing else |
| Table.Listing | services/post_service.py:50 | a scan has one row per key, in key order |
| Table.ListingHoldsEveryRow | services/post_service.py:50 | every stored row is in the scan, and only stored rows are |
| Table.ListingByKey | services/post_service.py:50 | when each row records its own key, the scan lists the rows in strictly ascending order of that record |
| Table.QueryAll | services/post_service.py:50-55 | a successful `query.all()` with the falsy check gives `None` exactly for an empty table, otherwise the scan: one entry per row, holding every row |
| Table.QueryAllInKeyOrder | services/post_service.py:50-55 | when rows record their own key, the listed rows come in strictly ascending key order, each the stored row under its key |
| Table.NextId | services/post_service.py:18-19 | over positive keys, a committed new row gets a key of at least 1 above every key in use: one past the largest, or 1 in an empty table |
| Http.MissingFields | routes/post_routes.py:21-22 | the list holds exactly the required fields absent from the form |
| Http.MissingFieldsInOrder | routes/post_routes.py:22 | the missing fields keep their declaration order |
| Http.FirstMissingIsFirstReported | routes/post_routes.py:21-22 | the key the service would fail on is the first field the handler reports missing, and there is none exactly when none is reported |
| Http.SplitJoin | routes/post_routes.py:25 | the ", "-joined list of comma-free names splits back into the same list |
| Http.MissingFieldsMessageNamesThem | routes/post_routes.py:23-26 | the 400 message is the fixed prefix followed by exactly the missing fields, in order |
| Http.FormGuard | routes/post_routes.py:14-26 | a wrong method gives 405 before anything else; then an empty form gives 400; then missing fields give the 400 that names them; the request gets through exactly when all three checks pass |
| Http.InternalError | routes/post_routes.py:34-35 | a caught exception answers 500 with a `message`-keyed body |
| PostService.Overwrite | services/post_service.py:33-37 | an overwritten post is the post built from the form under the old key |
| PostService.CompleteFormFailsOnlyInStore | services/post_service.py:7-44 | with every key present, create and update of an existing row fail only on a store error |
| PostService.UpdateOfMissingRowRaises | services/post_service.py:31-33 | updating a missing row always raises; with `label` present, it raises the `AttributeError` on `None` |
| PostService.PostTable.NewPost | services/post_service.py:7-25 | raises exactly on a missing key or a store error, leaving the table unchanged; otherwise adds exactly one row, built from the form under a fresh id of at least 1 |
| PostService.PostTable.UpdatePostById | services/post_service.py:29-44 | a failing lookup of the row raises the store's error, before any field is read; otherwise raises exactly when `UpdateFault` names a fault; every raise leaves the table unchanged; otherwise the row existed and only it is overwritten, keeping its id |
| PostService.PostTable.UpdatePostByIdChecked | services/post_service.py:29-44 | corrected update: a failing lookup raises the store's error; a missing id answers `false` with nothing changed; an existing id behaves as the update |
| PostService.PostTable.GetAllPosts | services/post_service.py:48-58 | raises the store's error exactly when the read fails; otherwise returns `Table.QueryAll` of the table; nothing changes |
| PostService.PostTable.GetPostById | services/post_service.py:62-72 | raises the store's error exactly when the read fails; otherwise the stored row under the id, or `None` exactly when there is none; nothing changes |
| PostService.PostTable.DeletePostById | services/post_service.py:76-91 | a failing lookup raises the store's error with no change; otherwise `None` and no change for a missing id; otherwise the old row is returned and exactly its key is removed, unless the commit fails, which leaves the table unchanged |
| PostService.CreateThenGet | services/post_service.py:7-72 | a created post reads back as the row built from the form |
| PostService.UpdateThenGet | services/post_service.py:29-72 | after an update the row reads back as built from the form under its id |
| PostService.DeleteTwice | services/post_service.py:76-91 | a second delete of the same id returns `None`; the table loses exactly that key |
| PostRoutes.NewPost | routes/post_routes.py:13-35 | guard chain; 201 with the new id exactly when the form is accepted and the service returns a row; a raise gives the 500 naming it; a falsy result gives the 500 "Failed to create post" |
| PostRoutes.UpdatePostById | routes/post_routes.py:41-61 | guard chain; for an accepted form, 200 exactly when the service returns and the 500 naming the fault when it raises; never 404 |
| PostRoutes.UpdatePostByIdChecked | routes/post_routes.py:56-61 | corrected update handler: for an accepted form, 200 exactly for `true`, the 404 of the fetch handler exactly for `false`, and 500 for a raise |
| PostRoutes.GetAllPosts | routes/post_routes.py:67-79 | 405 for a wrong method; then a raising service call gives the 500 naming it; 404 for `None` or an empty list; otherwise 200 with one JSON record per row, in order |
| PostRoutes.GetPostById | routes/post_routes.py:85-100 | 405; a negative id gives 400 with the id echoed; then a raising service call gives the 500 naming it; 404 when absent; 200 with the row's JSON exactly when found |
| PostRoutes.DeletePostById | routes/post_routes.py:106-121 | 405; a negative id gives 400; a raise gives 500; `None` gives 404; 200 "successfully deleted" exactly when a row came back |
| PostRoutes.AcceptedFormRaisesNoKeyError | routes/post_routes.py:21-29 | the handler's field check covers every key the service reads, so an accepted form never raises `KeyError` |
| PostRoutes.UpdateOfMissingPostIs500 | routes/post_routes.py:56-61 | an accepted update of a missing post answers 500 with the `NoneType` error, while the fetch handler answers 404 |
| PostRoutes.ListAnswersEveryPost | routes/post_routes.py:71-76 | listing a non-empty table answers 200 with one record per stored post, including each post's JSON |
| PostRoutes.UpdateOfUnknownPost | routes/post_routes.py:56-61 | updating an id never created answers 500 with the `NoneType` error |
| PostRoutes.UpdateOfUnknownPostChecked | routes/post_routes.py:56-61 | through the corrected service and handler, the same request answers 404 |
| PostRoutes.CreateThenFetch | routes/post_routes.py:28-100 | a created post answers 201 with an id of at least 1, and fetching that id answers 200 with the form's fields |
| PostRoutes.DeleteThenFetch | routes/post_routes.py:85-121 | after a delete answers 200, fetching answers 404 and deleting again answers 404 |
| PostRoutes.LookupFailureIs500 | services/post_service.py:62-91 | a failing lookup answers the same 500 naming the store's error from the fetch and from the delete, and the table is unchanged |
| ProjectService.Overwrite | services/project_service.py:32-36 | an overwritten project is the project built from the form under the old key |
| ProjectService.CompleteFormFailsOnlyInStore | services/project_service.py:7-42 | with every key present, create and update of an existing row fail only on a store error |
| ProjectService.UpdateOfMissingRowRaises | services/project_service.py:30-32 | updating a missing row always raises; with `label` present, it raises the `AttributeError` on `None` |
| ProjectService.ProjectTable.NewProject | services/project_service.py:7-24 | raises exactly on a missing key or a store error, leaving the table unchanged; otherwise adds exactly one row, built from the form under a fresh id |
| ProjectService.ProjectTable.UpdateProjectById | services/project_service.py:28-42 | a failing lookup of the row raises the store's error, before any field is read; otherwise raises exactly when `UpdateFault` names a fault; every raise leaves the table unchanged; otherwise the row existed and only it is overwritten, keeping its id |
| ProjectService.ProjectTable.UpdateProjectByIdChecked | services/project_service.py:28-42 | corrected update: a failing lookup raises the store's error; a missing id answers `false` with nothing changed; an existing id behaves as the update |
| ProjectService.ProjectTable.GetAllProjects | services/project_service.py:46-56 | raises the store's error exactly when the read fails; otherwise returns `Table.QueryAll` of the table; nothing changes |
| ProjectService.ProjectTable.GetProjectById | services/project_service.py:60-70 | raises the store's error exactly when the read fails; otherwise the stored row under the id, or `None` exactly when there is none; nothing changes |
| ProjectService.ProjectTable.DeleteProjectById | services/project_service.py:74-89 | a failing lookup raises the store's error with no change; otherwise `None` and no change for a missing id; otherwise the old row is returned and exactly its key is removed, unless the commit fails, which leaves the table unchanged |
| ProjectService.CreateThenGet | services/project_service.py:7-70 | a created project reads back as built from the form |
| ProjectService.UpdateThenGet | services/project_service.py:28-70 | after an update the row reads back as built from the form |
| ProjectService.DeleteTwice | services/project_service.py:74-89 | a second delete returns `None`; exactly that key is removed |
| ProjectRoutes.NewProject | routes/project_routes.py:13-35 | guard chain with `error`-keyed 405 and 400; 201 with the id exactly on success; 500 `error='Failed to create project'` for a falsy result; 500 naming a raise |
| ProjectRoutes.UpdateProjectById | routes/project_routes.py:41-61 | guard chain with `error` keys; 200 exactly when the service returns, otherwise 500; never 404 |
| ProjectRoutes.UpdateProjectByIdChecked | routes/project_routes.py:56-61 | corrected update handler: 404 exactly for a missing row |
| ProjectRoutes.GetAllProjects | routes/project_routes.py:67-79 | a `message`-keyed 405; then a raising service call gives the 500 naming it; 404 "Projects were not found" for `None` or empty; otherwise 200 with one JSON record per row, in order |
| ProjectRoutes.GetProjectById | routes/project_routes.py:85-101 | an `error`-keyed 405; `error='Invalid id'` 400 with the id for a negative id; then a raising service call gives the 500 naming it; 404 when absent; 200 with the row's JSON exactly when found |
| ProjectRoutes.DeleteProjectById | routes/project_routes.py:107-122 | a `message`-keyed 405; 400 for a negative id; 404 for `None`; 200 exactly when a row came back; 500 naming a raise |
| ProjectRoutes.AcceptedFormRaisesNoKeyError | routes/project_routes.py:21-29 | an accepted form never makes the service raise `KeyError` |
| ProjectRoutes.UpdateOfMissingProjectIs500 | routes/project_routes.py:56-61 | an accepted update of a missing project answers 500, while the fetch answers 404 |
| ProjectRoutes.ListAnswersEveryProject | routes/project_routes.py:71-76 | listing a non-empty table answers 200 with one record per project, including each project's JSON |
| ProjectRoutes.UpdateOfUnknownProject | routes/project_routes.py:56-61 | updating an id never created answers 500 with the `NoneType` error |
| ProjectRoutes.UpdateOfUnknownProjectChecked | routes/project_routes.py:56-61 | through the corrected service and handler, the same request answers 404 |
| ProjectRoutes.CreateThenFetch | routes/project_routes.py:28-101 | a created project answers 201, and fetching its id answers 200 with the form's fields |
| ProjectRoutes.DeleteThenFetch | routes/project_routes.py:85-122 | after a delete answers 200, fetching and deleting again both answer 404 |
| ProjectRoutes.LookupFailureIs500 | services/project_service.py:60-89 | a failing lookup answers the same 500 naming the store's error from the fetch and from the delete, and the table is unchanged |
| TechnologyService.Overwrite | services/technology_service.py:31-33 | an overwritten technology is the technology built from the form under the old key |
| TechnologyService.CompleteFormFailsOnlyInStore | services/technology_service.py:7-40 | with every key present, create and update of an existing row fail only on a store error |
| TechnologyService.UpdateOfMissingRowRaises | services/technology_service.py:29-31 | updating a missing row always raises; with `label` present, it raises the `AttributeError` on `None` |
| TechnologyService.InGroup | services/technology_service.py:74 | the filter keeps exactly the scanned rows whose group equals the given one |
| TechnologyService.InGroupKeepsOrder | services/technology_service.py:74 | filtering rows in ascending id order keeps them in ascending id order |
| TechnologyService.GroupQuery | services/technology_service.py:72-82 | `None` exactly when no row has the group; otherwise exactly the rows of that group |
| TechnologyService.GroupQueryInIdOrder | services/technology_service.py:72-82 | a non-empty group query is the filtered scan, in strictly ascending id order |
| TechnologyService.TechnologyTable.NewTechnology | services/technology_service.py:7-23 | raises exactly on a missing key or a store error, leaving the table unchanged; otherwise adds exactly one row, built from the form under a fresh id |
| TechnologyService.TechnologyTable.UpdateTechnologyById | services/technology_service.py:27-40 | a failing lookup of the row raises the store's error, before any field is read; otherwise raises exactly when `UpdateFault` names a fault; every raise leaves the table unchanged; otherwise the row existed and only it is overwritten, keeping its id |
| TechnologyService.TechnologyTable.UpdateTechnologyByIdChecked | services/technology_service.py:27-40 | corrected update: a failing lookup raises the store's error; a missing id answers `false` with nothing changed; an existing id behaves as the update |
| TechnologyService.TechnologyTable.GetAllTechnologies | services/technology_service.py:44-54 | raises the store's error exactly when the read fails; otherwise returns `Table.QueryAll` of the table; nothing changes |
| TechnologyService.TechnologyTable.GetTechnologyById | services/technology_service.py:58-68 | raises the store's error exactly when the read fails; otherwise the stored row under the id, or `None` exactly when there is none; nothing changes |
| TechnologyService.TechnologyTable.GetTechnologiesByGroup | services/technology_service.py:72-82 | raises the store's error exactly when the read fails; otherwise returns the group query over the table; nothing changes |
| TechnologyService.TechnologyTable.DeleteTechnologyById | services/technology_service.py:86-101 | a failing lookup raises the store's error with no change; otherwise `None` and no change for a missing id; otherwise the old row is returned and exactly its key is removed, unless the commit fails, which leaves the table unchanged |
| TechnologyService.CreateThenGet | services/technology_service.py:7-68 | a created technology reads back as built from the form |
| TechnologyService.UpdateThenGet | services/technology_service.py:27-68 | after an update the row reads back as built from the form |
| TechnologyService.DeleteTwice | services/technology_service.py:86-101 | a second delete returns `None`; exactly that key is removed |
| TechnologyRoutes.NewTechnology | routes/technology_routes.py:13-35 | guard chain with `message` keys; 201 with the id exactly on success; 500 for a falsy result or a raise |
| TechnologyRoutes.UpdateTechnologyById | routes/technology_routes.py:41-61 | guard chain with `error`-keyed 405 and 400; 200 exactly when the service returns, otherwise 500; never 404 |
| TechnologyRoutes.UpdateTechnologyByIdChecked | routes/technology_routes.py:56-61 | corrected update handler: 404 exactly for a missing row |
| TechnologyRoutes.GetAllTechnologies | routes/technology_routes.py:68-80 | 405; then a raising service call gives the 500 naming it; 404 "Technologies were not found" for `None` or empty; otherwise 200 with one JSON record per row, in order |
| TechnologyRoutes.GetTechnologyById | routes/technology_routes.py:86-102 | 405; 400 with the id for a negative id; then a raising service call gives the 500 naming it; 404 when absent; 200 with the row's JSON exactly when found |
| TechnologyRoutes.DeleteTechnologyById | routes/technology_routes.py:130-145 | 405; 400 for a negative id; 404 for `None`; 200 exactly when a row came back; 500 naming a raise |
| TechnologyRoutes.GetTechnologiesByGroup | routes/technology_routes.py:108-124 | as written: 405 for a wrong method, and otherwise always the framework's 500 page; never 200 |
| TechnologyRoutes.JsonOfList | routes/technology_routes.py:121 | `json` of a list returns `{}` exactly for the empty list and otherwise raises the `AttributeError` for `__dict__` |
| TechnologyRoutes.GroupTryBlock | routes/technology_routes.py:115-124 | the handler's `try` block as written: a raising service call gives the 500 naming it; 404 for `None` or empty; a 500 naming the `__dict__` error for any non-empty group |
| TechnologyRoutes.GroupTryBlockNeverLists | routes/technology_routes.py:115-124 | over the group query, the `try` block never answers 200, and answers 500 exactly when the group has members |
| TechnologyRoutes.GetTechnologiesByGroupFixed | routes/technology_routes.py:108-124 | corrected handler: 405; a raising service call gives the 500 naming it; 404 for no members; otherwise 200 with one JSON record per member, in order |
| TechnologyRoutes.GroupAnswersExactlyTheGroup | services/technology_service.py:72-82 | over the group query, the corrected handler answers 200 exactly when the group has members; it lists every member's record and only members' records |
| TechnologyRoutes.AcceptedFormRaisesNoKeyError | routes/technology_routes.py:21-29 | an accepted form never makes the service raise `KeyError` |
| TechnologyRoutes.UpdateOfMissingTechnologyIs500 | routes/technology_routes.py:56-61 | an accepted update of a missing technology answers 500, while the fetch answers 404 |
| TechnologyRoutes.ListAnswersEveryTechnology | routes/technology_routes.py:72-77 | listing a non-empty table answers 200 with one record per technology, including each technology's JSON |
| TechnologyRoutes.UpdateOfUnknownTechnology | routes/technology_routes.py:56-61 | updating an id never created answers 500 with the `NoneType` error |
| TechnologyRoutes.UpdateOfUnknownTechnologyChecked | routes/technology_routes.py:56-61 | through the corrected service and handler, the same request answers 404 |
| TechnologyRoutes.CreateThenFetch | routes/technology_routes.py:28-102 | a created technology answers 201, and fetching its id answers 200 with the form's fields |
| TechnologyRoutes.DeleteThenFetch | routes/technology_routes.py:86-145 | after a delete answers 200, fetching and deleting again both answer 404 |
| TechnologyRoutes.LookupFailureIs500 | services/technology_service.py:58-101 | a failing lookup answers the same 500 naming the store's error from the fetch and from the delete, and the table is unchanged |

## Left out

- The `mode` keyword passed to the `Post` and `Technology` constructors (services/post_service.py:15, services/technology_service.py:13) names no column of those models. Whether the ORM's constructor rejects it depends on a library that is not part of this model. It is flagged here, not proved: a rejection is one of the failures `storeError` stands for, and the model otherwise ignores `mode` in those two services.
- Utilities.CheckMethod: upper-cases ASCII letters only. Python's `str.upper` also maps other letters, and may change a string's length; request methods are ASCII.
- The 500 "Failed to create" branch: the create services never return a falsy row. The handler functions model the branch (`Returned(None)`), and no service produces it.
- The update handlers' `id` argument is not a parameter of the handler functions; it only reaches the service, whose outcome the function receives.
- Flask's `<int:id>` converter does not match negative ids, so the `id < 0` branches cannot be reached over HTTP. They are modelled with `id: int` as given.
- JWT authentication (`jwt_required`, routes/auth_routes.py, config.py): foreign cryptographic libraries and environment loading. Every request is treated as authorised.
- Framework wiring (app.py, route decorators, Flasgger `swag_from`, CORS, the 404 page): handlers are modelled as functions of already-parsed inputs. The 500 page of an uncaught exception is the body `ServerErrorPage`.
- SQLAlchemy and database-engine internals (sessions, identity map, isolation): a table is a map. The engine is not named in the code. Scan order and id allocation are the model's choices, described above.
- Runtime.ErrorText: the `AttributeError` text is the one CPython 3.12 and earlier give; CPython 3.13 appends " and no __dict__ for setting new attributes". The source pins no interpreter version.
- JSON encoding by `jsonify`: bodies are kept as structured values, not text.
- wsgi.py (a keep-alive thread with network pings), gunicorn.conf.py (deployment settings) and routes/home_routes.py (template rendering) are not part of this model.
- The test scripts (pytest4.py, pytest5.py, test/): they describe routes and messages that the handlers do not have, so the model follows the handlers.

## Findings

| source | as written | input that shows it | evidently intended | confidence | as-written member | corrected member |
|---|---|---|---|---|---|---|
| routes/post_routes.py:56-61 | the update handler calls the service without checking that the row exists; the service's assignment to `None` raises, and the handler answers 500 | `PUT /api/post/update/7` with a complete form on an empty table | 404 "Error. Post with such id does not exist", as the fetch handler answers | high, not executed | PostRoutes.UpdateOfMissingPostIs500 | PostRoutes.UpdatePostByIdChecked |
| routes/project_routes.py:56-61 | same as for posts: a missing project is updated into a 500 | `PUT /api/project/update/7` with a complete form on an empty table | 404 "Project with such id does not exist" | high, not executed | ProjectRoutes.UpdateOfMissingProjectIs500 | ProjectRoutes.UpdateProjectByIdChecked |
| routes/technology_routes.py:56-61 | same as for posts: a missing technology is updated into a 500 | `PUT /api/technology/update/7` with a complete form on an empty table | 404 "Technology with such id does not exist" | high, not executed | TechnologyRoutes.UpdateOfMissingTechnologyIs500 | TechnologyRoutes.UpdateTechnologyByIdChecked |
| routes/technology_routes.py:112-113 | the group handler compares the builtin function `id` with 0; this raises `TypeError` before the `try` block, so every GET ends in the 500 page and the service is never called | `GET /api/technology/list/backend` | list the technologies of the group, or answer 404 when there are none | high, not executed | TechnologyRoutes.GetTechnologiesByGroup | TechnologyRoutes.GetTechnologiesByGroupFixed |
| routes/technology_routes.py:121 | `json` is applied to the list of rows; a list has no `__dict__`, so any non-empty group would answer 500. The defect is hidden behind line 112, which raises first; it shows once that guard is removed | with line 112 removed: a table holding one technology of group "backend", `GET /api/technology/list/backend` | 200 with one JSON record per technology of the group | high, not executed | TechnologyRoutes.GroupTryBlockNeverLists | TechnologyRoutes.GroupAnswersExactlyTheGroup |
