# car-admin core, modelled in Dafny

This project models the logic of the car-admin console, an Angular admin
application for a used-car dealer. The console lists cars, leads, tasks
and admins, runs a nine-stage sales funnel for leads, and exports the car
list as a Yandex YML feed. The model covers the parts of the console that
decide something:

- the sales funnel helpers: task type to stage, next stage, stage index,
  stage names, the tasks shown for a stage, and grouping tasks by stage;
- the lead pipeline widget: its steps, their active/completed/current
  flags, the progress percentage, the title and the next action;
- the tasks page: grouping tasks by lead, sorting and trimming each
  group, the expanded-leads set and its toggle, and the filter mapping;
- the YML export: the active-car filter, XML escaping, the category, fuel,
  drive and gearbox classifiers, and the offer and document layout;
- the API service: query-string building, file URL rewriting, the upload
  file filter and the car update body;
- the task details modal, the working-hours modal, the task card, the
  productivity page, the dashboard, the lead details modal, the leads page,
  the admin details modal, the admins page and the HTTP auth interceptor.

Each source file is one module (`Pipeline`, `LeadPipeline`, `TasksPage`,
`XmlExport`, `AppService`, `TaskDetails`, `WorkingHours`, `TaskCard`,
`Productivity`, `Dashboard`, `LeadDetails`, `LeadsPage`, `AdminDetails`,
`AdminsPage`, `AuthInterceptor`). Three shared modules sit beside them:

- `Js` (`common.dfy`) writes out the JavaScript behaviour the code relies
  on: truthiness, optional values, `filter`, `includes`, `replace` with a
  global pattern, `split`/`trim`/`join`, and number-to-string.
- `StableSort` is a stable insertion sort by a lexicographic integer key.
  It stands for `Array.prototype.sort`, which is stable.
- `Grouping` groups a list into a map by a key. Each key's list keeps the
  input order; the order of the map's keys is not modelled.

Components whose fields change in place are classes with `modifies`
clauses. Their methods state the whole new state. The pure helpers are
functions, and the properties are lemmas about them. An HTTP answer is an
input to the callback method that receives it. `now`, the number
formatting of the locale, and random draws are parameters. Dates are
integer timestamps, and a missing or empty date is `None`.

A helper that is one step of a modelled operation (for example
`TaskCard.Bold`, `TaskCard.WrapEmoji`, `Dashboard.SessionVisible`,
`Productivity.MostCars`) has no row of its own: the row of the member it
serves, and the lemmas about that member, cover it.

## Model

| member | source | states |
|---|---|---|
| AppService.SerializeEmpty | src/app/services/app.service.ts:40-42 | the serialised query is empty exactly when no parameter was appended |
| AppService.Serialize | src/app/services/app.service.ts:40-41 | no contract of its own: the `k=v` pieces joined by `&`; SerializeEmpty and QueryRoundTrip state what the text holds |
| AppService.QueryRoundTrip | src/app/services/app.service.ts:33-41 | for keys and values free of `&` and `=`, splitting the query string on `&` and each piece on `=` gives back the appended pairs, in order |
| AppService.WithQueryEmpty | src/app/services/app.service.ts:40-42 | `?` and the query are added to the URL exactly when some parameter was appended |
| AppService.GetCarsUrl | src/app/services/app.service.ts:29-48 | the URL is `/cars` plus the query of the options; without options there is no query |
| AppService.CarQuerySpec | src/app/services/app.service.ts:35-38 | each option is sent exactly when it is truthy (limit 0 and empty strings dropped), `random` as the text `true`, keys in the order limit, sortBy, sortOrder, random, at most four entries |
| AppService.CarsUrlPlain | src/app/services/app.service.ts:40-42 | the cars URL has no `?` exactly when every option is falsy |
| AppService.CarQuery | src/app/services/app.service.ts:35-38 | no contract of its own: one conditional entry per option; CarQuerySpec states which entries appear and in which order |
| AppService.GetLeadsUrl | src/app/services/app.service.ts:232-245 | the URL is `/leads` plus the query of the filters; without filters there is no query |
| AppService.LeadQuerySpec | src/app/services/app.service.ts:236-239 | each filter is sent exactly when truthy (admin id 0 dropped), in the order status, source, assignedAdminId, search |
| AppService.LeadsUrlPlain | src/app/services/app.service.ts:240-242 | the leads URL has no `?` exactly when every filter is falsy |
| AppService.LeadQuery | src/app/services/app.service.ts:236-239 | no contract of its own: one conditional entry per filter; LeadQuerySpec states which entries appear and in which order |
| AppService.GetAdminTasksUrl | src/app/services/app.service.ts:317-326 | the URL is `/leads/tasks/my` plus the query of status and completed |
| AppService.TaskQuerySpec | src/app/services/app.service.ts:320-321 | `status` is sent first exactly when non-empty; `completed` is sent last whenever given, `false` included, and is absent only when not given |
| AppService.TaskQuery | src/app/services/app.service.ts:320-321 | no contract of its own: `status` when non-empty, then `completed` when given; TaskQuerySpec states it |
| AppService.StripOldOrigin | src/app/services/app.service.ts:182 | the first `http://` or `https://` old-host origin is cut out; the result is never longer than the path (its value is stated by StripFirstOrigin and StripNoOrigin) |
| AppService.WithLeadingSlash | src/app/services/app.service.ts:196 | the result starts with `/`; it is the path itself exactly when the path already starts with `/`, and otherwise `/` followed by the path |
| AppService.StripFirstOrigin | src/app/services/app.service.ts:182 | at the leftmost position where an `http://` or `https://` old-host origin starts, exactly that origin is removed and every other character is kept, wherever the match is |
| AppService.StripNoOrigin | src/app/services/app.service.ts:182 | a path with no such origin anywhere comes back unchanged |
| AppService.FileUrl | src/app/services/app.service.ts:179-198 | no contract of its own: the four branches of `getFileUrl`; the FileUrl lemmas below state each branch |
| AppService.WithLeadingSlashIdempotent | src/app/services/app.service.ts:183 | normalising a normalised path changes nothing, so no path gets two slashes |
| AppService.FileUrlOldHost | src/app/services/app.service.ts:181-184 | a path on the old host (http or https) loses that origin and is served from the API with one leading `/` |
| AppService.FileUrlOriginInside | src/app/services/app.service.ts:181-184 | a path whose first old-host origin starts anywhere (not only at the front) loses exactly that origin and is served from the API with one leading `/` |
| AppService.FileUrlHostWithoutOrigin | src/app/services/app.service.ts:181-184 | a path naming the old host without an `http(s)://` origin in front, even one starting with `http`, is served from the API unchanged apart from a leading `/` |
| AppService.FileUrlAbsolute | src/app/services/app.service.ts:187-188 | a full URL on another host is returned unchanged |
| AppService.FileUrlRelative | src/app/services/app.service.ts:192-197 | a relative path loses one leading `images/` and is served from the API with a leading `/` |
| AppService.FileUrlUnderApi | src/app/services/app.service.ts:179-198 | every old-host or relative path yields a URL under `API_URL/` |
| AppService.NewFiles | src/app/services/app.service.ts:84-86 | the files sent are never more than the files given (order and multiplicity are stated by NewFilesSnoc and NewFilesCount) |
| AppService.NewFilesSpec | src/app/services/app.service.ts:84-87 | a file is sent exactly when it is present and has no truthy id, and never more often than it occurs |
| AppService.NewFilesSnoc | src/app/services/app.service.ts:84-87 | the files are sent in list order: appending a file to the list appends it to what is sent exactly when it is present and has no truthy id |
| AppService.NewFilesCount | src/app/services/app.service.ts:84-87 | a file without a truthy id is sent exactly as many times as it is listed, a file with one never |
| AppService.UploadForm | src/app/services/app.service.ts:82-93 | the form holds one `images` entry per file sent, in order, named after the file |
| AppService.UpdateCar | src/app/services/app.service.ts:74-80 | the caller's object loses its `files` key and nothing else, the body is that object, and the URL is `/cars/car/<id>` |
| XmlExport.Lower | src/app/pages/admin/pages/xml-export/xml-export.page.ts:130 | lower-casing keeps the length and maps each character through the Latin and Cyrillic case table, leaving no capital behind |
| XmlExport.LowerIdempotent | src/app/pages/admin/pages/xml-export/xml-export.page.ts:162 | lower-casing twice is lower-casing once |
| XmlExport.CategoryId | src/app/pages/admin/pages/xml-export/xml-export.page.ts:128-136 | the category is always 1 or 2 |
| XmlExport.CategorySpec | src/app/pages/admin/pages/xml-export/xml-export.page.ts:130-134 | the category is 2 exactly when the lower-cased model contains x, q, cross, sport or suv (the crossover test is subsumed by cross) |
| XmlExport.CategoryOfMissingModel | src/app/pages/admin/pages/xml-export/xml-export.page.ts:130 | a car without a model gets the default category 1 |
| XmlExport.CategoryIgnoresCase | src/app/pages/admin/pages/xml-export/xml-export.page.ts:130 | the category does not depend on letter case |
| XmlExport.FuelType | src/app/pages/admin/pages/xml-export/xml-export.page.ts:161-167 | the fuel is one of diesel, hybrid, electric, petrol |
| XmlExport.FuelTypeOrder | src/app/pages/admin/pages/xml-export/xml-export.page.ts:162-166 | the whole keyword table: a diesel mention wins, then hybrid, then electric; a fuel mentioning none of the keywords is petrol |
| XmlExport.FuelTypeIgnoresCase | src/app/pages/admin/pages/xml-export/xml-export.page.ts:162 | the fuel does not depend on letter case |
| XmlExport.DriveType | src/app/pages/admin/pages/xml-export/xml-export.page.ts:169-174 | the drive is one of all-wheel, rear, front |
| XmlExport.DriveTypeOrder | src/app/pages/admin/pages/xml-export/xml-export.page.ts:170-173 | the whole keyword table: an all-wheel mention wins, then rear; a drive mentioning neither is front |
| XmlExport.GearboxType | src/app/pages/admin/pages/xml-export/xml-export.page.ts:176-182 | the gearbox is one of automatic, manual, CVT |
| XmlExport.GearboxTypeOrder | src/app/pages/admin/pages/xml-export/xml-export.page.ts:177-181 | the whole keyword table: automatic wins, then manual, then CVT, so CVT only when neither automatic nor manual is mentioned; no keyword at all reads as automatic |
| XmlExport.EscapeIsCharwise | src/app/pages/admin/pages/xml-export/xml-export.page.ts:184-192 | the five chained global replacements, ampersand first, equal replacing every character by its own escape |
| XmlExport.EscapeXml | src/app/pages/admin/pages/xml-export/xml-export.page.ts:184-192 | no contract of its own: the five chained global replacements; EscapeIsCharwise, EscapedIsClean and UnescapeEscape state what they do |
| XmlExport.EscapedIsClean | src/app/pages/admin/pages/xml-export/xml-export.page.ts:184-192 | escaped text contains no `<`, `>`, `"` or `'`, and every `&` in it starts one of the five entities |
| XmlExport.UnescapeEscape | src/app/pages/admin/pages/xml-export/xml-export.page.ts:184-192 | decoding the five entities gives back exactly the original text, so escaping loses nothing |
| XmlExport.EscapePlainText | src/app/pages/admin/pages/xml-export/xml-export.page.ts:185-191 | text without any of the five special characters is left unchanged, the empty text included |
| XmlExport.ActiveCarsSpec | src/app/pages/admin/pages/xml-export/xml-export.page.ts:60 | a car is exported exactly when it is neither sold nor deleted, and the exported cars keep their order |
| XmlExport.ActiveCars | src/app/pages/admin/pages/xml-export/xml-export.page.ts:60 | no contract of its own: the filter on unsold, undeleted cars; ActiveCarsSpec states it |
| XmlExport.OffersAppend | src/app/pages/admin/pages/xml-export/xml-export.page.ts:97-118 | the offers of two lists of cars are the offers of the first followed by those of the second |
| XmlExport.OfferTextFields | src/app/pages/admin/pages/xml-export/xml-export.page.ts:109-111 | vendor, vendor code and name cannot open markup, and each decodes back to the brand, the VIN and the generated name |
| XmlExport.FieldOption | src/app/pages/admin/pages/xml-export/xml-export.page.ts:130 | `null` and a missing text both read as missing; a present text is kept as it is |
| XmlExport.CarName | src/app/pages/admin/pages/xml-export/xml-export.page.ts:138-144 | no contract of its own: the name text, with the year left out when 0, `null` and missing brand or model printed as `null` and `undefined`, and the price in the locale format; OfferTextFields states how it reaches the offer |
| XmlExport.Description | src/app/pages/admin/pages/xml-export/xml-export.page.ts:146-159 | no contract of its own: the description text, with power and engine volume printed as numbers only when positive and the mileage in the locale format; OfferDescription states where it goes |
| XmlExport.OfferXml | src/app/pages/admin/pages/xml-export/xml-export.page.ts:97-118 | no contract of its own: the offer template filled for one car; OfferLayout and the per-slot lemmas state its pieces |
| XmlExport.Document | src/app/pages/admin/pages/xml-export/xml-export.page.ts:72-126 | no contract of its own: header with the date, the offers, footer; OffersAppend and XmlExportPage.GenerateXml state its use |
| XmlExport.XmlExportPage.constructor | src/app/pages/admin/pages/xml-export/xml-export.page.ts:40-44 | no cars, not loading, no error, empty XML, XML hidden |
| XmlExport.XmlExportPage.LoadCars | src/app/pages/admin/pages/xml-export/xml-export.page.ts:53-56 | loading is set and the error cleared; nothing else changes |
| XmlExport.XmlExportPage.OnCarsLoaded | src/app/pages/admin/pages/xml-export/xml-export.page.ts:58-63 | the cars kept are the active ones of the response, the XML is the document over them, loading ends |
| XmlExport.XmlExportPage.OnLoadError | src/app/pages/admin/pages/xml-export/xml-export.page.ts:64-68 | the fixed error message is shown and loading ends; cars and XML are kept |
| XmlExport.XmlExportPage.GenerateXml | src/app/pages/admin/pages/xml-export/xml-export.page.ts:72-126 | the XML is the header with the date, one offer per car in order, and the footer |
| XmlExport.XmlExportPage.ToggleXmlView | src/app/pages/admin/pages/xml-export/xml-export.page.ts:213-215 | the XML view flips and nothing else changes |
| XmlExport.RenderPieces | src/app/pages/admin/pages/xml-export/xml-export.page.ts:97-118 | filling the template left to right is concatenating its filled-in pieces |
| XmlExport.OfferLayout | src/app/pages/admin/pages/xml-export/xml-export.page.ts:97-118 | an offer is exactly its 19 pieces, in template order |
| XmlExport.OfferIdAndPrice | src/app/pages/admin/pages/xml-export/xml-export.page.ts:102-107 | the car's id fills the offer id, the url and the picture; its price (0 when it has none), printed as a JavaScript number, fills the price |
| XmlExport.OfferDescription | src/app/pages/admin/pages/xml-export/xml-export.page.ts:111-117 | the generated description follows the CDATA opening unescaped, and the fixed closing text ends the offer |
| XmlExport.OfferCategory | src/app/pages/admin/pages/xml-export/xml-export.page.ts:98-106 | the category slot holds the car's category id |
| XmlExport.OfferVendor | src/app/pages/admin/pages/xml-export/xml-export.page.ts:108-109 | the vendor and vendor-code slots hold the escaped brand and VIN |
| XmlExport.OfferNameField | src/app/pages/admin/pages/xml-export/xml-export.page.ts:99-110 | the name slot holds the escaped generated name |
| WorkingHours.Admin.constructor | src/app/pages/admin/pages/layout/blocks/working-hours.modal.ts:24 | the admin the modal is opened for, with its id and saved days |
| WorkingHours.DefaultsSpec | src/app/pages/admin/pages/layout/blocks/working-hours.modal.ts:26-34 | the starting week has seven days numbered 0 to 6, Monday to Friday on, the weekend off, all 09:00 to 18:00 |
| WorkingHours.FindDay | src/app/pages/admin/pages/layout/blocks/working-hours.modal.ts:52 | a found entry is in the list and has the day asked for |
| WorkingHours.FindDaySpec | src/app/pages/admin/pages/layout/blocks/working-hours.modal.ts:52 | nothing is found exactly when no entry has that day; otherwise the first entry with that day is found |
| WorkingHours.FindDayIsFirstWithKey | src/app/pages/admin/pages/layout/blocks/working-hours.modal.ts:50-52 | the lookup is the first of the entries whose sort key is that day |
| WorkingHours.FindDayAfterSort | src/app/pages/admin/pages/layout/blocks/working-hours.modal.ts:50-52 | looking a day up in the sorted copy finds the same entry as in the saved list, because the sort is stable |
| WorkingHours.Overlay | src/app/pages/admin/pages/layout/blocks/working-hours.modal.ts:53 | a saved entry's present fields replace the default's, absent ones keep the default's |
| WorkingHours.MergeDay | src/app/pages/admin/pages/layout/blocks/working-hours.modal.ts:52-53 | merging never changes which day an entry is for |
| WorkingHours.MergeAll | src/app/pages/admin/pages/layout/blocks/working-hours.modal.ts:51-54 | the merge maps each day separately and keeps the number of days |
| WorkingHours.Merged | src/app/pages/admin/pages/layout/blocks/working-hours.modal.ts:48-55 | a missing or empty saved list leaves the days as they are |
| WorkingHours.MergedSpec | src/app/pages/admin/pages/layout/blocks/working-hours.modal.ts:48-55 | the merged week has seven days 0 to 6 in order; a day with a saved entry takes the first such entry's fields, the others keep their defaults |
| WorkingHours.MergeSorted | src/app/pages/admin/pages/layout/blocks/working-hours.modal.ts:50-53 | merging from the sorted copy is merging from the saved list in its own order |
| WorkingHours.OutOfWeekIgnored | src/app/pages/admin/pages/layout/blocks/working-hours.modal.ts:52 | entries for days outside 0 to 6 never affect the merge |
| WorkingHours.PayloadOf | src/app/pages/admin/pages/layout/blocks/working-hours.modal.ts:86-92 | one entry per form group, in order, with its day, times and switch |
| WorkingHours.FormsThenPayload | src/app/pages/admin/pages/layout/blocks/working-hours.modal.ts:59-61 | saving the forms built from a schedule sends that schedule back, field for field, without the day names |
| WorkingHours.BuildForms | src/app/pages/admin/pages/layout/blocks/working-hours.modal.ts:58-61 | one form group per day, in order, holding that day's number, switch and times |
| WorkingHours.CreateDayForm | src/app/pages/admin/pages/layout/blocks/working-hours.modal.ts:64-71 | no contract of its own: the four form fields copied from the day; BuildForms states it |
| WorkingHours.FormValid | src/app/pages/admin/pages/layout/blocks/working-hours.modal.ts:68-69 | no contract of its own: both times of every day are non-empty; WorkingHoursModal.Save states its use |
| WorkingHours.WorkingHoursModal.constructor | src/app/pages/admin/pages/layout/blocks/working-hours.modal.ts:24-44 | the defaults and an empty form array |
| WorkingHours.WorkingHoursModal.NgOnInit | src/app/pages/admin/pages/layout/blocks/working-hours.modal.ts:46-62 | the days become the merge of the saved entries over the defaults and one form group per day is appended; the admin's saved list is not changed |
| WorkingHours.WorkingHoursModal.Save | src/app/pages/admin/pages/layout/blocks/working-hours.modal.ts:81-94 | an invalid form (an empty time) sends nothing, a missing admin fails, otherwise the admin's id with every group's day, times and switch in order |
| WorkingHours.WorkingHoursModal.Close | src/app/pages/admin/pages/layout/blocks/working-hours.modal.ts:97-99 | the modal hides and nothing else changes |
| TaskDetails.Strs | src/app/pages/admin/pages/tasks/blocks/task-details.modal.ts:54-59 | a list of strings as a JSON array of the same strings |
| TaskDetails.JoinStrings | src/app/pages/admin/pages/tasks/blocks/task-details.modal.ts:55 | joining a JSON array of strings is joining the strings |
| TaskDetails.ToEditText | src/app/pages/admin/pages/tasks/blocks/task-details.modal.ts:54-59 | a truthy array becomes text and every other value stays as it is |
| TaskDetails.TrimAll | src/app/pages/admin/pages/tasks/blocks/task-details.modal.ts:72 | each piece is trimmed, the number of pieces kept |
| TaskDetails.FromEditText | src/app/pages/admin/pages/tasks/blocks/task-details.modal.ts:71-76 | non-empty text becomes an array and every other value stays as it is |
| TaskDetails.ConvertKey | src/app/pages/admin/pages/tasks/blocks/task-details.modal.ts:54-59 | converting one key keeps all keys and every other value; an absent key stays absent |
| TaskDetails.Payload | src/app/pages/admin/pages/tasks/blocks/task-details.modal.ts:65-80 | the request carries the form's status and converted data; `completed` is present exactly when the status is completed, and then true |
| TaskDetails.InitialStatus | src/app/pages/admin/pages/tasks/blocks/task-details.modal.ts:49 | the form starts with the task's status, or pending when it is empty |
| TaskDetails.ConversionsKeepOtherKeys | src/app/pages/admin/pages/tasks/blocks/task-details.modal.ts:54-59 | both conversions keep every key and change only the two list values |
| TaskDetails.EditForm | src/app/pages/admin/pages/tasks/blocks/task-details.modal.ts:54-59 | no contract of its own: both lists shown as text; ConversionsKeepOtherKeys and OpenThenSave state it |
| TaskDetails.SaveData | src/app/pages/admin/pages/tasks/blocks/task-details.modal.ts:71-76 | no contract of its own: both texts turned back into lists; ConversionsKeepOtherKeys and OpenThenSave state it |
| TaskDetails.EmptyListSentAsEmptyText | src/app/pages/admin/pages/tasks/blocks/task-details.modal.ts:55 | an empty list is shown as empty text, which is falsy and so sent back as empty text, not as a list |
| TaskDetails.TrimIdempotent | src/app/pages/admin/pages/tasks/blocks/task-details.modal.ts:72 | trimming twice is trimming once |
| TaskDetails.SplitPiecesLackSeparator | src/app/pages/admin/pages/tasks/blocks/task-details.modal.ts:72 | no piece of a split contains the separator |
| TaskDetails.TrimKeepsOut | src/app/pages/admin/pages/tasks/blocks/task-details.modal.ts:72 | trimming adds no character |
| TaskDetails.PiecesSpec | src/app/pages/admin/pages/tasks/blocks/task-details.modal.ts:72 | every piece kept is non-empty, trimmed and free of commas |
| TaskDetails.Pieces | src/app/pages/admin/pages/tasks/blocks/task-details.modal.ts:72 | no contract of its own: split on commas, trim, drop empty pieces; PiecesSpec and PiecesOfJoin state it |
| TaskDetails.EditTextOfList | src/app/pages/admin/pages/tasks/blocks/task-details.modal.ts:55 | the text shown for a list of strings is the list joined with `, ` |
| TaskDetails.PiecesOfJoin | src/app/pages/admin/pages/tasks/blocks/task-details.modal.ts:55-72 | splitting, trimming and filtering the `, `-joined text gives back a list of non-empty, trimmed, comma-free strings |
| TaskDetails.ListRoundTrip | src/app/pages/admin/pages/tasks/blocks/task-details.modal.ts:54-76 | such a list is shown as text and saved back identical |
| TaskDetails.Texts | src/app/pages/admin/pages/tasks/blocks/task-details.modal.ts:54 | the strings of an array of strings, in order |
| TaskDetails.EditableRoundTrip | src/app/pages/admin/pages/tasks/blocks/task-details.modal.ts:54-76 | a non-empty array of such strings survives opening and saving unchanged |
| TaskDetails.ConvertKeyInverse | src/app/pages/admin/pages/tasks/blocks/task-details.modal.ts:54-76 | converting a key and converting it back restores the object when the two conversions undo each other |
| TaskDetails.ConvertKeysCommute | src/app/pages/admin/pages/tasks/blocks/task-details.modal.ts:54-59 | conversions of two different keys may be done in either order |
| TaskDetails.OpenThenSave | src/app/pages/admin/pages/tasks/blocks/task-details.modal.ts:47-76 | opening the form and saving it unchanged sends the task data back as it was, when each list is absent or a non-empty list of such strings |
| TaskDetails.TaskDetailsModal.constructor | src/app/pages/admin/pages/tasks/blocks/task-details.modal.ts:43-45 | an empty form, not saving, not hidden |
| TaskDetails.TaskDetailsModal.NgOnInit | src/app/pages/admin/pages/tasks/blocks/task-details.modal.ts:47-60 | the form gets the initial status and a fresh copy of the task data with both lists as text; the task's own data is untouched |
| TaskDetails.TaskDetailsModal.Save | src/app/pages/admin/pages/tasks/blocks/task-details.modal.ts:62-82 | saving is raised and the request is the payload of the form, which keeps its text |
| TaskDetails.TaskDetailsModal.OnSaved | src/app/pages/admin/pages/tasks/blocks/task-details.modal.ts:85-87 | the modal hides and nothing else changes |
| TaskDetails.TaskDetailsModal.OnSaveError | src/app/pages/admin/pages/tasks/blocks/task-details.modal.ts:88-92 | saving is lowered so the user can retry; nothing else changes |
| TaskDetails.TaskDetailsModal.Cancel | src/app/pages/admin/pages/tasks/blocks/task-details.modal.ts:96-98 | the modal hides without a request |
| TasksPage.CompareIsKeyOrder | src/app/pages/admin/pages/tasks/tasks.page.ts:86-98 | the comparator is negative exactly when the sort key is smaller and zero exactly when the keys are equal: open before completed, then dated by ascending due time, dated before undated |
| TasksPage.Compare | src/app/pages/admin/pages/tasks/tasks.page.ts:86-98 | no contract of its own: the comparator handed to `sort`; CompareIsKeyOrder ties it to SortKey |
| TasksPage.SortKey | src/app/pages/admin/pages/tasks/tasks.page.ts:86-98 | no contract of its own: completion, then no-due-date, then due time; CompareIsKeyOrder states it orders as the comparator does |
| TasksPage.SortedTaskOrder | src/app/pages/admin/pages/tasks/tasks.page.ts:86-98 | in a sorted list no completed task precedes an open one; with equal completion undated tasks follow dated ones and due times ascend |
| TasksPage.OpenPrefix | src/app/pages/admin/pages/tasks/tasks.page.ts:86-101 | in a sorted list the open tasks form a prefix |
| TasksPage.PreviewShape | src/app/pages/admin/pages/tasks/tasks.page.ts:101-110 | a non-empty list previews to one to three of its own tasks: the first at most three open ones when there are any, all open, else the last at most two |
| TasksPage.Preview | src/app/pages/admin/pages/tasks/tasks.page.ts:101-110 | no contract of its own: the first three open tasks, or the last two when none is open; PreviewShape states it |
| TasksPage.PreviewHasOpen | src/app/pages/admin/pages/tasks/tasks.page.ts:105-118 | the preview has an open task exactly when the list has one |
| TasksPage.PreviewOfSorted | src/app/pages/admin/pages/tasks/tasks.page.ts:101-110 | on a sorted list the preview is the first min(3, k) tasks when k are open, else the last min(2, n) |
| TasksPage.SortedGroupMembers | src/app/pages/admin/pages/tasks/tasks.page.ts:75-98 | a lead's sorted list holds exactly the input tasks of that lead |
| TasksPage.LeadPreviewShape | src/app/pages/admin/pages/tasks/tasks.page.ts:75-110 | each lead of the input shows one to three tasks, all of that lead and from the input |
| TasksPage.GroupedTasksShape | src/app/pages/admin/pages/tasks/tasks.page.ts:71-113 | the grouped map's keys are exactly the distinct lead ids of the input; each list has one to three tasks of its own lead, all from the input |
| TasksPage.GroupedTasks | src/app/pages/admin/pages/tasks/tasks.page.ts:71-113 | no contract of its own: the grouped, sorted and previewed map; GroupedTasksShape states its keys and lists |
| TasksPage.LeadPreviewHasOpen | src/app/pages/admin/pages/tasks/tasks.page.ts:101-118 | a lead's shown list has open work exactly when the lead has an open task in the input |
| TasksPage.ExpandedAreOpenLeads | src/app/pages/admin/pages/tasks/tasks.page.ts:116-122 | the expanded leads after grouping are exactly the leads with an open task |
| TasksPage.SortedGroupOpenCount | src/app/pages/admin/pages/tasks/tasks.page.ts:75-98 | grouping and sorting keep the number of a lead's open tasks |
| TasksPage.PreviewOpenCount | src/app/pages/admin/pages/tasks/tasks.page.ts:101-110 | the preview shows as many open tasks as the list has, at most three |
| TasksPage.LeadTasksAfterGrouping | src/app/pages/admin/pages/tasks/tasks.page.ts:139-141 | after grouping a lead of the input gets its preview and an unknown lead gets the empty list |
| TasksPage.OpenShownCount | src/app/pages/admin/pages/tasks/tasks.page.ts:149-151 | a lead's badge shows its number of open tasks, capped at three |
| TasksPage.ToggleSpec | src/app/pages/admin/pages/tasks/tasks.page.ts:125-133 | toggling flips the one lead, keeps every other lead, and toggling twice restores the set |
| TasksPage.Toggle | src/app/pages/admin/pages/tasks/tasks.page.ts:125-133 | the toggled lead is in the result exactly when it was not in the set, and every other lead is in it exactly when it was before |
| TasksPage.StatusParam | src/app/pages/admin/pages/tasks/tasks.page.ts:54 | no status is sent exactly for the `all` filter; otherwise the filter itself |
| TasksPage.BucketByLead | src/app/pages/admin/pages/tasks/tasks.page.ts:75-80 | the first pass builds, per lead, that lead's tasks in input order |
| TasksPage.PreviewOf | src/app/pages/admin/pages/tasks/tasks.page.ts:86-110 | one lead's list sorted in place and replaced by its preview |
| TasksPage.PreviewBuckets | src/app/pages/admin/pages/tasks/tasks.page.ts:85-111 | every lead's list sorted and replaced by its preview, keys unchanged |
| TasksPage.ExpandedLeads | src/app/pages/admin/pages/tasks/tasks.page.ts:116-121 | the leads whose shown list has an open task |
| TasksPage.TasksPage.constructor | src/app/pages/admin/pages/tasks/tasks.page.ts:41-46 | no tasks, empty map, not loading, filter `all`, no completed filter, nothing expanded |
| TasksPage.TasksPage.LoadTasks | src/app/pages/admin/pages/tasks/tasks.page.ts:52-58 | loading is raised; the request gets no status for `all` and the completed filter as it stands, absent when null |
| TasksPage.TasksPage.OnTasksLoaded | src/app/pages/admin/pages/tasks/tasks.page.ts:59-67 | a response is stored, grouped and its open leads expanded; an error keeps everything; loading ends either way |
| TasksPage.TasksPage.GroupTasksByLead | src/app/pages/admin/pages/tasks/tasks.page.ts:71-123 | the map becomes the grouped previews and the expanded set the leads with open work |
| TasksPage.TasksPage.ToggleLead | src/app/pages/admin/pages/tasks/tasks.page.ts:125-133 | the expanded set becomes the toggled set and nothing else changes |
| TasksPage.LoadedPageCounts | src/app/pages/admin/pages/tasks/tasks.page.ts:135-151 | after a load a lead's badge is its open-task count capped at three, and it is expanded exactly when it has an open task |
| TasksPage.TasksPage.IsLeadExpanded | src/app/pages/admin/pages/tasks/tasks.page.ts:135-137 | no contract of its own: membership in the expanded set; LoadedPageCounts states its value after a load |
| TasksPage.TasksPage.GetLeadTasks | src/app/pages/admin/pages/tasks/tasks.page.ts:139-141 | no contract of its own: the shown list, empty for an unknown lead; LeadTasksAfterGrouping states it |
| TasksPage.TasksPage.GetUncompletedCount | src/app/pages/admin/pages/tasks/tasks.page.ts:149-151 | no contract of its own: the open tasks among the shown ones; LoadedPageCounts states its value after a load |
| TasksPage.OpenLeadsHaveOpenTasks | src/app/pages/admin/pages/tasks/tasks.page.ts:116-122 | a lead is expanded exactly when it has at least one open task |
| TaskCard.HrLacks | src/app/pages/admin/pages/leads/blocks/task-card.component.ts:290 | the `<hr>` element holds no line terminator and no `━`, and ends in `>` |
| TaskCard.CloseAt | src/app/pages/admin/pages/leads/blocks/task-card.component.ts:292 | the lazy match that starts at a position closes at or after it, inside the text |
| TaskCard.WrapEmojiKeepsAbsent | src/app/pages/admin/pages/leads/blocks/task-card.component.ts:291 | the emoji rule adds no character outside its tags |
| TaskCard.BoldKeepsAbsent | src/app/pages/admin/pages/leads/blocks/task-card.component.ts:292 | the bold rule adds no character outside its tags |
| TaskCard.NoNewline | src/app/pages/admin/pages/leads/blocks/task-card.component.ts:289 | the formatted description holds no newline: every one became `<br>` |
| TaskCard.FormatDescription | src/app/pages/admin/pages/leads/blocks/task-card.component.ts:286-294 | no contract of its own: the four replacements in order; NoNewline, NoRuleLeft and the other TaskCard lemmas state their effect |
| TaskCard.ConsNoRun | src/app/pages/admin/pages/leads/blocks/task-card.component.ts:290 | one character before a text without three `━` in a row keeps it so, unless it starts a new run |
| TaskCard.ConcatNoRun | src/app/pages/admin/pages/leads/blocks/task-card.component.ts:290 | two texts without a run, the first not ending in `━`, joined have no run |
| TaskCard.NoBarNoRun | src/app/pages/admin/pages/leads/blocks/task-card.component.ts:290 | text without `━` has no run |
| TaskCard.SuffixNoRun | src/app/pages/admin/pages/leads/blocks/task-card.component.ts:290 | a suffix of a text without a run has none |
| TaskCard.PrefixNoRun | src/app/pages/admin/pages/leads/blocks/task-card.component.ts:290 | a prefix of a text without a run has none |
| TaskCard.StrongNoRun | src/app/pages/admin/pages/leads/blocks/task-card.component.ts:291-292 | wrapping in `<strong>` creates no run |
| TaskCard.ConcatLastNoBar | src/app/pages/admin/pages/leads/blocks/task-card.component.ts:290 | two texts without a run, the second not starting with `━`, joined have no run |
| TaskCard.RuleAt | src/app/pages/admin/pages/leads/blocks/task-card.component.ts:290 | the rule marker stands at the front exactly when the first three characters are `━` |
| TaskCard.ReplaceRuleNoRun | src/app/pages/admin/pages/leads/blocks/task-card.component.ts:290 | after every `━━━` is replaced by `<hr>`, no three `━` in a row are left |
| TaskCard.WrapEmojiNoRun | src/app/pages/admin/pages/leads/blocks/task-card.component.ts:291 | the emoji rule creates no run |
| TaskCard.BoldNoRun | src/app/pages/admin/pages/leads/blocks/task-card.component.ts:292 | the bold rule creates no run |
| TaskCard.NoRunNoRule | src/app/pages/admin/pages/leads/blocks/task-card.component.ts:290 | text without a run does not contain the rule marker |
| TaskCard.NoRuleLeft | src/app/pages/admin/pages/leads/blocks/task-card.component.ts:288-293 | the formatted description contains no `━━━`: every one became the `<hr>` element and later steps create none |
| TaskCard.WrapEmojiOneLine | src/app/pages/admin/pages/leads/blocks/task-card.component.ts:291 | on text without line terminators the line-start emoji rule acts only at the very start |
| TaskCard.RewritesKeepTerminatorsOut | src/app/pages/admin/pages/leads/blocks/task-card.component.ts:289-290 | the first two rewrites add no line terminator |
| TaskCard.RewrittenOneLine | src/app/pages/admin/pages/leads/blocks/task-card.component.ts:289-290 | after the first two rewrites a description without other line terminators is one line |
| TaskCard.EmojiOnlyAtStart | src/app/pages/admin/pages/leads/blocks/task-card.component.ts:289-291 | for a description without `\r`, U+2028 or U+2029 (the other line terminators the `m` flag honours), since its newlines are already `<br>`, a listed emoji is wrapped in `<strong>` only at the very start of the text |
| TaskCard.BoldPlain | src/app/pages/admin/pages/leads/blocks/task-card.component.ts:292 | text without `*` passes the bold rule unchanged in front of whatever follows |
| TaskCard.BoldCons | src/app/pages/admin/pages/leads/blocks/task-card.component.ts:292 | a character other than `*` is copied by the bold rule |
| TaskCard.CloseAtPlain | src/app/pages/admin/pages/leads/blocks/task-card.component.ts:292 | the lazy match closes at the first `**` when no `*` or line terminator comes before it |
| TaskCard.BoldPair | src/app/pages/admin/pages/leads/blocks/task-card.component.ts:292 | `**x**` with x free of `*` and line terminators becomes `<strong>x</strong>` |
| TaskCard.BoldNone | src/app/pages/admin/pages/leads/blocks/task-card.component.ts:292 | text without `**` is left alone by the bold rule |
| TaskCard.PlainTextUnchanged | src/app/pages/admin/pages/leads/blocks/task-card.component.ts:286-293 | a one-line description with no rule marker, no `**` and no leading emoji is returned unchanged |
| TaskCard.CharNotContained | src/app/pages/admin/pages/leads/blocks/task-card.component.ts:290 | a text that lacks a character does not contain it as a pattern |
| TaskCard.TaskCardComponent.constructor | src/app/pages/admin/pages/leads/blocks/task-card.component.ts:252-256 | the card's task, description hidden |
| TaskCard.TaskCardComponent.ShowDescription | src/app/pages/admin/pages/leads/blocks/task-card.component.ts:266-268 | `showDescription` is always the visibility flag |
| TaskCard.TaskCardComponent.IsDescriptionVisible | src/app/pages/admin/pages/leads/blocks/task-card.component.ts:258-260 | no contract of its own: reads the visibility flag |
| TaskCard.TaskCardComponent.ToggleDescription | src/app/pages/admin/pages/leads/blocks/task-card.component.ts:262-264 | the flag flips, so two toggles restore it; the task is unchanged |
| TaskCard.TaskCardComponent.IsOverdue | src/app/pages/admin/pages/leads/blocks/task-card.component.ts:270-273 | never overdue without a due date or when completed; otherwise overdue exactly when due before now |
| Productivity.StatsOf | src/app/pages/admin/pages/productivity/productivity.page.ts:254-262 | one record per admin in the same order, id and email copied, name falling back to the email when missing or empty, the drawn numbers and the time stamped |
| Productivity.DisplayName | src/app/pages/admin/pages/productivity/productivity.page.ts:256 | no contract of its own: the name when non-empty, else the email; StatsOf states its use |
| Productivity.Top | src/app/pages/admin/pages/productivity/productivity.page.ts:265-275 | a top list has min(n, length) entries |
| Productivity.TopSelects | src/app/pages/admin/pages/productivity/productivity.page.ts:265-275 | a top list is drawn from the list (a sub-multiset), is in key order, and every item left out ranks no better than every item taken |
| Productivity.PrefixRest | src/app/pages/admin/pages/productivity/productivity.page.ts:267 | a prefix and the rest make up the whole multiset |
| Productivity.SortedBeforeRest | src/app/pages/admin/pages/productivity/productivity.page.ts:265-267 | in a sorted list every item before a cut ranks no worse than every item after it |
| Productivity.TopTies | src/app/pages/admin/pages/productivity/productivity.page.ts:265-275 | items with equal keys keep their relative order from the list |
| Productivity.SingleKeyLe | src/app/pages/admin/pages/productivity/productivity.page.ts:266 | a one-number key compares like the number |
| Productivity.MostCarsFirst | src/app/pages/admin/pages/productivity/productivity.page.ts:265-267 | the productive list is drawn from the stats, most cars first, and no admin left out has more cars than one taken |
| Productivity.MostCarsOrder | src/app/pages/admin/pages/productivity/productivity.page.ts:266 | the descending key puts more cars first |
| Productivity.FewestCarsFirst | src/app/pages/admin/pages/productivity/productivity.page.ts:269-271 | the unproductive list is drawn from the stats, fewest cars first, and no admin left out has fewer cars than one taken |
| Productivity.FewestCarsOrder | src/app/pages/admin/pages/productivity/productivity.page.ts:270 | the ascending key puts fewer cars first |
| Productivity.MostErrorsFirst | src/app/pages/admin/pages/productivity/productivity.page.ts:273-275 | the problematic list is drawn from the stats, most errors first, and no admin left out has more errors than one taken |
| Productivity.MostErrorsOrder | src/app/pages/admin/pages/productivity/productivity.page.ts:274 | the descending key puts more errors first |
| Productivity.LastSevenDays | src/app/pages/admin/pages/productivity/productivity.page.ts:313-317 | seven labels, from six days before today to today |
| Productivity.Band | src/app/pages/admin/pages/productivity/productivity.page.ts:335-347 | the band is 0 to 3 |
| Productivity.BandsAgree | src/app/pages/admin/pages/productivity/productivity.page.ts:335-347 | level and class are the entries of the same band: at least 80, at least 60, at least 40, below |
| Productivity.ProductivityLevel | src/app/pages/admin/pages/productivity/productivity.page.ts:335-340 | no contract of its own: the label of the score band; BandsAgree, BandMonotone and LevelsDistinct state it |
| Productivity.ProductivityClass | src/app/pages/admin/pages/productivity/productivity.page.ts:342-347 | no contract of its own: the class of the score band; BandsAgree states it |
| Productivity.BandMonotone | src/app/pages/admin/pages/productivity/productivity.page.ts:335-340 | a higher score never falls into a lower band |
| Productivity.LevelsDistinct | src/app/pages/admin/pages/productivity/productivity.page.ts:336-346 | the four levels differ, and so do the four classes |
| Productivity.SameBands | src/app/pages/admin/pages/productivity/productivity.page.ts:335-347 | two scores get the same level exactly when they get the same class, exactly when they are in the same band |
| Productivity.ProductivityPage.constructor | src/app/pages/admin/pages/productivity/productivity.page.ts:178-226 | empty stats, lists and charts, loading, no error, and the page consistent |
| Productivity.ProductivityPage.LoadProductivityData | src/app/pages/admin/pages/productivity/productivity.page.ts:234-236 | loading is raised and the error cleared; nothing else changes |
| Productivity.ProductivityPage.OnAdmins | src/app/pages/admin/pages/productivity/productivity.page.ts:240-243 | the list is processed into consistent stats, top lists and charts, and loading ends |
| Productivity.ProductivityPage.OnLoadError | src/app/pages/admin/pages/productivity/productivity.page.ts:244-248 | the fixed message is shown and loading ends; the data is kept |
| Productivity.ProductivityPage.ProcessAdminData | src/app/pages/admin/pages/productivity/productivity.page.ts:252-278 | the stats are the records of the admins in their order, the three top lists are the sorted prefixes of copies of them, and the charts line up with the lists |
| Productivity.ProductivityPage.UpdateCharts | src/app/pages/admin/pages/productivity/productivity.page.ts:280-333 | the bar chart's labels and data line up with the productive list, the errors chart with the problematic list, and the line chart has the seven day labels |
| Dashboard.UnassignedLeadsSpec | src/app/pages/admin/pages/dashboard/dashboard.page.ts:115-120 | a lead is listed exactly when it has no (or a falsy) admin id and, for an admin who is not a lead manager but has a project, belongs to that project; order is kept |
| Dashboard.UnassignedLeads | src/app/pages/admin/pages/dashboard/dashboard.page.ts:115-120 | no contract of its own: leads without an admin, narrowed to the admin's project when bound; UnassignedLeadsSpec states it |
| Dashboard.CarsAddedThisWeekSpec | src/app/pages/admin/pages/dashboard/dashboard.page.ts:131-139 | a car counts exactly when its creation time is at or after seven days before now; the count never exceeds the list |
| Dashboard.CarsAddedThisWeek | src/app/pages/admin/pages/dashboard/dashboard.page.ts:131-139 | no contract of its own: the count of cars created since seven days before now; CarsAddedThisWeekSpec states it |
| Dashboard.UnreadCount | src/app/pages/admin/pages/dashboard/dashboard.page.ts:162-178 | a failed fetch or a missing body counts 0, otherwise no more than the messages |
| Dashboard.UnreadCountSpec | src/app/pages/admin/pages/dashboard/dashboard.page.ts:165-167 | the count is the number of client messages not marked read, and 0 exactly when there is none |
| Dashboard.WithUnread | src/app/pages/admin/pages/dashboard/dashboard.page.ts:160-180 | one entry per session, in order, each carrying its own unread count |
| Dashboard.ChatsAwaitingSpec | src/app/pages/admin/pages/dashboard/dashboard.page.ts:152-183 | a session is listed exactly when the admin may see it (super, without a project, or same project) and its unread count is positive |
| Dashboard.ChatsAwaitingResponse | src/app/pages/admin/pages/dashboard/dashboard.page.ts:152-183 | no contract of its own: visible sessions with an unread client message; ChatsAwaitingSpec states it |
| Dashboard.FlagsOf | src/app/pages/admin/pages/dashboard/dashboard.page.ts:76-81 | each permission flag is true exactly when the admin's own flag is true; all false without permissions |
| Dashboard.FirstShown | src/app/pages/admin/pages/dashboard/dashboard.page.ts:86-89 | the shown list is the first at most five items |
| Dashboard.BuildData | src/app/pages/admin/pages/dashboard/dashboard.page.ts:83-91 | the counts are taken from the full lists and only the shown lists are cut to five |
| Dashboard.NoDash | src/app/pages/admin/pages/dashboard/dashboard.page.ts:193 | a printed count holds no `-` |
| Dashboard.HashPieces | src/app/pages/admin/pages/dashboard/dashboard.page.ts:192-194 | the hash splits on `-` back into the three counts |
| Dashboard.HashIffCounts | src/app/pages/admin/pages/dashboard/dashboard.page.ts:192-194 | two panels get the same hash exactly when their three counts agree, so the hash depends on the counts only |
| Dashboard.DataHash | src/app/pages/admin/pages/dashboard/dashboard.page.ts:192-194 | no contract of its own: the three counts joined by `-`; HashIffCounts states that it identifies them |
| Dashboard.HashNonEmpty | src/app/pages/admin/pages/dashboard/dashboard.page.ts:192-194 | a hash is never empty |
| Dashboard.DashboardPage.constructor | src/app/pages/admin/pages/dashboard/dashboard.page.ts:34-38 | no admin, no data, loading, no highlight, empty hash |
| Dashboard.DashboardPage.OnAdmin | src/app/pages/admin/pages/dashboard/dashboard.page.ts:52-56 | the admin is stored and loading starts |
| Dashboard.DashboardPage.LoadDashboardData | src/app/pages/admin/pages/dashboard/dashboard.page.ts:64-68 | nothing happens without an admin; otherwise loading is raised |
| Dashboard.DashboardPage.OnDataLoaded | src/app/pages/admin/pages/dashboard/dashboard.page.ts:75-102 | the panel is rebuilt from the three results, the hash always updated, and the highlight raised only when a previous non-empty hash differs |
| Dashboard.DashboardPage.OnDataError | src/app/pages/admin/pages/dashboard/dashboard.page.ts:103-106 | only loading ends |
| Dashboard.DashboardPage.ClearHighlight | src/app/pages/admin/pages/dashboard/dashboard.page.ts:97 | the highlight is lowered and nothing else changes |
| Dashboard.HighlightOnCountChange | src/app/pages/admin/pages/dashboard/dashboard.page.ts:94-99 | after a first load a reload highlights exactly when one of the three counts changed |
| LeadDetails.SourceLabel | src/app/pages/admin/pages/leads/blocks/details.modal.ts:253-262 | a known source gets its label; any other value is shown as it is |
| LeadDetails.MeetingTypeLabel | src/app/pages/admin/pages/leads/blocks/details.modal.ts:298-307 | a known meeting type gets its label; any other value is shown as it is |
| LeadDetails.ActivityIcon | src/app/pages/admin/pages/leads/blocks/details.modal.ts:309-322 | a known activity type gets its icon; any other gets `fa-info-circle` |
| LeadDetails.ScoreClass | src/app/pages/admin/pages/leads/blocks/details.modal.ts:264-268 | high exactly from 80, medium exactly from 50 below 80, low exactly below 50 |
| LeadDetails.ActivityDescription | src/app/pages/admin/pages/leads/blocks/details.modal.ts:324-340 | empty exactly when no lead is loaded; fixed texts for created, updated, assigned (with the admin's email) and converted; otherwise the entry's description or the default |
| LeadDetails.SomeWithId | src/app/pages/admin/pages/leads/blocks/details.modal.ts:348 | true exactly when some tag has the id |
| LeadDetails.IsTagAssigned | src/app/pages/admin/pages/leads/blocks/details.modal.ts:346-349 | true exactly when a lead is loaded, it has tags, and one of them has the id |
| LeadDetails.CurrentPipelineStage | src/app/pages/admin/pages/leads/blocks/details.modal.ts:633-635 | the loaded lead's non-empty stage, otherwise `new_lead` |
| LeadDetails.LeadDetailsModal.constructor | src/app/pages/admin/pages/leads/blocks/details.modal.ts:124-133 | the lead passed in, nothing loaded, no tasks, loading |
| LeadDetails.LeadDetailsModal.OnFullLead | src/app/pages/admin/pages/leads/blocks/details.modal.ts:171-183 | the full lead is stored and loading ends |
| LeadDetails.LeadDetailsModal.OnFullLeadError | src/app/pages/admin/pages/leads/blocks/details.modal.ts:185-189 | the lead passed in is shown and loading ends |
| LeadDetails.LeadDetailsModal.OnTasks | src/app/pages/admin/pages/leads/blocks/details.modal.ts:209-215 | the lead's tasks are stored |
| LeadDetails.LeadDetailsModal.CompletedTasksCount | src/app/pages/admin/pages/leads/blocks/details.modal.ts:625-631 | the completed count never exceeds the total, and equals it exactly when every task is completed |
| LeadDetails.LeadDetailsModal.TotalTasksCount | src/app/pages/admin/pages/leads/blocks/details.modal.ts:629-631 | no contract of its own: the number of tasks; CompletedTasksCount states how the two counts relate |
| LeadDetails.LeadDetailsModal.CurrentStageTasks | src/app/pages/admin/pages/leads/blocks/details.modal.ts:654-659 | the tasks of the current stage as the funnel helper selects them; none for a won or lost lead |
| LeadDetails.LeadDetailsModal.ToggleTag | src/app/pages/admin/pages/leads/blocks/details.modal.ts:515-534 | no request without a loaded lead; an assigned tag is removed and any other added, for the loaded lead's id |
| LeadDetails.AllCompleted | src/app/pages/admin/pages/leads/blocks/details.modal.ts:626 | the completed tasks are all of them exactly when every task is completed |
| Pipeline.Position | src/app/utils/pipeline-helpers.ts:89-99 | every stage has a position 0 to 8 in the funnel list, and the list holds that stage there |
| Pipeline.StageValuesAligned | src/app/utils/pipeline-helpers.ts:3-13 | the nine stage values line up with the funnel list, and neither repeats itself |
| Pipeline.ValueInjective | src/app/utils/pipeline-helpers.ts:3-13 | two stages have the same value exactly when they are the same stage |
| Pipeline.StageOf | src/app/utils/pipeline-helpers.ts:16-49 | a task type has a stage exactly when it is in the table, and no type maps to won or lost |
| Pipeline.TaskTypeTableCoversOpenStages | src/app/utils/pipeline-helpers.ts:16-49 | each of the seven open stages has at least one task type |
| Pipeline.StageIndex | src/app/utils/pipeline-helpers.ts:109-122 | the index is -1 exactly for a value not in the list; otherwise the list holds the value there |
| Pipeline.ParseStage | src/app/utils/pipeline-helpers.ts:3-13 | a value read as a stage has that stage's value; a value read as no stage is no stage's value |
| Pipeline.StageIndexParse | src/app/utils/pipeline-helpers.ts:109-122 | the index is -1 exactly for a value that is not a stage, and otherwise the stage's position |
| Pipeline.StageIndexOfStage | src/app/utils/pipeline-helpers.ts:121 | the index of a stage's value is its position |
| Pipeline.ParseValue | src/app/utils/pipeline-helpers.ts:3-13 | reading a stage's value gives the stage back |
| Pipeline.NextStageSpec | src/app/utils/pipeline-helpers.ts:88-107 | there is a next stage exactly for the six stages before deal_closing; it is never won or lost, so deal_closing never advances to won |
| Pipeline.NextStage | src/app/utils/pipeline-helpers.ts:88-107 | no contract of its own: the following stage in the list, none from deal_closing on; NextStageSpec states it |
| Pipeline.NextStageAdvances | src/app/utils/pipeline-helpers.ts:106 | the next stage is the one right after the current one |
| Pipeline.StageName | src/app/utils/pipeline-helpers.ts:137-150 | every stage has a non-empty name of its own; any other value is returned as it is |
| Pipeline.FilterTasksByPipelineStage | src/app/utils/pipeline-helpers.ts:55-66 | an order-keeping subsequence in which every task of an unmapped type is kept and a mapped task is kept exactly when its stage is the current or the next one |
| Pipeline.ShownStageByPosition | src/app/utils/pipeline-helpers.ts:56-64 | a mapped stage is shown exactly when it sits at the current index or right after it, with nothing after deal_closing |
| Pipeline.TasksForCurrentStage | src/app/utils/pipeline-helpers.ts:127-132 | an order-keeping subsequence holding exactly the tasks whose mapped stage is the current one; unmapped tasks are dropped |
| Pipeline.TasksForClosedStageEmpty | src/app/utils/pipeline-helpers.ts:127-132 | at won or lost no task is selected |
| Pipeline.CurrentStageTasksWithinShown | src/app/utils/pipeline-helpers.ts:55-132 | the current stage's tasks are the current-stage part of the shown tasks, and a subsequence of them |
| Pipeline.GroupKey | src/app/utils/pipeline-helpers.ts:75 | every task is filed under one of the seven open stages or `other` |
| Pipeline.GroupKeysDistinct | src/app/utils/pipeline-helpers.ts:75 | the eight possible group keys differ |
| Pipeline.GroupTasksByStage | src/app/utils/pipeline-helpers.ts:71-83 | the loop builds the grouping of the tasks by their group key |
| Pipeline.StageGroupsSizes | src/app/utils/pipeline-helpers.ts:71-83 | the group sizes add up to the number of tasks |
| Grouping.Group | src/app/utils/pipeline-helpers.ts:74-80 | a group is never longer than the input |
| Grouping.GroupIsFilter | src/app/utils/pipeline-helpers.ts:74-80 | a group is the input filtered by its key, in input order |
| Grouping.GroupMapSnoc | src/app/utils/pipeline-helpers.ts:76-79 | handling one more element appends it to its own key's list, creating the list when the key is new, and leaves every other list alone |
| Grouping.GroupAbsent | src/app/utils/pipeline-helpers.ts:76-78 | a key that does not occur has an empty group |
| Grouping.GroupMembers | src/app/utils/pipeline-helpers.ts:74-80 | a group holds exactly the elements with its key |
| Grouping.GroupMapPartition | src/app/utils/pipeline-helpers.ts:71-83 | the keys are exactly the keys that occur, every element sits in its own key's group, no group is empty, and each group holds only elements of its key |
| Grouping.GroupSizesSum | src/app/utils/pipeline-helpers.ts:71-83 | when every key is listed once the group sizes add up to the input length, so no element is in two groups |
| Grouping.PartlyMappedDone | src/app/pages/admin/pages/tasks/tasks.page.ts:85-111 | once every key has been handled the map holds each original list transformed |
| StableSort.KeyLeTotal | src/app/pages/admin/pages/tasks/tasks.page.ts:86-98 | any two keys are comparable |
| StableSort.KeyLeTransitive | src/app/pages/admin/pages/tasks/tasks.page.ts:86-98 | the key order is transitive |
| StableSort.SortByOrdered | src/app/pages/admin/pages/tasks/tasks.page.ts:86 | the sorted list is in key order |
| StableSort.SortByPermutation | src/app/pages/admin/pages/tasks/tasks.page.ts:86 | sorting only reorders: the result is a permutation of the input |
| StableSort.SortByStable | src/app/pages/admin/pages/tasks/tasks.page.ts:86 | elements with equal keys keep their relative order |
| StableSort.SortBySorted | src/app/pages/admin/pages/tasks/tasks.page.ts:86 | sorting a list already in key order changes nothing |
| StableSort.SortInPlace | src/app/pages/admin/pages/tasks/tasks.page.ts:86-98 | the array sorted in place holds the stable sort of its old contents |
| StableSort.SortedCopy | src/app/pages/admin/pages/layout/blocks/working-hours.modal.ts:50 | sorting a fresh copy gives the stable sort of the list, a permutation of it, and leaves the list alone |
| StableSort.InsertStep | src/app/pages/admin/pages/tasks/tasks.page.ts:86 | one insertion pass puts the next element into the sorted prefix and leaves the rest alone |
| LeadPipeline.StepsInFunnelOrder | src/app/pages/admin/pages/leads/blocks/lead-pipeline.component.ts:277-350 | the steps are the nine stages, once each, in funnel order |
| LeadPipeline.FindStep | src/app/pages/admin/pages/leads/blocks/lead-pipeline.component.ts:353 | the found index is -1 or a position among the steps |
| LeadPipeline.StepIndexIsStageIndex | src/app/pages/admin/pages/leads/blocks/lead-pipeline.component.ts:353 | the step index of the current value is its funnel index |
| LeadPipeline.FindStepIsIndexOf | src/app/pages/admin/pages/leads/blocks/lead-pipeline.component.ts:353 | finding a step by value is finding the value in the list of step values |
| LeadPipeline.StepIndexOfStage | src/app/pages/admin/pages/leads/blocks/lead-pipeline.component.ts:353 | the step index of a stage's value is its position |
| LeadPipeline.FindStage | src/app/pages/admin/pages/leads/blocks/lead-pipeline.component.ts:354 | the found index is -1 or a position among the steps |
| LeadPipeline.StagePositionInSteps | src/app/pages/admin/pages/leads/blocks/lead-pipeline.component.ts:354 | the step index of a stage is its position |
| LeadPipeline.StageFlagsByPosition | src/app/pages/admin/pages/leads/blocks/lead-pipeline.component.ts:352-362 | a step is active exactly when it is not after the current stage, and completed exactly when it is strictly before |
| LeadPipeline.IsActiveStage | src/app/pages/admin/pages/leads/blocks/lead-pipeline.component.ts:352-356 | no contract of its own: the step index is at most the current one; StageFlagsByPosition states it by position |
| LeadPipeline.IsCompletedStage | src/app/pages/admin/pages/leads/blocks/lead-pipeline.component.ts:358-362 | no contract of its own: the step index is below the current one; StageFlagsByPosition states it by position |
| LeadPipeline.IsCurrentStage | src/app/pages/admin/pages/leads/blocks/lead-pipeline.component.ts:364-366 | no contract of its own: the stage value equals the current one; CurrentStepUnique states that one step at most is current |
| LeadPipeline.UnknownStageNothingActive | src/app/pages/admin/pages/leads/blocks/lead-pipeline.component.ts:352-356 | with a current value that is not a stage no step is active |
| LeadPipeline.LostCompletesWon | src/app/pages/admin/pages/leads/blocks/lead-pipeline.component.ts:358-362 | at lost the won step counts as completed, since it comes earlier in the list |
| LeadPipeline.CurrentStepUnique | src/app/pages/admin/pages/leads/blocks/lead-pipeline.component.ts:352-366 | the current step is active but not completed, and it is the only current step |
| LeadPipeline.RoundDiv | src/app/pages/admin/pages/leads/blocks/lead-pipeline.component.ts:375 | the rounded quotient is the nearest integer, halves rounded up |
| LeadPipeline.ProgressOfStage | src/app/pages/admin/pages/leads/blocks/lead-pipeline.component.ts:368-376 | progress is 100 at won, 0 at lost, and otherwise the rounded index times 100 over 7 |
| LeadPipeline.ProgressPercentage | src/app/pages/admin/pages/leads/blocks/lead-pipeline.component.ts:368-376 | no contract of its own: 100 at won, 0 at lost, else the rounded step share; ProgressOfStage, ProgressBounds and ProgressIncreasing state it |
| LeadPipeline.ProgressOfUnknown | src/app/pages/admin/pages/leads/blocks/lead-pipeline.component.ts:368-376 | a value that is not a stage gives index -1 and progress -14 |
| LeadPipeline.ProgressBounds | src/app/pages/admin/pages/leads/blocks/lead-pipeline.component.ts:368-376 | progress is 0 at new_lead, 86 at deal_closing, and always within 0 to 100 |
| LeadPipeline.ProgressIncreasing | src/app/pages/admin/pages/leads/blocks/lead-pipeline.component.ts:368-376 | over the open stages progress strictly increases in funnel order |
| LeadPipeline.CurrentStageTitle | src/app/pages/admin/pages/leads/blocks/lead-pipeline.component.ts:378-381 | the title of the current stage's step, or the fallback text for a value that is not a stage |
| LeadPipeline.NextAction | src/app/pages/admin/pages/leads/blocks/lead-pipeline.component.ts:383-406 | a value that is not a stage gets the default text |
| LeadPipeline.NextActionOfStage | src/app/pages/admin/pages/leads/blocks/lead-pipeline.component.ts:384-402 | each stage's value yields that stage's fixed text |
| LeadPipeline.StageAction | src/app/pages/admin/pages/leads/blocks/lead-pipeline.component.ts:384-402 | no contract of its own: the fixed advice per stage; NextActionOfStage ties it to `getNextAction` |
| LeadsPage.StatusTables | src/app/pages/admin/pages/leads/leads.page.ts:301-342 | a known status gets a non-empty label and a class, the five status classes are pairwise distinct; any other status is shown as it is with no class |
| LeadsPage.StatusLabel | src/app/pages/admin/pages/leads/leads.page.ts:301-310 | no contract of its own: the table entry or the status itself; StatusTables states it |
| LeadsPage.StatusClass | src/app/pages/admin/pages/leads/leads.page.ts:333-342 | no contract of its own: the table entry or no class; StatusTables states it |
| LeadsPage.SourceTable | src/app/pages/admin/pages/leads/leads.page.ts:312-321 | a known source gets a non-empty label; any other source is shown as it is |
| LeadsPage.SourceLabel | src/app/pages/admin/pages/leads/leads.page.ts:312-321 | no contract of its own: the table entry or the source itself; SourceTable states it |
| LeadsPage.PriorityTables | src/app/pages/admin/pages/leads/leads.page.ts:323-352 | a known priority gets a non-empty label and a class, the four priority classes are pairwise distinct; any other priority is shown as it is with no class |
| LeadsPage.PriorityLabel | src/app/pages/admin/pages/leads/leads.page.ts:323-331 | no contract of its own: the table entry or the priority itself; PriorityTables states it |
| LeadsPage.PriorityClass | src/app/pages/admin/pages/leads/leads.page.ts:344-352 | no contract of its own: the table entry or no class; PriorityTables states it |
| LeadsPage.FilterObject | src/app/pages/admin/pages/leads/leads.page.ts:113-117 | each filter key is present exactly when its field is truthy (a non-empty string, an admin id other than 0) and then carries that field's value |
| LeadsPage.FilterObjectQuery | src/app/pages/admin/pages/leads/leads.page.ts:111-117 | with every field cleared the filter object yields no query parameters at all |
| LeadsPage.FormOf | src/app/pages/admin/pages/leads/leads.page.ts:165-177 | the edit form copies name, source, status, priority and the Telegram flag, and puts an empty string for each missing optional text |
| LeadsPage.LeadsPageState.constructor | src/app/pages/admin/pages/leads/leads.page.ts:62-87 | the page starts with no leads, no selection, not loading, empty filters, the modal closed and the blank form |
| LeadsPage.LeadsPageState.LoadLeads | src/app/pages/admin/pages/leads/leads.page.ts:111-119 | sets the loading flag and requests exactly the filter object built from the four filter fields, changing nothing else |
| LeadsPage.LeadsPageState.OnLeads | src/app/pages/admin/pages/leads/leads.page.ts:119-128 | the answer replaces the list; an error keeps the old list; either way loading ends and nothing else changes |
| LeadsPage.LeadsPageState.ClearFilters | src/app/pages/admin/pages/leads/leads.page.ts:376-382 | all four filters are cleared and the reload request carries no filter at all |
| LeadsPage.LeadsPageState.SelectLead | src/app/pages/admin/pages/leads/leads.page.ts:131-136 | the lead becomes the selection, and its chat is fetched exactly when it has a chat session id |
| LeadsPage.LeadsPageState.OpenCreateModal | src/app/pages/admin/pages/leads/leads.page.ts:149-163 | no lead is being edited, the form is the blank one and the modal is open; the list and filters are unchanged |
| LeadsPage.LeadsPageState.OpenEditModal | src/app/pages/admin/pages/leads/leads.page.ts:165-179 | the lead is the one being edited, the form is built from it and the modal is open; the list and filters are unchanged |
| LeadsPage.LeadsPageState.SaveLead | src/app/pages/admin/pages/leads/leads.page.ts:181-210 | an update of the edited lead's id with the form when a lead is being edited, a creation with the form otherwise |
| LeadsPage.LeadsPageState.OnLeadDeleted | src/app/pages/admin/pages/leads/leads.page.ts:212-220 | the list is reloaded with the current filters, and the selection is cleared exactly when it was the deleted lead |
| AdminDetails.PermissionSet.constructor | src/app/pages/admin/pages/admins/blocks/details.modal.ts:87-92 | a permissions object holds the four flags it is given |
| AdminDetails.PermissionSet.Set | src/app/pages/admin/pages/admins/blocks/details.modal.ts:64-69 | a form checkbox sets its own flag and leaves the other three as they were |
| AdminDetails.ProjectLabel | src/app/pages/admin/pages/admins/blocks/details.modal.ts:115-122 | a missing or empty project is "not assigned", the two offices get their labels, any other id is shown as it is |
| AdminDetails.HasWorkingHours | src/app/pages/admin/pages/admins/blocks/details.modal.ts:193-197 | true exactly when an admin is loaded, has working days, and some day has `enabled` strictly true |
| AdminDetails.ProjectIdRoundTrip | src/app/pages/admin/pages/admins/blocks/details.modal.ts:144-147 | saving an unchanged form sends the admin's project back (an empty one as null), and a form value survives a save and reload |
| AdminDetails.AdminDetailsModal.constructor | src/app/pages/admin/pages/admins/blocks/details.modal.ts:54-70 | the modal starts loading, on the info tab, not editing, with no data, no stats and an all-false permissions form |
| AdminDetails.AdminDetailsModal.LoadAdminData | src/app/pages/admin/pages/admins/blocks/details.modal.ts:78-80 | requests the input admin's id and sets the loading flag, changing nothing else |
| AdminDetails.AdminDetailsModal.ResetForm | src/app/pages/admin/pages/admins/blocks/details.modal.ts:86-92 | the form's project is the admin's or empty, and its permissions are the admin's own object (shared) or a fresh all-false one |
| AdminDetails.AdminDetailsModal.OnAdminLoaded | src/app/pages/admin/pages/admins/blocks/details.modal.ts:81-94 | the loaded admin is shown, loading ends and the form is reset from it |
| AdminDetails.AdminDetailsModal.OnAdminLoadError | src/app/pages/admin/pages/admins/blocks/details.modal.ts:95-107 | the input admin is shown instead, loading ends and the form is reset from it |
| AdminDetails.AdminDetailsModal.ToggleEdit | src/app/pages/admin/pages/admins/blocks/details.modal.ts:136-138 | the editing flag flips and nothing else changes |
| AdminDetails.AdminDetailsModal.SetPermission | src/app/pages/admin/pages/admins/blocks/details.modal.ts:64-69 | sets one form flag, keeps the other three, and a loaded admin whose permissions are the form's object shows the new flag too |
| AdminDetails.AdminDetailsModal.SaveChanges | src/app/pages/admin/pages/admins/blocks/details.modal.ts:140-147 | nothing without a loaded admin; otherwise an update of its id with the form's permissions and the project, null exactly when the form's project is empty |
| AdminDetails.AdminDetailsModal.OnAdminUpdated | src/app/pages/admin/pages/admins/blocks/details.modal.ts:150-153 | the updated admin is shown and editing ends |
| AdminDetails.AdminDetailsModal.CancelEdit | src/app/pages/admin/pages/admins/blocks/details.modal.ts:161-173 | editing ends; with a loaded admin the form is reset from it (sharing its permissions object), without one the form is kept |
| AdminDetails.AdminDetailsModal.ResetFormCopying | src/app/pages/admin/pages/admins/blocks/details.modal.ts:86-92 | corrected reset: the form gets a fresh permissions object equal to the admin's, or all false |
| AdminDetails.AdminDetailsModal.OnAdminLoadedCopying | src/app/pages/admin/pages/admins/blocks/details.modal.ts:81-94 | corrected load: the admin is shown and the form gets a fresh copy of its permissions |
| AdminDetails.AdminDetailsModal.CancelEditCopying | src/app/pages/admin/pages/admins/blocks/details.modal.ts:161-173 | corrected cancel: editing ends and the form gets a fresh copy of the loaded admin's permissions |
| AdminDetails.AdminDetailsModal.OnTabChange | src/app/pages/admin/pages/admins/blocks/details.modal.ts:216-221 | the tab is switched, and statistics are requested for the loaded admin exactly on the stats tab while none are held |
| AdminDetails.AdminDetailsModal.OnStats | src/app/pages/admin/pages/admins/blocks/details.modal.ts:199-214 | the answer replaces the statistics, an error keeps them, and loading them ends either way |
| AdminDetails.CancelKeepsUnsavedPermission | src/app/pages/admin/pages/admins/blocks/details.modal.ts:161-173 | as written: after loading, editing, ticking a permission and cancelling, both the form and the loaded admin still show the unsaved tick |
| AdminDetails.CancelRestoresPermission | src/app/pages/admin/pages/admins/blocks/details.modal.ts:161-173 | corrected: the same steps leave the form and the loaded admin at the saved flag |
| AdminsPage.ActiveAdminsCount | src/app/pages/admin/pages/admins/admins.page.ts:75-81 | 0 when the list is not an array, never more than the list's length |
| AdminsPage.RemovedAdminsCount | src/app/pages/admin/pages/admins/admins.page.ts:83-89 | 0 when the list is not an array, never more than the list's length |
| AdminsPage.SuperAdminsCount | src/app/pages/admin/pages/admins/admins.page.ts:91-97 | 0 when the list is not an array, never more than the list's length |
| AdminsPage.ActiveRemovedSplit | src/app/pages/admin/pages/admins/admins.page.ts:80-88 | over any list, admins without a deletion date plus those with one are all of them |
| AdminsPage.SuperSplit | src/app/pages/admin/pages/admins/admins.page.ts:96 | over any list, the super admins are the active super admins plus the removed ones |
| AdminsPage.ActivePlusRemoved | src/app/pages/admin/pages/admins/admins.page.ts:75-89 | the active and removed counters add up to the number of admins listed |
| AdminsPage.SuperIncludesRemoved | src/app/pages/admin/pages/admins/admins.page.ts:91-97 | the super-admin counter counts removed super admins as well as active ones |
| AdminsPage.AdminsPageState.constructor | src/app/pages/admin/pages/admins/admins.page.ts:26 | the list starts undefined |
| AdminsPage.AdminsPageState.OnAdmins | src/app/pages/admin/pages/admins/admins.page.ts:57-61 | the answer replaces the list |
| AdminsPage.AdminsPageState.OnManagementModalHidden | src/app/pages/admin/pages/admins/admins.page.ts:35-39 | the list is reloaded exactly when the modal's result carries a truthy `reload` |
| AdminsPage.AdminsPageState.OnDetailsModalHidden | src/app/pages/admin/pages/admins/admins.page.ts:52-54 | closing the details modal always reloads the list |
| AdminsPage.AdminsPageState.DeleteAdmin | src/app/pages/admin/pages/admins/admins.page.ts:63-69 | the admin's id is deleted exactly when the user confirms, and the list is reloaded after exactly those deletions |
| AuthInterceptor.WithAuth | src/app/auth.interceptor.ts:10-15 | with a token, the `Authorization` header is set to the bare token and every other header and the URL are kept; without one, the request is unchanged |
| AuthInterceptor.WithAuthIdempotent | src/app/auth.interceptor.ts:10-15 | attaching the same token twice gives the same request as attaching it once |
| AuthInterceptor.OnError | src/app/auth.interceptor.ts:17-33 | the session ends exactly on a 401 whose URL does not contain `/auth/signin`; the error is always passed on unchanged |
| AuthInterceptor.DecisionIgnoresToken | src/app/auth.interceptor.ts:11-28 | the error decision is the same with or without the token header |
| AuthInterceptor.SigninNeverExpires | src/app/auth.interceptor.ts:22-24 | a failed request to any URL containing the sign-in path never ends the session |
| AuthInterceptor.OnlyUnauthorizedExpires | src/app/auth.interceptor.ts:20 | an error other than 401 never ends the session |
| AuthInterceptor.AuthCheckExpires | src/app/auth.interceptor.ts:25-27 | a 401 on the session check `/auth` ends the session |

## Left out

- HTTP, Observables and Promises: every request is a value that a method returns, and every answer is an input to the callback method that handles it. Retries, cancellation and the order in which answers arrive are not modelled.
- Percent-encoding in `URLSearchParams`: query parameters are kept as raw key/value pairs, in order.
- Locale formatting (`toLocaleString`, `toLocaleDateString`, `toLocaleTimeString`): number formatting is a parameter: in the YML export a pair `Formats` of JavaScript's number-to-text conversion and `toLocaleString('ru-RU')`. The date and time formatters (`formatDate`, `formatTime`, `formatFileSize` in the lead and task views, `formatDate` in the admin details modal) are not part of this model.
- `Math.random` in the productivity page is a list of draws passed in. Chart colours, chart options and chart styling are left out.
- Clocks: `now` is a parameter. The dashboard's "week ago" is `now` minus seven days of milliseconds, so daylight-saving shifts are not modelled.
- Timers: the dashboard's auto-refresh interval and the 3-second timeout that clears its new-data highlight are left out. Only the state each tick computes is modelled.
- `confirm` and `alert` dialogs are a boolean input or are left out. The toast DOM, clipboard copy and Blob download in the YML export (xml-export.page.ts:194-211), routing, and opening and closing modals are left out.
- YML export numbers: the car's numeric fields are real numbers, so a fractional engine volume or price prints through the number conversion as it does in the source. `NaN` and the infinities are not modelled, and a missing number is 0, which is what `|| 0` and `|| ''` make of it. The car id is an integer.
- Key order of grouped maps: the `Map` built in tasks.page.ts and the object built by `groupTasksByStage` iterate their keys in insertion order in JavaScript. The model's grouping is a Dafny `map`, so only the order inside each key's list is stated. Only code that iterates the grouped keys sees the difference, and that code (`getLeadIds`) is left out.
- Malformed due dates on the tasks page: a non-empty `dueDate` that does not parse is truthy at tasks.page.ts:92-96, so the comparator gets `NaN` and the order depends on the JavaScript engine. Such dates are outside the model: a task's due date is a timestamp or missing.
- Header names in the auth interceptor: Angular's `HttpHeaders.set` matches names regardless of case, so it replaces an existing `authorization` header. The model's header map is case-sensitive and would keep both.
- `null` fields of a saved working day: in the spread at working-hours.modal.ts:53 a saved field present with value `null` replaces the default. The model's saved fields are optional values that treat `null` as missing, so the default is kept.
- Regular expressions: only the literal patterns the code uses are written out, as functions on strings.
- Lower-casing covers ASCII and basic Cyrillic letters (А–Я, Ё) only. Full Unicode case mapping is not modelled.
- Angular forms: a form group is modelled as its value. Validity is not a separate input: `WorkingHours.FormValid` computes it from the required start and end times of every day, as `Validators.required` does; the rest of Angular's form machinery (touched state, value-change events) is left out.
- JavaScript objects used as dictionaries: lookups of inherited prototype names such as `constructor` are treated as missing keys.
- Admins page: `restoreAdmin` (admins.page.ts:71-73) is only a request followed by a reload, and is left out. A `null` entry in the admin list is not modelled: every entry is a JSON value whose fields are read.
- Admin details modal: `getStatusLabel` and `getPriorityLabel` (details.modal.ts:223-242), `openWorkingHoursModal` (175-191) and `closeModal` are display or navigation helpers and are left out. The `ngOnInit` guard on a missing `admin` input is left out: the constructor takes the admin.
- Lead details modal: `isOverdue` (342-344) and the comment, meeting, attachment and conversion requests are left out. Only the lookups, the tag toggle, the task counts and the stage tasks are modelled. The `ngOnInit` guard `if (this.lead)` is left out: the constructor takes the lead.
- Tasks page: `getLeadName` (tasks.page.ts:143-147) and `getLeadIds` (153-155) are left out.
- Task card and task details: `formatDate` and `goToLead` are left out.
- Dashboard and productivity: the service methods `getAdmins` and `getChatSessions` that these pages call are not part of this model. Their answers are inputs.
- Lead pipeline: the step titles and action texts are kept exactly as stored in the component file, which holds them mis-decoded (UTF-8 read as Mac Roman). The steps keep only their stage and title. The description, emoji, time frame and colour are display-only and are left out.
- Pipeline.StageName: the contract states that each of the nine stages has a non-empty name differing from its value, not the exact Russian names, because comparing the long literals is too costly for the solver.
- LeadPipeline.NextAction: the contract states only the default for a value that is not a stage. The per-stage texts are stated by LeadPipeline.NextActionOfStage, and they are not proved distinct from the default.

## Findings

| source | as written | input that shows it | evidently intended | confidence | as-written member | corrected member |
|---|---|---|---|---|---|---|
| src/app/pages/admin/pages/admins/blocks/details.modal.ts:87 | the edit form takes the loaded admin's `permissions` object by reference, and so does `cancelEdit` at line 165, so a ticked checkbox changes the loaded admin too and cancelling cannot undo it | an admin with all permissions false: load, press edit, tick `canAddCars`, press cancel; the form and the displayed admin both still show `canAddCars` ticked | the form works on a copy of the permissions, so cancel restores the saved flags | not executed | AdminDetails.CancelKeepsUnsavedPermission | AdminDetails.CancelRestoresPermission |
