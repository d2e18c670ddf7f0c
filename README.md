# Goods-return workflow: a Dafny model

A customer returns a product in three parts, and this project models all three:

- **The return page (`FileUpload`).** The customer picks a category and an item. They upload a front and then a back photo. They fill in four reference fields, review the annotated images, and see the verdict. The page is a six-step state machine over `activeStep`, `result`, `images`, `selectedCategory`, `filteredDevices`, `formData` and `errors`. Each upload goes through an `Uploader`, which holds one image's `file`, `preview` and `isUploading`.
- **The home page (`Home`).** This is an older, smaller flow over `step` (0, 1 or 2), `message`, `result` and `isUploading`. It uploads the two images from one file input. As wired, the page cannot reach this flow from its own buttons:
  - The "Start a Return" button wraps a link to `/file-upload`, and its `handleStartClick` call is commented out (`src/components/Home.js:81-86`).
  - `handleStartClick` is bound only to "Start a New Return" (`src/components/Home.js:145-149`), which appears only once a result exists.
  - So step 1 is never reached from the initial state. The model, including `Protocol.HomeReturn`, describes the handlers as written, starting from a call to `handleStartClick`.
- **The comparison service (`upload_user`).** It validates each request and stores the image's similarity and SSI in the slot its `comparison_type` names. The store is the global two-slot dictionary `comparison_results`. Once both slots are filled, the service answers with averaged metrics and a verdict from the `classify_condition` decision list, and empties both slots.

Modules:

- `Api` (`api.dfy`): the values the client and the server exchange.
  - The request record.
  - The JSON body fields the client reads, with `None` for an absent field.
  - What an awaited POST gives: it threw, or it resolved with a status and a body.
  - The client's result aggregate.
  - A body counts as final when `overall_condition` is truthy: present and not the empty string.
- `Text` (`text.dfy`): JavaScript's `trim` over the ECMAScript whitespace characters.
- `ComparisonServer` (`server.dfy`): the service.
  - `Upload` is a pure function over the two slots.
  - The class `ComparisonStore` holds the dictionary. Its `UploadUser` method writes the dictionary in place and is proved equal to `Upload`.
  - Lemmas over a sequential stream of requests (`Run`) cover whole sessions.
- `ReturnWorkflow` (`file_upload.dfy`): the return page.
  - The catalog filter and `validate` are functions.
  - `FileUpload` and `Uploader` are classes whose methods update their fields.
  - The HTTP outcome is a parameter of `Uploader.HandleSubmit`.
- `HomePage` (`home.dfy`): the home page.
  - The class `Home` has the two handlers.
  - `HandleFileChange` is proved against the pure settling function `Settle`.
- `Protocol` (`protocol.dfy`): the client and the server together.
  - How a response reaches the client: the JSON body, and axios resolving or throwing on the status.
  - Complete sessions driven through the page classes against a `ComparisonStore`.

Behaviour of the code that the model keeps, where a reader might expect otherwise:

- **Absent images.** The service never sends `highlighted_image`. Against this service, the page's `images` become `undefined` on both sides after the two uploads (`Protocol.FileUploadReturn`).
- **`images.front` cleared.** The page writes `images.front` only through the step-1 uploader's `setImages`, which copies `value.front`. On a final response the uploader passes only `back`. So a step-1 uploader that receives a final response sets `images.front` to `undefined`. The same holds for `images.back` on an intermediate response at step 2.
- **New return keeps some state.** `handleNewReturn` resets only the step and the result. The images, the category, the device list, the form and the errors are kept.
- **No selected item.** The page keeps no selected item. Choosing an item only advances the step.
- **Error statuses throw.** The service's 400 and 500 answers reach the pages as thrown errors, not as a resolved non-200 status, because of axios's default status check. Both pages still handle a resolved non-200 status, and the model keeps that branch.

## Model

| member | source | states |
|---|---|---|
| Api.Side.Tag | src/components/FIleUpload.js:492-494 | the `comparison_type` tag is "front" exactly for the front side and "back" otherwise |
| Api.IsFinal | src/components/FIleUpload.js:511 | a body is final only when `overall_condition` is truthy: an absent or empty condition makes it intermediate |
| Api.Aggregate | src/components/FIleUpload.js:510-518 | the result aggregate maps condition, combined similarity and SSI, front and back directly from a final body; the condition is non-empty |
| Text.TrimStart | src/components/FIleUpload.js:170 | leading `trim`: everything dropped is whitespace, the result does not start with whitespace, and blank input leaves nothing |
| Text.TrimEnd | src/components/FIleUpload.js:170 | trailing `trim`: everything dropped is whitespace and the result does not end with whitespace |
| Text.TrimStartIsSuffix | src/components/FIleUpload.js:170 | what leading `trim` keeps is a suffix of the input |
| Text.TrimEndIsPrefix | src/components/FIleUpload.js:170 | what trailing `trim` keeps is a prefix of the input |
| Text.TrimIsInfix | src/components/FIleUpload.js:170 | `s.trim()` is a contiguous slice of `s` |
| Text.Trim | src/components/FIleUpload.js:170 | `s.trim()` is empty exactly when `s` is all whitespace, and otherwise neither end is whitespace |
| ComparisonServer.Condition.Label | Backend/app.py:51-59 | the five verdict strings; none is empty, and "Non-Functional" is only the non-functional verdict |
| ComparisonServer.Classify | Backend/app.py:50-59 | the region of the (similarity, ssi) plane each verdict covers. Non-Functional iff similarity < 0.4 or ssi < 0.5, taking precedence. Then Damaged (> 0.85, > 0.7), Excellent Condition (> 0.75, > 0.6), Brand New (> 0.6, > 0.5), and Different for the rest |
| ComparisonServer.Response.StatusCode | Backend/app.py:67-127 | a response has status 200 exactly when it is an intermediate or a combined response; a refused request has 400 and a server error 500 |
| ComparisonServer.ProcessedMessage | Backend/app.py:120 | the intermediate message is the tag with its first letter upper-cased, followed by " image processed." |
| ComparisonServer.RequestedSide | Backend/app.py:65-74 | a request names a side exactly when it has a file and its type is "front" or "back", and the side matches the tag |
| ComparisonServer.Combine | Backend/app.py:97-115 | the combined response carries the stored front and back entries. Its averages are half the sums, and its verdict is the decision list applied to those averages |
| ComparisonServer.Store | Backend/app.py:93 | storing fills the named slot, overwriting it, and leaves the other slot as it was |
| ComparisonServer.Upload | Backend/app.py:61-127 | a missing file or type gives 400 and an unknown type gives 400, each with its message and no change to the slots. A measurement that raised gives 500, and every non-200 leaves the slots unchanged. A valid measured upload is always answered 200, and it is final exactly when both slots are filled after storing. A final answer is the combined response of the stored entries and empties the slots. An intermediate answer keeps the stored slots and echoes the new metrics with the side's message |
| ComparisonServer.ComparisonStore.constructor | Backend/app.py:24 | the dictionary starts with both slots empty |
| ComparisonServer.ComparisonStore.UploadUser | Backend/app.py:61-127 | the in-place dictionary update gives the new slots and response that `Upload` gives from the old slots, and the dictionary keeps exactly the two keys |
| ComparisonServer.BothSidesCompleteSession | Backend/app.py:93-117 | from empty slots, a front and a back upload in either order give an intermediate and then the combined response, and the slots end empty |
| ComparisonServer.OneSidedUploadsNeverFinal | Backend/app.py:93-97 | while no request fills the other slot, no response is final and that slot stays empty: repeated uploads of one type never complete |
| ComparisonServer.FinalsConsumeBothSides | Backend/app.py:97-116 | over any stream, final responses plus an entry still pending never outnumber the uploads that filled that slot plus one already there |
| ComparisonServer.FinalsBoundedByUploads | Backend/app.py:97-116 | from empty slots, a stream has no more final responses than front uploads, nor than back uploads |
| ReturnWorkflow.FilterByCategory | src/components/FIleUpload.js:161-163 | the filter keeps exactly the devices of the category and is never longer than its input |
| ReturnWorkflow.FilterKeepsOrder | src/components/FIleUpload.js:161-163 | filtering a concatenation is concatenating the filtered parts, so the order of the catalog is kept |
| ReturnWorkflow.FilterIdempotent | src/components/FIleUpload.js:161-163 | filtering twice by the same category is filtering once |
| ReturnWorkflow.FilterUniform | src/components/FIleUpload.js:161-163 | a list of one category filters to all of it or to nothing |
| ReturnWorkflow.FilterAllMatch | src/components/FIleUpload.js:161-163 | a list whose devices all match is its own filter |
| ReturnWorkflow.RunsAreUniform | src/components/FIleUpload.js:126-137 | each run of the catalog carries a single category |
| ReturnWorkflow.CatalogRuns | src/components/FIleUpload.js:126-137 | filtering the catalog is filtering its four runs in turn |
| ReturnWorkflow.ListingOf | src/components/FIleUpload.js:126-137 | the devices listed for a category are exactly that category's run of the catalog, in catalog order |
| ReturnWorkflow.UnknownCategoryListsNothing | src/components/FIleUpload.js:158-165 | a key that is not an offered category lists no device |
| ReturnWorkflow.CatalogCategoriesOffered | src/components/FIleUpload.js:126-144 | every catalog device belongs to one of the offered categories |
| ReturnWorkflow.Field.Number | src/components/FIleUpload.js:119-124 | the four fields are numbered 1 to 4, as `input1` to `input4` |
| ReturnWorkflow.Field.RequiredMessage | src/components/FIleUpload.js:171-180 | a field's message is "Input n is required." for the field's number n |
| ReturnWorkflow.CheckRequired | src/components/FIleUpload.js:170-172 | one required-field test adds the field's message exactly when its value is blank, and keeps every other entry |
| ReturnWorkflow.Validate | src/components/FIleUpload.js:167-184 | the error map has an entry for exactly the fields whose trimmed value is empty, each with that field's message |
| ReturnWorkflow.ValidateExample | src/components/FIleUpload.js:167-184 | the form `{"", "x", "  ", "y"}` is refused on exactly input1 and input3 |
| ReturnWorkflow.FileUpload.constructor | src/components/FIleUpload.js:111-125 | step 0, no result, no devices, no category, empty images, the four fields empty and no errors |
| ReturnWorkflow.FileUpload.OnCategoryChange | src/components/FIleUpload.js:158-165 | records the category and lists exactly its catalog devices, changing nothing else (the step included) |
| ReturnWorkflow.FileUpload.AdvanceStep | src/components/FIleUpload.js:151-153 | choosing an item moves the step on by exactly one, as do an uploader's completion and the review's next |
| ReturnWorkflow.FileUpload.HandleNewReturn | src/components/FIleUpload.js:146-149 | back to step 0 with no result; images, category, devices, form and errors are untouched |
| ReturnWorkflow.FileUpload.HandleChange | src/components/FIleUpload.js:186-190 | sets only that field's value and clears only that field's error |
| ReturnWorkflow.FileUpload.HandleFocus | src/components/FIleUpload.js:192-195 | clears only that field's error |
| ReturnWorkflow.FileUpload.HandleSubmit | src/components/FIleUpload.js:197-208 | the step advances by one exactly when no field is blank. A refused form replaces the errors wholesale and keeps the data and the step; an accepted one clears the fields and the errors |
| ReturnWorkflow.FileUpload.SetFrontImage | src/components/FIleUpload.js:270-272 | the step-1 callback replaces `images.front` with the value's front and keeps `images.back` |
| ReturnWorkflow.FileUpload.SetBackImage | src/components/FIleUpload.js:281-283 | the step-2 callback replaces `images.back` with the value's back and keeps `images.front` |
| ReturnWorkflow.FileUpload.SetResult | src/components/FIleUpload.js:280 | the step-2 uploader's `setResult` stores the aggregate |
| ReturnWorkflow.Uploader.ForFront | src/components/FIleUpload.js:265-273 | the step-1 uploader sends "front", has the no-op `setResult` and starts with no file, an empty preview and no upload in progress |
| ReturnWorkflow.Uploader.ForBack | src/components/FIleUpload.js:275-284 | the step-2 uploader sends "back", reports the result and starts with no file, an empty preview and no upload in progress |
| ReturnWorkflow.Uploader.HandleFileChange | src/components/FIleUpload.js:474-485 | picking nothing changes nothing; picking a file selects it and shows its data URI |
| ReturnWorkflow.Uploader.PendingRequest | src/components/FIleUpload.js:487-494 | no request without a file; otherwise the file tagged with the uploader's type |
| ReturnWorkflow.Uploader.HandleSubmit | src/components/FIleUpload.js:487-546 | Without a file, nothing is sent and nothing changes. A thrown request clears the file and the preview and keeps the page. A non-200 status changes nothing. A 200 advances the page by one step, sets the result only in the step-2 uploader on a final body, and sets the image of the uploader's side by the closure rule. The progress flag ends false |
| HomePage.ComparisonTag | src/components/Home.js:28 | the tag is "front" exactly at step 1 and "back" at every other step |
| HomePage.Settle | src/components/Home.js:30-59 | A failure keeps step, message and result. A final 200 records the aggregate, reports completion and returns to step 0. An intermediate 200 moves to step 2 with the back-image prompt and keeps the result. The progress flag ends false |
| HomePage.IntermediateKeepsBackStep | src/components/Home.js:48-51 | a second intermediate answer at step 2 stays at step 2 and keeps the result |
| HomePage.FailuresOnlyStopProgress | src/components/Home.js:52-59 | any run of failed uploads keeps step, message and result |
| HomePage.Home.constructor | src/components/Home.js:7-10 | step 0, the start message, no result and no upload in progress |
| HomePage.Home.HandleStartClick | src/components/Home.js:12-17 | step 1 with the front-image prompt, no result and no upload in progress |
| HomePage.Home.PendingRequest | src/components/Home.js:19-28 | no request without a file; otherwise the file tagged by the current step |
| HomePage.Home.HandleFileChange | src/components/Home.js:19-60 | without a file nothing is sent and nothing changes; otherwise the page settles on the outcome as `Settle` states |
| Protocol.ToBody | Backend/app.py:108-123 | a body is final exactly for the combined response; its aggregate carries the verdict label, the averages and both entries; no body carries an annotated image |
| Protocol.Deliver | src/components/FIleUpload.js:498-508 | a 200 answer resolves with its body and every 400 or 500 answer is thrown |
| Protocol.HomeReturn | src/components/Home.js:12-60 | a home-page return against a fresh service sends "front" then "back", passes steps 1, 2, 0, ends with the combined aggregate (its verdict being the decision list on the averages) and leaves the service empty |
| Protocol.FileUploadReturn | src/components/FIleUpload.js:146-308 | a return-page session runs steps 0 to 5 and back to 0. It shows the combined aggregate and reviews two absent images, and the new return drops the result with the service empty |
| Protocol.UploadPhase | src/components/FIleUpload.js:265-284 | the two uploads take the page from step 1 to step 3 with the combined aggregate as result and both images absent, and empty the service |
| Protocol.FrontImageTurn | src/components/FIleUpload.js:265-273 | against an empty service, the front upload is stored, the page advances by one, keeps its result and sets the front image to the absent annotated image |
| Protocol.BackImageTurn | src/components/FIleUpload.js:275-284 | against a service holding the front entry, the back upload completes the session: the page advances by one with the combined aggregate and the service is emptied |
| Protocol.FillInReferences | src/components/FIleUpload.js:186-208 | four non-blank entries typed and submitted clear the form and advance the page by one step |
| Protocol.FrontUploadRetry | src/components/FIleUpload.js:535-541 | a front upload the service fails on is thrown on the client: the file and preview are dropped, the page and the service keep their state, and a retry advances to step 2 with the front entry stored |

## Left out

- Image processing is left out: ResNet50 features, SSIM, normalisation and the dot product. The per-image similarity and SSI are inputs (`Measurement`), and an exception while saving or measuring the file is the `Raised` input.
- `round(..., 2)` on the stored metrics and the averages is left out. Averages are exact `real` halves of sums, and the stored metrics are taken as already rounded.
- Floating-point comparison in `classify_condition` is modelled over `real`.
- Saving the file, timestamps, directory creation, logging, Flask, CORS and `jsonify` are left out. The request is a record (a file part present or not, and the optional type) and the response is a datatype.
- Concurrent requests sharing `comparison_results` are left out. Requests form a sequential stream.
- The network call itself is left out. Each page's handler takes the outcome of its POST as a parameter. `isUploading` is true only while that call is awaited, so that state is not observable in a model where the outcome is given.
- The `FileReader` preview is left out. The data URI is a parameter of `Uploader.HandleFileChange`, which stands for the read completing.
- Toasts, alerts and console output are left out.
- Rendering is left out: JSX, styled components, the stepper and the conditional mounting of views by step.
- The return page's form calls `handleSubmit` from both the button's click and the form's submit. Both calls compute from the same state, so the model treats them as one submission.
- `clickHandler` (navigation to `/`), `Header` and `App` are not part of this model. They hold only presentation and routing.
- `DeviceSelector` is not part of this model. It ignores its `options` and `disabled` props and passes the DOM change event, not the selected value, to `onSelectionChange` (`src/components/DeviceSelector.js:32`, `:42`). With that wiring, `onCategoryChange` receives an event object, and the filter lists no device for any choice.
- ReturnWorkflow.FileUpload.OnCategoryChange: takes the string category key that the page's handler expects, not the event object that the current `DeviceSelector` wiring passes to it.
- `Backend/test1.py` is not part of this model. It is an offline image-processing script.
- Text.IsWhitespace: covers the ECMAScript whitespace and line-terminator code points. It assumes strings are sequences of code points, not UTF-16 units.
- Protocol.Deliver: states axios's default status validation as the model's assumption about the library; axios itself is not part of this model.
