# TheoLingua form and pricing logic in Dafny

This project models the small pieces of sequential logic in TheoLingua's web front end and one API route, and proves properties about them:

- **Combo pricing and checkout dialog** (`ComboPricing`, `ComboCheckout`).
  - Plans of the Basics and Advanced programs are matched by duration.
  - The matched plans are priced as an itemised breakdown in paise: an optional workbook for each plan, and a percentage discount taken from the Basics plan.
  - The dialog's `duration`, `includeWorkbooks` and `loading` state changes as buttons are clicked and as the payment widget calls back.
- **Cascading topic composer** (`TopicComposer`). Program, unit and chapter are selected in turn. Units and chapters can be created inline. The topic draft has content fields, and a predicate decides when the draft can be submitted.
- **Topic edit dialog** (`TopicEditor`). Incoming topic content is normalised into a fully populated record. Fields are edited one at a time, and iframe content is checked before submission.
- **Upload widget** (`FileUploadWidget`). It covers the size gate, the upload's success and failure transitions, removal and the drag highlight. It also uses the shared size label (`SizeFormat`).
- **File manager page** (`FileManager`). It covers:
  - the admin gate;
  - the case-insensitive filename search;
  - total size and latest upload;
  - the extension that picks the icon;
  - the marker on the file being deleted.
- **Demo-booking dialog** (`DemoBooking`). It covers field edits, the payload it posts, the submitting and submitted flags, the error message shown, and the delayed reset.
- **Form relay route** (`FormsRelay`). It maps the posted body to the stored contact record using JavaScript `||` fallbacks, and maps the external API's answer to the HTTP reply.

Components whose state changes step by step are classes. Their handlers are methods whose `modifies` clauses name exactly the fields the handler sets.

An `async` handler whose request takes time is split into two methods:

- one that runs up to the request and returns what it sends;
- one that takes the request's outcome as a parameter.

For example, `handleSubscribe` in the combo dialog is `BeginSubscribe` (up to the order request) and `FinishOrder` (the order reply and the widget script). While the order is in flight, further clicks run against the state in between.

A flag that is "true during the request, false afterwards" is therefore visible in the contracts. The following are all parameters: fetched lists, responses, the payment widget's callbacks, the preview reader, the reset timer, the confirmation dialog, and what `JSON.parse` or `JSON.stringify` produce.

Pure derivations are functions with named results, and the lemmas beside them state what the code promises.

The shared helpers are `Wrappers.Option` (JavaScript's missing values) and `Text`, which models `trim`, `toLowerCase`, `includes`, `endsWith` and the falsy `||` on strings over ASCII. `Numbers` holds `Math.round` in exact integers and decimal printing.

## Model

| member | source | states |
|---|---|---|
| Text.Trim | components/admin/UniversalTopicForm.tsx:227-233 | `trim` returns the slice of the string between a blank prefix and a blank suffix, and the slice neither starts nor ends with white space, so only the white space at the two ends is removed |
| Text.TrimStart | components/admin/UniversalTopicForm.tsx:227-233 | the leading white space is dropped: the result is a suffix, everything before it is white space, and it does not start with white space |
| Text.TrimEnd | components/admin/UniversalTopicForm.tsx:227-233 | the trailing white space is dropped: the result is a prefix, everything after it is white space, and it does not end with white space |
| Text.TrimEmptyIffBlank | components/admin/UniversalTopicForm.tsx:227-233 | `!s.trim()` holds exactly when every character is white space (`IsBlank`) |
| Text.Lower | app/admin/files/page.tsx:138 | `toLowerCase` keeps the length and maps each character through the ASCII lowercase table |
| Text.Contains | app/admin/files/page.tsx:137-139 | `includes` holds exactly when the substring occurs at some position |
| Text.Or | app/api/forms/route.ts:16-19 | `x \|\| fallback` on a string gives the value when it is present and non-empty, and the fallback otherwise |
| Numbers.RoundHalfUp | components/dashboard/ComboSubscriptionDialog.tsx:71 | `Math.round(n/d)` is the integer within a half of n/d, and a half rounds up |
| Numbers.NatToString | components/ui/FileUpload.tsx:132 | decimal printing gives non-empty digits whose value is the number, with a leading zero only in "0" itself |
| Numbers.IntToString | components/ui/FileUpload.tsx:132 | `String(i)` has a leading '-' exactly for negatives, followed by the digits of the magnitude |
| SizeFormat.ScaledTenths | components/ui/FileUpload.tsx:133-134 | `toFixed(1)` of bytes/unit gives the tenths nearest to the exact quotient |
| SizeFormat.OneDecimal | components/ui/FileUpload.tsx:133-134 | the one-decimal figure is digits, a dot and one digit, and reading it back gives the number of tenths |
| SizeFormat.FormatFileSize | components/ui/FileUpload.tsx:131-135 | the suffix is " B" exactly below 1024, " KB" exactly below 1024², and " MB" otherwise; the B form is `bytes + " B"` (the copy at app/admin/files/page.tsx:119-123 is identical) |
| SizeFormat.ScaledFigureIsNearest | app/admin/files/page.tsx:119-123 | the KB or MB figure is within a twentieth of a unit of the exact size |
| ComboPricing.PlanIndex | components/dashboard/ComboSubscriptionDialog.tsx:58-59 | `find` returns the first plan with the duration; no earlier plan has it; None means no plan has it |
| ComboPricing.FindPlan | components/dashboard/ComboSubscriptionDialog.tsx:58-59 | the found plan is in the list, has the duration and comes first; none is found iff no plan has the duration |
| ComboPricing.MatchedByDurationOnly | components/dashboard/ComboSubscriptionDialog.tsx:58-59 | matching depends only on durations: lists with the same durations pick the same position, whatever their ids and prices |
| ComboPricing.Price | components/dashboard/ComboSubscriptionDialog.tsx:65-72 | the contract lists each rule in turn: a workbook amount is the plan's price (missing counts as 0) when workbooks are included, and 0 otherwise; each program's total is its plan price plus its workbook amount; the original total is the sum of the two; the discount percent comes from the basics plan only; the discount is the rounded percentage of the total; final + discount = original |
| ComboPricing.PriceBounds | components/dashboard/ComboSubscriptionDialog.tsx:71-72 | with non-negative prices and a percent in 0..100, the discount and the final total both lie in 0..original |
| ComboPricing.WorkbooksAddTheirPrices | components/dashboard/ComboSubscriptionDialog.tsx:65-69 | including workbooks adds exactly both workbook prices to the original total |
| ComboPricing.Breakdown | components/dashboard/ComboSubscriptionDialog.tsx:57-92 | no breakdown (the dialog renders nothing) iff either program lacks the duration; otherwise the first matching plans, priced |
| ComboPricing.WorkedExamples | components/dashboard/ComboSubscriptionDialog.tsx:65-72 | 10% off 399+499 rupees gives 8980 paise off 89800 paise; with workbooks it gives 13970 paise off 139700 paise |
| ComboCheckout.ComboDialog.constructor | components/dashboard/ComboSubscriptionDialog.tsx:42-47 | the duration starts at the prop (default 3); workbooks and loading start off |
| ComboCheckout.ComboDialog.CurrentQuote | components/dashboard/ComboSubscriptionDialog.tsx:57-88 | the memoised breakdown uses plans of both programs with the current duration; without workbooks the original total is the two plan prices |
| ComboCheckout.ComboDialog.Renders | components/dashboard/ComboSubscriptionDialog.tsx:90-92 | the dialog renders exactly when both programs have a plan of the current duration |
| ComboCheckout.ComboDialog.PayEnabled | components/dashboard/ComboSubscriptionDialog.tsx:319-327 | Pay and Cancel are enabled only when the dialog renders and loading is off |
| ComboCheckout.ComboDialog.WorkbooksOffered | components/dashboard/ComboSubscriptionDialog.tsx:261-268 | the workbook button is shown only in a rendered dialog, and then (with non-negative workbook prices) including workbooks raises the original total |
| ComboCheckout.ComboDialog.Open | components/dashboard/ComboSubscriptionDialog.tsx:50-54 | opening resets the duration to the prop and changes nothing else |
| ComboCheckout.ComboDialog.ChooseDuration | components/dashboard/ComboSubscriptionDialog.tsx:204-208 | a duration button sets the duration to that basics plan's months |
| ComboCheckout.ComboDialog.ToggleWorkbooks | components/dashboard/ComboSubscriptionDialog.tsx:261-268 | the workbook button, shown when either plan has a positive workbook price, flips the flag |
| ComboCheckout.ComboDialog.BeginSubscribe | components/dashboard/ComboSubscriptionDialog.tsx:94-108 | the order carries both program ids, the current duration, RAZORPAY and the workbook flag; loading is set and the order is in flight |
| ComboCheckout.ComboDialog.FinishOrder | components/dashboard/ComboSubscriptionDialog.tsx:110-181 | the widget opens for the order that was sent, whatever the selection is by then, and loading stays set; a failed order step, unreadable reply or missing widget script clears loading; no order is in flight afterwards |
| ComboCheckout.ComboDialog.ClickPay | components/dashboard/ComboSubscriptionDialog.tsx:324-327 | an order is sent iff the breakdown exists and loading is off; a refused click changes neither loading nor the order in flight |
| ComboCheckout.ComboDialog.Dismiss | components/dashboard/ComboSubscriptionDialog.tsx:168-170 | dismissing the widget clears loading |
| ComboCheckout.ComboDialog.PaymentHandled | components/dashboard/ComboSubscriptionDialog.tsx:135-159 | a verified payment asks to close the dialog once; neither outcome touches loading |
| ComboCheckout.ComboDialog.CloseFromDialog | components/dashboard/ComboSubscriptionDialog.tsx:185 | the dialog's own close asks to close even while loading |
| ComboCheckout.ComboDialog.ClickCancel | components/dashboard/ComboSubscriptionDialog.tsx:316-320 | Cancel asks to close only while it is enabled (not loading) |
| ComboCheckout.ToggleTwiceRestoresQuote | components/dashboard/ComboSubscriptionDialog.tsx:57-88 | two workbook toggles give back the original breakdown |
| ComboCheckout.RepeatedPaySendsOneOrder | components/dashboard/ComboSubscriptionDialog.tsx:94-96 | Pay clicked again while the order request is in flight, and again once the widget is open, sends no second order (the only guard is the disabled button at 326) |
| ComboCheckout.DurationChosenMidOrder | components/dashboard/ComboSubscriptionDialog.tsx:204-208 | the duration buttons stay live while the order is in flight; a new duration chosen then changes the selection but the widget opens for the order with the old duration |
| TopicComposer.EditContent | components/admin/UniversalTopicForm.tsx:146-155 | a content edit sets the named field and keeps every other field, including the type |
| TopicComposer.SwitchingTypeKeepsOtherFields | components/admin/UniversalTopicForm.tsx:146-155 | changing the content type keeps the url, video, pdf and text values |
| TopicComposer.ApplyChange | components/admin/UniversalTopicForm.tsx:142-144 | an input edit changes only its own field; the order index keeps `parseInt`'s result, including NaN (438) |
| TopicComposer.AddTopicDisabled | components/admin/UniversalTopicForm.tsx:227-233 | disabled iff a selection is empty, the name or duration is all white space, or the type is empty |
| TopicComposer.Composer.constructor | components/admin/UniversalTopicForm.tsx:55-83 | empty lists and selections, the default draft, all flags off |
| TopicComposer.Composer.SubmitDisabled | components/admin/UniversalTopicForm.tsx:535 | an enabled Create button implies all three selections are made, no submit is running, and the name and duration have non-blank trimmed text |
| TopicComposer.Composer.OrderIndexAccepted | components/admin/UniversalTopicForm.tsx:433-442 | the browser accepts the order index only when it is a number (NaN shows as an empty `required` field) and at least `min="0"` |
| TopicComposer.Composer.Open | components/admin/UniversalTopicForm.tsx:88-109 | opening empties both lists and all three selections and restores the default draft (VIDEO, EXTERNAL_LINK, order 0); the chapter invariant holds |
| TopicComposer.Composer.ProgramsLoaded | components/admin/UniversalTopicForm.tsx:90-94 | a fetched program list replaces the old one when it is an array, and otherwise the list becomes empty |
| TopicComposer.Composer.UnitsLoaded | components/admin/UniversalTopicForm.tsx:114-118 | the same rule for units |
| TopicComposer.Composer.ChaptersLoaded | components/admin/UniversalTopicForm.tsx:128-132 | the same rule for chapters |
| TopicComposer.Composer.SelectProgram | components/admin/UniversalTopicForm.tsx:112-123 | changing to a non-empty program clears chapters, unit and chapter; otherwise only the selection changes; the rest of the draft is kept |
| TopicComposer.Composer.SelectUnit | components/admin/UniversalTopicForm.tsx:126-135 | changing to a non-empty unit clears the chapter selection; otherwise only the selection changes |
| TopicComposer.Composer.SelectChapter | components/admin/UniversalTopicForm.tsx:138-140 | the draft's chapterId follows the selected chapter |
| TopicComposer.Composer.Change | components/admin/UniversalTopicForm.tsx:142-144 | an input edit is applied to the draft, and the chapter invariant is kept |
| TopicComposer.Composer.ChangeContent | components/admin/UniversalTopicForm.tsx:146-155 | a content edit is applied to the draft's content only |
| TopicComposer.Composer.ShowUnitForm | components/admin/UniversalTopicForm.tsx:280-284 | "+ Add" opens the unit form only when a program is selected |
| TopicComposer.Composer.TypeUnitName | components/admin/UniversalTopicForm.tsx:294 | typing stores the new unit name |
| TopicComposer.Composer.CancelUnitForm | components/admin/UniversalTopicForm.tsx:316 | Cancel hides the unit form and clears the name |
| TopicComposer.Composer.BeginAddUnit | components/admin/UniversalTopicForm.tsx:171-187 | no request without a program or with a blank name; otherwise the request carries the name, the color, unlocked, the old unit count as order index and the program |
| TopicComposer.Composer.ClickAddUnit | components/admin/UniversalTopicForm.tsx:289-308 | Add and Enter exist only in the shown unit form, and send nothing while a unit is being added |
| TopicComposer.Composer.FinishAddUnit | components/admin/UniversalTopicForm.tsx:188-197 | on success the unit is appended at the end and selected, its name is cleared and the form hidden; on failure nothing but `addingUnit` changes; `addingUnit` ends false |
| TopicComposer.Composer.ShowChapterForm | components/admin/UniversalTopicForm.tsx:345-349 | "+ Add" opens the chapter form only when a unit is selected |
| TopicComposer.Composer.TypeChapterName | components/admin/UniversalTopicForm.tsx:359 | typing stores the new chapter name |
| TopicComposer.Composer.CancelChapterForm | components/admin/UniversalTopicForm.tsx:381 | Cancel hides the chapter form and clears the name |
| TopicComposer.Composer.BeginAddChapter | components/admin/UniversalTopicForm.tsx:201-213 | the same rules against the selected unit; the order index is the old chapter count |
| TopicComposer.Composer.ClickAddChapter | components/admin/UniversalTopicForm.tsx:354-373 | Add and Enter exist only in the shown chapter form, and send nothing while a chapter is being added |
| TopicComposer.Composer.FinishAddChapter | components/admin/UniversalTopicForm.tsx:214-223 | on success the chapter is appended and selected, and the draft's chapterId follows; on failure nothing else changes |
| TopicComposer.Composer.BeginSubmit | components/admin/UniversalTopicForm.tsx:157-161 | submitting hands over the draft and sets isLoading |
| TopicComposer.Composer.FinishSubmit | components/admin/UniversalTopicForm.tsx:161-168 | `onClose` is called only after success; isLoading ends false |
| TopicComposer.Composer.ClickCreate | components/admin/UniversalTopicForm.tsx:433-535 | Create submits iff the topic is complete, no submit is running and the order index passes `required` and `min="0"`; what is sent has a name and a non-negative order index |
| TopicEditor.NormalizeContent | components/admin/TopicForm.tsx:89-97 | the type defaults to external_link when falsy and is never empty; every other field defaults to '' |
| TopicEditor.UnparsableContentIsDefault | components/admin/TopicForm.tsx:72-85 | unparsable string content, and missing content, both become external_link with empty fields |
| TopicEditor.NormalizeIsIdempotent | components/admin/TopicForm.tsx:89-97 | normalising normalised content changes nothing |
| TopicEditor.FromInitial | components/admin/TopicForm.tsx:104-107 | incoming data is copied field by field, with only the content normalised |
| TopicEditor.DefaultTopic | components/admin/TopicForm.tsx:108-126 | the blank topic is in the prop's chapter, of type video, with order 0 and default content |
| TopicEditor.UpdateContent | components/admin/TopicForm.tsx:156-165 | a content edit sets the named field and keeps the others; the type is kept (an empty type becomes external_link) unless the type itself is set |
| TopicEditor.UpdateTopic | components/admin/TopicForm.tsx:152-154 | an edit changes only its own top-level field; a non-numeric order index becomes 0 (234) |
| TopicEditor.IframeAccepted | components/admin/TopicForm.tsx:133-139 | refused iff the type is iframe and the HTML is non-empty with no `<iframe` anywhere in it |
| TopicEditor.TopicDialog.constructor | components/admin/TopicForm.tsx:45-61 | the blank topic for the chapter; not loading |
| TopicEditor.TopicDialog.Open | components/admin/TopicForm.tsx:64-127 | with incoming data, the form is the normalised copy; without it, the blank topic for the chapter |
| TopicEditor.TopicDialog.Update | components/admin/TopicForm.tsx:152-154 | a top-level edit is applied to the form |
| TopicEditor.TopicDialog.UpdateContentField | components/admin/TopicForm.tsx:156-165 | a content edit is applied to the form's content |
| TopicEditor.TopicDialog.BeginSubmit | components/admin/TopicForm.tsx:129-142 | refused iframe content sends nothing and leaves loading alone; otherwise the form is sent and loading is set |
| TopicEditor.TopicDialog.FinishSubmit | components/admin/TopicForm.tsx:141-149 | `onClose` is called only after success; loading ends false |
| TopicEditor.TopicDialog.ClickSave | components/admin/TopicForm.tsx:180-186 | Save submits iff not loading, the `required` name is non-empty and the iframe check passes; what is sent has a name |
| FileUploadWidget.TooLarge | components/ui/FileUpload.tsx:40-44 | the gate refuses exactly the sizes beyond maxSizeMB whole mebibytes |
| FileUploadWidget.FirstFile | components/ui/FileUpload.tsx:94-95 | the first file of the selection is used, and there is none for an empty selection |
| FileUploadWidget.IsImage | components/ui/FileUpload.tsx:47 | a file gets a preview exactly when its MIME type starts with "image/" |
| FileUploadWidget.FailureMessage | components/ui/FileUpload.tsx:75-86 | the message is the reply's error or "Upload failed", a thrown Error's message, or "Failed to upload file" |
| FileUploadWidget.Uploader.constructor | components/ui/FileUpload.tsx:26-34 | maxSizeMB defaults to 10 and the folder to theolingua; nothing is uploaded or previewed |
| FileUploadWidget.Uploader.Upload | components/ui/FileUpload.tsx:37-58 | a file that is too large sends no request and changes nothing; otherwise the request carries the file and folder, uploading is set, and only an image starts a preview |
| FileUploadWidget.Uploader.PreviewLoaded | components/ui/FileUpload.tsx:47-53 | the read data URL becomes the preview |
| FileUploadWidget.Uploader.FinishUpload | components/ui/FileUpload.tsx:59-91 | on success the descriptor is stored and reported once; on failure the preview is cleared, nothing is stored and the message is returned; uploading ends false |
| FileUploadWidget.Uploader.SelectFiles | components/ui/FileUpload.tsx:93-97 | the first selected file is uploaded; an empty selection does nothing |
| FileUploadWidget.Uploader.DragOver | components/ui/FileUpload.tsx:99-102 | drag-over sets the highlight |
| FileUploadWidget.Uploader.DragLeave | components/ui/FileUpload.tsx:104-107 | drag-leave clears it |
| FileUploadWidget.Uploader.Drop | components/ui/FileUpload.tsx:109-117 | drop clears the highlight and uploads the first dropped file |
| FileUploadWidget.Uploader.Remove | components/ui/FileUpload.tsx:119-125 | remove clears the descriptor and the preview, and nothing else |
| FileManager.Gate | app/admin/files/page.tsx:48-60 | files load iff the user is an ADMIN; a signed-in non-admin whose role is known is redirected; with no user the page only waits |
| FileManager.FileManagerPage.Screen | app/admin/files/page.tsx:143-290 | the page shows anything exactly when the gate loads files, so never to a redirected or signed-out user; an admin sees "Loading files..." exactly while loading, "No files found" exactly for an empty search result, and otherwise the matching files |
| FileManager.Matches | app/admin/files/page.tsx:137-139 | the empty query matches every file, and a query longer than the name never matches |
| FileManager.Filter | app/admin/files/page.tsx:137-139 | a file is kept iff its lowercased name contains the lowercased query |
| FileManager.FilterAppend | app/admin/files/page.tsx:137-139 | filtering commutes with concatenation, so the kept files keep their order |
| FileManager.EmptyQueryKeepsAll | app/admin/files/page.tsx:137-139 | an empty query keeps every file |
| FileManager.LowerIsIdempotent | app/admin/files/page.tsx:138 | lowercasing twice is lowercasing once |
| FileManager.QueryCaseIgnored | app/admin/files/page.tsx:137-139 | the query's case does not change the result |
| FileManager.TotalSize | app/admin/files/page.tsx:141 | the total is 0 for no files, a single file's size for one file, and at least every single file's size |
| FileManager.TotalSizeAppend | app/admin/files/page.tsx:141 | the total of two lists together is the sum of their totals, which with the one-file case makes it the sum of all sizes |
| FileManager.FilteredSizeAtMostTotal | app/admin/files/page.tsx:141 | the total counts all files, and never less than the files a search shows |
| FileManager.LatestModified | app/admin/files/page.tsx:227-230 | the latest upload is some file's `modified` and no file's is later; it is N/A exactly for no files |
| FileManager.AfterLastDot | app/admin/files/page.tsx:130 | the extension is the dot-free suffix after the last dot, or the whole name if there is no dot |
| FileManager.ExtensionAfterLastDot | app/admin/files/page.tsx:129-135 | for base.ext the icon reads the lowercased ext, whatever the base contains |
| FileManager.ExtensionCaseIgnored | app/admin/files/page.tsx:129-135 | the image icon ignores the extension's case (logo.PNG is an image exactly like logo.png) |
| FileManager.Extension | app/admin/files/page.tsx:130 | the extension the icon looks at contains no dot and no capital letter |
| FileManager.IsImageName | app/admin/files/page.tsx:131-134 | the image icon is shown only for an extension of three or four characters |
| FileManager.DeleteKey | app/admin/files/page.tsx:90 | the marker is the folder, a slash, then the filename |
| FileManager.FileManagerPage.constructor | app/admin/files/page.tsx:41-45 | no files, loading, empty query, nothing being deleted |
| FileManager.FileManagerPage.Shown | app/admin/files/page.tsx:137-139 | `filteredFiles` holds exactly the files that match the current query |
| FileManager.FileManagerPage.Total | app/admin/files/page.tsx:141 | the total shown is over all files, so never less than the filtered files' total |
| FileManager.FileManagerPage.DeleteDisabled | app/admin/files/page.tsx:319 | a disabled delete button means a delete is marked, and the marker ends with that file's name after its folder and slash |
| FileManager.FileManagerPage.Search | app/admin/files/page.tsx:244 | typing sets the query |
| FileManager.FileManagerPage.BeginFetch | app/admin/files/page.tsx:62-64 | listing sets loading and asks for the theolingua folder |
| FileManager.FileManagerPage.FinishFetch | app/admin/files/page.tsx:70-84 | a successful listing replaces the files and other outcomes keep them; loading ends false |
| FileManager.FileManagerPage.BeginDelete | app/admin/files/page.tsx:87-90 | declining the confirmation is a no-op; otherwise the file is marked as being deleted and its delete button is disabled |
| FileManager.FileManagerPage.FinishDelete | app/admin/files/page.tsx:102-116 | the marker is cleared, so no delete button stays disabled; only a success starts a new listing |
| DemoBooking.WithField | components/BookDemo.tsx:42-55 | an input or select change updates only the field it names |
| DemoBooking.MakePayload | components/BookDemo.tsx:63-71 | the payload has formName "Demo Booking", the whole form as data, its email and phone, status new, and the fixed source and tags |
| DemoBooking.ErrorMessage | components/BookDemo.tsx:109-120 | a "Failed to fetch" TypeError gives the network message; other Errors give their own message; anything else gives the default |
| DemoBooking.Raised | components/BookDemo.tsx:81-107 | nothing is thrown iff the reply is ok with success; a non-ok reply throws "Server error: status - text"; an unsuccessful reply throws its error or "Failed to submit form" |
| DemoBooking.UnsuccessfulAnswerHasMessage | components/BookDemo.tsx:106-108 | an unsuccessful reply never shows an empty error |
| DemoBooking.AsRelayBody | components/BookDemo.tsx:63-80 | the posted JSON carries each form field under its own key |
| DemoBooking.DemoBookingStoredAs | components/BookDemo.tsx:63-71 | through the relay, a booking is stored with the name (or Unknown), the typed email, the phone (or null if empty), subject Demo Booking and the organisation |
| DemoBooking.ValidEmail | components/BookDemo.tsx:172-181 | an address the `type="email"` input accepts has at least three characters and an '@' |
| DemoBooking.PlaceholderEmailIsValid | components/BookDemo.tsx:178 | the placeholder address your@email.com is accepted |
| DemoBooking.AddressWithoutAtIsInvalid | components/BookDemo.tsx:172-181 | an address without '@' is refused |
| DemoBooking.LeadingHyphenLabelIsInvalid | components/BookDemo.tsx:172-181 | an address whose domain starts with a hyphen is refused |
| DemoBooking.FirstDotAfter | components/BookDemo.tsx:172-181 | the first label of a domain a.b with a dot-free a is a |
| DemoBooking.FormAccepted | components/BookDemo.tsx:160-225 | a form the browser lets through has a name, an organisation and an address with '@' |
| DemoBooking.DemoDialog.constructor | components/BookDemo.tsx:28-40 | closed, empty form, no flags, no error |
| DemoBooking.DemoDialog.SetOpen | components/BookDemo.tsx:126-131 | the trigger, the dialog control and Cancel set `open` |
| DemoBooking.DemoDialog.Change | components/BookDemo.tsx:42-55 | a field edit is applied to the form |
| DemoBooking.DemoDialog.BeginSubmit | components/BookDemo.tsx:57-71 | submitting sets isSubmitting, clears the error and posts the payload of the current form |
| DemoBooking.DemoDialog.ClickSubmit | components/BookDemo.tsx:146-181 | the button exists only in the open dialog before a success; it posts iff no submission is running and the browser accepts the form (name, organisation and a valid e-mail address); what is posted has a valid e-mail and a name |
| DemoBooking.DemoDialog.SettleSubmit | components/BookDemo.tsx:81-123 | success marks the booking submitted and schedules the reset; any failure sets the error message; isSubmitting ends false |
| DemoBooking.DemoDialog.ResetTimerFired | components/BookDemo.tsx:92-105 | the reset clears isSubmitted, closes the dialog and empties every field |
| FormsRelay.Field | app/api/forms/route.ts:16-27 | `data?.[key]` is present iff data has the key |
| FormsRelay.FirstTruthy | app/api/forms/route.ts:18 | `a \|\| b \|\| null` is null iff both are falsy, and otherwise the first truthy value |
| FormsRelay.ToRecord | app/api/forms/route.ts:13-31 | the stored record is built as follows: type CONTACT and status UNREAD; name is data.name or Unknown; email is body.email, then data.email, then '' (empty iff both are falsy); phone is body.phone, then data.phone, then null; subject is formName or Demo Booking; message is data.message, or the serialised data (absent iff data is missing); the metadata is copied |
| FormsRelay.ThrownMessage | app/api/forms/route.ts:63-68 | a caught Error gives its message; anything else gives "Unknown error" |
| FormsRelay.ExternalError | app/api/forms/route.ts:54 | the error text is "External API error: " followed by the status |
| FormsRelay.Handle | app/api/forms/route.ts:4-69 | the record is written iff the body is JSON and the save succeeds, and it is the record built from the body; the reply is chosen as follows: a body that is not JSON, a fetch that throws, or an unreadable ok reply gives 500; a non-ok status is relayed with its own status and an error naming it; an ok reply's JSON is relayed with 200 |
| FormsRelay.Relay | app/api/forms/route.ts:39-61 | after the save, a throwing fetch gives a 500 failure and a non-ok status a failure with that status |
| FormsRelay.SaveFailureDoesNotChangeReply | app/api/forms/route.ts:12-37 | a failed save stores nothing and, absorbed by the inner catch, gives the same reply as a successful one |
| FormsRelay.FailureIffErrorStatus | app/api/forms/route.ts:50-68 | a reply is a failure exactly when its status is not 2xx |

## Left out

- Network requests and their bodies beyond the fields listed are not modelled. Results of fetch calls, the Razorpay script and checkout SDK, the confirmation dialog, FileReader, the reset timer and `JSON.parse`/`JSON.stringify` enter only as parameters or outcome datatypes.
- `alert`, `toast`, `console`, `router.refresh` and focusing inputs are side effects only. They are left out, except that the upload failure message is returned.
- Races between overlapping requests are not modelled, for example a unit list from an older program arriving after a newer selection. Each event is applied to the state in the order given.
- `generateId`, the unit icon and the `id` of the create-unit request are left out. They are random or fixed decoration.
- Unicode case mapping and Unicode white space are not modelled. `Text` works on ASCII.
- ComboPricing.Price: the discount is computed exactly, with a half rounded up. The source computes `originalTotal * (comboDiscount / 100)` in doubles, so a product that is exactly half a paise may round differently there.
- ComboCheckout.ComboDialog.FinishOrder: the error messages shown by `alert` and the Razorpay options (amount, currency, prefill) are not modelled.
- FileUploadWidget.TooLarge: `maxSizeMB` is a natural number here, while the prop may be any number in JavaScript.
- FileUploadWidget.Uploader.Upload: the `accept` filter of the file input is enforced by the browser and is not part of the model.
- `formatDate` and `toLocaleDateString` are left out. They print through the runtime's locale and clock.
- The `showUpload` toggle of the file manager page is left out. So is the upload card it shows, which reuses the upload widget modelled above.
- TopicEditor: `widgetConfig` is left out. It is an untyped object that the dialog only copies.
- TopicComposer.EditContent: the `?? 'EXTERNAL_LINK'` default for the type is not modelled. The draft always carries a type, so that default cannot be reached.
- FileManager.FileManagerPage.BeginFetch: the Refresh button's disabled state while loading is not modelled. Listing is callable at any time.
- FormsRelay.ToRecord: data values are strings here. A truthy non-string value (a number, say) would pass the `||` tests but is not represented. An explicit `"data": null` is not represented either: the source would store the message "null" for it, while the model only has missing data, which stores no message.
- FormsRelay.Handle: a failure while reading the text of a non-ok reply is not modelled. The Prisma write itself enters only as its outcome, written or thrown.
- TopicEditor.TopicDialog.ClickSave: the browser also refuses a non-empty URL, video URL or PDF URL field that is not a valid absolute URL (`type="url"`). URL syntax is not modelled, so the model may send such a topic.
- DemoBooking.ValidEmail: the browser's white-space stripping of the e-mail value happens before the value reaches the state, so it is not modelled separately.
- ComboCheckout: the dialog's own close (`onOpenChange`) during an order in flight only asks the owner to close it. Whether the owner unmounts the dialog, and what happens to the order then, is outside the component.
- Text.IsBlank has no contract of its own. What it means for `trim` is stated by Text.TrimEmptyIffBlank.
