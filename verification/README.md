# Walkthrough inspection form — a Dafny model

This project models the logic of a browser front-end for recording
walkthrough inspections of data-centre racks. The heart of it is the
multi-rack inspection form (`InspectionFlow`). The user first answers
whether issues were found. They can then add and remove racks and pick the
impacted device sections per rack. They fill in the fields of those
sections, keyed by `fieldId-rackIndex`, and submit once validation passes.
Around that sit three smaller parts:

- the dashboard's status counts and its Start Walkthrough menu;
- the reports page's single expanded report and its preview rules;
- the user context's partial-record update and its provider guard.

Layout, one module per concern:

- `wrappers.dfy`: `Option` and `Result`.
- `strings.dfy`: the JavaScript string behaviour the pages rely on. This is
  decimal printing of numbers, `endsWith`, `split`/`join` on one character,
  and upper-casing a first letter.
- `lists.dfy`: `filter(x => x !== v)` (`Remove`) and the
  `includes ? filter : append` toggle (`Toggle`). It also has the general
  `filter(p)` (`Filter`), the set of positions that satisfy `p`
  (`Positions`), the lemma that a filtered length counts those positions
  (`FilterLength`), and the split by a predicate and its complement
  (`FilterPartition`). The dashboard counts are built on these.
- `types.dfy`: the records of `src/types/index.ts`.
- `inspection_flow.dfy`: the form as a class `InspectionForm`, whose fields
  are the component's state variables. Each method replaces what the matching
  setter replaces. Beside the class sit the pure parts: the field-key
  encoding, the validation rules as functions, the loops that build the
  error list, and the data-hall display name.
- `dashboard.dfy`, `reports.dfy`, `user_context.dfy`: the other three pages.

The section schema (`formSections`) is a parameter of the form. Its
contents live in a mock-data module that is not part of this model. The
model therefore never assumes which fields are required.

Behaviour of the code that the model keeps, quirks included:

- With no answer to the found-issues question, `validateForm` returns false
  without calling `setErrors`. The message it pushes is discarded
  (src/pages/InspectionFlow.tsx:56-59).
- Within one rack, the selected sections are checked in the order they were
  selected (src/pages/InspectionFlow.tsx:68).
- The form starts with one rack, index 0, listed and open
  (src/pages/InspectionFlow.tsx:15-17).
- `addRack` uses the current list length as the new index. After a removal
  this can repeat an index that is still present
  (src/pages/InspectionFlow.tsx:91, `InspectionFlow.AddAfterRemoveReusesIndex`).
- Toggling the same report twice restores the selection only when nothing
  was selected or that report was. If another report was selected, the
  result is no selection (src/pages/Reports.tsx:20,
  `Reports.ToggleSelectionTwice`).

## Model

| member | source | states |
|---|---|---|
| `Strings.ParseDecimalOfDecimal` | src/pages/InspectionFlow.tsx:43 | reading back the decimal text of a rack index gives the index |
| `Strings.DecimalInjective` | src/pages/InspectionFlow.tsx:43 | two rack indices print the same exactly when they are equal |
| `Strings.Split` | src/pages/InspectionFlow.tsx:26 | `split('-')` gives at least one piece, no piece holds a '-', and joining the pieces with '-' gives back the input |
| `Strings.SplitCount` | src/pages/InspectionFlow.tsx:26 | `split` gives one piece more than there are separators |
| `Strings.Capitalize` | src/pages/InspectionFlow.tsx:27 | `charAt(0).toUpperCase() + slice(1)` keeps the length, upper-cases the first character and keeps the rest; the empty word stays empty |
| `Lists.Remove` | src/pages/InspectionFlow.tsx:97-98 | `filter(x => x !== v)` drops every `v` and keeps every other element with its multiplicity |
| `Lists.RemoveAppend` | src/pages/InspectionFlow.tsx:97-98 | filtering distributes over concatenation, so the surviving elements keep their order |
| `Lists.RemovePreservesNoDuplicates` | src/pages/InspectionFlow.tsx:118 | filtering a list without duplicates leaves a list without duplicates |
| `Lists.Toggle` | src/pages/InspectionFlow.tsx:33-37 | the toggle flips membership of the toggled element, leaves every other element's membership alone, and appends at the end when adding |
| `Lists.ToggleKeepsNoDuplicates` | src/pages/InspectionFlow.tsx:116-119 | toggling never introduces a duplicate |
| `Lists.ToggleTwice` | src/pages/InspectionFlow.tsx:32-38 | toggling twice restores membership of every element; an absent element leaves the list exactly as it was, and a present one ends up moved to the end |
| `InspectionFlow.ParseFieldKey` | src/pages/InspectionFlow.tsx:43 | every key `fieldId-rack` (`FieldKey`) reads back through `ParseKey` as that field id and that rack |
| `InspectionFlow.FieldKeyOfParse` | src/pages/InspectionFlow.tsx:43 | every key that reads back as a (field, rack) pair is that pair's key |
| `InspectionFlow.RackSuffixIdentifiesRack` | src/pages/InspectionFlow.tsx:107 | a key built for rack `k` ends with `-r` exactly when `k == r`, whatever the field id |
| `InspectionFlow.PurgedKeysAreTheRacks` | src/pages/InspectionFlow.tsx:105-111 | for a well-formed key, the `endsWith` test of removeRack holds exactly when the key belongs to the removed rack |
| `InspectionFlow.PurgeRackKeys` | src/pages/InspectionFlow.tsx:105-111 | the copy-and-delete loop yields formData without exactly the keys ending in `-rack`, other values untouched |
| `InspectionFlow.FindSection` | src/pages/InspectionFlow.tsx:69 | `find` gives nothing exactly when no section has the id, otherwise a section of the schema with that id |
| `InspectionFlow.FindSectionIsFirst` | src/pages/InspectionFlow.tsx:69 | the section found is the first one with that id |
| `InspectionFlow.FieldErrorsAppend` | src/pages/InspectionFlow.tsx:69-73 | the errors of a list of fields are the errors of its parts, in field order |
| `InspectionFlow.DeviceErrorsAppend` | src/pages/InspectionFlow.tsx:68-74 | the errors of a list of selected ids are the errors of its parts, in selection order |
| `InspectionFlow.RackErrorsAppend` | src/pages/InspectionFlow.tsx:63-76 | the errors of a list of racks are the errors of its parts, in rack-list order, so a repeated index is checked twice |
| `InspectionFlow.PushFieldErrors` | src/pages/InspectionFlow.tsx:69-73 | the field loop appends exactly the errors of that section's fields |
| `InspectionFlow.PushSectionErrors` | src/pages/InspectionFlow.tsx:69-73 | one selected id appends exactly its section's field errors, and nothing when no section has that id |
| `InspectionFlow.PushDeviceErrors` | src/pages/InspectionFlow.tsx:68-74 | the device loop appends exactly the errors of the rack's selected ids; an id with no section adds nothing |
| `InspectionFlow.CollectRackErrors` | src/pages/InspectionFlow.tsx:61-77 | the nested loops build exactly the rack error list |
| `InspectionFlow.FieldErrorsEmptyIff` | src/pages/InspectionFlow.tsx:70 | a section's fields (`FieldErrors`) give no error exactly when no required field has a falsy value for the rack; JavaScript falsiness is `Truthy`'s negation: false, 0, the empty string, null and undefined |
| `InspectionFlow.SectionErrorsEmptyIff` | src/pages/InspectionFlow.tsx:69-73 | a selected id gives no error exactly when it is unknown or its section is complete |
| `InspectionFlow.DeviceErrorsEmptyIff` | src/pages/InspectionFlow.tsx:68-74 | a rack's selected ids give no error exactly when every one of them is complete |
| `InspectionFlow.RackErrorsEmptyIff` | src/pages/InspectionFlow.tsx:61-80 | with issues found, validation passes exactly when every listed rack has a non-empty selection and every required field of every known selected section is truthy |
| `InspectionFlow.FieldErrorsMembers` | src/pages/InspectionFlow.tsx:70-71 | a field message appears exactly when some required field is falsy; it names that field's label, the device id and the 1-based rack |
| `InspectionFlow.DeviceErrorsMembers` | src/pages/InspectionFlow.tsx:68-74 | a rack's device messages are exactly those of its selected, known sections |
| `InspectionFlow.RackErrorsMembers` | src/pages/InspectionFlow.tsx:62-76 | in the rack error list (`RackErrors`), a message appears exactly when a listed rack lacks a selection, or when a known selected section of a listed rack has a falsy required field |
| `InspectionFlow.CapitalizeAll` | src/pages/InspectionFlow.tsx:26-27 | `map` keeps the number of words and capitalizes each one |
| `InspectionFlow.JoinCapitalized` | src/pages/InspectionFlow.tsx:26-28 | for words without '-', capitalizing and joining with ' ' relabels the '-'-joined text character by character |
| `InspectionFlow.DatahallNameChars` | src/pages/InspectionFlow.tsx:26-28 | the display name (`DatahallName`) keeps the id's length; each '-' becomes a space, each word's first character is upper-cased, and every other character is kept |
| `InspectionFlow.DatahallNameWords` | src/pages/InspectionFlow.tsx:26-28 | the name has one word per '-'-separated piece of the id |
| `InspectionFlow.InspectionForm.DatahallTitle` | src/pages/InspectionFlow.tsx:26-28 | the heading of the form built for a data-hall id has the id's length, a space for each '-', an upper-cased first letter for each word and the id's other characters |
| `InspectionFlow.RacksAfterAdding` | src/pages/InspectionFlow.tsx:90-94 | starting from `[0]`, `n` additions give the indices `0..n` in order |
| `InspectionFlow.AddAfterRemoveReusesIndex` | src/pages/InspectionFlow.tsx:90-98 | after `n` additions, removing any rack but the last and adding again puts index `n` in the list twice |
| `InspectionFlow.DuplicateRackIndexExample` | src/pages/InspectionFlow.tsx:90-98 | `[0,1,2]`, then removing 1, then adding gives `[0,2,2]` |
| `InspectionFlow.InspectionForm.constructor` | src/pages/InspectionFlow.tsx:11-24 | entering the flow needs a data-hall id; the state starts with rack 0 open, no data, no selection, no answer and no errors |
| `InspectionFlow.InspectionForm.SetFoundIssues` | src/pages/InspectionFlow.tsx:148-158 | the two answer buttons set the flag and touch no rack data |
| `InspectionFlow.InspectionForm.ToggleRack` | src/pages/InspectionFlow.tsx:32-38 | the open list is toggled for that rack; no other rack's openness and no other state changes |
| `InspectionFlow.InspectionForm.HandleFieldChange` | src/pages/InspectionFlow.tsx:40-45 | formData gets the value at `fieldId-rack` with no coercion; every other key is unchanged; keys stay well formed |
| `InspectionFlow.InspectionForm.AddRack` | src/pages/InspectionFlow.tsx:90-94 | the pre-call length is appended to both the rack list and the open list |
| `InspectionFlow.InspectionForm.RemoveRack` | src/pages/InspectionFlow.tsx:96-112 | the index leaves both lists, other racks keep their order, its selection entry goes, and exactly the keys of that rack leave formData |
| `InspectionFlow.InspectionForm.ToggleDeviceSelection` | src/pages/InspectionFlow.tsx:114-126 | only that rack's list changes, by the toggle; the entry stays even when empty; no list gets a duplicate |
| `InspectionFlow.InspectionForm.ValidateForm` | src/pages/InspectionFlow.tsx:53-81 | with no answer: false and errors untouched; with "no issues": errors cleared and true; otherwise errors become the rack error list and the result is whether it is empty |
| `InspectionFlow.InspectionForm.HandleSubmit` | src/pages/InspectionFlow.tsx:83-88 | the submission happens exactly when validation passes, with the same effect on errors |
| `Lists.Filter` | src/pages/Dashboard.tsx:15-17 | `filter(p)` keeps exactly the elements satisfying `p`, each as many times as it occurs in the input |
| `Lists.FilterAppend` | src/pages/Dashboard.tsx:15-17 | filtering distributes over concatenation, so the kept elements stay in order |
| `Lists.FilterLength` | src/pages/Dashboard.tsx:15-17 | `filter(p).length` is the number of positions whose element satisfies `p` |
| `Lists.FilterPartition` | src/pages/Dashboard.tsx:16-17 | filtering by a predicate and by its complement gives lengths that add up to the input's length |
| `Dashboard.CompletedInspections` | src/pages/Dashboard.tsx:15 | the filter keeps exactly the completed inspections, each with its multiplicity |
| `Dashboard.ActiveIssues` | src/pages/Dashboard.tsx:16 | the filter keeps exactly the open and in-progress issues, each with its multiplicity |
| `Dashboard.ResolvedIssues` | src/pages/Dashboard.tsx:17 | the filter keeps exactly the resolved issues, each with its multiplicity |
| `Dashboard.ActiveResolvedPartition` | src/pages/Dashboard.tsx:16-17 | active plus resolved equals the number of issues, since the status has three values |
| `Dashboard.ActiveIssuesAppend` | src/pages/Dashboard.tsx:16 | the active filter is computed issue by issue: it distributes over concatenation |
| `Dashboard.Counts` | src/pages/Dashboard.tsx:15-17 | completed is at most the number of inspections; active plus resolved is the number of issues |
| `Dashboard.CountsCountMatches` | src/pages/Dashboard.tsx:15-17 | each card's number is the number of inspections or issues whose status matches it |
| `Dashboard.WalkthroughMenu.constructor` | src/pages/Dashboard.tsx:12 | the dropdown starts closed |
| `Dashboard.WalkthroughMenu.ToggleDropdown` | src/pages/Dashboard.tsx:35 | the Start Walkthrough button flips the dropdown |
| `Dashboard.WalkthroughMenu.CloseDropdown` | src/pages/Dashboard.tsx:47 | a backdrop click closes the dropdown |
| `Dashboard.WalkthroughMenu.StartWalkthrough` | src/pages/Dashboard.tsx:19-22 | the route carries the chosen id unchanged and the dropdown closes |
| `Reports.ToggleSelection` | src/pages/Reports.tsx:19-21 | the selection becomes empty exactly when that id was selected, and otherwise becomes that id |
| `Reports.ToggleSelectionTwice` | src/pages/Reports.tsx:19-21 | two toggles of one id restore the selection exactly when it was empty or that id; otherwise they leave it empty |
| `Reports.ExpandedReports` | src/pages/Reports.tsx:129 | the expanded reports are exactly those whose id is the selection |
| `Reports.AtMostOneExpanded` | src/pages/Reports.tsx:129 | with distinct report ids, at most one report is expanded |
| `Reports.PreviewOf` | src/pages/Reports.tsx:63-83 | the preview is "No issues found" exactly for no issues; otherwise it lists the first `min(3, n)` issues in order, and the "+N more" note appears exactly when some are hidden, with N the number hidden |
| `Reports.MoreIssuesText` | src/pages/Reports.tsx:79 | the note is '+', then the hidden count in decimal without leading zeros (the digits read back as the count), then " more issues" |
| `Reports.PreviewNoteCountsHidden` | src/pages/Reports.tsx:78-80 | a preview (`PreviewOf`, `PreviewNote`) shows the note exactly when there are more than three issues, and the note's number, which has no leading zero, reads back as the number of issues not listed |
| `Reports.HasCritical` | src/pages/Reports.tsx:97 | the Critical badge shows exactly when some issue is critical |
| `Reports.SeverityColoursDistinct` | src/pages/Reports.tsx:69-72 | in the dot colours (`SeverityColour`), critical, high, medium and the rest get four different colours, and only the low severity gets the default |
| `Reports.ReportsView.constructor` | src/pages/Reports.tsx:9-11 | no filters, all reports listed, nothing selected |
| `Reports.ReportsView.HandleFilterChange` | src/pages/Reports.tsx:13-17 | the filters are stored, yet the list is reset to all reports |
| `Reports.ReportsView.ToggleReportSelection` | src/pages/Reports.tsx:19-21 | the selection is toggled for that id |
| `Reports.ReportsView.CloseDetails` | src/pages/Reports.tsx:168 | Close Details clears the selection |
| `UserContext.Merge` | src/context/UserContext.tsx:15-17 | every property present in the update takes its value; every absent one keeps the previous value |
| `UserContext.MergeNoChanges` | src/context/UserContext.tsx:16 | `updateUser({})` leaves the user unchanged |
| `UserContext.MergeIdempotent` | src/context/UserContext.tsx:16 | applying an update twice equals applying it once |
| `UserContext.MergeSequential` | src/context/UserContext.tsx:16 | two updates in a row equal one combined update in which the second's properties win |
| `UserContext.AvatarUploadChangesOnlyAvatarUrl` | src/pages/Profile.tsx:20-22 | the avatar upload handler changes the avatar URL and nothing else |
| `UserContext.UserProvider.constructor` | src/context/UserContext.tsx:13 | the state starts as the seed user |
| `UserContext.UserProvider.UpdateUser` | src/context/UserContext.tsx:15-17 | the new user is the merge of the previous user with the update |
| `UserContext.UseUser` | src/context/UserContext.tsx:26-31 | with no provider it fails with the provider message, otherwise it returns the context |

## Left out

- Rendering is not modelled. This covers JSX, CSS classes, icons and
  animation on every page. It includes the expanded report's severity badge
  classes and its capitalized severity label.
- `saveProgress` is a `submitted` flag. Its `console.log` and its
  `new Date()` timestamp are not modelled.
- `navigate(...)` calls are not modelled. The redirect when the data-hall
  id is absent becomes the constructor's `requires datahallId != ""`.
  Dashboard's `StartWalkthrough` returns the route state instead of
  navigating.
- `racksByDatahall` and the rack-location options (`availableRacks`) are not
  part of this model. The rack location is an ordinary `rack-location-<rack>`
  entry of formData. Its on-screen asterisk is not enforced unless the schema
  says so.
- The contents of `formSections` and the `FormField` component are not part
  of this model. The schema is a constructor parameter.
- The UI shows a remove button only for `rackIndex > 0`. `RemoveRack` itself
  accepts any index, as `removeRack` does.
- React batches setters and closures capture state. Each operation is
  modelled as one atomic step over the state it reads.
- `InspectionFlow.Value`: JavaScript numbers are integers here. NaN, -0 and
  fractions are not modelled. Objects and arrays are one truthy `Object`
  case.
- `Strings.ToUpper`: upper-cases ASCII letters only. Locale and full Unicode
  case mapping (which can change the length) are not modelled.
- `UserContext.UserUpdate`: a required property set explicitly to
  `undefined` is not modelled. Optional properties may be set to `undefined`.
- `Reports.ReportsView.HandleFilterChange`: the filter values are an opaque
  map, because the filter panel is not part of this model.
- Not modelled: `Login.tsx` (an async call to an auth context),
  `AvatarUpload.tsx` and `supabase.ts` (storage and network calls).
  Also left out: dates formatted by `date-fns` and locale functions, and the
  static pages and cards (Profile apart from its avatar handler, Confirmation,
  Inspections, App, the layout, StatusCard, ReportCard, InspectionCard,
  HPELogo).
