# Lost-and-found item lifecycle, in Dafny

This project models the core of a small SwiftUI lost-and-found app. An `Item` record describes a found object. The add-item screen creates unclaimed items, and the object detector may prefill an item's name and description. On the detail screen, an admin claims an item, which records the claimer and the date together.

The model is split into four modules:

- `Items` (`items.dfy`): the `Item` class with its ten fields and its initializer defaults. `ItemValue` gives the same fields as one value. `DummyValues`/`DummyData` hold the four fixture items.
- `Store` (`store.dfy`): the SwiftData model context, as a sequence of `Item` objects. The documents directory is a map from file name to bytes.
- `ItemDetail` (`item_detail_view.dfy`): `claimItem` as the `ItemDetailView.ClaimItem` method. The pure function `AfterClaim` specifies it. The claim controls an admin sees (`Controls`) become a step function over user actions (`Step`, `Run`). `StatusOf` gives the claim status panel.
- `AddItem` (`add_item_view.dfy`): `addItem`, `saveImage` and the handling of the detector's outcome in `analyzeImage`. The methods live on the `AddItemView` class, and the pure functions `Analyzed`, `ImageFileName` and `DescriptionTemplate` specify them.

Library calls and I/O become parameters:

- `Date()` is a `now`/`today` argument. A date is a whole number of seconds.
- `UUID()` is an identifier string passed in.
- `String.capitalized` is a function argument `capitalize`.
- The detector's outcome is a `Detection` value.
- The outcome of `modelContext.save()`, of `jpegData` and of the file write are arguments.
- `dismiss()` sets a `dismissed` flag.

The model follows the code as written:

- `claimItem` does not check `isClaimed` (see `ClaimItemOverwritesEarlierClaim`). Only the view hides its controls once an item is claimed.
- `claimItem` does not roll back when the save fails. The claim stays in place and the form closes anyway.
- `addItem` inserts the item even when the image could not be saved. It also records a generated image name when no image was picked, and nothing is saved under that name.
- The admin check lives in the view body, not in `claimItem`.
- The category is an open string.
- The detector's first observation is used, not the one with the highest confidence.

## Model

| member | source | states |
|---|---|---|
| `Items.Item.constructor` | cobacloudkit/cobacloudkit/Item.swift:24-35 | every argument of `init` is stored unchanged in its field |
| `Items.CreateWithDefaults` | cobacloudkit/cobacloudkit/Item.swift:24 | with the defaulted arguments left out, the item is unclaimed (`isClaimed` false, no claimer, no claim date), satisfies the claim coupling, has image name "salemalekum", and keeps the arguments given |
| `Items.DummyValues` | cobacloudkit/cobacloudkit/Item.swift:39-90 | exactly four fixtures, in the order Wallet, Backpack, Umbrella, Smartphone. Each satisfies isClaimed ⇔ claimer ≠ nil ⇔ dateClaimed ≠ nil and was found before now. Each claimed one was claimed after it was found and before now. Backpack and Smartphone are claimed by John Doe and Jane Smith |
| `Items.DummyData` | cobacloudkit/cobacloudkit/Item.swift:39-90 | returns four new, pairwise distinct `Item` objects whose fields are the fixture values, in order |
| `Store.ModelContext.Insert` | cobacloudkit/cobacloudkit/AddItemView.swift:213 | the inserted object is registered once: an object already in the context adds no copy, a new one is appended (the order of the sequence is the model's own choice; a context has none) |
| `ItemDetail.ItemDetailView.constructor` | cobacloudkit/cobacloudkit/ItemDetailView.swift:11-16 | the view opens with an empty claimer name and not claiming |
| `ItemDetail.Controls` | cobacloudkit/cobacloudkit/ItemDetailView.swift:122-156 | claim controls are shown exactly when the user is an admin and the item is unclaimed; the Submit form exactly when, in addition, `isClaiming` is set |
| `ItemDetail.AfterClaim` | cobacloudkit/cobacloudkit/ItemDetailView.swift:18-33 | an empty claimer name changes nothing. Otherwise the claimer is the entered name, `isClaimed` is true and `dateClaimed` is the current time. The seven other item fields are kept, `isClaiming` becomes false and the view is dismissed |
| `ItemDetail.ItemDetailView.ClaimItem` | cobacloudkit/cobacloudkit/ItemDetailView.swift:18-33 | the item and view state after the call are `AfterClaim` of the state before, whatever the save outcome. A coupled item stays coupled |
| `ItemDetail.ItemDetailView.StartClaiming` | cobacloudkit/cobacloudkit/ItemDetailView.swift:144 | the "Claim Item" action sets `isClaiming` and changes nothing else |
| `ItemDetail.ItemDetailView.Handle` | cobacloudkit/cobacloudkit/ItemDetailView.swift:122-156 | a user action takes effect exactly as `Step` says: "Claim Item" and the name field or Submit act only when the body shows them |
| `ItemDetail.Step` | cobacloudkit/cobacloudkit/ItemDetailView.swift:122-156 | one user action takes effect only when the body shows its control: any change at all needs the "Claim Item" button for "Claim Item", and the Submit form for typing a name or Submit (so Submit's dismiss and closing of the form also need it); none changes `isAdmin` or the seven fields outside the claim, and with no controls shown nothing changes |
| `ItemDetail.Run` | cobacloudkit/cobacloudkit/ItemDetailView.swift:122-156 | a sequence of user actions, one after another, keeps `isAdmin` and the seven fields outside the claim |
| `ItemDetail.StepChangesItemOnlyBySubmit` | cobacloudkit/cobacloudkit/ItemDetailView.swift:122-144 | only Submit changes the item, and only for an admin, an unclaimed item, `isClaiming` set and a non-empty name. Only "Claim Item" turns `isClaiming` on, and only for an admin and an unclaimed item |
| `ItemDetail.RunKeepsCoupling` | cobacloudkit/cobacloudkit/ItemDetailView.swift:21-23 | from a coupled item, every sequence of user actions leaves the item coupled |
| `ItemDetail.RunKeepsRecord` | cobacloudkit/cobacloudkit/ItemDetailView.swift:21-23 | no sequence of user actions changes id, dateFound, itemName, itemDescription, imageName, category or locationFound, and none un-claims a claimed item |
| `ItemDetail.NoControlsFreezeState` | cobacloudkit/cobacloudkit/ItemDetailView.swift:122-123 | for a non-admin or an already claimed item, no sequence of user actions changes anything; a claim is terminal |
| `ItemDetail.ClaimWalkthrough` | cobacloudkit/cobacloudkit/ItemDetailView.swift:124-144 | for an admin on an unclaimed item, "Claim Item", a name, then Submit claims the item for that name at that time, whether or not the save succeeds |
| `ItemDetail.ClaimItemOverwritesEarlierClaim` | cobacloudkit/cobacloudkit/ItemDetailView.swift:18-23 | `claimItem` called directly on a claimed item replaces the earlier claimer |
| `ItemDetail.StatusOf` | cobacloudkit/cobacloudkit/ItemDetailView.swift:83-101 | the status reads "Claimed" or "Not Claimed" according to `isClaimed`. A claimer line appears exactly for claimed items; it reads "Claimer: <claimer>", or "Claimer: Unknown" when there is no claimer. A claim date line appears for claimed items that have a date |
| `ItemDetail.CoupledStatusShowsClaim` | cobacloudkit/cobacloudkit/ItemDetailView.swift:92-101 | for a coupled item the claimer line shows the real claimer, never the fallback, and the date line shows exactly when the item is claimed |
| `AddItem.DecimalText` | cobacloudkit/cobacloudkit/AddItemView.swift:129-134 | the confidence percentage is written as a non-empty string of decimal digits, with no leading zero unless it is 0 |
| `AddItem.DecimalRoundTrip` | cobacloudkit/cobacloudkit/AddItemView.swift:129-134 | reading the written percentage back gives the detected percentage |
| `AddItem.BestLabel` | cobacloudkit/cobacloudkit/AddItemView.swift:128-129 | the label used is the observation's first one, or "Unknown" at 0% when it has none |
| `AddItem.DetectionText` | cobacloudkit/cobacloudkit/AddItemView.swift:134 | the detection text is "<label> (<percent>%)", and both the label and the percentage can be read back out of it |
| `AddItem.DescriptionTemplate` | cobacloudkit/cobacloudkit/AddItemView.swift:138 | the prefilled description is "An item, " + label + ", was found in ____ at exactly ___", and the label can be read back out of it |
| `AddItem.Analyzed` | cobacloudkit/cobacloudkit/AddItemView.swift:89-162 | handling a detector outcome changes only `itemName`, `itemDescription` and `imageDescription`; every other form field is kept |
| `AddItem.PrefillOnlyOnDetection` | cobacloudkit/cobacloudkit/AddItemView.swift:89-121 | with no picked image, a detection error, a model error or an empty result list, only `imageDescription` changes; the empty list gives "No objects detected." |
| `AddItem.PrefillFromFirstObservation` | cobacloudkit/cobacloudkit/AddItemView.swift:127-141 | with at least one detection, the name is the capitalized first label of the first observation ("Unknown" when it has none). The description is the template for that label, and the analysis text is "Detected: <label> (<percent>%)" for that label |
| `AddItem.LaterObservationsIgnored` | cobacloudkit/cobacloudkit/AddItemView.swift:127 | observations after the first have no effect on the form |
| `AddItem.ImageFileName` | cobacloudkit/cobacloudkit/AddItemView.swift:193 | the image name is "item-" + uuid + ".jpg", and the uuid can be read back out of it |
| `AddItem.ImageFileNameInjective` | cobacloudkit/cobacloudkit/AddItemView.swift:193 | different identifiers give different image names |
| `AddItem.AddItemView.constructor` | cobacloudkit/cobacloudkit/AddItemView.swift:10-19 | the form opens empty, with category "Electronics", today's date, no image and no alert |
| `AddItem.AddItemView.AnalyzeImage` | cobacloudkit/cobacloudkit/AddItemView.swift:89-162 | the form after the call is `Analyzed` of the form before |
| `AddItem.AddItemView.SaveImage` | cobacloudkit/cobacloudkit/AddItemView.swift:175-189 | the JPEG bytes are stored under the name when encoding and writing succeed. Otherwise the documents are unchanged: a failed encoding returns silently and a failed write is only logged |
| `AddItem.AddItemView.AddItem` | cobacloudkit/cobacloudkit/AddItemView.swift:191-215 | a fresh item is inserted once, even if the image save failed. It is unclaimed and coupled, copies dateFound, itemName, itemDescription, category and locationFound from the form, and is named "item-<uuid>.jpg". The image is stored only when one was picked and its save succeeded. `showSuccessAlert` becomes true. A context whose items were all coupled stays so |

## Left out

- Layout, navigation and alerts: presentation only.
- The photo picker (`loadSelectedImage`) and `loadStaticImageForDebugging`: both set `selectedImage` and then run `analyzeImage`. The debug loader runs each time the screen appears and, when the "Yoga" asset exists, pre-selects that image. Detection can then prefill the form, and `addItem` then saves that image even if the user picked nothing. The model takes `selectedImage` as given state, and no modelled operation sets it.
- Object detection itself (the YOLOv3 model, the Vision request handler) and the dispatch to background and main queues. The outcome is an argument and is delivered at once, so edits made while detection runs are not modelled.
- `debugInfo`, bounding boxes and the image size text are diagnostic strings with no behaviour. The confidence percentage is taken as an already whole number, so the truncation of `confidence * 100` from floating point is not modelled.
- `print` logging on a failed claim save (ItemDetailView.swift:28), on a failed image write (AddItemView.swift:187), and the success message on a completed write (AddItemView.swift:185). A failed JPEG encoding is modelled (`jpeg` is `None`), and `saveImage` then returns silently. `modelContext.save()` is modelled only as an outcome that changes nothing.
- File I/O in `saveImage` and `loadImage`: the documents directory is a map. A crash when no documents directory exists (the forced unwrap of its URL) is not modelled. `loadImage` and `formattedDate`, which the detail screen uses to show the image and dates, are not part of this model.
- `UUID()`, `Date()` and `String.capitalized` are arguments. Their uniqueness, current-ness and Unicode case mapping are not modelled, and dates are whole seconds rather than floating-point intervals.
- `isAdmin` is a `@Binding` that the parent screen may change at any time. The model holds it fixed in the detail view's state (`Step` and `Run` never change it), so `NoControlsFreezeState` holds only while the binding keeps its value.
- SwiftData persistence beyond insertion into the context (fetching, autosave, undo) is not modelled.
- `AddItem.AddItemView.AddItem`: keeping the context coupled is stated for insertion only. A later claim through `ItemDetailView.ClaimItem` keeps the claimed item coupled, but the model does not tie that item to its context.
