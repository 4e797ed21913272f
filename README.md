# Dental intake app: a verified model of its client logic

The app collects a patient's medical history and a chart of affected teeth. It
lets a clinic manage its profile, and gives administrators a patient list, CSV
export and user roles. Most of the code talks to Firebase and Supabase. This
project models the parts that are plain logic once those services' answers,
the randomness and the DOM geometry are turned into inputs.

The modules are:

- `Viewport` (src/components/ImageViewer.tsx). This is the zoom and pan state machine.
  - The step functions are pure (`ZoomInScale`, `RescaleStep`, `MouseMoveStep`, …). `Step`/`Run` fold a sequence of events.
  - The `ImageViewer` class keeps the component's four state fields. Each handler is proved to produce the step function's result.
- `PatientForm` (src/components/PatientForm.tsx).
  - The initial form and the two tooth rows of the chart, in FDI numbering (ISO 3950).
  - The pure list updaters (`RemoveAt`, `Toggle`, `ToggleTooth`) and the selector visibility.
  - The `PatientFormState` class, whose `Add*` and `HandleSubmit` methods change the form and the drafts.
- `ToothShape` (src/components/ToothShape.tsx). The ring colour, the highlight priority, the tooth kind and picture, the rotation and the disabled state of one tooth button.
- `UserProfile` (src/components/UserProfile.tsx).
  - Address formatting and the completeness warning.
  - The ordered missing-field list, and the changed-fields-only update object with the cleaned address.
  - The address built from geocoder components.
  - The `ProfileEditor` class with `HandlePlaceSelect` and `HandleSaveChanges`.
- `AdminUsers` (src/components/AdminUsers.tsx).
  - The role toggle and the update of one user by id.
  - Per-user patient deletion and the expansion toggles.
  - The dental summary and its labels.
  - The `AdminUsersState` class with the component's handlers.
- `AdminPanel` (src/components/AdminPanel.tsx). The case-insensitive search filter and the CSV text of the export.
- `Routes` (src/App.tsx).
  - The route decision for "/", "/admin" and every other path.
  - The admin flag derived from the role lookup.
  - The `AppState` class for the session listener.
- `Password` (update-role.js). `generateSecurePassword` as a method with its `while` loop.
  - Each `Math.random()` answer is a supplied real in [0, 1).
  - The random-comparator sort is a supplied list of transpositions, which can express any permutation.
- Shared modules:
  - `Wrappers` holds `Option`.
  - `Strings` holds the JavaScript string operations the components use: `trim` (ECMAScript white space), `join`, `split`, `includes`, `toLowerCase` (ASCII), and truthiness of optional strings.
  - `Dental` holds the ten conditions and the per-condition tooth lists.

Remote calls become parameters, and their outcome is an explicit argument. Examples: the profile write result, the role lookup answer, the insert outcome, the fetched patient list, the geocoder answer. `undefined` fields are `Option` values.

The zoom is not anchored at the cursor. In the code, and in this model:

- A zoom multiplies the pan offset by `newScale / scale`, which keeps the image centred, and then clamps the offset. The wheel's position plays no part.
- Without image or container geometry, a zoom still sets the new scale and keeps the position.

## Model

| member | source | states |
|---|---|---|
| Viewport.ZoomInScale | src/components/ImageViewer.tsx:42 | the new scale is `scale + 0.25` when that is at most 3, otherwise 3; a scale in [0.5, 3] stays there |
| Viewport.ZoomOutScale | src/components/ImageViewer.tsx:51 | the new scale is `scale − 0.25` when that is at least 0.5, otherwise 0.5; a scale in [0.5, 3] stays there |
| Viewport.WheelDelta | src/components/ImageViewer.tsx:140 | the step is negative exactly when `deltaY > 0` (so `deltaY = 0` zooms in) and has size 0.1 |
| Viewport.WheelScale | src/components/ImageViewer.tsx:140-141 | the result lies in [0.5, 3]; it is `scale + delta` when that is in range and the nearer bound otherwise |
| Viewport.MaxPan | src/components/ImageViewer.tsx:65-66 | the bound is `max(0, (natural·scale − container)/2)`: non-negative, exactly that half-overflow or 0, and 0 when the scaled image fits |
| Viewport.ClampPan | src/components/ImageViewer.tsx:73-74 | the result lies in [−m, m], equals the input when it already does, and is the bound it crossed otherwise |
| Viewport.ClampToBounds | src/components/ImageViewer.tsx:72-75 | the clamped point is within the pan bounds, an in-bounds point is unchanged, and an axis on which the image fits becomes 0 |
| Viewport.RescaleStep | src/components/ImageViewer.tsx:57-83 | the scale becomes the new scale; the drag fields are unchanged; without geometry the position is unchanged; with geometry the position is the old one times `newScale/scale`, clamped to the bounds at the new scale |
| Viewport.MouseDownStep | src/components/ImageViewer.tsx:86-96 | dragging starts, scale and position are unchanged, and `mouse − startPos` is the current position |
| Viewport.MouseMoveStep | src/components/ImageViewer.tsx:99-125 | a move while not dragging, or without geometry, changes nothing; otherwise the position is `mouse − startPos` clamped at the current scale, and nothing else changes |
| Viewport.MouseUpStep | src/components/ImageViewer.tsx:128-134 | dragging ends and scale, position and anchor are unchanged |
| Viewport.Step | src/components/ImageViewer.tsx:209-213 | each event (leave runs the mouse-up handler) keeps the scale in [0.5, 3] |
| Viewport.Run | src/components/ImageViewer.tsx:23 | a sequence of events keeps the scale in [0.5, 3] |
| Viewport.ScaleAlwaysInRange | src/components/ImageViewer.tsx:23 | from the initial state (scale 1), the scale stays in [0.5, 3] after any events |
| Viewport.RunAppend | src/components/ImageViewer.tsx:209-213 | running `a + b` is running `a` and then `b` |
| Viewport.NotDraggingMovesNothing | src/components/ImageViewer.tsx:99-134 | when not dragging, mouse move, mouse up and mouse leave leave the state unchanged |
| Viewport.PressThenMoveInPlace | src/components/ImageViewer.tsx:86-105 | pressing and then moving to the same mouse position keeps an in-bounds position |
| Viewport.EventKeepsPanBounds | src/components/ImageViewer.tsx:57-125 | after a zoom, a wheel step or a drag move with geometry, the position is within the bounds at the resulting scale |
| Viewport.DragExample | src/components/ImageViewer.tsx:86-134 | on a 300×300 image at scale 2 in a 150×150 container (bound 225 per axis), a press at (100, 100), a move to (400, 90) and a release end at (225, −10): the horizontal overshoot is clamped, the vertical offset kept, and dragging is over |
| Viewport.ImageViewer.constructor | src/components/ImageViewer.tsx:23-26 | the viewer starts at scale 1, position (0, 0), not dragging |
| Viewport.ImageViewer.UpdateScaleAndPosition | src/components/ImageViewer.tsx:57-83 | the new state is `RescaleStep` of the old state |
| Viewport.ImageViewer.HandleZoomIn | src/components/ImageViewer.tsx:39-45 | the new state is the rescale to `ZoomInScale(scale)` |
| Viewport.ImageViewer.HandleZoomOut | src/components/ImageViewer.tsx:48-54 | the new state is the rescale to `ZoomOutScale(scale)` |
| Viewport.ImageViewer.HandleWheel | src/components/ImageViewer.tsx:137-144 | the new state is the rescale to `WheelScale(scale, deltaY)` |
| Viewport.ImageViewer.HandleMouseDown | src/components/ImageViewer.tsx:86-96 | the new state is `MouseDownStep` of the old state |
| Viewport.ImageViewer.HandleMouseMove | src/components/ImageViewer.tsx:99-125 | the new state is `MouseMoveStep` of the old state |
| Viewport.ImageViewer.HandleMouseUp | src/components/ImageViewer.tsx:128-134 | the new state is `MouseUpStep` of the old state |
| Viewport.ImageViewer.Handle | src/components/ImageViewer.tsx:209-213 | dispatching an event gives `Step` of the old state |
| PatientForm.UpperTeethAt | src/components/PatientForm.tsx:82 | position i of the upper row is tooth 8−i of quadrant 1 for the first eight, then tooth i−7 of quadrant 2 |
| PatientForm.LowerTeethAt | src/components/PatientForm.tsx:83 | position i of the lower row is tooth 8−i of quadrant 4 for the first eight, then tooth i−7 of quadrant 3 |
| PatientForm.UpperRow | src/components/PatientForm.tsx:82 | the constant `UpperTeeth` (`upperTeeth`): the upper row holds 16 distinct numbers of quadrants 1 and 2, every position 1–8 of both |
| PatientForm.LowerRow | src/components/PatientForm.tsx:83 | the constant `LowerTeeth` (`lowerTeeth`): the lower row holds 16 distinct numbers of quadrants 4 and 3, every position 1–8 of both |
| PatientForm.RowsDisjoint | src/components/PatientForm.tsx:82-83 | no tooth is in both rows |
| PatientForm.RemoveAt | src/components/PatientForm.tsx:119-124 | an index in range drops exactly that element and keeps the rest in order; any other index leaves the list unchanged |
| PatientForm.RemoveMedicine | src/components/PatientForm.tsx:119-124 | only the medicines list changes, by `RemoveAt` |
| PatientForm.RemoveCondition | src/components/PatientForm.tsx:136-141 | only the conditions list changes, by `RemoveAt` |
| PatientForm.RemoveSurgery | src/components/PatientForm.tsx:153-158 | only the surgeries list changes, by `RemoveAt` |
| PatientForm.RemoveAllergy | src/components/PatientForm.tsx:170-175 | only the allergies list changes, by `RemoveAt` |
| PatientForm.Without | src/components/PatientForm.tsx:181 | the tooth no longer occurs, every other tooth keeps its count, and a list without it is unchanged |
| PatientForm.WithoutAppend | src/components/PatientForm.tsx:181 | filtering a concatenation filters each part |
| PatientForm.Toggle | src/components/PatientForm.tsx:179-182 | `includes(tooth) ? filter(...) : [...teeth, tooth]`: flips that tooth's membership only, as `ToggleMembership`, `ToggleTwice` and `ToggleKeepsDistinct` state |
| PatientForm.ToggleMembership | src/components/PatientForm.tsx:179-182 | after a toggle the tooth is present exactly when it was absent, and every other tooth keeps its membership |
| PatientForm.ToggleTwice | src/components/PatientForm.tsx:179-182 | toggling an absent tooth twice restores the list |
| PatientForm.ToggleKeepsDistinct | src/components/PatientForm.tsx:179-182 | a duplicate-free list stays duplicate-free |
| PatientForm.ToggleTooth | src/components/PatientForm.tsx:177-192 | only the chosen condition's list changes, by the toggle; the other nine lists and every other field are unchanged |
| PatientForm.ShowSelector | src/components/PatientForm.tsx:208-226 | `showSelector`: a condition key whose answer is "yes", as `ShowSelectorIff` states |
| PatientForm.ShowSelectorIff | src/components/PatientForm.tsx:208-226 | a selector is shown exactly when the key is a condition's key and that condition's flag is "yes" |
| PatientForm.AcceptedEntry | src/components/PatientForm.tsx:110-113 | a draft is accepted exactly when it has a non-white-space character, and then its trimmed text is the entry |
| PatientForm.InitialFormIsBlank | src/components/PatientForm.tsx:50-80 | the constant `InitialForm` (`initialForm`) shows no selector and has no tooth in any list |
| PatientForm.PatientFormState.constructor | src/components/PatientForm.tsx:87-93 | the state starts at the initial form with no message and empty drafts |
| PatientForm.PatientFormState.AddMedicine | src/components/PatientForm.tsx:109-117 | an accepted draft is appended trimmed and the draft cleared; otherwise nothing changes; other lists and drafts are unchanged |
| PatientForm.PatientFormState.AddCondition | src/components/PatientForm.tsx:126-134 | as `AddMedicine`, for the conditions list |
| PatientForm.PatientFormState.AddSurgery | src/components/PatientForm.tsx:143-151 | as `AddMedicine`, for the surgeries list |
| PatientForm.PatientFormState.AddAllergy | src/components/PatientForm.tsx:160-168 | as `AddMedicine`, for the allergies list |
| PatientForm.PatientFormState.HandleSubmit | src/components/PatientForm.tsx:240-279 | a successful insert sets the success message and resets the form; a failed one keeps the form and shows the error text |
| Dental.ParseKey | src/components/ToothShape.tsx:35-60 | a parsed key is the key of the condition returned |
| Dental.ParseKeyRoundTrip | src/components/ToothShape.tsx:35-60 | every condition's key parses back to it |
| Dental.ParseKeyComplete | src/components/ToothShape.tsx:35-60 | a string parses exactly when it is some condition's key |
| Dental.AffectedTeeth.With | src/components/PatientForm.tsx:186-189 | replacing one condition's list leaves the other nine unchanged |
| ToothShape.ConditionColor | src/components/ToothShape.tsx:35-60 | `getConditionColor`: one ring class per condition key and "" otherwise, as `ConditionColorIdentifies`, `ConditionColorsDistinct` and `UnknownConditionUncoloured` state |
| ToothShape.ConditionColorIdentifies | src/components/ToothShape.tsx:35-60 | each condition's key gets a non-empty ring class from which the condition can be read back |
| ToothShape.ConditionColorsDistinct | src/components/ToothShape.tsx:35-60 | different conditions get different ring classes |
| ToothShape.UnknownConditionUncoloured | src/components/ToothShape.tsx:57-58 | a string that is no condition's key gets "" |
| ToothShape.FirstListing | src/components/ToothShape.tsx:66-85 | a found condition is in the order and lists the tooth; none is found exactly when no condition in the order lists it |
| ToothShape.FirstListingIsFirst | src/components/ToothShape.tsx:66-85 | the found condition comes before every other condition that lists the tooth |
| ToothShape.HighlightOrderIsEnumeration | src/components/ToothShape.tsx:66-86 | the constant `HighlightOrder`, the order the if-chain consults the lists in, holds each of the ten conditions exactly once |
| ToothShape.ToothHighlight | src/components/ToothShape.tsx:62-87 | `getToothHighlight`: the selected ring or the ring of the first listing condition, as `HighlightPriority` states |
| ToothShape.HighlightPriority | src/components/ToothShape.tsx:62-87 | a selected tooth gets `ring-4 ring-offset-2` and the current condition's colour; an unselected one gets `ring-2` and the colour of the first listing condition in the fixed order, or "" |
| ToothShape.KindsDisjoint | src/components/ToothShape.tsx:90-95 | a tooth number is in at most one of the six kind lists |
| ToothShape.IsMolar | src/components/ToothShape.tsx:90 | the molar list is, in all four quadrants, the teeth at positions 6 and 8 |
| ToothShape.IsPremolar | src/components/ToothShape.tsx:91 | the premolar list is the teeth at position 4 of the four quadrants |
| ToothShape.IsFirstPremolar | src/components/ToothShape.tsx:92 | the "first premolar" list is the teeth at position 7 of the four quadrants |
| ToothShape.IsSecondPremolar | src/components/ToothShape.tsx:93 | the "second premolar" list is the teeth at position 5 of the four quadrants |
| ToothShape.IsCanine | src/components/ToothShape.tsx:94 | the canine list is the teeth at position 3 of the four quadrants |
| ToothShape.IsIncisor | src/components/ToothShape.tsx:95 | the incisor list is the teeth at positions 1 and 2 of the four quadrants |
| ToothShape.KindByPosition | src/components/ToothShape.tsx:90-118 | every charted tooth has exactly one kind, determined by its position (incisor 1–2, canine 3, "premolar" 4, "second premolar" 5, molar 6 and 8, "first premolar" 7), and a non-empty picture |
| ToothShape.ToothImage | src/components/ToothShape.tsx:111-118 | `getToothImage`: the picture of the tooth's kind, non-empty exactly for a kinded tooth, as `ImageIffKind` and `KindByPosition` state |
| ToothShape.ImageIffKind | src/components/ToothShape.tsx:111-118 | the picture is non-empty exactly when the tooth has a kind |
| ToothShape.RotationClass | src/components/ToothShape.tsx:98-107 | `getRotationClass`: "rotate-180" in exactly one of the two rows, as `RotationExactlyOneRow` states |
| ToothShape.RotationExactlyOneRow | src/components/ToothShape.tsx:98-107 | exactly one of upper and lower rotates a tooth; the upper one does so exactly for the sixteen teeth of the constant `UpperRotated`, the list at line 100 |
| ToothShape.RenderTooth | src/components/ToothShape.tsx:109-146 | the button is disabled exactly when `shouldDisableTooth(number)`, with the matching cursor class; a selected tooth carries its ring class twice, an unselected one once |
| UserProfile.TruthyValues | src/components/UserProfile.tsx:60 | the kept values are the non-empty present ones, at most as many as the inputs; none is kept exactly when none is truthy; order and repetition follow from `TruthyValuesAppend` and `TruthyValuesSingle` |
| UserProfile.FormatAddressToString | src/components/UserProfile.tsx:51-61 | an absent address formats as ""; the text of a present address is stated by `FormatAddressEmptyIff`, `FormatSingleComponent`, `FormatStreetAndCity` and `FormatFullAddress` |
| UserProfile.FormatAddressEmptyIff | src/components/UserProfile.tsx:51-61 | the text is empty exactly when the address is absent or has no non-empty component |
| UserProfile.FormatSingleComponent | src/components/UserProfile.tsx:54-60 | an address with only a city formats as that city, with no separator |
| UserProfile.TruthyValuesAppend | src/components/UserProfile.tsx:60 | filtering a concatenation filters each part, so the order of the values and their repetitions are kept |
| UserProfile.TruthyValuesSingle | src/components/UserProfile.tsx:60 | one value is kept exactly when it is truthy |
| UserProfile.FormatStreetAndCity | src/components/UserProfile.tsx:54-60 | an address with exactly a street and a city formats as "street, city" |
| UserProfile.FormatFullAddress | src/components/UserProfile.tsx:54-60 | a complete address formats as street, city, state, postal code and country, in that order, separated by ", " |
| UserProfile.TruthyPresent | src/components/UserProfile.tsx:60 | values that are all present and non-empty are all kept, in order |
| UserProfile.NoTruthyValues | src/components/UserProfile.tsx:60 | values that are all falsy leave nothing |
| UserProfile.IsProfileIncomplete | src/components/UserProfile.tsx:127-134 | the completeness warning: some address or organisation field is blank; `MissingFieldsIffIncomplete` ties it to the save validation |
| UserProfile.MissingPrefix | src/components/UserProfile.tsx:212-218 | the pushes of the first n checks give at most n labels, and none exactly when none of those values is blank |
| UserProfile.MissingLabels | src/components/UserProfile.tsx:211-218 | the list is empty exactly when no mandatory value is blank |
| UserProfile.MissingPrefixSubset | src/components/UserProfile.tsx:212-218 | only the checked labels are ever pushed |
| UserProfile.MissingPrefixMembership | src/components/UserProfile.tsx:212-218 | among distinct labels, one is pushed exactly when its value is blank |
| UserProfile.MissingLabelsMembership | src/components/UserProfile.tsx:212-218 | among distinct labels, one is in the list exactly when its value is blank |
| UserProfile.PushMissingLabels | src/components/UserProfile.tsx:211-218 | the seven conditional pushes, in order, give the labels of the blank values |
| UserProfile.CollectMissingFields | src/components/UserProfile.tsx:203-218 | trimming the seven values and pushing gives the labels of the blank ones, in the fixed order |
| UserProfile.MandatoryMembership | src/components/UserProfile.tsx:212-218 | each of the seven labels is listed exactly when its value is blank |
| UserProfile.Blanks | src/components/UserProfile.tsx:203-209 | one flag per mandatory label, in the order of the pushes: whether the trimmed value is empty or absent |
| UserProfile.MissingFieldsMessage | src/components/UserProfile.tsx:221 | the fixed request, the missing labels joined by ", " and a full stop; never empty, so the save stops with a visible error |
| UserProfile.MissingFieldsIffIncomplete | src/components/UserProfile.tsx:127-134 | the save validation (lines 212-220) passes exactly when this warning condition is false (state and role play no part) |
| UserProfile.CleanAddress | src/components/UserProfile.tsx:249-255 | no component becomes `""`; non-empty components are kept and the others become absent |
| UserProfile.CleanAddressIdempotent | src/components/UserProfile.tsx:249-255 | cleaning twice is cleaning once |
| UserProfile.UpdateFor | src/components/UserProfile.tsx:236-260 | each of the six scalar keys is in the update exactly when the form value differs from the stored one, with the form's value; the cleaned address exactly when it differs from the current one; email never |
| UserProfile.BuildUpdateData | src/components/UserProfile.tsx:236-260 | the key-by-key construction gives `UpdateFor` |
| UserProfile.Merge | src/components/UserProfile.tsx:265-269 | updated keys take the update's value, the others keep the stored one; the address is the update's or the current one; email is kept |
| UserProfile.SaveThenNothingChanged | src/components/UserProfile.tsx:236-269 | after the merge, the same form yields an update with no keys |
| UserProfile.SaveForm | src/components/UserProfile.tsx:197-286 | `handleSaveChanges` on a form and stored profile; `SaveOutcome`, `SaveNeedsCompleteForm` and `ResaveKeepsProfile` state its outcomes |
| UserProfile.SaveOutcome | src/components/UserProfile.tsx:197-286 | exactly one of error and success is set; success needs no missing value and a user; the profile changes only to the merge, and only with no missing value, a user, a non-empty update and a successful write; missing values give only the listing error; with nothing missing, a signed-in user, a successful write when there are keys and a successful name update when one is needed, the result is the merge (or the unchanged profile) and `SavedText` |
| UserProfile.Renames | src/components/UserProfile.tsx:272 | the user's display name is updated exactly when the form's name is non-empty and differs from the signed-in user's |
| UserProfile.SaveNeedsCompleteForm | src/components/UserProfile.tsx:219-223 | a save succeeds only for a form without the incompleteness warning, and an incomplete form never changes the stored profile |
| UserProfile.ResaveKeepsProfile | src/components/UserProfile.tsx:236-270 | after a signed-in save whose write succeeded, saving the same form again leaves the stored profile unchanged |
| UserProfile.GetAddressComponent | src/components/UserProfile.tsx:168-170 | nothing is found exactly when no component lists the type; a found name belongs to a component listing it |
| UserProfile.GetAddressComponentFirst | src/components/UserProfile.tsx:169 | the found name is that of the first component listing the type |
| UserProfile.Or | src/components/UserProfile.tsx:178 | `a \|\| b` is a when a is truthy, b otherwise |
| UserProfile.AddressFrom | src/components/UserProfile.tsx:172-182 | the street is "number route" when a number exists and the route otherwise; the city falls back locality, postal town, county; state, postal code and country come from their types |
| UserProfile.StreetWithoutRoute | src/components/UserProfile.tsx:176 | a street number without a route gives "12 undefined" |
| UserProfile.SelectedAddress | src/components/UserProfile.tsx:158-194 | a cleared selection, a failed geocode or no results give the empty address; a geocoded place with results gives `AddressFrom` of the first result |
| UserProfile.ProfileEditor.constructor | src/components/UserProfile.tsx:36-42 | the editor starts with the loaded profile and form, no place and no messages |
| UserProfile.ProfileEditor.ProfileIsIncomplete | src/components/UserProfile.tsx:125-136 | the `profileIsIncomplete` state as a function of the stored profile: false while no profile is stored (the state starts false and the effect runs only once a profile is set), otherwise true exactly when saving that profile would be refused for blank mandatory values |
| UserProfile.ProfileEditor.HandlePlaceSelect | src/components/UserProfile.tsx:155-195 | the place is recorded, the form's address becomes the selected address, and the error clears only on a geocoded result |
| UserProfile.ProfileEditor.HandleSaveChanges | src/components/UserProfile.tsx:197-286 | the stored profile and the two messages become `SaveForm` of the form and the old profile; the form and place are unchanged |
| UserProfile.SaveFormStages | src/components/UserProfile.tsx:211-232 | with blank mandatory values the save is the listing error and the stored profile stays; with none and no signed-in user it is the sign-in error; otherwise it is the write and name update with nothing missing |
| UserProfile.Validate | src/components/UserProfile.tsx:203-232 | a non-empty result is the error the save stops with, the profile untouched; an empty result means a user is signed in and the save goes on to the write |
| UserProfile.ProfileEditor.ApplyUpdate | src/components/UserProfile.tsx:234-285 | after validation: the stored profile and messages become the write of the changed keys, the name update and the success or failure message; the form and place are unchanged |
| AdminUsers.NewRole | src/components/AdminUsers.tsx:190 | the new role is "user" or "admin" |
| AdminUsers.NewRoleTwice | src/components/AdminUsers.tsx:190 | toggling twice restores the role exactly when it was "admin" or "user"; the toggle gives "user" exactly for "admin" |
| AdminUsers.UpdateRole | src/components/AdminUsers.tsx:196-198 | the list keeps its length and order; users with the id get the new role, the others are unchanged |
| AdminUsers.UpdateRoleStable | src/components/AdminUsers.tsx:196-198 | ids are unchanged and applying the same update twice is applying it once |
| AdminUsers.RemoveById | src/components/AdminUsers.tsx:231 | exactly the patients without the id remain; a list without it is unchanged |
| AdminUsers.RemoveByIdAppend | src/components/AdminUsers.tsx:231 | removal from a concatenation removes from each part |
| AdminUsers.DeletePatient | src/components/AdminUsers.tsx:229-232 | only the user's list changes: filtered when present, `[]` when absent |
| AdminUsers.DeletePatientRemoves | src/components/AdminUsers.tsx:229-232 | no patient with the id remains in the user's list, and every other patient of it does |
| AdminUsers.ToggleExpansion | src/components/AdminUsers.tsx:174-177 | the result is none exactly when the id was expanded, and that id otherwise |
| AdminUsers.ToggleExpansionTwice | src/components/AdminUsers.tsx:174-177 | toggling twice gives back the id if it was expanded and none otherwise |
| AdminUsers.ConditionIcon | src/components/AdminUsers.tsx:89-100 | the icon table with the question-mark fallback, as `ConditionIconFallback` states |
| AdminUsers.ConditionIconFallback | src/components/AdminUsers.tsx:89-100 | the question-mark icon is used exactly for unknown conditions; extraction and missing share an icon, as do implant and existing implant |
| AdminUsers.SpaceBeforeCapitals | src/components/AdminUsers.tsx:431 | inserting spaces never shortens the text |
| AdminUsers.WithoutSpaces | src/components/AdminUsers.tsx:431 | the stripped text has no space |
| AdminUsers.SpacesRemovable | src/components/AdminUsers.tsx:431 | removing spaces after the insertion gives the original without spaces, so only spaces are added |
| AdminUsers.WithoutSpacesAppend | src/components/AdminUsers.tsx:431 | for the inverse used by `SpacesRemovable`: removing spaces distributes over concatenation |
| AdminUsers.SpaceBeforeCapitalsAppend | src/components/AdminUsers.tsx:431 | the insertion works character by character |
| AdminUsers.NoCapitalsUnchanged | src/components/AdminUsers.tsx:431 | a text without capitals is unchanged |
| AdminUsers.CapitalGetsSpace | src/components/AdminUsers.tsx:431 | a capital becomes exactly a space followed by the capital |
| AdminUsers.OtherCharKept | src/components/AdminUsers.tsx:431 | any other character is kept as it is |
| AdminUsers.ConditionLabel | src/components/AdminUsers.tsx:431 | the trimmed key with a space before each capital, as `CapitalGetsSpace`, `OtherCharKept`, `SpaceBeforeCapitalsAppend` and `ConditionLabelExample` state |
| AdminUsers.ConditionLabelExample | src/components/AdminUsers.tsx:431 | "rootCanal" is labelled "root Canal" |
| AdminUsers.SpacedRootCanal | src/components/AdminUsers.tsx:431 | the step for `ConditionLabelExample`: the replace turns "rootCanal" into "root Canal" |
| AdminUsers.DentalSummary | src/components/AdminUsers.tsx:421-433 | a line is shown exactly for each entry that is an array with teeth; no line has an empty list; `DentalSummaryAppend` and `DentalSummarySingle` give the entry order |
| AdminUsers.DentalSummaryAppend | src/components/AdminUsers.tsx:422 | the summary of a concatenation is the summaries of the parts in turn, so entries keep their order |
| AdminUsers.DentalSummarySingle | src/components/AdminUsers.tsx:422 | one entry gives one line exactly when it is an array with teeth |
| AdminUsers.PromptName | src/components/AdminUsers.tsx:483 | the prompt always names someone: the patient's name or "this patient" |
| AdminUsers.AdminUsersState.constructor | src/components/AdminUsers.tsx:103-111 | the state starts with the loaded users, nothing expanded and no pending deletion |
| AdminUsers.AdminUsersState.ToggleAdminRole | src/components/AdminUsers.tsx:185-207 | a successful write updates that user's role and reports the new role; a failed one keeps the users and reports the error |
| AdminUsers.AdminUsersState.FetchUserPatients | src/components/AdminUsers.tsx:150-171 | the user's list becomes the fetched one, or `[]` when the fetch failed |
| AdminUsers.NeedsFetch | src/components/AdminUsers.tsx:178 | `!userPatients[userId] \|\| userPatients[userId].length === 0`; `AdminUsersState.ToggleUserExpansion` fetches exactly then |
| AdminUsers.AdminUsersState.ToggleUserExpansion | src/components/AdminUsers.tsx:173-183 | the expansion toggles; a newly expanded user with no cached patients gets the fetch result, and otherwise the cache is unchanged |
| AdminUsers.AdminUsersState.TogglePatientExpansion | src/components/AdminUsers.tsx:209-211 | the patient expansion toggles and nothing else changes |
| AdminUsers.AdminUsersState.OpenDeleteConfirmation | src/components/AdminUsers.tsx:213-216 | the pending deletion is recorded and the dialog opens |
| AdminUsers.AdminUsersState.HandleConfirmDelete | src/components/AdminUsers.tsx:218-244 | nothing pending changes nothing; otherwise a successful delete removes the patient from that user's list and reports it, a failed one reports the error, and the pending deletion is cleared either way |
| AdminUsers.AdminUsersState.CloseConfirmation | src/components/AdminUsers.tsx:479 | the dialog closes and nothing else changes |
| AdminPanel.FilterPatients | src/components/AdminPanel.tsx:91-94 | the kept patients are exactly those that match, and there are no more of them than patients |
| AdminPanel.FilterIsSubsequence | src/components/AdminPanel.tsx:91 | the filtered list is an order-preserving subsequence of the patients |
| AdminPanel.FilterAppend | src/components/AdminPanel.tsx:91-94 | filtering a concatenation filters each part, so order and repeated records are kept |
| AdminPanel.FilterSingle | src/components/AdminPanel.tsx:91-94 | one patient is kept exactly when it matches |
| AdminPanel.Matches | src/components/AdminPanel.tsx:92-93 | the search predicate, as `MatchesIff` states |
| AdminPanel.MatchesIff | src/components/AdminPanel.tsx:92-93 | a patient matches exactly when the lower-cased term occurs in the lower-cased name, or in the present lower-cased submitter |
| AdminPanel.EmptySearchKeepsAll | src/components/AdminPanel.tsx:91-94 | an empty term keeps every patient |
| AdminPanel.Cells | src/components/AdminPanel.tsx:109-119 | each row has as many cells as the constant `Headers` has titles |
| AdminPanel.Quote | src/components/AdminPanel.tsx:123 | a cell is written as a quote, its raw text and a quote |
| AdminPanel.QuoteAll | src/components/AdminPanel.tsx:123 | every cell of a row is quoted, in place and in order |
| AdminPanel.DataLines | src/components/AdminPanel.tsx:109-123 | one encoded line per filtered patient, in filter order |
| AdminPanel.EncodeRow | src/components/AdminPanel.tsx:123 | each cell wrapped in quotes, joined with commas; `RowCells` gives its inverse and `EncodeRowAvoids` its characters |
| AdminPanel.EncodeRowAvoids | src/components/AdminPanel.tsx:123 | quoting and joining never introduce a character other than quote and comma |
| AdminPanel.HeaderLineAvoidsLineFeed | src/components/AdminPanel.tsx:97-107 | the nine titles of the constant `Headers`, joined by commas, make a line with no line feed |
| AdminPanel.CsvContent | src/components/AdminPanel.tsx:96-124 | the export text: header and rows joined by line feeds, as `CsvLines` and `ExportLines` state |
| AdminPanel.ExportLines | src/components/AdminPanel.tsx:121-124 | when no cell has a line feed, splitting the export at line feeds gives back its lines |
| AdminPanel.CsvLines | src/components/AdminPanel.tsx:96-124 | when no cell has a line feed, the export is the unquoted header line and then exactly one encoded row per filtered patient, in filter order |
| AdminPanel.RowCells | src/components/AdminPanel.tsx:123 | when no cell has a comma, splitting a row at commas gives its nine quoted cells |
| AdminPanel.QuotesNotDoubled | src/components/AdminPanel.tsx:123 | an embedded quote is written as it is, not doubled |
| Strings.TrimStart | src/components/PatientForm.tsx:110 | the result is the suffix after the leading white space, and starts with a non-white-space character when non-empty |
| Strings.TrimEnd | src/components/PatientForm.tsx:110 | the result is the prefix before the trailing white space, and ends with a non-white-space character when non-empty |
| Strings.TrimEmptyIff | src/components/UserProfile.tsx:203-209 | the trimmed text is empty exactly when the text is white space only |
| Strings.TrimEnds | src/components/PatientForm.tsx:113 | the trimmed text has no white space at either end |
| Strings.Trim | src/components/PatientForm.tsx:113 | `trim()`: the leading and then the trailing white space removed; `TrimEmptyIff` and `TrimEnds` state what is left |
| Strings.Join | src/components/UserProfile.tsx:60 | a single part joins to itself, and the first part always starts the result |
| Strings.JoinCons | src/components/UserProfile.tsx:60 | a join of a first part and at least one more is that part, the separator, and the join of the rest |
| Strings.JoinFive | src/components/UserProfile.tsx:60 | five parts join as each part followed by the separator, then the last |
| Strings.JoinAvoids | src/components/AdminPanel.tsx:122-124 | joining never introduces a character that neither the separator nor any part holds |
| Strings.Split | src/components/AdminPanel.tsx:124 | the inverse of the join at line 124, used as its partner: splitting always gives at least one piece |
| Strings.SplitNoSeparatorPrefix | src/components/AdminPanel.tsx:124 | for the inverse of the join at line 124: a separator-free prefix becomes part of the first piece |
| Strings.SplitJoin | src/components/AdminPanel.tsx:124 | the split is the inverse of the join at line 124: splitting a one-character join gives the parts back when no part holds the separator |
| Strings.ContainsIff | src/components/AdminPanel.tsx:92 | `includes` holds exactly when the term occurs at some position |
| Strings.Contains | src/components/AdminPanel.tsx:92 | `includes`: a prefix match here or in the tail; `ContainsIff` and `ContainsEmpty` state it as an occurrence |
| Strings.ContainsEmpty | src/components/AdminPanel.tsx:92 | every text contains the empty term |
| Strings.LowerChar | src/components/AdminPanel.tsx:92 | an upper-case ASCII letter becomes the letter 32 code points later, its lower-case form; other characters are unchanged; no result is an upper-case ASCII letter |
| Strings.Lower | src/components/AdminPanel.tsx:92 | the text keeps its length and every character is lower-cased by `LowerChar` |
| Strings.LowerIdempotent | src/components/AdminPanel.tsx:92 | lower-casing twice is lower-casing once |
| Routes.Render | src/App.tsx:68-77 | the spinner shows exactly while loading |
| Routes.Route | src/App.tsx:102-127 | the route element for a path, as `RouteTable` states |
| Routes.RouteTable | src/App.tsx:102-127 | "/" shows the form exactly with a session and the login page exactly without; the admin panel shows exactly on "/admin" with a session and the admin flag; "/admin" without a session redirects home carrying the location, with a session but no flag it redirects with the access-denied error; any other path redirects home; every redirect replaces the entry |
| Routes.IsAdminFrom | src/App.tsx:44-66 | the flag is set exactly when the lookup succeeded with role "admin"; an error or an exception clears it |
| Routes.AdminPanelNeedsAdminRole | src/App.tsx:110-121 | after an auth change the admin panel is reachable exactly when the session has a user id and the lookup found "admin" |
| Routes.AppState.constructor | src/App.tsx:10-12 | the shell starts without a session, not an admin, loading |
| Routes.AppState.CurrentScreen | src/App.tsx:68-83 | `App`'s render of its state: the spinner exactly while loading; afterwards the form exactly on "/" with a session and the admin panel exactly on "/admin" with a session and the admin flag |
| Routes.AppState.CheckAdminStatus | src/App.tsx:44-66 | the flag becomes `IsAdminFrom(lookup)` and loading ends |
| Routes.AppState.OnInitialSession | src/App.tsx:19-26 | the session is stored and loading ends; the flag is looked up only when the session has a user id |
| Routes.AppState.OnAuthStateChange | src/App.tsx:30-39 | the session is stored and loading ends; the flag is the lookup's answer with a user id and false without one |
| Password.FloorIndex | update-role.js:24-32 | `floor(r·len)` for r in [0, 1) is a valid index and the floor of the product |
| Password.Pick | update-role.js:24-32 | the picked character is one of the string's characters |
| Password.Built | update-role.js:22-33 | after n characters the password starts with the four seeded ones and every further one is from the full alphabet |
| Password.UnshuffledShape | update-role.js:22-33 | the built password has length 12, a character of each class, and only alphabet characters |
| Password.Swap | update-role.js:36 | an exchange keeps the length and the multiset of characters |
| Password.Permute | update-role.js:36 | the shuffle keeps the length and the multiset of characters |
| Password.RearrangementKeepsShape | update-role.js:36 | a rearrangement keeps every class and the alphabet |
| Password.GenerateSecurePassword | update-role.js:16-37 | the password has length 12, a character of each class, only alphabet characters, and is a rearrangement of the built one |

## Left out

- Every call to Firebase, Supabase, Google Places and the auth service. Their answers are parameters: success flags, returned lists, the role lookup and the geocoder result.
- Concurrency: the asynchronous handlers are modelled as if each remote call answered before the next step runs.
- The order of state updates that React batches.
- Floating point. The viewer computes over real numbers, so IEEE rounding and the `Math.round(scale * 100)` percentage display are not modelled.
- Password.FloorIndex: the product `r·len` is exact, not rounded.
- The escape key, the scroll lock, the event blocking and the focus handling of the viewer; these are DOM side effects.
- The `date-fns` formatting of `created_at` in the export is the parameter `formatDate`; a date it cannot parse, and the exception that follows, is not modelled.
- The download of the CSV blob.
- `makeAdmin`, `fetchPatients`, sign-out and the loading/error screens of `AdminPanel`, which only relay remote answers.
- `fetchUsers` of `AdminUsers` is the constructor's `loaded` parameter, and the `formatDate` helper there is not modelled.
- The `orderBy('createdAt', 'desc')` of the patient query is the remote's job; the fetched list is taken as given.
- The list display in the dental summary (`teeth.join(', ')`) and the `capitalize` styling are not modelled.
- AdminUsers.ConditionIcon: a key such as "constructor" or "toString", which the JavaScript object would resolve through its prototype, gets the question-mark icon.
- UserProfile.UpdateFor: the address comparison by `JSON.stringify` is modelled as structural inequality of the cleaned address and the current one. The key order of a stored object can make JSON differ where the model's values are equal.
- `fetchUserProfile` of `UserProfile` is the constructor's parameters; the label shown in the place picker, the saving/loading flags and the message timeouts are not modelled.
- `handleNonAddressInputChange` only writes one form field and is not modelled.
- Strings.LowerChar: `toLowerCase` is modelled on ASCII letters only. Other letters stay as they are.
- The router is modelled as exact matching on "/" and "/admin". React Router also ignores a trailing slash and letter case; those paths fall under the catch-all here.
- The routing debug output, the auth listener's unsubscribe, and `Login`, `ImageUploader`, `TeethDiagram`, `SuccessAnimation` and `main.tsx` are not part of this model.
- The patient form's image upload, sign-out, the user-name lookup and the insert's payload mapping are not modelled. The insert appears only as its outcome.
- Password.Permute: the random-comparator sort is a supplied list of transpositions. Any permutation can be written that way, but the distribution the sort produces is not modelled.
- The command-line handling and the role update of update-role.js are not modelled. `generateSecurePassword` is the whole of this model of that file.
