# Relieflink donation core in Dafny

Relieflink is a single-page web app for disaster-relief giving. This project
models the parts of it that hold state or compute something.

- **Donation cart store** (`DonationContext`): an insertion-ordered list of
  donation line items. Every change to the cart is written back to one storage
  slot. It also tracks a processing flag for the simulated checkout.
- **Donation modal** (`DonationModal`): the four-step checkout wizard.
  - Steps: amount, cart, payment, success.
  - The amount buttons and field clamp the amount to at least 1.
  - Add to Cart books the line item for the chosen campaign, or for the
    general fund when there is none.
  - At payment, the cart total is captured before the store clears the cart.
- **Aid-request form** (`RequestHumanity`): the five-step request form.
  - A nested section/field map that takes one assignment at a time.
  - The immediate-needs toggle.
  - Typed file intake into one ID-proof slot and two append-only lists, with
    removal by index.
  - A submit check that asks for an ID proof and then a photo.
- **Campaign list** (`Campaigns`): fixed campaign data, the case-insensitive
  search and the category filter over it, and the Donate Now button that opens
  the modal for one campaign.
- **FAQ modal** (`FaqModal`): the accordion's list of open entries and its toggle.
- **Live chat** (`LiveChat`): a message log that only grows at the end.
  White-space-only input is refused (`trim`), Enter sends unless Shift is held,
  and each sent message gets one canned bot reply.
- **Leaderboard** (`Leaderboard`): the donation and campaign totals over the
  fixed donor data, the podium and the list below it, and the rank styles.
- **Badges** (`Badges`): the earned and total badge counts, and the rarity
  colour and label.
- **Tax receipts** (`TaxReceipt`): the receipts' total and count, the download
  file names and alerts, and the modal rendering nothing when closed.

Parts of the model:

- Components whose handlers update state step by step are classes, with one
  field per piece of React state and `modifies` clauses down to single fields:
  - `CartStore`
  - `CheckoutWizard`
  - `AidRequestForm`
  - `Accordion`
  - `ChatWindow`
- Each class method states its whole new state in terms of a specification
  function. The lemmas about those functions state what the app promises.
- Pure computations are functions with named results, and lemmas relate them:
  filters, sums, toggles, step arithmetic and file names.
- Shared list and string helpers live in `ListOps` and `Text`. They mirror
  JavaScript's `filter`, `reduce`, `includes`, `toLowerCase` and `trim`.

The modules follow the components:

| file | module |
|---|---|
| `wrappers.dfy` | `Wrappers` |
| `listops.dfy` | `ListOps` |
| `text.dfy` | `Text` |
| `donation_context.dfy` | `DonationContext` |
| `donation_modal.dfy` | `DonationModal` |
| `request_humanity.dfy` | `RequestHumanity` |
| `campaigns.dfy` | `Campaigns` |
| `faq_modal.dfy` | `FaqModal` |
| `live_chat.dfy` | `LiveChat` |
| `leaderboard.dfy` | `Leaderboard` |
| `badges.dfy` | `Badges` |
| `tax_receipt.dfy` | `TaxReceipt` |

## Model

| member | source | states |
|---|---|---|
| DonationContext.UseDonation | DonationContext.tsx:25-31 | the hook succeeds exactly when a provider is present and then yields its store; otherwise it fails with the provider error message |
| DonationContext.Merge | DonationContext.tsx:62 | the spread `{ ...item, ...updates }`: each field given in the update replaces the item's, each field not given is kept |
| DonationContext.TotalAppend | DonationContext.tsx:70-72 | appending an item raises the cart total by exactly that item's amount |
| DonationContext.WithoutSpec | DonationContext.tsx:56-58 | removal by id keeps the cart's order, drops every item with that id, keeps every item with another id, and changes nothing when the id is absent |
| DonationContext.WithoutUniqueIds | DonationContext.tsx:56-58 | removal by id keeps the cart's ids pairwise distinct |
| DonationContext.UpdateMatchingSpec | DonationContext.tsx:60-64 | an update keeps the cart's length and order, merges the update into every item with the id and leaves every other item unchanged |
| DonationContext.UpdateAbsent | DonationContext.tsx:60-64 | an update for an id no item has changes nothing |
| DonationContext.CartStore.constructor | DonationContext.tsx:34-46 | on mount the cart is what the storage slot held, or empty when the slot is absent; nothing is processing; the slot then holds the cart |
| DonationContext.CartStore.AddToCart | DonationContext.tsx:48-54 | the new item, with the given fields and a fresh id, is appended at the end; the total rises by its amount; distinct ids stay distinct; storage holds the new cart |
| DonationContext.CartStore.RemoveFromCart | DonationContext.tsx:56-58 | the cart becomes the cart without that id; distinct ids stay distinct; storage holds the new cart |
| DonationContext.CartStore.UpdateCartItem | DonationContext.tsx:60-64 | the update is merged into every item with that id; storage holds the new cart |
| DonationContext.CartStore.ClearCart | DonationContext.tsx:66-68 | the cart is empty, its total is 0, and storage holds the empty cart |
| DonationContext.CartStore.BeginProcessDonation | DonationContext.tsx:74-77 | up to the await, only the processing flag changes, and it is raised |
| DonationContext.CartStore.FinishProcessDonation | DonationContext.tsx:79-81 | after the delay the cart is cleared and persisted, then the flag is lowered |
| DonationModal.Decremented | DonationModal.tsx:177 | the minus button gives ten less, or 1 when that would go below 1; the result is never below 1 |
| DonationModal.TypedAmount | DonationModal.tsx:185 | `Math.max(1, parseInt(v) \|\| 1)`: a parsed positive number is kept; NaN, zero or a negative number gives 1 |
| DonationModal.DonationFor | DonationModal.tsx:29-50 | the booked line has the chosen amount, frequency and anonymity, and the campaign's id and title, or the general fund's when there is no campaign |
| DonationModal.WizardTransitions | DonationModal.tsx:29-72 | an offered action moves the wizard only amount to cart, cart to payment, cart back to amount, or to amount on close; choosing a payment method does not move it; Complete Donation is offered only in the payment step while nothing is processing |
| DonationModal.CheckoutWizard.constructor | DonationModal.tsx:20-25 | initial state: amount 50, one-time, not anonymous, card, amount step, captured total 0 |
| DonationModal.CheckoutWizard.PickAmountButton | DonationModal.tsx:163 | a predefined amount replaces the amount |
| DonationModal.CheckoutWizard.MinusButton | DonationModal.tsx:177 | the amount becomes the decremented amount and stays at least 1 |
| DonationModal.CheckoutWizard.PlusButton | DonationModal.tsx:189 | the amount rises by 10 and stays at least 1 |
| DonationModal.CheckoutWizard.AmountInput | DonationModal.tsx:185 | the amount becomes the clamped parse of the typed text |
| DonationModal.CheckoutWizard.PickFrequencyButton | DonationModal.tsx:211 | the chosen frequency replaces the old one |
| DonationModal.CheckoutWizard.AnonymousCheckbox | DonationModal.tsx:230 | the anonymity flag follows the checkbox |
| DonationModal.CheckoutWizard.AddToCart | DonationModal.tsx:29-50 | exactly one line item with the current choices is appended to the store's cart, and the wizard moves to the cart step |
| DonationModal.CheckoutWizard.AddMoreButton | DonationModal.tsx:285 | the wizard goes back to the amount step |
| DonationModal.CheckoutWizard.ProceedToPaymentButton | DonationModal.tsx:52-54 | the wizard moves to the payment step |
| DonationModal.CheckoutWizard.PickPaymentMethodButton | DonationModal.tsx:312-323 | only the payment method changes; the step stays |
| DonationModal.CheckoutWizard.ProcessPayment | DonationModal.tsx:56-59 | the captured amount is the cart total taken before processing starts, the store's flag is raised, and the step stays |
| DonationModal.CheckoutWizard.PaymentCompleted | DonationModal.tsx:59-60 | once processing resolves, the cart is empty, the flag is down, the success step shows, and the captured amount is kept |
| DonationModal.CheckoutWizard.AutoClose | DonationModal.tsx:61-65 | the success timer resets to the amount step with captured amount 0 |
| DonationModal.CheckoutWizard.CloseModal | DonationModal.tsx:68-72 | closing resets to the amount step with captured amount 0, and the cart is untouched |
| RequestHumanity.Assign | RequestHumanity.tsx:62-70 | the assigned field holds the value; every other section and every other field of the section is unchanged; the key sets grow only by the assigned names |
| RequestHumanity.ToggleNeedSpec | RequestHumanity.tsx:72-79 | the toggle flips exactly the given need's membership, appends a need that was not selected, keeps the needs list free of duplicates, and leaves the other assistance fields alone |
| RequestHumanity.ToggleKeepsNeedsOffered | RequestHumanity.tsx:377-382 | toggling one of the offered checkbox options keeps every selected need among the offered options |
| RequestHumanity.ToggleNeedTwice | RequestHumanity.tsx:72-79 | selecting an unselected need and deselecting it again restores the form |
| RequestHumanity.IdProofIntakeSpec | RequestHumanity.tsx:84-91 | an ID-proof upload keeps at most one file, taken from the upload; it keeps one exactly when the upload is non-empty and its first file is an image or a PDF; files after the first never matter |
| RequestHumanity.IntakeSpec | RequestHumanity.tsx:92-117 | photo and report uploads keep, in order, exactly the files of an accepted type |
| RequestHumanity.PdfAcceptance | RequestHumanity.tsx:86-107 | a PDF is accepted as ID proof and as a report but not as a photo |
| RequestHumanity.SubmitCheck | RequestHumanity.tsx:128-140 | submission goes through if and only if an ID proof and at least one photo are present; a missing ID proof is reported first |
| RequestHumanity.PreviousStep | RequestHumanity.tsx:723 | `Math.max(1, step - 1)`: one step back above step 1, and 1 at or below it; stays within 1..5 |
| RequestHumanity.NextStep | RequestHumanity.tsx:733 | `Math.min(5, step + 1)`: one step forward below step 5, and 5 at or above it; stays within 1..5 |
| RequestHumanity.PreviousDisabled | RequestHumanity.tsx:724 | within the step range, Previous is disabled exactly where pressing it would not move the step |
| RequestHumanity.StepNavigationInverse | RequestHumanity.tsx:723-733 | Previous undoes Next below the last step, and Next undoes Previous above the first |
| RequestHumanity.Primary | RequestHumanity.tsx:730-745 | the Submit button replaces Next exactly at the last step |
| RequestHumanity.AidRequestForm.constructor | RequestHumanity.tsx:6-47 | step 1, every text empty, no needs, no files, no banner |
| RequestHumanity.AidRequestForm.PreviousButton | RequestHumanity.tsx:723-724 | the step becomes the previous step; the step range and needs invariant hold |
| RequestHumanity.AidRequestForm.NextButton | RequestHumanity.tsx:730-746 | the step becomes the next step and the invariant holds; the click that goes from step 4 to the last step also submits the form, because the reused button is a submit button by then, and exactly that click yields the submit outcome with the banner rule of Submit |
| RequestHumanity.AidRequestForm.InputChange | RequestHumanity.tsx:62-70 | the form becomes the assigned form; the invariant holds unless the needs list itself was overwritten |
| RequestHumanity.AidRequestForm.NeedsChange | RequestHumanity.tsx:72-79 | the form becomes the toggled form and the invariant holds |
| RequestHumanity.AidRequestForm.FileUpload | RequestHumanity.tsx:81-119 | no file list does nothing; no acceptable file is a rejection; otherwise the ID proof is replaced, or the accepted files are appended to their list, and the other slots are unchanged |
| RequestHumanity.AidRequestForm.RemoveFile | RequestHumanity.tsx:121-126 | only the named list changes, and only at that index |
| RequestHumanity.AidRequestForm.RemoveFileButton | RequestHumanity.tsx:518-527 | a click on a row's X removes that row; because the button has no `type` and rows are keyed by index, the form then submits exactly when the clicked row was not the last, with the submit check's outcome and banner; otherwise the banner is unchanged |
| RequestHumanity.NonLastPhotoRemovalSubmits | RequestHumanity.tsx:518-527 | with an ID proof present, removing any photo but the last submits the request successfully |
| RequestHumanity.AidRequestForm.RemoveIdProof | RequestHumanity.tsx:476 | the ID proof is cleared |
| RequestHumanity.AidRequestForm.Submit | RequestHumanity.tsx:128-148 | the outcome is the submit check; the banner turns on exactly when the check passes, and nothing else changes |
| RequestHumanity.AidRequestForm.HideSuccessMessage | RequestHumanity.tsx:150-152 | the banner timer turns the banner off |
| Campaigns.FilteredSpec | Campaigns.tsx:231-236 | the list keeps the data's order; every listed campaign matches both the search and the category; every matching campaign is listed |
| Campaigns.FilteredUnrestricted | Campaigns.tsx:231-236 | an empty search under "all" lists every campaign |
| Campaigns.EarthquakeFindsNothing | Campaigns.tsx:212-236 | "earthquake" is on the category menu, but under it nothing is listed, whatever the search |
| Campaigns.NoEarthquakeCampaign | Campaigns.tsx:26-210 | no campaign of the data has the earthquake category |
| Campaigns.InitialListsEverything | Campaigns.tsx:21-24 | on first render every campaign is listed and the empty state is hidden |
| Campaigns.SetSearchTerm | Campaigns.tsx:294 | typing replaces the term and re-filters under the same category; nothing else changes |
| Campaigns.SetCategory | Campaigns.tsx:303 | choosing a category replaces it and re-filters under the same term; nothing else changes |
| Campaigns.DonateClick | Campaigns.tsx:251-254 | Donate Now selects the campaign and opens the modal; search and category stay |
| Campaigns.CloseDonationModal | Campaigns.tsx:432 | closing lowers only the open flag and keeps the selection |
| Campaigns.ModalCampaign | Campaigns.tsx:433 | the modal gets a campaign exactly when one is selected, with its id and title |
| Campaigns.DonateClickBooksCampaign | Campaigns.tsx:430-434 | after Donate Now, the modal books its line item on that campaign's id and title, not on the general fund |
| FaqModal.Accordion.constructor | FAQModal.tsx:12 | no answer is shown at first |
| FaqModal.Accordion.ToggleItem | FAQModal.tsx:58-64 | the entry's answer flips between shown and hidden, every other entry keeps its state, the open list stays duplicate-free, and toggling one of the ten listed entries keeps every open entry a listed one |
| LiveChat.SendDisabledIffBlank | LiveChatModal.tsx:202 | the send button is disabled exactly when the input is white space only |
| LiveChat.ChatWindow.constructor | LiveChatModal.tsx:18-28 | the log starts with the greeting from the bot, the input is empty, and nobody is typing |
| LiveChat.ChatWindow.InputChange | LiveChatModal.tsx:195 | the input holds the typed text |
| LiveChat.ChatWindow.SendMessage | LiveChatModal.tsx:50-63 | sends exactly when the input is not blank; a sent message is the untrimmed input, appended as the user's, and then the input clears, typing shows and a reply is pending; otherwise nothing changes |
| LiveChat.ChatWindow.ReceiveReply | LiveChatModal.tsx:65-74 | one bot message with one of the eight canned responses is appended, and typing stops |
| LiveChat.ChatWindow.KeyPress | LiveChatModal.tsx:77-82 | a message is sent exactly for Enter without Shift on non-blank input, with the same new state as the send button; any other key, and Enter on blank input, changes nothing |
| Leaderboard.DonorStats | Leaderboard.tsx:166-171 | over the data, $89,240 donated, 10 donors and 239 campaigns supported |
| Leaderboard.DonorsRanked | Leaderboard.tsx:20-122 | the data is in rank order: each rank is the position plus one and the amounts do not increase |
| Leaderboard.PodiumAndRestPartition | Leaderboard.tsx:296-381 | podium and list together show every donor exactly once |
| Leaderboard.PodiumAndRestSum | Leaderboard.tsx:166-171 | the podium's and the list's amounts add up to the total donations |
| Leaderboard.RankStyles | Leaderboard.tsx:133-157 | ranks 1, 2 and 3 get pairwise different badge colours that differ from the default, and every other rank gets the default colour; the same holds for the icons of `getRankIcon`, which the page defines but never calls |
| Leaderboard.ListedName | Leaderboard.tsx:403 | an anonymous donor is listed under the anonymous label, and any other donor under their name |
| Leaderboard.TimeFilterHasNoEffect | Leaderboard.tsx:159-164 | any two time-filter values, and in particular each of the four menu entries and the initial "all-time", show the same statistics, podium and list |
| Badges.EarnedWithinTotal | Badges.tsx:51-54 | for any categories, the earned count is between 0 and the total count |
| Badges.PageCounts | Badges.tsx:10-54 | the page shows 6 earned badges of 13 |
| Badges.BadgeRaritiesKnown | Badges.tsx:10-39 | every badge of the data has one of the four rarities common, rare, epic, legendary |
| Badges.UnknownRarityLooksCommon | Badges.tsx:41-49 | a rarity outside the four known ones is styled like "common" |
| Badges.RarityLabelsOfRarities | Badges.tsx:176 | the four rarities are labelled Common, Rare, Epic and Legendary |
| Badges.RarityLabels | Badges.tsx:10-39 | every badge of the data is labelled Common, Rare, Epic or Legendary |
| TaxReceipt.Render | TaxReceiptModal.tsx:41-99 | the closed modal renders nothing; the open modal shows the total, the number of receipts and every receipt |
| TaxReceipt.ReceiptTotals | TaxReceiptModal.tsx:14-21 | the receipts total $575 over four receipts |
| TaxReceipt.ReceiptIdsDistinct | TaxReceiptModal.tsx:148 | the receipt ids used as list keys are pairwise distinct |
| TaxReceipt.ReceiptFileName | TaxReceiptModal.tsx:27 | the file name is the prefix `tax-receipt-`, then the id, then `.pdf` |
| TaxReceipt.ReceiptFileNameRoundTrip | TaxReceiptModal.tsx:27 | the id can be read back out of its file name, so different receipts download under different names |
| TaxReceipt.DownloadReceipt | TaxReceiptModal.tsx:23-30 | a receipt download offers that receipt's file name and raises the alert naming the receipt |
| TaxReceipt.DownloadYearlyReport | TaxReceiptModal.tsx:32-39 | the yearly download offers the fixed report name with its alert |
| TaxReceipt.YearlyReportNameIsNoReceiptName | TaxReceiptModal.tsx:27-36 | no receipt, whatever its id, downloads under the yearly report's name |
| Text.Lower | Campaigns.tsx:232-233 | lower-casing keeps the length and maps each character on its own |
| Text.IncludesIff | Campaigns.tsx:232-233 | `includes` holds exactly when the term occurs at some position |
| Text.TrimEmptyIffBlank | LiveChatModal.tsx:51 | trimming yields the empty string exactly for white-space-only input |
| Text.Capitalize | Badges.tsx:176 | `charAt(0).toUpperCase() + slice(1)`: same length, first character upper-cased, rest unchanged |
| ListOps.FilterIsSubsequence | DonationContext.tsx:57 | a filter keeps its input's order and leaves elements out |
| ListOps.ToggleMembership | FAQModal.tsx:58-64 | the include-or-remove toggle flips the element's membership and no other element's |
| ListOps.TogglePreservesNoDuplicates | FAQModal.tsx:58-64 | the toggle keeps a duplicate-free list duplicate-free |
| ListOps.ToggleTwiceAbsent | RequestHumanity.tsx:74-76 | toggling an absent element twice restores the list |
| ListOps.ToggleTwiceSameElements | FAQModal.tsx:58-64 | toggling the same entry twice restores the set of open entries, whether it was open or not |
| ListOps.RemoveIndexSpec | RequestHumanity.tsx:124 | filtering by index removes exactly the element at an index in range, and changes nothing for an index out of range |
| ListOps.SumOfAppend | DonationContext.tsx:71 | the sum of a concatenation is the sum of its parts |

## Left out

- RequestHumanity.AidRequestForm.RemoveFile is only the `removeFile` handler.
  The source's X buttons have no `type`, so a click also submits the form.
  `RemoveFileButton` models the click. The ID proof's Remove button unmounts
  itself before the default submit, so `RemoveIdProof` does not submit.
- Browser storage and JSON are abstract. The slot holds the item sequence it
  was written with.
  - An empty stored string is not modelled. It is falsy and would be ignored.
  - Malformed JSON is not modelled. `JSON.parse` throws on it and the code does
    not catch it, so no recovery path exists to model.
- Timers and the awaited promise are split into two methods each:
  - `BeginProcessDonation` / `FinishProcessDonation`
  - `ProcessPayment` / `PaymentCompleted`, then `AutoClose`
  - `SendMessage` / `ReceiveReply`
  - `Submit` / `HideSuccessMessage`

  The model does not force the second half to follow the first: a caller may
  run any other operation in between, or never run the second half. There are
  no delays.
- There is no re-entrancy guard. Nothing in the cart store stops
  `processDonation` from running twice. Only the Complete Donation button is
  disabled while processing, and `DonationModal.Enabled` models exactly that.
- `Date.now()` and `Math.random()` become parameters:
  - the fresh cart id (`freshId`)
  - the chat message ids
  - the bot reply index (`choice`)
- DonationContext.CartStore.AddToCart: requires that the caller's id is not yet
  in the cart. The source relies on `Date.now()` plus a random suffix being
  unique, which cannot be stated about values.
- RequestHumanity.AidRequestForm.NeedsChange requires the form's needs list to
  be a duplicate-free list. The source cannot break this through its own
  handlers, but `InputChange` on that field could. `ToggleNeedIn` has the same
  requirement and the same reason.
- Alerts and `console.log` are left out. Uploads and submission return typed
  outcomes (`UploadResult`, `SubmitResult`) in their place. The message texts
  are modelled only for the tax-receipt downloads.
- `File` objects are reduced to a name and a MIME type.
- Floating point is left out:
  - the leaderboard's average donation
  - the progress percentages
  - `Math.round` of the estimated tax deduction
  - the file-size display
  - currency and date formatting
- `toLowerCase` and `toUpperCase` are ASCII-only. Unicode case mapping is not
  modelled.
- Rendering, animation, icons, images, avatars, and the campaign descriptions,
  which are only displayed, are left out.
- The chat window's minimise state and scrolling are left out.
- The modal's `onClose` callback to the parent is left out. The parent's side
  is `Campaigns.CloseDonationModal`.
- The other pages and components are not part of this model. They only
  render text: Home, Dashboard, Profile, Impact, Contact, the policy pages,
  Header, Footer, the authentication context.
- The leaderboard's anonymous label is modelled as the literal the source file
  holds: the four characters that the UTF-8 bytes of a lock emoji become when
  read back as Windows-1252, followed by " Anonymous Donor".
