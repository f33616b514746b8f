# dataPadi client core in Dafny

dataPadi is a Nigerian airtime and utility (VTU) web client. Users buy airtime, data bundles,
cable-TV subscriptions and electricity tokens. They generate and print recharge-PIN vouchers,
verify their BVN and browse their transaction history. A route guard protects the signed-in pages.
This project models the parts of the client that carry logic:

- **Voucher printing.** PIN formatting and load codes (`PinBatchModal`). The multi-batch
  preview with its flattening and totals (`PrintPreviewModal`). The inventory page with
  toggled selection and generation (`Printing`). The full-screen print view (`VoucherPrintModal`).
  The regular-expression chunkings they use are in `Chunking`.
- **Purchase wizards.** Electricity (`ElectricityModal`, with the server actions in
  `ElectricityActions`), cable (`CableModal`), data (`DataModal`), airtime (`AirtimeModal`) and
  the BVN form (`KycModal`). Each wizard follows the same pattern:
  - a `Form` datatype holds the sheet's state;
  - pure transition functions (`After…`, `Handle`) say what a handler does;
  - `Enabled` says when its control is on screen and enabled;
  - `Run` plays a session of events.
  - A class with the same fields has one method per handler. Each method's contract ties the
    new state to the transition function.
  - Invariants are proved for every reachable state. So is "the success step only after the
    backend accepted a payment".
- **Request builders and results.** The history query and its type rewrite (`UserActions`). The
  transactions page's filter map, badges and fetch (`TransactionsPage`).
- **Route guard** (`Middleware`). This is the whole decision over path, cookies and the token
  refresh's outcome.

The shared modules:

- `Text` models the JavaScript string operations the client uses: `\s`, `trim`, `replace`,
  `includes`, ASCII case mapping, `Number`, `parseFloat` and `toString`.
- `Wrappers` holds `Option`.
- `Types` holds the PIN-batch records.

Backend replies are parameters of the handlers. Requests are returned as optional values, so
"no request is made" can be observed. An async handler is modelled as running to completion.

## Model

| member | source | states |
|---|---|---|
| Text.StripSpaces | components/modals/PinBatchModal.tsx:41 | removing `\s` leaves no white space and never lengthens the text |
| Text.StripSpacesNoSpaces | components/modals/PinBatchModal.tsx:41 | removing `\s` changes nothing on space-free text |
| Text.StripSpacesAppend | components/modals/PinBatchModal.tsx:41 | white-space removal distributes over concatenation |
| Text.Trim | components/modals/PinBatchModal.tsx:41 | the trimmed text neither starts nor ends with white space and is unchanged when the input already has that property |
| Text.TrimRemovesOnlyEnds | components/modals/PinBatchModal.tsx:41 | the trimmed text is the slice of the input between its leading and trailing white space, and everything outside that slice is white space |
| Text.TrimStart | components/modals/PinBatchModal.tsx:41 | the result is a suffix of the text that does not start with white space, and what it drops is all white space |
| Text.TrimEnd | components/modals/PinBatchModal.tsx:41 | the result is a prefix of the text that does not end with white space, and what it drops is all white space |
| Text.KeepDigits | components/modals/BuyAirtimeModal.tsx:128-133 | `replace(/\D/g, '')` keeps only digits and leaves digit-only text unchanged |
| Text.KeepDigitsAppend | components/modals/BuyAirtimeModal.tsx:128-133 | the digits of a concatenation are the digits of each part, in order |
| Text.KeepDigitsChar | components/modals/BuyAirtimeModal.tsx:128-133 | one character is kept exactly when it is a digit |
| Text.ToUpper | components/VoucherPrintModal.tsx:15 | upper-casing keeps the length and maps every character |
| Text.ContainsAt | components/modals/BuyCableModal.tsx:147 | `includes` holds when the text occurs at some position |
| Text.ReplaceFirst | app/actions/user.ts:11 | a string-pattern `replace` leaves a text that does not contain the pattern unchanged |
| Text.ReplaceFirstAt | app/actions/user.ts:11 | when the pattern first occurs at position k, the result is the text before k, the replacement, and the text after that occurrence |
| Text.NumberOf | components/Printing.tsx:86 | `Number` gives 0 for the empty text and the digits' value for digit text; any other number needs a sign and digits |
| Text.IntToString | components/Printing.tsx:161 | `toString` of an integer reads back through `Number` as the same integer |
| Text.ParseFloat | app/actions/electricity.ts:97-102 | `parseFloat` of digit text is its value; it is NaN when the text does not start with a digit |
| Chunking.UngroupGroupFours | components/VoucherPrintModal.tsx:122 | removing the spaces `replace(/(.{4})/g, '$1 ')` inserted gives back the original text, whatever it contains |
| Chunking.GroupFoursIsJoinedChunks | components/VoucherPrintModal.tsx:122 | on one-line text the regex output is the four-character chunks joined by spaces, plus a trailing space when the length is a positive multiple of four |
| Chunking.Chunks | components/modals/PinBatchModal.tsx:42 | the chunks concatenate to the text and have four characters each, except the last, which has one to four |
| Chunking.StripJoinedChunks | components/modals/PinBatchModal.tsx:40-42 | removing the spaces from space-free text's joined chunks gives the text back |
| Chunking.TokenGroups | components/modals/BuyElectrictyModal.tsx:414 | `match(/.{1,4}/g)` gives groups of one to four one-line characters, and none only for empty one-line text |
| Chunking.TokenGroupsAreChunks | components/modals/BuyElectrictyModal.tsx:414 | on one-line text the regex groups are exactly the four-character chunks |
| PinBatchModal.GetUssd | components/modals/PinBatchModal.tsx:30-38 | the load code is `*`, a three-digit network code and `*PIN#`; an unknown network gets XXX |
| PinBatchModal.UssdCodesDistinct | components/modals/PinBatchModal.tsx:30-38 | the four networks' codes are pairwise different |
| PinBatchModal.UssdDigits | components/modals/PinBatchModal.tsx:30-38 | MTN loads with 555, Airtel with 126, Glo with 123 and 9mobile with 222 |
| PinBatchModal.FormatPin | components/modals/PinBatchModal.tsx:40-42 | the formatted PIN neither starts nor ends with white space |
| PinBatchModal.FormatPinIsJoinedChunks | components/modals/PinBatchModal.tsx:40-42 | the formatted PIN is the white-space-free PIN's four-character chunks joined by single spaces |
| PinBatchModal.FormatPinDechunk | components/modals/PinBatchModal.tsx:40-42 | removing the spaces from the formatted PIN gives the white-space-free PIN: nothing dropped or repeated |
| PinBatchModal.FormatPinIdempotent | components/modals/PinBatchModal.tsx:42 | formatting twice equals formatting once |
| PinBatchModal.FormatPinGroups | components/modals/PinBatchModal.tsx:42 | every group of the formatted PIN has four characters except the last, which has one to four |
| PinBatchModal.ChunksAreSlices | components/modals/PinBatchModal.tsx:42 | the i-th group is the slice starting at 4·i |
| PinBatchModal.CardPinText | components/modals/PinBatchModal.tsx:272 | an empty PIN prints as N/A, any other PIN prints formatted |
| PinBatchModal.Render | components/modals/PinBatchModal.tsx:18-272 | nothing without a batch; otherwise the total is amount × quantity, with one preview and one printable card per PIN, in order |
| PinBatchModal.RenderCardAt | components/modals/PinBatchModal.tsx:262-272 | the i-th printable card carries the i-th PIN's serial and text with the batch's amount, network and load code |
| PrintPreviewModal.BatchItems | components/modals/PrintPreviewModal.tsx:19-24 | one voucher per PIN of a batch, keeping the PIN's fields and adding the batch's network, amount and id |
| PrintPreviewModal.AllPins | components/modals/PrintPreviewModal.tsx:18-25 | the flattened list has as many vouchers as all batches hold PINs |
| PrintPreviewModal.AllPinsAppend | components/modals/PrintPreviewModal.tsx:18-25 | flattening distributes over joining batch lists |
| PrintPreviewModal.AllPinsAt | components/modals/PrintPreviewModal.tsx:18-25 | the k-th PIN of the j-th batch sits right after the PINs of the earlier batches, with its parent's network, amount and id |
| PrintPreviewModal.AllPinsFrom | components/modals/PrintPreviewModal.tsx:18-25 | every flattened voucher comes from some PIN of some batch at that position |
| PrintPreviewModal.TotalValueIsBatchesValue | components/modals/PrintPreviewModal.tsx:45 | the sum of the vouchers' amounts is, batch by batch, the amount times the number of PINs |
| PrintPreviewModal.PreviewPinText | components/modals/PrintPreviewModal.tsx:199 | the preview PIN is the first fourteen formatted characters, or all of them when there are fewer, followed by an ellipsis |
| PrintPreviewModal.PreviewShowsFirstGroups | components/modals/PrintPreviewModal.tsx:199 | a PIN of twelve or more characters, white space aside, is previewed as its first three groups of four with spaces between; a short formatted PIN is shown whole |
| PrintPreviewModal.PreviewDial | components/modals/PrintPreviewModal.tsx:203 | the preview dial is the load code's first five characters and `#` |
| PrintPreviewModal.MoreLine | components/modals/PrintPreviewModal.tsx:208-211 | the "+ N more" line appears exactly when there are more than six vouchers, with N the excess |
| PrintPreviewModal.Tiles | components/modals/PrintPreviewModal.tsx:191 | the preview shows the first min(6, n) vouchers in order |
| PrintPreviewModal.Grid | components/modals/PrintPreviewModal.tsx:235-251 | the print grid has one card per voucher, in order |
| PrintPreviewModal.Render | components/modals/PrintPreviewModal.tsx:16-219 | nothing for missing or empty batches; otherwise counts, total value, tiles, more line and grid as above, the "+ N more" line with N the vouchers beyond six, and the print button reports the voucher count |
| VoucherPrintModal.GetNetworkConfig | components/VoucherPrintModal.tsx:14-23 | the label is the upper-cased name; blue exactly for unknown networks; black text only for MTN |
| VoucherPrintModal.NetworkConfigIgnoresCase | components/VoucherPrintModal.tsx:15 | the lookup ignores letter case |
| VoucherPrintModal.NetworkColoursDistinct | components/VoucherPrintModal.tsx:16-21 | the four known networks have different colours |
| VoucherPrintModal.NetworkOf | components/VoucherPrintModal.tsx:98 | a missing or empty network counts as MTN |
| VoucherPrintModal.PinDisplay | components/VoucherPrintModal.tsx:122 | removing the inserted spaces gives back the PIN code |
| VoucherPrintModal.PinDisplayTrailingSpace | components/VoucherPrintModal.tsx:122 | the display is not trimmed: a one-line PIN whose length is a positive multiple of four ends in a space |
| VoucherPrintModal.PinDisplayTrimmed | components/VoucherPrintModal.tsx:122 | trimmed, the display of a space-free PIN is the sheets' formatted PIN |
| VoucherPrintModal.DialString | components/VoucherPrintModal.tsx:136 | the dial string is `*311*`, the raw PIN and `#`, whatever the network |
| VoucherPrintModal.CardOf | components/VoucherPrintModal.tsx:97-136 | a card carries the network badge, denomination, serial, recoverable PIN text and dial string |
| VoucherPrintModal.Render | components/VoucherPrintModal.tsx:8-97 | nothing for a missing or empty list; otherwise one card per PIN in order, and the count equals the list length |
| Printing.Without | components/Printing.tsx:99 | filtering out an id keeps every other id and no duplicates |
| Printing.ToggleSelection | components/Printing.tsx:98-100 | the id is removed if present and appended otherwise; other ids are unaffected; no duplicates appear |
| Printing.ToggleTwice | components/Printing.tsx:98-100 | toggling an absent id twice restores the selection |
| Printing.PinsOf | components/Printing.tsx:102 | a batch's PINs, or none when it has no PIN list |
| Printing.PrintMultipleIgnoresClickOrder | components/Printing.tsx:104-107 | the printed PINs depend only on which ids are selected, not on the click order |
| Printing.PrintMultipleAppend | components/Printing.tsx:104-107 | the printed PINs follow inventory order: the first part's, then the second's |
| Printing.PrintMultipleOne | components/Printing.tsx:104-107 | selecting one uniquely identified batch prints exactly that batch's PINs |
| Printing.NoneSelected | components/Printing.tsx:104-107 | with no inventory batch selected nothing is printed |
| Printing.GenerateEnabled | components/Printing.tsx:184 | the button is enabled exactly when the guard holds and the quantity is not a number above 100 |
| Printing.TotalBilling | components/Printing.tsx:181 | amount × quantity when both are set; 0 when either is empty; NaN when either is not a number |
| Printing.InventoryOf | components/Printing.tsx:71-73 | an envelope with success and data, or a bare array, yields the inventory; anything else yields none |
| Printing.InventoryError | components/Printing.tsx:73-75 | a failed load shows the reply's own text when it has one, otherwise a default |
| Printing.GenerateError | components/Printing.tsx:90-92 | a failed generation shows a non-empty error |
| Printing.PrintPins.constructor | components/Printing.tsx:41-55 | the page starts on the new tab with empty inputs, inventory and selection |
| Printing.PrintPins.SelectNetwork | components/Printing.tsx:155 | the chosen network is stored |
| Printing.PrintPins.SelectDenomination | components/Printing.tsx:160-161 | the amount becomes the denomination's text |
| Printing.PrintPins.SetQuantity | components/Printing.tsx:176 | the quantity becomes the typed text |
| Printing.PrintPins.FetchInventory | components/Printing.tsx:66-79 | the inventory is replaced when the reply yields one; otherwise it is kept and the error is set |
| Printing.PrintPins.SetTab | components/Printing.tsx:57-64 | entering the history tab fetches the inventory; leaving it clears multi-select and the selection |
| Printing.PrintPins.Generate | components/Printing.tsx:81-96 | no request unless network, amount and quantity are set; success switches to history and clears the inputs; failure sets the error and keeps them; the generating flag ends cleared |
| Printing.PrintPins.ToggleMultiSelect | components/Printing.tsx:124 | multi-select flips and the selection is cleared |
| Printing.PrintPins.ClickCheckbox | components/Printing.tsx:198-203 | only a SUCCESS batch toggles the selection |
| Printing.PrintPins.PrintSingle | components/Printing.tsx:102-224 | the print view gets the batch's PINs |
| Printing.PrintPins.PrintSelected | components/Printing.tsx:104-107 | the print view gets the selected batches' PINs in inventory order |
| Printing.PrintPins.ClosePrint | components/Printing.tsx:114 | the print view closes |
| ElectricityActions.MapReply | app/actions/electricity.ts:47-49 | an OK reply gives its data; a non-OK one its message or the default; a throw the fixed text |
| ElectricityActions.GetDiscos | app/actions/electricity.ts:42-59 | success exactly for an OK reply, carrying the reply's provider list; failures carry a non-empty error |
| ElectricityActions.MeterTypeCode | app/actions/electricity.ts:68 | "01" exactly when prepaid, otherwise "02" |
| ElectricityActions.VerifyMeter | app/actions/electricity.ts:65-91 | the query carries the disco, the meter number and the type code; success exactly for an OK reply, carrying the reply's meter data with the owner's name |
| ElectricityActions.PayElectricity | app/actions/electricity.ts:97-126 | no request when the amount is below 100 or above 500000 (NaN passes); success exactly for a sent, OK reply, passing message, token, customer name and id through |
| ElectricityModal.AfterFetchDiscos | components/modals/BuyElectrictyModal.tsx:47-58 | the list is stored when the reply carries one, otherwise kept with an error; loading ends |
| ElectricityModal.ValidateQuery | components/modals/BuyElectrictyModal.tsx:86-105 | a verification request exactly for a meter number of at least five, with the type code of the meter type |
| ElectricityModal.ShortMeterNotVerified | components/modals/BuyElectrictyModal.tsx:87-90 | a short meter number gives an error and no request |
| ElectricityModal.ValidateOutcome | components/modals/BuyElectrictyModal.tsx:91-104 | verified exactly when the backend accepted the meter and returned its data, and the owner's `customer_name` is then stored; otherwise an error |
| ElectricityModal.AfterVerification | components/modals/BuyElectrictyModal.tsx:97-104 | verification ends, and the meter counts as verified exactly when the action succeeded with data, which supplies the stored customer name |
| ElectricityModal.EditingMeterInvalidates | components/modals/BuyElectrictyModal.tsx:207-237 | changing the meter type or number withdraws verification; the number keeps digits only |
| ElectricityModal.PurchaseCall | components/modals/BuyElectrictyModal.tsx:107-126 | the payload is sent exactly for a phone number of at least ten, with the type code and the parsed amount |
| ElectricityModal.ShortPhoneBouncesToDetails | components/modals/BuyElectrictyModal.tsx:110-114 | a short phone number goes back to details with an error and no payment |
| ElectricityModal.PurchaseOutcome | components/modals/BuyElectrictyModal.tsx:129-137 | success reaches the success step storing the token; failure keeps the step with an error |
| ElectricityModal.AfterPurchase | components/modals/BuyElectrictyModal.tsx:107-138 | processing is off after a payment attempt |
| ElectricityModal.AfterPayment | components/modals/BuyElectrictyModal.tsx:127-137 | processing ends; the step becomes success exactly when the payment succeeded; a failure shows an error and keeps the token |
| ElectricityModal.AfterReset | components/modals/BuyElectrictyModal.tsx:60-73 | every field back to its initial value, the loaded providers kept |
| ElectricityModal.StepInv | components/modals/BuyElectrictyModal.tsx:80-138 | every handler keeps digit-only inputs, an eleven-digit phone bound and a confirmation step only with a verified, proceedable form |
| ElectricityModal.RunInv | components/modals/BuyElectrictyModal.tsx:80-138 | the invariant holds after every session |
| ElectricityModal.ReachablePurchaseCallsPay | components/modals/BuyElectrictyModal.tsx:302-321 | from a reachable confirmation step, purchasing always calls pay with an amount of at least 100 |
| ElectricityModal.SuccessNeedsPayment | components/modals/BuyElectrictyModal.tsx:129-137 | the success step is reached only through a payment the backend accepted |
| ElectricityModal.TokenDisplay | components/modals/BuyElectrictyModal.tsx:414 | a token with no groups is shown as it is |
| ElectricityModal.TokenDisplayGroups | components/modals/BuyElectrictyModal.tsx:414 | a one-line token is shown as its four-character groups joined by `-`, and the groups give the token back |
| ElectricityModal.BuyElectricityModal.constructor | components/modals/BuyElectrictyModal.tsx:21-36 | the sheet starts in its initial state |
| ElectricityModal.BuyElectricityModal.OnOpen | components/modals/BuyElectrictyModal.tsx:47-58 | the fields become the fetch's result |
| ElectricityModal.ProviderChoiceKeepsVerification | components/modals/BuyElectrictyModal.tsx:80-84 | choosing a provider keeps the meter, its verification and the customer name |
| ElectricityModal.BuyElectricityModal.HandleProviderSelect | components/modals/BuyElectrictyModal.tsx:80-84 | the provider is stored, the error is cleared and the step becomes details |
| ElectricityModal.BuyElectricityModal.GoBackToProvider | components/modals/BuyElectrictyModal.tsx:196 | back to the provider step |
| ElectricityModal.BuyElectricityModal.SetMeterType | components/modals/BuyElectrictyModal.tsx:207 | the type changes and verification is withdrawn |
| ElectricityModal.BuyElectricityModal.SetMeterNumber | components/modals/BuyElectrictyModal.tsx:233-237 | the digits are stored and verification is withdrawn |
| ElectricityModal.BuyElectricityModal.HandleValidate | components/modals/BuyElectrictyModal.tsx:86-105 | returns the request it makes; the fields become the validation's result |
| ElectricityModal.BuyElectricityModal.ApplyVerification | components/modals/BuyElectrictyModal.tsx:97-104 | the fields become the verification result's effect |
| ElectricityModal.BuyElectricityModal.SetAmount | components/modals/BuyElectrictyModal.tsx:259-262 | the amount's digits are stored |
| ElectricityModal.BuyElectricityModal.PickQuickAmount | components/modals/BuyElectrictyModal.tsx:268-271 | a quick pill sets the amount |
| ElectricityModal.BuyElectricityModal.SetPhoneNumber | components/modals/BuyElectrictyModal.tsx:284-293 | the phone number keeps at most eleven digits |
| ElectricityModal.BuyElectricityModal.ProceedToConfirm | components/modals/BuyElectrictyModal.tsx:321 | the step becomes confirm |
| ElectricityModal.BuyElectricityModal.GoBackToDetails | components/modals/BuyElectrictyModal.tsx:339 | back to details |
| ElectricityModal.BuyElectricityModal.HandlePurchase | components/modals/BuyElectrictyModal.tsx:107-138 | returns the payload it sends; the fields become the purchase's result |
| ElectricityModal.BuyElectricityModal.ApplyPayment | components/modals/BuyElectrictyModal.tsx:127-137 | the fields become the payment response's effect |
| ElectricityModal.BuyElectricityModal.ClearEntry | components/modals/BuyElectrictyModal.tsx:61-66 | the step and the entered fields are reset, nothing else changes |
| ElectricityModal.BuyElectricityModal.ClearStatus | components/modals/BuyElectrictyModal.tsx:67-72 | the name, token, flags and error are reset, nothing else changes |
| ElectricityModal.BuyElectricityModal.HandleClose | components/modals/BuyElectrictyModal.tsx:60-78 | the state is reset |
| CableModal.PlanOf | components/modals/BuyCableModal.tsx:133-137 | a package becomes a plan with its id and name |
| CableModal.GroupPlans | components/modals/BuyCableModal.tsx:131-139 | one plan per package in order; none when the group has no package array |
| CableModal.FlattenGroupsAppend | components/modals/BuyCableModal.tsx:127-142 | flattening distributes over joining group lists |
| CableModal.PushGroups | components/modals/BuyCableModal.tsx:127-142 | the nested loops push every package of every group with a package array, in order |
| CableModal.PushGroup | components/modals/BuyCableModal.tsx:131-139 | one group's callback appends its packages, in order, after what was pushed before; a group without a package array appends nothing |
| CableModal.FlattenSkipsMissing | components/modals/BuyCableModal.tsx:131 | a group without a package array contributes nothing |
| CableModal.FindKey | components/modals/BuyCableModal.tsx:121-125 | the first catalogue key equal to the provider id once both are lower-cased, or none if no key is |
| CableModal.FindKeyIsFirst | components/modals/BuyCableModal.tsx:121-125 | the key found is the first one that matches the provider id ignoring case |
| CableModal.AvailablePlans | components/modals/BuyCableModal.tsx:118-143 | no plans without a catalogue, a provider or a matching key; otherwise the matched key's groups flattened |
| CableModal.AvailablePlansIgnoreCase | components/modals/BuyCableModal.tsx:122 | the provider key is matched without regard to case |
| CableModal.GetAvailablePlans | components/modals/BuyCableModal.tsx:118-143 | the key search and nested push loops compute exactly the available plans |
| CableModal.FilterPlans | components/modals/BuyCableModal.tsx:146-148 | exactly the plans whose lower-cased name contains the lower-cased query are kept |
| CableModal.FilterPlansAppend | components/modals/BuyCableModal.tsx:146-148 | filtering a concatenation filters each part and keeps their order |
| CableModal.FilterPlansOne | components/modals/BuyCableModal.tsx:146-148 | a single plan is kept exactly when the query matches it |
| CableModal.FilterEmptyQuery | components/modals/BuyCableModal.tsx:146-148 | an empty query keeps every plan |
| CableModal.AfterFetchPackages | components/modals/BuyCableModal.tsx:59-70 | the catalogue is stored when the result carries one, otherwise kept with an error |
| CableModal.ValidateCall | components/modals/BuyCableModal.tsx:97-106 | a verification request exactly for a smartcard number of at least eight, carrying the current provider and that number |
| CableModal.AfterValidate | components/modals/BuyCableModal.tsx:97-116 | validation keeps the step, the chosen plan, the catalogue and the provider |
| CableModal.ValidateOutcome | components/modals/BuyCableModal.tsx:103-115 | past the length gate, the card is verified exactly when the reply succeeded with a customer name, which is stored; otherwise the reply's error or the fallback message is shown |
| CableModal.ShortSmartCardNotVerified | components/modals/BuyCableModal.tsx:98-101 | a short smartcard number gives the fixed error and no request |
| CableModal.EditingSmartCardClears | components/modals/BuyCableModal.tsx:249-254 | editing the smartcard withdraws verification, the error and the plan |
| CableModal.PurchaseCall | components/modals/BuyCableModal.tsx:150-171 | the payment is sent exactly with a plan and a phone number of at least ten |
| CableModal.PurchaseOutcome | components/modals/BuyCableModal.tsx:153-176 | a short phone number errors without moving; success reaches the success step; failure keeps the step with an error |
| CableModal.BackMoves | components/modals/BuyCableModal.tsx:235 | details go back to provider, confirm to details |
| CableModal.AfterReset | components/modals/BuyCableModal.tsx:72-84 | every field back to its initial value, the catalogue kept |
| CableModal.StepInv | components/modals/BuyCableModal.tsx:91-177 | every handler keeps digit-only inputs and a confirmation step only with a verified card, a plan and a phone number |
| CableModal.RunInv | components/modals/BuyCableModal.tsx:91-177 | the invariant holds after every session |
| CableModal.ReachablePurchaseCallsPay | components/modals/BuyCableModal.tsx:342-343 | from a reachable confirmation step, purchasing sends the payment |
| CableModal.SuccessNeedsPayment | components/modals/BuyCableModal.tsx:172-176 | the success step is reached only through a payment that succeeded |
| CableModal.StaleProviderReachesConfirm | components/modals/BuyCableModal.tsx:91-95 | for every package and every customer name the verification returns, one fixed session reaches confirmation with a plan that is not among the current provider's packages, and the request pairs gotv with the DStv package's code |
| CableModal.HandleIntended | components/modals/BuyCableModal.tsx:249-254 | the corrected handlers: choosing a provider also withdraws verification and the plan |
| CableModal.StepKeepsPlanMatch | components/modals/BuyCableModal.tsx:91-177 | every handler except the provider choice keeps the chosen plan among the current provider's packages |
| CableModal.StepIntendedInv | components/modals/BuyCableModal.tsx:91-95 | with the corrected provider choice, every step keeps the invariant and the plan-provider match |
| CableModal.RunIntendedInv | components/modals/BuyCableModal.tsx:91-95 | with the corrected provider choice, both hold after every session |
| CableModal.IntendedPurchaseMatchesProvider | components/modals/BuyCableModal.tsx:150-171 | with the correction, a reachable confirmation step always pays for a plan of the current provider |
| CableModal.BuyCableModal.constructor | components/modals/BuyCableModal.tsx:33-48 | the sheet starts in its initial state |
| CableModal.BuyCableModal.FilteredPlans | components/modals/BuyCableModal.tsx:146-148 | the list shown is the search-filtered available plans |
| CableModal.BuyCableModal.OnOpen | components/modals/BuyCableModal.tsx:53-70 | the fields become the fetch's result |
| CableModal.BuyCableModal.HandleProviderSelect | components/modals/BuyCableModal.tsx:91-95 | as written: the provider is stored, the error cleared and the step becomes details |
| CableModal.BuyCableModal.GoBackToProvider | components/modals/BuyCableModal.tsx:235 | back to the provider step |
| CableModal.BuyCableModal.SetSmartCardNumber | components/modals/BuyCableModal.tsx:249-254 | digits stored; verification, error and plan cleared |
| CableModal.BuyCableModal.HandleValidate | components/modals/BuyCableModal.tsx:97-116 | returns the request it makes, the provider and smartcard number or nothing below eight digits; the fields become the validation's result |
| CableModal.BuyCableModal.SetSearchQuery | components/modals/BuyCableModal.tsx:293 | the query is stored |
| CableModal.BuyCableModal.ChoosePlan | components/modals/BuyCableModal.tsx:302 | the plan is stored |
| CableModal.BuyCableModal.SetPhoneNumber | components/modals/BuyCableModal.tsx:324-329 | the phone number keeps at most eleven digits |
| CableModal.BuyCableModal.ProceedToConfirm | components/modals/BuyCableModal.tsx:342-343 | the step becomes confirm |
| CableModal.BuyCableModal.GoBackToDetails | components/modals/BuyCableModal.tsx:361 | back to details |
| CableModal.BuyCableModal.HandlePurchase | components/modals/BuyCableModal.tsx:150-177 | returns the payload it sends; the fields become the purchase's result |
| CableModal.BuyCableModal.HandleClose | components/modals/BuyCableModal.tsx:86-89 | the state is reset |
| DataModal.NetworkKey | components/modals/BuyDataModal.tsx:88-94 | 9MOBILE→m_9mobile, GLO→Glo, AIRTEL→Airtel, MTN→MTN, any other id passes through |
| DataModal.NetworkKeysDistinct | components/modals/BuyDataModal.tsx:88-94 | the four networks have different keys |
| DataModal.GroupName | components/modals/BuyDataModal.tsx:112-113 | SME if the name contains '(SME)', else Awoof if it contains '(Awoof', else Direct |
| DataModal.SmeBeforeAwoof | components/modals/BuyDataModal.tsx:112-113 | a name with '(SME)' anywhere in it is classed SME, whatever comes before or after, an Awoof marker included |
| DataModal.PlanOf | components/modals/BuyDataModal.tsx:108-114 | a product becomes a plan with its id, name, price and badge |
| DataModal.GroupPlans | components/modals/BuyDataModal.tsx:105-117 | one plan per product in order; none when the group has no product array |
| DataModal.FlattenGroupsAppend | components/modals/BuyDataModal.tsx:105-117 | flattening distributes over joining group lists |
| DataModal.FlattenedPlansClassified | components/modals/BuyDataModal.tsx:112-113 | every listed plan's badge is read off its own name |
| DataModal.AvailablePlans | components/modals/BuyDataModal.tsx:85-120 | no plans without a catalogue, a network, or an array under the aliased key; otherwise the groups flattened |
| DataModal.GetAvailablePlans | components/modals/BuyDataModal.tsx:85-120 | the aliasing and the push loops compute exactly the available plans |
| DataModal.PushGroups | components/modals/BuyDataModal.tsx:105-117 | the nested loops push every product of every group with a product array, in order |
| DataModal.PushGroup | components/modals/BuyDataModal.tsx:106-116 | one group's callback appends its products, in order, after what was pushed before; a group without a product array appends nothing |
| DataModal.FilterPlans | components/modals/BuyDataModal.tsx:123-125 | exactly the plans whose lower-cased name contains the lower-cased query are kept |
| DataModal.FilterPlansAppend | components/modals/BuyDataModal.tsx:123-125 | filtering a concatenation filters each part and keeps their order |
| DataModal.FilterPlansOne | components/modals/BuyDataModal.tsx:123-125 | a single plan is kept exactly when the query matches it |
| DataModal.FilterEmptyQuery | components/modals/BuyDataModal.tsx:123-125 | an empty query keeps every plan |
| DataModal.AfterFetchPlans | components/modals/BuyDataModal.tsx:39-56 | the catalogue is stored when the result carries one, otherwise kept with an error |
| DataModal.PurchaseCall | components/modals/BuyDataModal.tsx:127-140 | a request exactly with network, plan and phone number, carrying the upper-cased network |
| DataModal.ForwardMoves | components/modals/BuyDataModal.tsx:73-83 | a network leads to plans, a plan to the phone step, a phone number of at least ten to confirm |
| DataModal.BackMoves | components/modals/BuyDataModal.tsx:185 | plans go back to networks, the phone step to plans, confirm to the phone step |
| DataModal.PurchaseOutcome | components/modals/BuyDataModal.tsx:128-145 | no-op without the inputs; success reaches the success step; failure keeps the step with an error |
| DataModal.AfterReset | components/modals/BuyDataModal.tsx:58-66 | step, selections, phone, search and error reset; the catalogue kept |
| DataModal.StepInv | components/modals/BuyDataModal.tsx:73-146 | every handler keeps a digit-only phone number and a confirmation step only with network, plan and phone number |
| DataModal.RunInv | components/modals/BuyDataModal.tsx:73-146 | the invariant holds after every session |
| DataModal.ReachablePurchaseCallsBuy | components/modals/BuyDataModal.tsx:272-273 | from a reachable confirmation step, purchasing sends the request |
| DataModal.SuccessNeedsPayment | components/modals/BuyDataModal.tsx:141-145 | the success step is reached only through a purchase that succeeded |
| DataModal.BuyDataModal.constructor | components/modals/BuyDataModal.tsx:28-37 | the sheet starts in its initial state |
| DataModal.BuyDataModal.FilteredPlans | components/modals/BuyDataModal.tsx:123-125 | the list shown is the search-filtered available plans |
| DataModal.BuyDataModal.OnOpen | components/modals/BuyDataModal.tsx:39-56 | the fields become the fetch's result |
| DataModal.BuyDataModal.HandleNetworkSelect | components/modals/BuyDataModal.tsx:73-77 | the network is stored and the step becomes plans |
| DataModal.BuyDataModal.GoBackToNetwork | components/modals/BuyDataModal.tsx:185 | back to networks |
| DataModal.BuyDataModal.SetSearchQuery | components/modals/BuyDataModal.tsx:194 | the query is stored |
| DataModal.BuyDataModal.HandlePlanSelect | components/modals/BuyDataModal.tsx:79-83 | the plan is stored and the step becomes the phone step |
| DataModal.BuyDataModal.GoBackToPlan | components/modals/BuyDataModal.tsx:237 | back to plans |
| DataModal.BuyDataModal.SetPhoneNumber | components/modals/BuyDataModal.tsx:257-262 | the phone number keeps at most eleven digits |
| DataModal.BuyDataModal.ProceedToConfirm | components/modals/BuyDataModal.tsx:272-273 | the step becomes confirm |
| DataModal.BuyDataModal.GoBackToPhone | components/modals/BuyDataModal.tsx:287 | back to the phone step |
| DataModal.BuyDataModal.HandlePurchase | components/modals/BuyDataModal.tsx:127-146 | returns the request it sends; the fields become the purchase's result |
| DataModal.BuyDataModal.HandleClose | components/modals/BuyDataModal.tsx:68-71 | the state is reset |
| AirtimeModal.ProceedReady | components/modals/BuyAirtimeModal.tsx:177-178 | the proceed condition: a non-empty amount that is not a number below 50, and a phone number of at least ten |
| AirtimeModal.PurchaseCall | components/modals/BuyAirtimeModal.tsx:51-58 | a request exactly with network, amount and phone number, carrying the upper-cased network and `Number(amount)` |
| AirtimeModal.AfterPurchase | components/modals/BuyAirtimeModal.tsx:50-75 | loading is off after every attempt |
| AirtimeModal.NetworkSelectMoves | components/modals/BuyAirtimeModal.tsx:44-48 | choosing a network stores it, clears the error and moves to details |
| AirtimeModal.ProceedGate | components/modals/BuyAirtimeModal.tsx:177-178 | proceed reaches confirm exactly when the proceed condition holds |
| AirtimeModal.ProceedAmountBound | components/modals/BuyAirtimeModal.tsx:177-178 | with a ten-digit phone number and a digit amount, proceed reaches confirm exactly when the amount is at least 50 |
| AirtimeModal.PhoneInputDigits | components/modals/BuyAirtimeModal.tsx:128-133 | the phone input keeps digits only, at most eleven |
| AirtimeModal.PurchaseOutcome | components/modals/BuyAirtimeModal.tsx:51-74 | no-op without inputs; success reaches the success step; failure or exception keeps the step with an error, the exception with the fixed network message |
| AirtimeModal.ResetEmptiesAll | components/modals/BuyAirtimeModal.tsx:30-37 | closing restores the network step and empties every field |
| AirtimeModal.StepInv | components/modals/BuyAirtimeModal.tsx:44-75 | every handler keeps a digit-only phone number, no pending request and a confirmation step only with accepted inputs |
| AirtimeModal.RunInv | components/modals/BuyAirtimeModal.tsx:44-75 | the invariant holds after every session |
| AirtimeModal.ReachablePurchaseCallsBuy | components/modals/BuyAirtimeModal.tsx:177-178 | from a reachable confirmation step, purchasing sends the request |
| AirtimeModal.SuccessNeedsPayment | components/modals/BuyAirtimeModal.tsx:58-74 | the success step is reached only through a purchase that succeeded |
| AirtimeModal.BuyAirtimeModal.constructor | components/modals/BuyAirtimeModal.tsx:23-28 | the sheet starts in its initial state |
| AirtimeModal.BuyAirtimeModal.HandleNetworkSelect | components/modals/BuyAirtimeModal.tsx:44-48 | the network is stored, the error cleared and the step becomes details |
| AirtimeModal.BuyAirtimeModal.GoBackToNetwork | components/modals/BuyAirtimeModal.tsx:114 | back to networks |
| AirtimeModal.BuyAirtimeModal.SetPhoneNumber | components/modals/BuyAirtimeModal.tsx:128-133 | the phone number keeps at most eleven digits |
| AirtimeModal.BuyAirtimeModal.SetAmount | components/modals/BuyAirtimeModal.tsx:145-149 | the typed amount is stored |
| AirtimeModal.BuyAirtimeModal.PickQuickAmount | components/modals/BuyAirtimeModal.tsx:158 | a quick pick sets the amount |
| AirtimeModal.BuyAirtimeModal.ProceedToConfirm | components/modals/BuyAirtimeModal.tsx:177-178 | the step becomes confirm |
| AirtimeModal.BuyAirtimeModal.GoBackToDetails | components/modals/BuyAirtimeModal.tsx:195 | back to details |
| AirtimeModal.BuyAirtimeModal.HandlePurchase | components/modals/BuyAirtimeModal.tsx:50-75 | returns the request it sends; the fields become the purchase's result |
| AirtimeModal.BuyAirtimeModal.HandleClose | components/modals/BuyAirtimeModal.tsx:39-42 | the state is reset |
| KycModal.SubmitCall | components/modals/KYCModal.tsx:21-31 | a verification request exactly for an eleven-digit BVN, with the BVN and names |
| KycModal.AfterSubmit | components/modals/KYCModal.tsx:21-41 | the inputs are kept |
| KycModal.BvnInput | components/modals/KYCModal.tsx:90-92 | the BVN input keeps digits only, at most eleven, and leaves such text unchanged |
| KycModal.WrongLengthRefused | components/modals/KYCModal.tsx:22-25 | another BVN length gives the fixed error, no request and no close |
| KycModal.EnabledSubmitCalls | components/modals/KYCModal.tsx:111 | an enabled submit always sends the request |
| KycModal.SubmitOutcome | components/modals/KYCModal.tsx:32-40 | loading ends either way; success closes the sheet; failure shows the server's error |
| KycModal.KycModal.constructor | components/modals/KYCModal.tsx:15-19 | the form starts empty |
| KycModal.KycModal.SetFirstName | components/modals/KYCModal.tsx:73-74 | the first name is stored |
| KycModal.KycModal.SetLastName | components/modals/KYCModal.tsx:80-81 | the last name is stored |
| KycModal.KycModal.SetBvn | components/modals/KYCModal.tsx:90-92 | the BVN input's digits are stored |
| KycModal.KycModal.HandleSubmit | components/modals/KYCModal.tsx:21-41 | returns the request it sends and whether it closes; the fields become the submit's result |
| Middleware.RefreshRequest | middleware.ts:24-31 | a refresh is attempted exactly on a user page with a refresh token but no access token |
| Middleware.Decide | middleware.ts:5-69 | a redirect only ever goes to the dashboard or the sign-in page |
| Middleware.AuthPageSignedIn | middleware.ts:14-16 | a sign-in or sign-up page with a refresh token redirects to the dashboard |
| Middleware.ProtectedSignedOut | middleware.ts:19-21 | a user page without a refresh token redirects to sign-in |
| Middleware.RefreshSucceeds | middleware.ts:24-55 | a successful refresh continues, setting both cookies with lifetimes 900 and 604800 |
| Middleware.RefreshFails | middleware.ts:57-65 | a refused or failed refresh redirects to sign-in deleting both cookies |
| Middleware.OtherwiseContinues | middleware.ts:68 | every other request continues unchanged |
| Middleware.RefreshOutcomeIrrelevant | middleware.ts:24-66 | the refresh outcome matters only when a refresh is attempted |
| Middleware.CookiesChangeOnlyOnRefresh | middleware.ts:44-65 | cookies are set only on a successful refresh and deleted only on a failed one |
| Middleware.AuthPagesNotProtected | middleware.ts:10-21 | the sign-in pages are not user pages, so a signed-out visit passes |
| UserActions.TypeParam | app/actions/user.ts:11 | a type is sent exactly when present, non-empty and not 'All', as the upper-cased type with its first 'PINS' replaced |
| UserActions.TypeParamRewritesFirstPins | app/actions/user.ts:11 | when the upper-cased type first holds 'PINS' at position k, 'RECHARGE_PIN' is sent in its place with the rest of the text unchanged |
| UserActions.HistoryQuery | app/actions/user.ts:6-12 | page and limit, defaulting to 1 and 20, then the type when present |
| UserActions.HistoryResultOf | app/actions/user.ts:17-28 | an OK response gives its data; a non-OK one its message or 'Failed to fetch history'; a throw the network message |
| UserActions.TypeParamExamples | app/actions/user.ts:11 | 'All', missing and empty types send nothing; 'pins' becomes 'RECHARGE_PIN' |
| UserActions.TypeParamKeepsTypeName | app/actions/user.ts:11 | an upper-case type name without an 'S' is sent as it is |
| TransactionsPage.FilterToApi | app/user/transactions/page.tsx:38-48 | the fixed chip-to-type map; unknown filters pass through |
| TransactionsPage.FilterChipQueries | app/user/transactions/page.tsx:50 | every query asks for page 1 with 50 entries; 'All' sends no type and every other chip its type name |
| TransactionsPage.StatusBadge | app/user/transactions/page.tsx:81-92 | SUCCESS, PENDING and FAILED badges exactly for those statuses in any case; none otherwise |
| TransactionsPage.StatusBadgeIgnoresCase | app/user/transactions/page.tsx:82 | the badge ignores letter case |
| TransactionsPage.AmountSign | app/user/transactions/page.tsx:169 | '+' exactly for wallet funding, otherwise '-' |
| TransactionsPage.RowTitle | app/user/transactions/page.tsx:153 | the plan name, else the network, else the type with its first '_' replaced by a space |
| TransactionsPage.RowTitleShowsFirstUnderscore | app/user/transactions/page.tsx:153 | without plan name or network, a type whose first '_' is at position k is shown with a space there and is otherwise unchanged |
| TransactionsPage.RowOf | app/user/transactions/page.tsx:137-169 | a row carries the sign, amount and badge, and the PIN tag exactly for recharge PINs |
| TransactionsPage.View | app/user/transactions/page.tsx:121-189 | spinner while loading, then the error, then one row per transaction or the empty message |
| TransactionsPage.AfterFetch | app/user/transactions/page.tsx:33-58 | loading ends; success stores the list; failure keeps it and sets the error |
| TransactionsPage.FailedFetchShowsError | app/user/transactions/page.tsx:52-57 | a failed fetch shows its error |
| TransactionsPage.HistoryPage.constructor | app/user/transactions/page.tsx:21-24 | the page starts on 'All', loading, with no transactions |
| TransactionsPage.HistoryPage.FetchHistory | app/user/transactions/page.tsx:33-58 | returns the query for the current filter; the state becomes the fetch's result |
| TransactionsPage.HistoryPage.SelectFilter | app/user/transactions/page.tsx:29-31 | a different chip changes the filter and refetches with it; the active chip sends nothing and changes nothing |

## Left out

- Styling and layout: CSS classes, `@media print` rules, icons, animation and drag gestures carry no logic.
- `window.print()`, `alert()` and console logging are host calls with no result in the model.
- The clipboard and the timers: copying a PIN, the copied-index timeout, and the close animation's delay before a reset. The reset itself is modelled as immediate.
- Floating point and locale formatting. Amounts and prices are integers. `parseFloat` is modelled on leading digits only. `toLocaleString` and date formatting are left out.
- `Number` of text with a decimal point, an exponent or surrounding white space is modelled as NaN. This affects the airtime proceed check and the printing quantity only for such text.
- Case mapping is modelled on the ASCII letters only.
- A meter reply without `customer_name` leaves the electricity sheet's customer name `undefined`. The model stores "" instead, which renders the same.
- A JavaScript string is modelled as a sequence of Unicode characters, not of UTF-16 code units. A character outside the Basic Multilingual Plane counts as one, so `.length` and the four-character groupings differ from the source's for such characters.
- The refresh cookies' `httpOnly`, `secure`, `sameSite` and `path` options (middleware.ts:39-53) are not modelled. `SetCookie` carries the name, value and maxAge only. `secure` depends on the deployment environment, and the other three are the same constants on every path.
- The `pagination` field that the history action returns (app/actions/user.ts:24) is not part of `HistoryResult`, because the transactions page never reads it.
- Backend I/O is modelled as parameters of the handlers that await it. This covers `authorizedFetch`, `fetch`, `next/headers` cookies and the server actions in app/actions/vtu.ts, cable.ts and payment.ts. Each outcome is the result record the component reads. app/actions/electricity.ts and app/actions/user.ts are modelled as functions of the reply.
- Loading flags that are set before an await and cleared after it are modelled only in their final value, because a handler runs to completion.
- The middleware's `config.matcher`: `Decide` is stated for every path it is called on.
- URL encoding of the history query string: the query is modelled as its list of name/value pairs.
- The `isOpen` prop and React keys: the sheets are modelled while open.
- components/providers/SocketProvider.tsx is not part of this model. It is a realtime socket client driven by callbacks.
- PrintPreviewModal's own copies of `formatPin` and `getUSSD` are identical to PinBatchModal's, so one definition of each serves both.
- CableModal.BuyCableModal.HandleProviderSelect: models the source as written, so it does not reset the verification or the chosen plan. The corrected behaviour is CableModal.HandleIntended (see Findings).
- ElectricityModal.TokenDisplay: its contract states only the no-group case; the grouped case is TokenDisplayGroups, for one-line tokens.

## Findings

| source | as written | input that shows it | evidently intended | confidence | as-written member | corrected member |
|---|---|---|---|---|---|---|
| components/modals/BuyCableModal.tsx:91-95 | choosing a provider stores it and moves to details, but keeps `isValidated` and `selectedPlan` | open with a catalogue holding one DStv package; choose dstv; verify smartcard 12345678 (any customer name); pick that package; enter phone 08012345678; go back; choose gotv; proceed. The confirm step pays for the DStv package under provider gotv | choosing a provider withdraws the verification and the plan, as editing the smartcard does (lines 249-254) | not executed | CableModal.StaleProviderReachesConfirm | CableModal.IntendedPurchaseMatchesProvider |

The electricity sheet's `handleProviderSelect` (components/modals/BuyElectrictyModal.tsx:80-84)
has the same shape: a meter verified with one disco stays verified after switching to another
(ElectricityModal.ProviderChoiceKeepsVerification). It is modelled as written and not carried as a
finding. The meter number and its type are kept, and the backend that takes the payment receives
the new disco with the old meter.
