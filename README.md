# The Plug — a verified model of the bar point-of-sale prototype

The Plug is a React and React Native prototype of a bar and restaurant point of
sale with dashboards for seven roles: owner, manager, bartender, kitchen, waiter,
security and developer. Behind its screens sits a small amount of deterministic
logic:

- order pricing, with 12% VAT and a 10% service charge;
- the kitchen's order-status steps;
- the relative-time labels of the order queue, the scanner and the notification panel;
- the notification helpers: role filter, unread count, mark-as-read and the priority sort;
- the menu filter, the category tabs and the stock classifier;
- the reservation calendar and the time-slot generator;
- the staff rating rules, trends, suggestions and team summary;
- the voucher, evaluation and scanner forms;
- the role tables of both navigation menus, the simulated login, the page redirect and the header title;
- the sample data the screens start from.

This project restates that logic in Dafny and proves properties about it. It has
one module per source file, plus five shared modules:

- `Types`: the records of `types/index.ts`, the `Role` datatype with its parser, and JavaScript truthiness of an optional string;
- `Text`: the JavaScript string operations the code uses;
- `Seqs`: `filter`, `slice` and `reduce`;
- `RelativeTime`: the "Just now" / "Nm ago" / "Hh Mm ago" labels that the order
  queue, the scanner, the notification panel and the date utilities share;
- `Wrappers`: an `Option` type.

The model follows the shape of each source file.

- **Pure lookups and computations are functions.** The properties the source
  promises about them are lemmas.
- **Code that updates state is imperative.** Components whose handlers replace
  `useState` fields become classes whose methods state the whole new state:
  `EvaluationForm`, `VoucherForm`, `Scanner`, `Calendar`, `Menu` and `AppContent`.
- **Step-by-step code is imperative.** The nested loops of `getTimeSlots` are a
  method with loop invariants. The if-chains of `calculateDailyRating` and
  `generateImprovementSuggestions`, which update a rating or push suggestions one
  condition at a time, and the login's assignment chain are methods too. Each is
  proved against a specification function.
- **The priority sort works in place.** It sorts the caller's array and is proved
  to leave it sorted and a permutation of its old contents.

Values are modelled as follows.

- Money and ratings are exact `real`s, not IEEE doubles.
- Instants are integers in milliseconds. "Now" is a parameter.
- A calendar day is the instant shifted by a time-zone offset, which is also a
  parameter, and floored to whole days.
- `Math.random()`, `parseFloat`, locale date strings and dialog answers are parameters.
- Role names and page ids stay strings where the source compares strings. The
  `Types.Role` datatype names the seven roles where a table is chosen by role.

## Model

| member | source | states |
|---|---|---|
| Currency.CalculateTotal | utils/currency.ts:26-54 | the breakdown passes the subtotal through, VAT and service charge are the subtotal scaled by their rates, and the total is the sum of the three parts |
| Currency.ChargesLinear | utils/currency.ts:26-32 | each charge of a sum of two amounts is the sum of the two charges |
| Currency.DefaultTotal | utils/currency.ts:34-46 | with the default 12% VAT and 10% service charge the total is 1.22 times the subtotal |
| Currency.TotalLinear | utils/currency.ts:34-46 | at any rates the total of a + b is the total of a plus the total of b |
| Currency.ZeroRates | utils/currency.ts:34-46 | zero rates give the subtotal back as the total |
| Currency.TotalAtLeastSubtotal | utils/currency.ts:34-46 | for non-negative rates and subtotal both charges are non-negative, the total is at least the subtotal and equals subtotal × (1 + vatRate + serviceRate) |
| Currency.ShortFormBranches | utils/currency.ts:12-20 | the M form is chosen exactly from 1,000,000 up, the K form exactly on [1,000, 1,000,000), plain pesos below 1,000; the written number times the unit's factor is the amount, and it is at least 1 in the M and K forms and below 1,000 in the K form |
| Currency.CalculateVAT | utils/currency.ts:26-28 | the amount times the VAT rate; `Currency.ChargesLinear` proves it linear in the amount and `Currency.TotalAtLeastSubtotal` non-negative for non-negative inputs |
| Currency.CalculateServiceCharge | utils/currency.ts:30-32 | the amount times the service rate; `Currency.ChargesLinear` proves it linear in the amount and `Currency.TotalAtLeastSubtotal` non-negative for non-negative inputs |
| Currency.ShortFormOf | utils/currency.ts:12-20 | the unit `formatPHPShort` chooses and its number before rounding; `Currency.ShortFormBranches` proves the thresholds of each branch and that number × unit factor is the amount |
| OrderSummary.SubtotalAppend | components/pos/OrderSummary.tsx:27 | the subtotal of two concatenated orders is the sum of their subtotals |
| OrderSummary.SubtotalCons | components/pos/OrderSummary.tsx:27 | the subtotal is the first line's price × quantity plus the subtotal of the rest |
| OrderSummary.SubtotalUpdateQuantity | components/pos/OrderSummary.tsx:27 | changing one line's quantity to q moves the subtotal by price × (q − old quantity) |
| OrderSummary.SubtotalRemove | components/pos/OrderSummary.tsx:27 | removing a line takes exactly that line's total off the subtotal |
| OrderSummary.PricingIsDefaultTotal | components/pos/OrderSummary.tsx:27-30 | the panel's four amounts are those of the currency utility's total at its default rates, the final total being 1.22 × the subtotal |
| OrderSummary.PricingNonNegative | components/pos/OrderSummary.tsx:27-30 | with non-negative prices and quantities all four amounts are non-negative and the final total is at least the subtotal |
| OrderSummary.PricingEmpty | components/pos/OrderSummary.tsx:27-30 | an empty order has all four amounts zero |
| OrderSummary.PricingExample | components/pos/OrderSummary.tsx:27-30 | one San Miguel Beer and two Grilled Burgers give 705, 84.6, 70.5 and 860.1 |
| OrderSummary.CustomerLabelDistinguishes | components/pos/OrderSummary.tsx:37 | two given tables get the same header label exactly when they are the same table, and no table's label is the walk-in label |
| OrderSummary.Render | components/pos/OrderSummary.tsx:32-115 | the heading is always the customer label; the empty state is shown exactly for an empty order; otherwise one line total per line (price × quantity), the panel's pricing and the checkout button |
| OrderSummary.PressRequests | components/pos/OrderSummary.tsx:56-84 | only the decrement of a line at quantity 1 or less sends nothing; every request names the pressed line; remove sends the removal; the quantity moves by exactly +1 or −1; from a quantity of at least 1 no request asks for less than 1 |
| OrderSummary.LineTotal | components/pos/OrderSummary.tsx:86 | price × quantity of one line; `OrderSummary.SubtotalCons` and `OrderSummary.SubtotalRemove` show it is what the line adds to the subtotal |
| OrderSummary.Subtotal | components/pos/OrderSummary.tsx:27 | the reduce over the lines; `OrderSummary.SubtotalAppend` and `OrderSummary.SubtotalCons` prove it additive, and `OrderSummary.SubtotalUpdateQuantity` and `OrderSummary.SubtotalRemove` give the exact effect of each edit |
| OrderSummary.Pricing | components/pos/OrderSummary.tsx:27-30 | subtotal, VAT, service charge and total of the panel; `OrderSummary.PricingIsDefaultTotal` proves them the currency total at the default rates, with `OrderSummary.PricingNonNegative` and `OrderSummary.PricingEmpty` |
| OrderSummary.CustomerLabel | components/pos/OrderSummary.tsx:37 | "Table N" or "Walk-in Customer"; `OrderSummary.CustomerLabelDistinguishes` proves distinct tables get distinct labels, none the walk-in one |
| OrderSummary.Press | components/pos/OrderSummary.tsx:56-84 | the request a line control sends; `OrderSummary.PressRequests` proves the quantity guard and that every request names its line |
| OrderQueue.NextStatusSteps | components/kitchen/OrderQueue.tsx:36-42 | new steps to cooking and cooking to prepared, and a status is left unchanged exactly when it is neither new nor cooking |
| OrderQueue.AdvanceSettles | components/kitchen/OrderQueue.tsx:36-42 | repeated presses never move an order backward, after two presses further presses change nothing, and from new two or more presses end at prepared |
| OrderQueue.AdvanceSplit | components/kitchen/OrderQueue.tsx:36-42 | i + j presses are i presses followed by j presses |
| OrderQueue.AdvanceFixed | components/kitchen/OrderQueue.tsx:36-42 | a status the next-status step leaves alone stays put under any number of presses |
| OrderQueue.StatusTextInjective | components/kitchen/OrderQueue.tsx:27-34 | different statuses get different badge texts |
| OrderQueue.ActionButtonRule | components/kitchen/OrderQueue.tsx:44-107 | the button is shown exactly when the order is not prepared and always names the order; on new or cooking it advances the status by one step, and on any other shown status it reads "Complete" and sends the status the order already has |
| OrderQueue.OrderNumber | components/kitchen/OrderQueue.tsx:74 | "Order #" followed by the last four characters of the id, or the whole id when it is shorter |
| OrderQueue.TableLabelRule | components/kitchen/OrderQueue.tsx:75-77 | "Walk-in" exactly when there is no non-empty table number, and otherwise the label ends with the table number |
| OrderQueue.FormatTimeRule | components/kitchen/OrderQueue.tsx:52-61 | "Just now" exactly below one elapsed minute (future stamps included); past a minute two cards show the same time exactly when their whole elapsed minutes agree |
| OrderQueue.StatusColorRule | components/kitchen/OrderQueue.tsx:18-25 | new, cooking and prepared each have a badge colour no other status has, and exactly the other statuses get the grey fallback |
| OrderQueue.StatusColor | components/kitchen/OrderQueue.tsx:18-25 | the badge colour; `OrderQueue.StatusColorRule` proves the three kitchen states distinct and every other status grey |
| OrderQueue.StatusText | components/kitchen/OrderQueue.tsx:27-34 | the badge text; `OrderQueue.StatusTextInjective` proves different statuses get different texts |
| OrderQueue.NextStatus | components/kitchen/OrderQueue.tsx:36-42 | `getNextStatus`; `OrderQueue.NextStatusSteps` proves new → cooking → prepared and every other status fixed, and `OrderQueue.AdvanceSettles` that presses settle |
| OrderQueue.ActionText | components/kitchen/OrderQueue.tsx:44-50 | `getActionText`; `OrderQueue.ActionButtonRule` proves "Complete" for every status that is neither new nor cooking |
| OrderQueue.ActionButton | components/kitchen/OrderQueue.tsx:98-107 | the card's button; `OrderQueue.ActionButtonRule` proves it shown exactly when not prepared, naming the order and advancing new and cooking orders by one step |
| OrderQueue.TableLabel | components/kitchen/OrderQueue.tsx:75-77 | the table line; `OrderQueue.TableLabelRule` proves "Walk-in" exactly without a non-empty table number |
| OrderQueue.FormatTime | components/kitchen/OrderQueue.tsx:52-61 | the card's elapsed time; `OrderQueue.FormatTimeRule` proves "Just now" exactly under a minute and equal labels exactly for equal whole minutes |
| RelativeTime.HoursFromMinutes | utils/dateTime.ts:28-29 | flooring milliseconds to minutes and then to hours is flooring straight to hours |
| RelativeTime.DaysFromHours | utils/dateTime.ts:29-30 | flooring hours to days is flooring the milliseconds straight to days |
| RelativeTime.ClockLabelParts | components/kitchen/OrderQueue.tsx:59-60 | from an hour on, the label is "Hh Mm ago" with h ≥ 1, m < 60 and h × 60 + m the elapsed minutes |
| RelativeTime.ParseAgoLabel | components/kitchen/OrderQueue.tsx:58 | the number in front of an "N? ago" label reads back, with parseInt, as N |
| RelativeTime.LeadingNumber | components/kitchen/OrderQueue.tsx:58 | the leading digits of a label are exactly the number written there |
| RelativeTime.AgoLabelInjective | components/kitchen/OrderQueue.tsx:58 | two "N? ago" labels with the same unit are equal only for equal numbers |
| RelativeTime.ClockLabelInjective | components/kitchen/OrderQueue.tsx:52-61 | two elapsed times of at least a minute get the same label only when they are equal, and neither reads "Just now" |
| RelativeTime.LongLabelsInjective | components/kitchen/OrderQueue.tsx:59-60 | two "Hh Mm ago" labels are equal only for equal elapsed minutes |
| RelativeTime.LongLabelDiffers | components/kitchen/OrderQueue.tsx:58-60 | no label below an hour equals a label of an hour or more |
| RelativeTime.DropCommonPrefix | components/kitchen/OrderQueue.tsx:60 | strings equal after a common prefix are equal |
| RelativeTime.ElapsedMinutes | components/kitchen/OrderQueue.tsx:54-55 | floor of the milliseconds elapsed over 60000; `RelativeTime.HoursFromMinutes` and `RelativeTime.DaysFromHours` prove the nested floors are direct floors |
| RelativeTime.AgoLabel | components/kitchen/OrderQueue.tsx:58 | "N? ago"; `RelativeTime.ParseAgoLabel` proves the number reads back and `RelativeTime.AgoLabelInjective` that the label is injective per unit |
| RelativeTime.ClockLabel | components/kitchen/OrderQueue.tsx:52-61 | the shared label; `RelativeTime.ClockLabelInjective` and `RelativeTime.ClockLabelParts` prove it injective from a minute on and decomposed into hours and minutes below 60 |
| DateTime.GetTimeSlots | utils/dateTime.ts:57-74 | the two nested loops, with the break in the last hour, return exactly the labels of the times the slot specification lists, in order |
| DateTime.Render | utils/dateTime.ts:68-69 | one label per time |
| DateTime.RenderIndex | utils/dateTime.ts:68-69 | the k-th label is the label of the k-th time |
| DateTime.LabelsSnoc | utils/dateTime.ts:69 | pushing a time's label keeps the labels aligned with the times |
| DateTime.LabelsRender | utils/dateTime.ts:62-73 | labels aligned with the times are the rendering of those times |
| DateTime.MoveFirst | utils/dateTime.ts:64-71 | moving one time from the remaining slots to the done ones keeps the whole list |
| DateTime.HourStart | utils/dateTime.ts:64-65 | entering an hour splits the remaining slots into that hour's and the later hours' |
| DateTime.HourEnd | utils/dateTime.ts:65-66 | when the inner loop stops (minute 60, or past minute 0 of the last hour) nothing of its hour is left |
| DateTime.HourStep | utils/dateTime.ts:65-70 | one pass of the inner loop takes its time off the front of the remaining slots |
| DateTime.HourRestCount | utils/dateTime.ts:65 | an hour other than the last adds (59 − minute) / interval + 1 times from `minute` on, none from 60 |
| DateTime.TimeSlotCount | utils/dateTime.ts:57-74 | for start ≤ end there are (end − start) × ⌈60 / interval⌉ + 1 slots, and none for start > end |
| DateTime.HourRestShape | utils/dateTime.ts:65-66 | an hour's times have that hour, minutes from `minute` below 60, strictly increase, and the last hour has minute 0 only |
| DateTime.SlotsShape | utils/dateTime.ts:64-71 | every slot lies between the start and end hours with minute below 60, the last hour gives only minute 0, and the slots strictly increase |
| DateTime.DefaultTimeSlots | utils/dateTime.ts:57-61 | the defaults 17, 23 and 30 give the 13 half-hour times from 17:00 to 23:00 |
| DateTime.HalfHours | utils/dateTime.ts:65 | with a 30-minute step an hour before 23 gives minute 0 and minute 30 |
| DateTime.DefaultLabels | utils/dateTime.ts:68 | those times are labelled "17:00", "17:30", … "23:00" |
| DateTime.SlotChars | utils/dateTime.ts:68 | an hour and minute below 100 are written as their two digits each around a colon |
| DateTime.JoinPairs | utils/dateTime.ts:68 | two two-character parts joined by ":" give five characters |
| DateTime.PaddedChars | utils/dateTime.ts:68 | a number below 100 padded to two characters is its tens digit and its units digit |
| DateTime.SlotLabelFormat | utils/dateTime.ts:68 | such a label has five characters: two digits, ':' and two digits |
| DateTime.ClockShape | utils/dateTime.ts:68 | a five-character digit-colon-digit string has that format |
| DateTime.SlotLabelInjective | utils/dateTime.ts:68 | different times with hour and minute below 100 get different labels |
| DateTime.TwoDigitsDetermine | utils/dateTime.ts:68 | two numbers below 100 with the same two digits are equal |
| DateTime.SlotLabelsDistinct | utils/dateTime.ts:57-74 | for hours in 0..99 no slot label is repeated |
| DateTime.RelativeAgeBuckets | utils/dateTime.ts:25-38 | "just now" below a minute or for a future instant, then minutes 1–59, hours 1–23, days 1–6, and an absolute date from a week on; each number is the elapsed time floored to its unit |
| DateTime.RelativeLabelsDistinguish | utils/dateTime.ts:25-38 | within the last week two instants get the same relative label exactly when they fall in the same bucket with the same number |
| DateTime.LabelStartsWithDigit | utils/dateTime.ts:33-35 | an "N? ago" label starts with a digit |
| DateTime.AgeLabelsInjective | utils/dateTime.ts:32-35 | different buckets or numbers of the first four kinds never share a label |
| DateTime.AddArithmetic | utils/dateTime.ts:49-55 | adding minutes composes and is undone by the opposite amount, and adding a day is adding 1440 minutes |
| DateTime.SameDayProperties | utils/dateTime.ts:45-47 | being on the same day is reflexive, symmetric and transitive, such instants are less than a day apart, and a day later is never the same day |
| DateTime.SlotLabel | utils/dateTime.ts:68 | "hh:mm" with zero padding; `DateTime.SlotLabelFormat` and `DateTime.SlotLabelInjective` prove its shape and that distinct times get distinct labels |
| DateTime.SlotsFrom | utils/dateTime.ts:57-74 | the times `getTimeSlots` lists; `DateTime.GetTimeSlots` is proved to return their labels, `DateTime.TimeSlotCount` and `DateTime.SlotsShape` give their number and shape |
| DateTime.RelativeAge | utils/dateTime.ts:27-38 | the bucket of an age; `DateTime.RelativeAgeBuckets` proves each bucket's range and number |
| DateTime.FormatRelativeTime | utils/dateTime.ts:25-38 | `formatRelativeTime`; `DateTime.RelativeAgeBuckets` and `DateTime.RelativeLabelsDistinguish` prove its thresholds and that within a week equal labels mean the same bucket and number |
| DateTime.AddMinutes | utils/dateTime.ts:49-51 | `addMinutes` in milliseconds; `DateTime.AddArithmetic` proves it composes and is undone by the opposite amount |
| DateTime.AddDays | utils/dateTime.ts:53-55 | `addDays`; `DateTime.AddArithmetic` proves a day is 1440 minutes |
| DateTime.IsSameDay | utils/dateTime.ts:45-47 | `isSameDay` through the local calendar day; `DateTime.SameDayProperties` proves it an equivalence of instants less than a day apart |
| InventoryList.StockStatusRules | components/inventory/InventoryList.tsx:18-22 | low exactly at or below the minimum, high exactly above the minimum and at or above the maximum, normal exactly strictly between; a minimum at or above the maximum never gives normal |
| InventoryList.StockStatusMonotone | components/inventory/InventoryList.tsx:18-22 | raising the stock keeps a high item high and never turns a normal item low |
| InventoryList.PresentationRules | components/inventory/InventoryList.tsx:24-85 | the three statuses have distinct colours and distinct icons; the low-stock banner shows exactly at or below the minimum, exactly when the alert icon is shown; the supplier line is never empty and shows the supplier whenever one is given |
| InventoryList.GetStockStatus | components/inventory/InventoryList.tsx:18-22 | `getStockStatus`; `InventoryList.StockStatusRules` proves each status in both directions and `InventoryList.StockStatusMonotone` its monotonicity |
| InventoryList.StatusColor | components/inventory/InventoryList.tsx:24-30 | `getStatusColor`; `InventoryList.PresentationRules` proves the three colours distinct |
| InventoryList.StatusIcon | components/inventory/InventoryList.tsx:32-39 | `getStatusIcon`; `InventoryList.PresentationRules` proves the three icons distinct |
| InventoryList.ShowsLowStockBanner | components/inventory/InventoryList.tsx:80-85 | the low-stock banner; `InventoryList.PresentationRules` proves it shown exactly at or below the minimum |
| InventoryList.SupplierLabel | components/inventory/InventoryList.tsx:75-76 | `item.supplier \|\| 'No supplier'`; `InventoryList.PresentationRules` proves it never empty and the supplier whenever one is given |
| CategoryTabs.TabIds | components/pos/CategoryTabs.tsx:15-24 | one id per tab, in the tabs' order |
| CategoryTabs.TabIdsKnown | components/pos/CategoryTabs.tsx:15-41 | the ids are the eight selectors from "all" to "food", pairwise distinct, and each one a press reports is a selector the menu grid recognises |
| CategoryTabs.AtMostOneActive | components/pos/CategoryTabs.tsx:34-47 | whatever is selected at most one tab is highlighted, and a pressed tab's id highlights that tab |
| CategoryTabs.IsActive | components/pos/CategoryTabs.tsx:34-47 | the highlighting test; `CategoryTabs.AtMostOneActive` proves at most one tab highlighted |
| CategoryTabs.Press | components/pos/CategoryTabs.tsx:41 | the id a tab reports; `CategoryTabs.TabIdsKnown` proves it a selector the grid recognises |
| MenuGrid.MatchesByKind | components/pos/MenuGrid.tsx:19-29 | an item matches exactly when the selector is "all", names its category or names its subcategory; an unknown selector matches nothing |
| MenuGrid.FilteredItemsBySelector | components/pos/MenuGrid.tsx:19-29 | "all" shows every item, an unknown selector none, and a category or subcategory selector exactly the items of that kind |
| MenuGrid.FilteredItemsOrder | components/pos/MenuGrid.tsx:19-29 | the grid keeps the menu's order, and filtering its items again with the same selector changes nothing |
| MenuGrid.PressSelectsAvailable | components/pos/MenuGrid.tsx:41-42 | a press hands over the pressed item exactly when it is available |
| MenuGrid.Matches | components/pos/MenuGrid.tsx:19-29 | the filter predicate; `MenuGrid.MatchesByKind` proves which items each selector kind matches |
| MenuGrid.FilteredItems | components/pos/MenuGrid.tsx:19-29 | `filteredItems`; `MenuGrid.FilteredItemsBySelector` and `MenuGrid.FilteredItemsOrder` prove its contents per selector, its order and idempotence |
| MenuGrid.Press | components/pos/MenuGrid.tsx:41-42 | what a card press hands over; `MenuGrid.PressSelectsAvailable` proves it the item exactly when available |
| VoucherGenerator.DefaultsRules | components/vouchers/VoucherGenerator.tsx:28-36 | the form starts with one voucher, one use, a percentage discount of 0, blank texts and an expiry 2,592,000,000 ms (thirty days) after now |
| VoucherGenerator.IntOrOneRules | components/vouchers/VoucherGenerator.tsx:70-135 | the count fallback never yields 0: text that fails to parse or parses to 0 gives 1, and any other integer written out is read back as itself, negatives included |
| VoucherGenerator.RealOrZero | components/vouchers/VoucherGenerator.tsx:123 | a failed parse (NaN) gives 0 and a parsed amount is kept as it is |
| VoucherGenerator.DiscountFieldRules | components/vouchers/VoucherGenerator.tsx:115-125 | the amount field is offered exactly for percentage and fixed discounts, and those two get different labels and different placeholders |
| VoucherGenerator.GenerateRules | components/vouchers/VoucherGenerator.tsx:38-55 | a blank offer is reported first, then a blank purpose, then a quantity that is not positive, each exactly when the earlier checks pass; the form is handed on unchanged exactly when no check fails, and an alert is raised exactly when one does |
| VoucherGenerator.DefaultsRefused | components/vouchers/VoucherGenerator.tsx:28-41 | the starting form is refused for its blank offer |
| VoucherGenerator.VoucherForm.constructor | components/vouchers/VoucherGenerator.tsx:28-36 | the form holds the default record, whose counts are not 0 |
| VoucherGenerator.VoucherForm.EditQuantity | components/vouchers/VoucherGenerator.tsx:70 | only the quantity changes, to the fallback-parsed text, and counts that were not 0 stay so |
| VoucherGenerator.VoucherForm.EditItemOffer | components/vouchers/VoucherGenerator.tsx:81 | only the offer changes, to the typed text |
| VoucherGenerator.VoucherForm.SelectDiscountType | components/vouchers/VoucherGenerator.tsx:102 | only the discount type changes, to the pressed option |
| VoucherGenerator.VoucherForm.EditDiscountValue | components/vouchers/VoucherGenerator.tsx:123 | only the amount changes, to the parsed amount or 0 |
| VoucherGenerator.VoucherForm.EditUsageLimit | components/vouchers/VoucherGenerator.tsx:135 | only the usage limit changes, to the fallback-parsed text, and counts that were not 0 stay so |
| VoucherGenerator.VoucherForm.EditEventPurpose | components/vouchers/VoucherGenerator.tsx:146 | only the purpose changes, to the typed text |
| VoucherGenerator.VoucherForm.HandleGenerate | components/vouchers/VoucherGenerator.tsx:38-55 | the outcome is that of the check chain on the current form; a quantity refusal on a form whose counts were never 0 means a negative quantity |
| VoucherGenerator.Defaults | components/vouchers/VoucherGenerator.tsx:28-36 | the starting record; `VoucherGenerator.DefaultsRules` states its fields and `VoucherGenerator.DefaultsRefused` that it is refused |
| VoucherGenerator.IntOrOne | components/vouchers/VoucherGenerator.tsx:70 | `parseInt(text) \|\| 1`; `VoucherGenerator.IntOrOneRules` proves it never 0 |
| VoucherGenerator.DiscountFieldShown | components/vouchers/VoucherGenerator.tsx:115 | the amount field's condition; `VoucherGenerator.DiscountFieldRules` proves it true exactly for percentage and fixed |
| VoucherGenerator.DiscountFieldLabel | components/vouchers/VoucherGenerator.tsx:117-118 | the amount field's label; `VoucherGenerator.DiscountFieldRules` proves the two labels distinct |
| VoucherGenerator.DiscountPlaceholder | components/vouchers/VoucherGenerator.tsx:125 | the amount field's placeholder; `VoucherGenerator.DiscountFieldRules` states both |
| VoucherGenerator.GenerateOutcomeOf | components/vouchers/VoucherGenerator.tsx:38-55 | `handleGenerate`'s checks in order; `VoucherGenerator.GenerateRules` proves each outcome exactly when its check is the first to fail |
| QRScanner.CountsPartition | components/security/QRScanner.tsx:157-179 | every history entry is counted once as valid or invalid and once as voucher or ticket |
| QRScanner.CountsOfPrepend | components/security/QRScanner.tsx:68-179 | a new entry on top raises by one exactly the two statistics that describe it and leaves the other two |
| QRScanner.InitialCounts | components/security/QRScanner.tsx:27-52 | the starting history holds two valid and one invalid scan, two vouchers and one ticket, newest first |
| QRScanner.MockMessageMismatch | components/security/QRScanner.tsx:59-76 | for the draws 0.9, 0.1, 0.9 the scan as written is invalid, announces "Successfully verified", and is shown under the "Invalid Code" alert |
| QRScanner.MockResultRules | components/security/QRScanner.tsx:59-66 | the corrected scan is stamped now, its id reads back as now and its code is "SCAN-" and the id; it is valid exactly for a draw above 0.3 and claims verification exactly when valid; the scan as written differs from it at most in the message, and equals it when the message draw agrees with the verdict draw |
| QRScanner.FormatTimeRules | components/security/QRScanner.tsx:80-89 | the labels are the kitchen queue's: "Just now" exactly under a minute, "Nm ago" reading back as the minutes under an hour, and "Hh Mm ago" whose hours and minutes (M below 60) make up the elapsed minutes |
| QRScanner.Scanner.constructor | components/security/QRScanner.tsx:26-52 | no scan is under way and the history is the three starting entries |
| QRScanner.Scanner.PressScanButton | components/security/QRScanner.tsx:54-109 | a press starts a scan exactly when the button was enabled; afterwards a scan is under way, the button is disabled and the history is unchanged |
| QRScanner.Scanner.CompleteScan | components/security/QRScanner.tsx:58-77 | the scan the handler builds from its three draws, message draw included, goes on top of the history, which otherwise is unchanged; it is the corrected scan whenever the message draw agrees with the validity draw; the flag drops, the alert carries the verdict's title and the scan's message, and the valid and invalid counts move by exactly that scan |
| QRScanner.InitialHistory | components/security/QRScanner.tsx:27-52 | the three starting scans; `QRScanner.InitialCounts` states their counts and order |
| QRScanner.ValidCount | components/security/QRScanner.tsx:157-162 | the valid statistic; `QRScanner.CountsPartition` and `QRScanner.CountsOfPrepend` prove the statistics partition the history and move by one per scan |
| QRScanner.InvalidCount | components/security/QRScanner.tsx:163-168 | the invalid statistic; `QRScanner.CountsPartition` proves valid + invalid is the history's length |
| QRScanner.VoucherCount | components/security/QRScanner.tsx:169-173 | the voucher statistic; `QRScanner.CountsPartition` proves vouchers + tickets is the history's length |
| QRScanner.TicketCount | components/security/QRScanner.tsx:174-179 | the ticket statistic; `QRScanner.CountsOfPrepend` proves it moves exactly for a ticket |
| QRScanner.MockResultAsWritten | components/security/QRScanner.tsx:59-66 | the simulated scan the handler builds; `QRScanner.MockMessageMismatch` exhibits its independent message draw and `QRScanner.MockResultRules` proves it differs from the corrected scan only in the message |
| QRScanner.MockResult | components/security/QRScanner.tsx:59-66 | the corrected simulated scan; `QRScanner.MockResultRules` proves its message follows its verdict |
| QRScanner.AlertTitle | components/security/QRScanner.tsx:72-76 | "Success" or "Invalid Code"; `QRScanner.Scanner.CompleteScan` returns it with the scan's message |
| QRScanner.ScannerCaption | components/security/QRScanner.tsx:102 | the scanner area's caption for the flag; `QRScanner.ScanControlsRules` proves it "Scanning..." exactly while scanning |
| QRScanner.ButtonLabel | components/security/QRScanner.tsx:112 | the button's label for the flag; `QRScanner.ScanControlsRules` proves it "Scanning..." exactly while scanning |
| QRScanner.ScanControlsRules | components/security/QRScanner.tsx:101-113 | the caption and the button both read "Scanning..." exactly while a scan runs, and differ when idle |
| QRScanner.FormatTime | components/security/QRScanner.tsx:80-89 | the history's time label; `QRScanner.FormatTimeRules` proves it the kitchen queue's label with its thresholds |
| MockData.OrderTotals | data/mockData.ts:226-270 | each open order's stored total is the sum of its lines (410, 360, 540) and each was updated after it was created |
| MockData.OrderLinesOnMenu | data/mockData.ts:3-270 | every order line names a menu item of that id, with the same name and price |
| MockData.OrderTables | data/mockData.ts:226-270 | an order has a table exactly when it is a table order; the walk-in has none |
| MockData.MenuRules | data/mockData.ts:3-150 | every menu price is positive, every item is available, and exactly the alcoholic items carry a subcategory |
| MockData.MenuIdsDistinct | data/mockData.ts:3-150 | no two menu items share an id |
| MockData.TableRules | data/mockData.ts:215-224 | a table has a guest count exactly when occupied, and the count is positive and within its capacity |
| MockData.InventoryRules | data/mockData.ts:152-213 | every stock lies strictly between its minimum and maximum, so all five items show as normal stock |
| Types.ParseRole | types/index.ts:61 | a parsed role's name is the string it was parsed from |
| Types.ParseRoleName | types/index.ts:61 | every role's name parses back to that role, so the seven names are distinct |
| Text.NatToStringRoundTrip | utils/dateTime.ts:68 | the decimal digits written for a number read back as that number |
| Text.NatToStringInjective | utils/dateTime.ts:68 | different numbers are written differently |
| Text.TrimEmptyIffBlank | components/vouchers/VoucherGenerator.tsx:39-44 | a string trims to nothing exactly when every character is white space |
| Text.JoinSplit | components/reservations/ReservationCalendar.tsx:62 | joining the pieces of a split with its separator restores the string |
| Text.SplitAtSeparator | components/reservations/ReservationCalendar.tsx:62 | the text before the first separator comes off as the first piece |
| Text.PadStart2 | utils/dateTime.ts:68 | the result is at least two characters long and ends with the input |
| Text.Capitalize | components/navigation/CollapsibleNavigation.tsx:439 | same length; the first character is upper-cased and the rest kept |
| Text.ParseIntDigits | components/reservations/ReservationCalendar.tsx:69 | a run of decimal digits followed by a character that ends the number is read as its value |
| Text.ParseIntRoundTrip | components/reservations/ReservationCalendar.tsx:69 | the integer parser reads back any integer written in decimal |
| Seqs.LastN | components/kitchen/OrderQueue.tsx:74 | the last n elements, or the whole sequence when it is shorter, as a suffix of it |
| Seqs.FilterMembership | components/pos/MenuGrid.tsx:19-29 | an element survives a filter exactly when it is in the input and satisfies the predicate |
| Seqs.FilterMultiset | components/pos/MenuGrid.tsx:19-29 | a filter keeps every occurrence of a satisfying element and no occurrence of any other |
| Seqs.FilterIsSubsequence | components/pos/MenuGrid.tsx:19-29 | a filter keeps the input's order |
| Seqs.FilterIdempotent | components/pos/MenuGrid.tsx:19-29 | filtering twice with the same predicate is filtering once |
| Seqs.FilterPartition | components/security/QRScanner.tsx:157-179 | filters by a predicate and by its negation split the input between them |
| Seqs.MeanBounds | utils/performance.ts:73-80 | the mean of values within bounds lies within the same bounds |
| Text.NatToString | utils/dateTime.ts:68 | at least one digit and only digits; one digit exactly below 10 and two exactly from 10 to 99 |
| Text.TrimStart | components/vouchers/VoucherGenerator.tsx:39-44 | a suffix of the input that starts with a non-blank, everything removed being white space |
| Text.TrimEnd | components/vouchers/VoucherGenerator.tsx:39-44 | a prefix of the input that ends with a non-blank, everything removed being white space |
| Text.Split | components/reservations/ReservationCalendar.tsx:62 | a split always yields at least one piece |
| Text.SplitNoSeparator | components/reservations/ReservationCalendar.tsx:62 | a string without the separator splits into itself alone |
| Text.ReplaceFirst | src/App.tsx:1006 | the replacement keeps the length |
| Text.ParseInt | components/reservations/ReservationCalendar.tsx:69 | `parseInt`; `Text.ParseIntDigits` and `Text.ParseIntRoundTrip` prove it reads a digit run and reads back every written integer |
| Text.Trim | components/vouchers/VoucherGenerator.tsx:39-44 | `trim()`; `Text.TrimEmptyIffBlank` proves it empty exactly for an all-white-space string |
| Text.Join | components/reservations/ReservationCalendar.tsx:62 | `join`; `Text.JoinSplit` proves that joining the pieces of a split gives the string back |
| Text.ToUpper | components/navigation/CollapsibleNavigation.tsx:439 | `toUpperCase` of one character, ASCII only; `Text.Capitalize` uses it |
| Seqs.SumBounds | utils/performance.ts:78-79 | values between two bounds sum to between n times each bound |
| Seqs.Sum | utils/performance.ts:78-79 | the reduce of a sum; `Seqs.SumBounds` and `Seqs.MeanBounds` prove its bounds |
| Performance.WithValue | utils/performance.ts:7-10 | the replaced reading has the new value and every other reading is as before |
| Performance.AdjustmentExpanded | utils/performance.ts:13-62 | a rule table of at most five rules moves the rating by the sum of the deltas of its firing positions |
| Performance.Clamp | utils/performance.ts:64-65 | the result lies in 1 to 5 and a rating already in that range is kept |
| Performance.CalculateDailyRating | utils/performance.ts:7-66 | the threshold-by-threshold computation from 5.0 ends at the role's base rating moved by each firing rule of its table, clamped to 1 to 5 |
| Performance.AdjustmentCongruent | utils/performance.ts:13-62 | readings on which the same rules fire are adjusted by the same amount |
| Performance.RatingBounds | utils/performance.ts:7-66 | every daily rating lies in 3.7 to 5, and in 4.5 to 5 for bartenders and security; the clamp's lower bound is never reached, and other roles always get 5 |
| Performance.WaiterLowest | utils/performance.ts:14-25 | a waiter with 5 orders and a 9-minute service time gets 3.7 |
| Performance.KitchenLowest | utils/performance.ts:39-50 | a cook with 5 orders and a 16-minute preparation time gets 3.7 |
| Performance.SecurityLowest | utils/performance.ts:52-60 | a guard with 10 tickets and 6 incidents gets 4.5 |
| Performance.ZeroIsNoReading | utils/performance.ts:16-58 | a reading of 0 rates like a missing reading, for every role and metric |
| Performance.ServiceTimeMonotone | utils/performance.ts:16-45 | a longer (given) service time never raises the rating |
| Performance.OrdersMonotone | utils/performance.ts:21-49 | more (given) orders never lower the rating |
| Performance.Ratings | utils/performance.ts:78-79 | one rating per history entry, in order |
| Performance.Previous | utils/performance.ts:74 | the block before the last three holds none of up to three entries, three of six or more, and the excess over three otherwise |
| Performance.TrendRules | utils/performance.ts:68-86 | up to three entries is stable; beyond that the trend is improving exactly when the last three ratings average more than 0.2 above the up to three before them, and declining exactly when more than 0.2 below |
| Performance.TrendWindow | utils/performance.ts:73-74 | only the last six entries decide the trend |
| Performance.SumConstant | utils/performance.ts:78-79 | the sum of n copies of c is n times c |
| Performance.SumReflect | utils/performance.ts:78-79 | the sum of the reflections c - x is n times c less the sum |
| Performance.AverageReflect | utils/performance.ts:78-79 | the average of the reflections c - x is c less the average |
| Performance.ConstantRatingsStable | utils/performance.ts:68-86 | a history of one repeated rating is stable |
| Performance.TrendReflect | utils/performance.ts:68-86 | reflecting every rating swaps improving and declining and keeps stable |
| Performance.Advise | utils/performance.ts:99-134 | no more messages than rules |
| Performance.AdviseExpanded | utils/performance.ts:99-134 | a table of up to two suggestion rules gives the first rule's message when it applies, followed by the second's when it applies |
| Performance.GenerateImprovementSuggestions | utils/performance.ts:88-137 | the messages pushed are the applying suggestions of the latest entry's role and readings, in table order |
| Performance.AdviseMembership | utils/performance.ts:99-134 | a message is suggested exactly when some rule with that message applies |
| Performance.SuggestionBounds | utils/performance.ts:88-137 | at most two suggestions, none for an empty history and none for a role outside waiter, bartender, kitchen and security |
| Performance.PenaltyIsAdvised | utils/performance.ts:13-134 | for each role, a rating penalty that fires on a metric the role's suggestions cover always comes with that suggestion |
| Performance.KitchenOrdersUnadvised | utils/performance.ts:46-125 | a cook with five orders loses 0.3 of the rating and gets no suggestion |
| Performance.TeamEntries | utils/performance.ts:149-156 | at most one entry per team member |
| Performance.EntryRatings | utils/performance.ts:158-160 | one rating per team entry, in order |
| Performance.BestIndex | utils/performance.ts:170-174 | the index kept by the reduce holds a highest rating, and every earlier entry rates strictly lower |
| Performance.TeamEntriesMembership | utils/performance.ts:149-156 | an entry is listed exactly when its member is on the team and it is that member's latest entry |
| Performance.LatestForRule | utils/performance.ts:150-151 | a member has a latest entry exactly when some entry carries their id, and that entry carries it |
| Performance.TeamEntriesEmpty | utils/performance.ts:149-156 | the team list is empty exactly when no member has data |
| Performance.TopPerformerPresence | utils/performance.ts:140-181 | there is a top performer exactly when some member has data, and it is a team member; without one the average and both totals are 0 |
| Performance.AverageRatingBounds | utils/performance.ts:158-160 | with every latest rating in 1 to 5 the team average is in 1 to 5 |
| Performance.TopPerformerIsFirstBest | utils/performance.ts:170-174 | the top performer is the member of the first entry with the highest rating |
| Performance.DailyRating | utils/performance.ts:7-66 | the rating the rule table gives; `Performance.CalculateDailyRating` is proved equal to it and `Performance.RatingBounds` proves its tight bounds per role |
| Performance.PerformanceTrend | utils/performance.ts:68-86 | `getPerformanceTrend`; `Performance.TrendRules`, `Performance.ConstantRatingsStable` and `Performance.TrendReflect` prove its cases, a flat history stable and reflection swapping the trend |
| Performance.Suggestions | utils/performance.ts:88-137 | the suggestions of the latest entry; `Performance.GenerateImprovementSuggestions` is proved equal to it, `Performance.AdviseMembership` and `Performance.SuggestionBounds` give its contents |
| Performance.TeamPerformance | utils/performance.ts:140-181 | `calculateTeamPerformance`; `Performance.TopPerformerPresence`, `Performance.AverageRatingBounds` and `Performance.TopPerformerIsFirstBest` prove its fallbacks, bounds and tie-breaking |
| StaffEvaluation.AverageRatingBounds | components/staff/StaffEvaluation.tsx:25-33 | a member without entries averages 0; otherwise the average lies within any bounds of the member's own ratings |
| StaffEvaluation.AverageRatingOwnEntries | components/staff/StaffEvaluation.tsx:25-33 | an entry of another member changes neither the member's entries nor their average |
| StaffEvaluation.TrendWindow | components/staff/StaffEvaluation.tsx:35-36 | both the card trend as written and the corrected one look only at the last seven entries |
| StaffEvaluation.TrendAsWrittenRules | components/staff/StaffEvaluation.tsx:35-45 | the trend as written is stable for fewer than two entries and for exactly three, and from four entries on agrees with the true-average trend |
| StaffEvaluation.TwoEqualRatingsImproving | components/staff/StaffEvaluation.tsx:35-45 | two equal ratings of at least 1 make the trend as written improving, while the true-average trend is stable |
| StaffEvaluation.StaffTrendConstant | components/staff/StaffEvaluation.tsx:35-45 | the corrected trend of a repeated rating is stable, for every number of entries |
| StaffEvaluation.StaffTrendReflect | components/staff/StaffEvaluation.tsx:35-45 | reflecting every rating swaps improving and declining in the corrected trend |
| StaffEvaluation.WindowReflect | components/staff/StaffEvaluation.tsx:39-44 | reflecting every rating of a window mirrors its true-average trend |
| StaffEvaluation.StaffTrendMatchesUtility | components/staff/StaffEvaluation.tsx:35-45 | on exactly six entries the corrected card trend is the trend utility's (utils/performance.ts) |
| StaffEvaluation.RoundRules | components/staff/StaffEvaluation.tsx:123 | the rounded value is within one half of the input (halves up), and rounding keeps 1 to 5 within 1 to 5 |
| StaffEvaluation.Stars | components/staff/StaffEvaluation.tsx:62-80 | five stars are drawn |
| StaffEvaluation.StarsRules | components/staff/StaffEvaluation.tsx:62-80 | the filled stars are the first ones, as many as the rating capped to 0 to 5 |
| StaffEvaluation.CardWithoutEntries | components/staff/StaffEvaluation.tsx:106-130 | a member without entries shows five empty stars, no latest metrics and a stable trend |
| StaffEvaluation.CardStars | components/staff/StaffEvaluation.tsx:106-130 | a member whose ratings all lie in 1 to 5 shows the rounded average of filled stars, between one and five, and their latest entry |
| StaffEvaluation.StarsOfAverage | components/staff/StaffEvaluation.tsx:62-123 | an average in 1 to 5 fills between one and five stars, a prefix |
| StaffEvaluation.EvaluateRules | components/staff/StaffEvaluation.tsx:47-60 | a submission happens exactly when a member is selected and the notes hold a non-white-space character, and carries the selection, rating and notes as typed; blank notes are refused only once a member is selected; no alert exactly when nobody is selected |
| StaffEvaluation.EvaluationForm.constructor | components/staff/StaffEvaluation.tsx:21-23 | nobody selected, five stars, empty notes |
| StaffEvaluation.EvaluationForm.Select | components/staff/StaffEvaluation.tsx:151 | the member is selected and rating and notes are kept |
| StaffEvaluation.EvaluationForm.SetRating | components/staff/StaffEvaluation.tsx:167 | the rating becomes the pressed star and nothing else changes |
| StaffEvaluation.EvaluationForm.SetNotes | components/staff/StaffEvaluation.tsx:175 | the notes become the typed text and nothing else changes |
| StaffEvaluation.EvaluationForm.Cancel | components/staff/StaffEvaluation.tsx:185 | the form closes and rating and notes are kept |
| StaffEvaluation.EvaluationForm.HandleEvaluate | components/staff/StaffEvaluation.tsx:47-60 | the outcome is that of the guard chain on the form before the press; a submission resets the form, every other outcome leaves it unchanged |
| StaffEvaluation.StaffPerformance | components/staff/StaffEvaluation.tsx:25-27 | `getStaffPerformance`; `StaffEvaluation.AverageRatingOwnEntries` proves other members' entries do not enter it |
| StaffEvaluation.AverageRating | components/staff/StaffEvaluation.tsx:29-33 | `getAverageRating`; `StaffEvaluation.AverageRatingBounds` proves it 0 without entries and otherwise within the ratings' bounds |
| StaffEvaluation.TrendAsWritten | components/staff/StaffEvaluation.tsx:35-45 | the card's `getPerformanceTrend` as written; `StaffEvaluation.TrendAsWrittenRules` and `StaffEvaluation.TwoEqualRatingsImproving` prove its edge cases |
| StaffEvaluation.StaffTrend | components/staff/StaffEvaluation.tsx:35-45 | the corrected card trend; `StaffEvaluation.StaffTrendConstant` and `StaffEvaluation.StaffTrendReflect` prove a flat history stable and reflection swapping it |
| StaffEvaluation.Card | components/staff/StaffEvaluation.tsx:106-130 | the staff card; `StaffEvaluation.CardTrend`, `StaffEvaluation.CardStars` and `StaffEvaluation.CardWithoutEntries` state its trend, stars and latest entry |
| StaffEvaluation.CardTrend | components/staff/StaffEvaluation.tsx:106-110 | the card names its member and shows the trend as written: stable for fewer than two entries and for three, the true-average trend from four on, and "improving" for two equal ratings of at least 1 |
| StaffEvaluation.EvaluateOutcomeOf | components/staff/StaffEvaluation.tsx:47-60 | `handleEvaluate`'s guards; `StaffEvaluation.EvaluateRules` proves submission exactly for a selected member with non-blank notes |
| Notifications.CreateNotification | utils/notifications.ts:3-26 | a new notification is unread and stamped now, has medium priority unless one is given, asks for action only when told to, and carries the given type, texts, audience and references |
| Notifications.FilterByRoleKeeps | utils/notifications.ts:28-32 | a notification is kept exactly when it is addressed to the role or to "all", with every copy of it, in the input's order; filtering again changes nothing |
| Notifications.UnreadCount | utils/notifications.ts:34-36 | the count never exceeds the number of notifications addressed to the role |
| Notifications.UnreadCountCounts | utils/notifications.ts:34-36 | the count is the number of notifications both addressed to the role and unread |
| Notifications.MarkAsRead | utils/notifications.ts:51-57 | same length; every notification with the id becomes read and every other is unchanged |
| Notifications.MarkAsReadIdempotent | utils/notifications.ts:51-57 | marking twice is marking once |
| Notifications.MarkAsReadUnread | utils/notifications.ts:34-57 | marking never raises a role's unread count, and lowers it exactly when some unread notification with the id is addressed to the role |
| Notifications.AllReadNoUnread | utils/notifications.ts:34-36 | when every notification is read no role has an unread one |
| Notifications.BeforeIsComparator | utils/notifications.ts:38-49 | the order the sort establishes is the comparator's (higher priority first, then newer first), and it is total and transitive |
| Notifications.SortByPriority | utils/notifications.ts:38-49 | the caller's array is sorted in place by that order, as a permutation of its old contents, and the same array is returned |
| Notifications.InsertLast | utils/notifications.ts:38-49 | one insertion step extends the sorted prefix by one entry and permutes the array |
| Notifications.SortedHead | utils/notifications.ts:38-49 | the first entry of a sorted list has the highest priority, and is the newest among entries of that priority |
| Notifications.TemplateAudiences | utils/notifications.ts:60-117 | a ready order reaches only waiters as a high-priority action with its order and table; low stock reaches managers, owners and bartenders; a login request managers and owners as an action; a system error developers and owners as an urgent action with the error as its message; a reservation reminder waiters and managers; a redeemed voucher managers and owners at low priority |
| Notifications.OrderReadyMessage | utils/notifications.ts:61-65 | without a table the ready message names the last four characters of the order id, with the doubled space the template leaves |
| Notifications.TargetsRole | utils/notifications.ts:29-31 | the role filter's test; `Notifications.FilterByRoleKeeps` proves the filter keeps exactly the notifications it accepts |
| Notifications.FilterByRole | utils/notifications.ts:28-32 | `filterNotificationsByRole`; `Notifications.FilterByRoleKeeps` proves membership both ways, copies, order and idempotence |
| Notifications.Compare | utils/notifications.ts:39-48 | the sort comparator; `Notifications.BeforeIsComparator` proves it orders by priority then newest first |
| Notifications.OrderReady | utils/notifications.ts:61-65 | the order-ready template; `Notifications.TemplateAudiences` and `Notifications.OrderReadyMessage` state its audience and message |
| NotificationBell.BadgeRules | components/notifications/NotificationBell.tsx:19-23 | a badge appears exactly for a positive count, has one to three characters, reads back as the count up to 99, and is "99+" exactly above 99 |
| NotificationBell.BadgeForUnread | components/notifications/NotificationBell.tsx:19-23 | fed a role's unread count, the bell has a badge exactly when some unread notification is addressed to the role |
| NotificationBell.BadgeText | components/notifications/NotificationBell.tsx:19-23 | the badge; `NotificationBell.BadgeRules` proves none at 0 or less, the count up to 99 and "99+" above |
| NotificationPanel.StyleRules | components/notifications/NotificationPanel.tsx:28-47 | each priority has its own colour and none uses the grey fallback; order and voucher notifications share the bell icon and every other type has one of its own |
| NotificationPanel.FormatTimeAgreesWithRelative | components/notifications/NotificationPanel.tsx:49-59 | within a day the row time is the relative-time helper's label; from a day on it is the locale date |
| NotificationPanel.Render | components/notifications/NotificationPanel.tsx:78-126 | the empty state shows exactly for no notifications; otherwise there is one row per notification, in order |
| NotificationPanel.RowRules | components/notifications/NotificationPanel.tsx:84-123 | a row carries its notification's id, title and message, is highlighted and dotted exactly when unread, badged exactly when action is required, and takes the priority's colour and the type's icon |
| NotificationPanel.Press | components/notifications/NotificationPanel.tsx:95-100 | a press is always reported with its notification, and asks for that id to be marked read exactly when it is unread |
| NotificationPanel.PressMarksRead | components/notifications/NotificationPanel.tsx:95-100 | after a press the pressed notification is read, those with other ids are untouched, and a role's unread count never rises; it falls when the pressed one was unread and addressed to the role, and a read one changes nothing |
| NotificationPanel.NotificationIcon | components/notifications/NotificationPanel.tsx:28-37 | `getNotificationIcon`; `NotificationPanel.StyleRules` proves which types share an icon |
| NotificationPanel.PriorityColor | components/notifications/NotificationPanel.tsx:39-47 | `getPriorityColor`; `NotificationPanel.StyleRules` proves the four colours distinct |
| NotificationPanel.FormatTime | components/notifications/NotificationPanel.tsx:49-59 | the row time; `NotificationPanel.FormatTimeAgreesWithRelative` proves it the relative-time label within a day |
| NotificationPanel.RenderRow | components/notifications/NotificationPanel.tsx:84-123 | one row; `NotificationPanel.RowRules` proves its content and styling |
| Reservations.DateReservationsRule | components/reservations/ReservationCalendar.tsx:34-38 | a reservation is listed for a day exactly when it is booked and falls on that calendar day; the list keeps the booking order, and two instants of the same day list the same reservations |
| Reservations.AvailabilityRule | components/reservations/ReservationCalendar.tsx:40-45 | a slot is free for a table exactly when every reservation of the selected day at that time and table is cancelled; adding a cancelled reservation never changes availability |
| Reservations.SlotTaken | components/reservations/ReservationCalendar.tsx:40-45 | a reservation of the selected day that is not cancelled, at that time and table, makes the slot unavailable |
| Reservations.CreateRules | components/reservations/ReservationCalendar.tsx:47-83 | without a selected time the error is raised; otherwise a reservation is created exactly when the prompt is answered with text whose first three trimmed comma-separated fields are non-empty, for the selected day and time, table t1, confirmed, unpaid, stamped now, with non-empty name and phone |
| Reservations.SplitThree | components/reservations/ReservationCalendar.tsx:62 | three comma-free pieces joined by commas split back into exactly those three |
| Reservations.FieldsOfThree | components/reservations/ReservationCalendar.tsx:62 | the three fields of such details are the three pieces, trimmed |
| Reservations.CreateFromDetails | components/reservations/ReservationCalendar.tsx:53-78 | details written as name, phone and guests separated by commas, each non-blank, create a reservation with the trimmed name and phone and the parsed guest count |
| Reservations.DoubleBooking | components/reservations/ReservationCalendar.tsx:40-78 | creation never consults availability: with table t1 already taken at the selected day and time, a complete answer still creates a live reservation of t1 at that slot |
| Reservations.Calendar.constructor | components/reservations/ReservationCalendar.tsx:26-27 | the screen opens on today with no slot selected |
| Reservations.Calendar.SelectTime | components/reservations/ReservationCalendar.tsx:145 | pressing a slot selects it and keeps the day |
| Reservations.Calendar.HandleCreateReservation | components/reservations/ReservationCalendar.tsx:47-83 | the outcome is that of the guard and prompt on the current selection, and the screen's state is unchanged |
| Reservations.ActionRules | components/reservations/ReservationCalendar.tsx:85-215 | an update is sent exactly for confirm, seat, or a cancel answered yes, always for the pressed reservation and with the matching status; only confirmed reservations offer actions, and those lead to seated or cancelled |
| Reservations.StatusColorDistinct | components/reservations/ReservationCalendar.tsx:106-113 | every status has its own badge colour |
| Reservations.DateReservations | components/reservations/ReservationCalendar.tsx:34-38 | `getDateReservations`; `Reservations.DateReservationsRule` proves it keeps exactly the day's reservations |
| Reservations.IsTimeSlotAvailable | components/reservations/ReservationCalendar.tsx:40-45 | `isTimeSlotAvailable`; `Reservations.AvailabilityRule` and `Reservations.SlotTaken` prove a slot free exactly when no live booking holds it |
| Reservations.CreateOutcomeOf | components/reservations/ReservationCalendar.tsx:47-83 | `handleCreateReservation` with the prompt's answer; `Reservations.CreateRules` and `Reservations.CreateFromDetails` prove its guard and what a complete answer creates |
| Reservations.ReservationAction | components/reservations/ReservationCalendar.tsx:85-104 | `handleReservationAction`; `Reservations.ActionRules` proves the status each action sends |
| Reservations.StatusColor | components/reservations/ReservationCalendar.tsx:106-113 | `getStatusColor`; `Reservations.StatusColorDistinct` proves the colours distinct |
| Navigation.BaseSectionRules | components/navigation/CollapsibleNavigation.tsx:60-429 | every role's menu opens with a Main Functions section holding just its own dashboard; an unknown role gets that section alone, and each of the seven roles exactly two more |
| Navigation.DashboardRouteInjective | components/navigation/CollapsibleNavigation.tsx:67 | two roles share a dashboard route exactly when they are the same role |
| Navigation.OwnerDashboardAccess | components/navigation/CollapsibleNavigation.tsx:75-127 | the owner's second section is Dashboard Access, reaching the dashboards of the six other roles in order and not its own |
| Navigation.ManagerDashboardAccess | components/navigation/CollapsibleNavigation.tsx:172-208 | the manager's Dashboard Access lists bartender, kitchen, waiter and security, each also on the owner's, but neither the manager's own nor the developer's |
| Navigation.SharedManagementTools | components/navigation/CollapsibleNavigation.tsx:128-251 | owner and manager have the same Management Tools section |
| Navigation.CategoriesMatchKeys | components/navigation/CollapsibleNavigation.tsx:60-429 | in every role's menu each item carries the category of the section it is listed under |
| Navigation.RoleCategories | components/navigation/CollapsibleNavigation.tsx:74-425 | each role's own sections hold only items of their own category |
| Navigation.StaffCategories | components/navigation/CollapsibleNavigation.tsx:253-425 | the same for the five staff roles |
| Navigation.IdsOfMenu | components/navigation/CollapsibleNavigation.tsx:60-429 | a menu's ids are "dashboard" followed by the ids of the role's own sections |
| Navigation.IdsDistinct | components/navigation/CollapsibleNavigation.tsx:60-502 | no id repeats within a role's menu, so the item keys are unique |
| Navigation.RoleIdsDistinct | components/navigation/CollapsibleNavigation.tsx:74-425 | "dashboard" and the ids of a role's own sections are pairwise distinct |
| Navigation.RoleIdList | components/navigation/CollapsibleNavigation.tsx:74-425 | each role's own sections list exactly the ids of its id table, in order |
| Navigation.OwnerIdList | components/navigation/CollapsibleNavigation.tsx:75-171 | the owner's sections list the owner's id table |
| Navigation.ManagerIdList | components/navigation/CollapsibleNavigation.tsx:172-252 | the manager's sections list the manager's id table |
| Navigation.StaffIdList | components/navigation/CollapsibleNavigation.tsx:253-425 | each staff role's sections list its id table |
| Navigation.IdListsDistinct | components/navigation/CollapsibleNavigation.tsx:74-425 | no id table repeats an id or contains "dashboard" |
| Navigation.RoleDisplayName | components/navigation/CollapsibleNavigation.tsx:438-440 | same length, first letter upper-cased, the rest as given |
| Navigation.RoleDisplayNameIdempotent | components/navigation/CollapsibleNavigation.tsx:438-440 | showing a displayed name again changes nothing |
| Navigation.HeaderBadge | components/navigation/CollapsibleNavigation.tsx:460-463 | a badge appears exactly for a positive count, is "99+" exactly above 99, and otherwise reads back as the count |
| Navigation.Menu.constructor | components/navigation/CollapsibleNavigation.tsx:39 | the menu starts hidden |
| Navigation.Menu.Open | components/navigation/CollapsibleNavigation.tsx:448 | the menu button shows the menu |
| Navigation.Menu.Close | components/navigation/CollapsibleNavigation.tsx:475-487 | the close button and the back gesture hide the menu |
| Navigation.Menu.Navigate | components/navigation/CollapsibleNavigation.tsx:431-436 | pressing an item hides the menu and pushes exactly the item's route |
| Navigation.Menu.Logout | components/navigation/CollapsibleNavigation.tsx:42-58 | a confirmed logout hides the menu and replaces the route with the login screen; a cancelled one changes nothing and calls no router |
| Navigation.NavigationItems | components/navigation/CollapsibleNavigation.tsx:60-429 | `getNavigationItems` for a role; `Navigation.BaseSectionRules`, `Navigation.IdsOfMenu` and `Navigation.IdsDistinct` prove its base section, ids and their uniqueness |
| Navigation.DashboardRoute | components/navigation/CollapsibleNavigation.tsx:67 | a role's dashboard route; `Navigation.DashboardRouteInjective` proves it injective |
| Navigation.IsActive | components/navigation/CollapsibleNavigation.tsx:504 | an item is highlighted when the current route is its route; `Navigation.AtMostOneHighlighted` proves at most one item of a menu highlighted |
| Navigation.RoutesDistinct | components/navigation/CollapsibleNavigation.tsx:60-429 | no route repeats within a role's menu, the role's own dashboard route included |
| Navigation.AtMostOneHighlighted | components/navigation/CollapsibleNavigation.tsx:504 | whatever the current route, at most one item of a role's menu is highlighted, and on the role's dashboard route it is the first item |
| App.FirstContainedNone | src/App.tsx:801-808 | the keyword search gives "guest" exactly when the email contains none of the keywords |
| App.FirstContainedHit | src/App.tsx:801-808 | otherwise it gives a keyword the email contains, every earlier keyword being absent |
| App.InferRoleRules | src/App.tsx:801-808 | an email naming no role gives a guest; otherwise the role is the first of owner, manager, bartender, kitchen, waiter, security and developer it contains, so an email containing "owner" is always announced as owner |
| App.HandleLogin | src/App.tsx:790-820 | a missing email or password gives the error and nothing else does; otherwise the assignment chain picks the inferred role, which is "guest" or one of the seven keywords, and the success modal announces it |
| App.InferRoleExpanded | src/App.tsx:801-808 | the keyword search is the source's if-else chain, keyword by keyword in the same order |
| App.KeywordsAreRoles | src/App.tsx:672-808 | the keywords the login looks for are exactly the roles that have a side-navigation list of their own |
| App.DashboardsOfList | src/App.tsx:672-730 | a list opening with its one dashboard and only pages after it holds exactly one dashboard |
| App.RoleItemsShape | src/App.tsx:672-726 | each role's list opens with a dashboard and holds only pages after it |
| App.RoleItemsOpen | src/App.tsx:672-726 | each role's list opens with that role's own dashboard |
| App.SideNavOpensWithDashboard | src/App.tsx:672-732 | every list opens with a dashboard, a role's with its own, and the owner's tenth entry is the developer dashboard |
| App.SideNavFallback | src/App.tsx:727-732 | a role outside the table gets the guest list, which opens with the guest's dashboard |
| App.OneDashboardPerList | src/App.tsx:672-732 | every list holds exactly one item of the dashboard kind |
| App.RedirectRules | src/App.tsx:912-918 | signed out the page ends at "login"; signed in it never stays "login", any other page is kept, and applying the effect again changes nothing |
| App.MarkAllRead | src/App.tsx:926 | same length, every notification read and otherwise unchanged |
| App.MarkAllReadRules | src/App.tsx:906-930 | after the bell nothing is unread, marking twice is marking once, and two of the starting notifications are unread |
| App.UnreadBadge | src/App.tsx:1011-1015 | a badge appears exactly for a positive count and reads back as the count |
| App.RenderPageRules | src/App.tsx:933-981 | signed out, and only then, every page is the login screen; signed in, the guest's dashboard is not found, and a page screen is the page asked for |
| App.DashboardsRender | src/App.tsx:938-953 | each of the seven roles' dashboards has a page |
| App.SignInLanding | src/App.tsx:912-981 | signing in from the login page lands each of the seven roles on its own dashboard and the guest on the not-found message |
| App.ListedPagesRender | src/App.tsx:672-981 | an entry of a role's list leads to no page exactly when it is one of the placeholder entries, and everything the owner's and the manager's lists offer has a page |
| App.RolePagesRender | src/App.tsx:672-981 | the same per role |
| App.OwnerPagesRender | src/App.tsx:673-981 | every owner entry has a page |
| App.ManagerPagesRender | src/App.tsx:685-981 | every manager entry has a page |
| App.StaffPagesRender | src/App.tsx:696-981 | a staff entry has no page exactly when it is a placeholder |
| App.CapitalizeAll | src/App.tsx:1006 | each word is capitalised, one for one |
| App.ReplaceFirstAt | src/App.tsx:1006 | the first '-' becomes a space and the rest is kept |
| App.ReplaceFirstAbsent | src/App.tsx:1006 | a page without '-' is unchanged by the replacement |
| App.HeaderTitleRules | src/App.tsx:1006 | a page named first-rest with no spaces is titled with both parts capitalised and a space between; a single word is titled capitalised |
| App.AppContent.constructor | src/App.tsx:903-909 | the shell starts on the login page, navigation closed, no modal, with the two starting notifications |
| App.AppContent.RedirectEffect | src/App.tsx:912-918 | the page becomes the redirect of the old page and nothing else changes |
| App.AppContent.ToggleNav | src/App.tsx:920-922 | the navigation's openness flips and nothing else changes |
| App.AppContent.SelectItem | src/App.tsx:747-750 | the entry's id becomes the page, and the navigation flips on a narrow window only |
| App.AppContent.NotificationClick | src/App.tsx:924-928 | every notification is marked read, so nothing is unread, and the modal opens; page and navigation are kept |
| App.AppContent.CloseNotificationModal | src/App.tsx:1020 | the modal closes and nothing else changes |
| App.InferRole | src/App.tsx:801-808 | the simulated role; `App.InferRoleRules`, `App.FirstContainedNone` and `App.FirstContainedHit` prove it the first keyword the email contains, else "guest" |
| App.LoginOutcomeOf | src/App.tsx:790-820 | `handleLogin`'s decision; `App.HandleLogin` is proved to produce it |
| App.SideNavItems | src/App.tsx:672-732 | `navItems[userRole] \|\| navItems['guest']`; `App.SideNavOpensWithDashboard`, `App.SideNavFallback` and `App.OneDashboardPerList` prove its lists and fallback |
| App.Redirect | src/App.tsx:912-918 | the redirect effect; `App.RedirectRules` proves where each session goes |
| App.UnreadCount | src/App.tsx:930 | the number of unread notifications of the shell; `App.MarkAllReadRules` proves it 2 at the start and 0 after the bell marks all read |
| App.RenderPage | src/App.tsx:933-981 | `renderPage`; `App.RenderPageRules` and `App.ListedPagesRender` prove which screen each page id selects |
| App.HeaderTitle | src/App.tsx:1006 | the header title; `App.HeaderTitleRules` proves the first '-' becomes a space and each word is capitalised |

## Left out

- Firebase initialisation, authentication and Firestore in `src/App.tsx` are not modelled. They are a foreign SDK with asynchronous callbacks. The role they would supply is an input of the shell's methods.
- JSX layout, styles, icons, item descriptions and images are not modelled. Neither are `Modal` and `Alert`/`Alert.prompt` as dialogs: their titles and messages are returned, and their answers are inputs.
- Router calls are returned as values (`Navigation.RouterCall`), not performed.
- The static placeholder dashboards and pages of `src/App.tsx` appear only as the page ids that `renderPage` selects.
- The order-line store behind `OrderSummary`'s callbacks is not part of the shown files. Only the requests the panel sends are modelled.
- Locale formatting is not modelled. This covers `formatPHP`, `formatDate`, `formatTime` and `formatDateTime` of the utilities, the `toFixed(1)` and `toFixed(0)` rounding of `formatPHPShort` (so `Currency.ShortFormOf` gives the unrounded quotient, and 999,999 is (thousands, 999.999) where the source writes "₱1000.0K"), and `toLocaleString`, `toLocaleDateString` and `toFixed` in the components. Where a locale date is shown, it is a string parameter.
- `parsePHP` is not modelled. `parseFloat` is a parameter because its decimal syntax is not modelled.
- `parseInt` is modelled with leading white space, one sign, and decimal or `0x` hexadecimal digits. Precision loss beyond 2^53 is not modelled.
- `isToday` in `utils/dateTime.ts` is not modelled separately. It is `DateTime.IsSameDay` applied to now.
- IEEE floating point is not modelled, so rounding errors in `0.12 × x` and in the averages are not captured.
- `Math.random()` and `setTimeout` in the scanner are not modelled. The three draws of the scan handler and the moment the timer fires are parameters. The handler reads the clock three times, for the id, the code and the timestamp; the model reads it once, as `now`. That makes "the code is `SCAN-` followed by the id" in `QRScanner.MockResultRules` true by construction; in the source the two reads can differ by a millisecond. The scanner's handler captures the history of the render that started the scan; the model prepends to the current history, which is the same whenever one scan runs at a time, as the disabled button ensures.
- Notification ids made from `Date.now()` and `Math.random()` are not generated. The id is a parameter of `Notifications.CreateNotification`.
- `Notifications.InsertLast` does not state that the entries after the inserted position keep their places. Its contract states only the sorted prefix and the permutation, which is all `Notifications.SortByPriority` needs.
- `Notifications.SortByPriority` does not state that the sort is stable. `Array.prototype.sort` keeps the input order of entries its comparator calls equal, those with the same priority and the same `createdAt`; the contract leaves their order open and states only the comparator's order and the permutation.
- `NotificationPanel.StyleRules` does not cover the grey and bell fallbacks for a priority or type outside the declared unions. Those cases cannot arise with the `Priority` and `NotificationType` datatypes.
- `NotificationPanel.PressMarksRead` assumes the panel's `onMarkAsRead` callback is `markAsRead` of `utils/notifications.ts`. No file in this model renders the panel or makes that connection.
- `DateTime.GetTimeSlots` requires a positive interval. With an interval of 0 or less, the inner loop of `getTimeSlots` (`utils/dateTime.ts:65`) never advances the minute and never ends, as in `getTimeSlots(17, 23, 0)`. The model does not capture that non-termination.
- `Text.ToUpper` upper-cases only the ASCII letters `a` to `z`; JavaScript's full Unicode case mapping is not modelled. The seven role names and the page ids of the side-navigation lists are ASCII, so for them the model agrees with JavaScript. A role string read from the user record (`src/App.tsx:59`) may not be ASCII; `App.HeaderTitle` capitalises the page id built from it (`src/App.tsx:914`), and for such a role the model's title can differ from the source's.
- `App.HandleLogin`'s simulated role only appears in the success modal. `handleLogin` never calls `setUserRole`; the session's role comes from the user record alone (`src/App.tsx:59-69`). So the email decides neither `userRole` nor the dashboard the shell opens, and in the model `App.LoginOutcome` is not an input of `App.AppContent.RedirectEffect`.
- Several parameters typed `number` in the source are integers in the model: the start hour, end hour and interval of `getTimeSlots` (`utils/dateTime.ts:57-61`), the amounts of `addMinutes` and `addDays` (`utils/dateTime.ts:49-55`), and the badge counts. Every caller in the modelled files passes integers there.
- Daylight-saving changes are not modelled. A calendar day is the instant shifted by one fixed offset.
- The `navItems` lookup in `src/App.tsx` is modelled as a lookup of the seven role names, with the guest list for every other role. A role string naming a JavaScript object property such as `"constructor"` is not modelled.
- `components/reports/SalesReport.tsx` and the screens under `app/` are not part of this model. They hold presentation only, over hard-coded figures.
- `Types` declares the records of `types/index.ts`, plus the role parser `Types.ParseRole` and the truthiness test `Types.Truthy`. The parser's contracts are listed under "## Model"; the records themselves have no behaviour to verify.

## Findings

| source | as written | input that shows it | evidently intended | confidence | as-written member | corrected member |
|---|---|---|---|---|---|---|
| components/staff/StaffEvaluation.tsx:35-45 | the recent sum is always divided by 3 and the earlier sum by `length - 3`, so two entries compare two thirds of their sum with 0, and three entries compare with 0/0 (NaN) | two entries rated 4.0 and 4.0: as written the card reads "improving" | the mean of the last three against the mean of the earlier ones, stable for a flat history | not executed | StaffEvaluation.TrendAsWritten, StaffEvaluation.TwoEqualRatingsImproving | StaffEvaluation.StaffTrend, StaffEvaluation.StaffTrendConstant |
| components/security/QRScanner.tsx:63-76 | the message is chosen by its own `Math.random()` draw, apart from the draw that decides validity | draws 0.9, 0.1, 0.9: an invalid scan says "Successfully verified" under the "Invalid Code" alert | the message follows the verdict | not executed | QRScanner.MockResultAsWritten, QRScanner.MockMessageMismatch | QRScanner.MockResult, QRScanner.MockResultRules |
