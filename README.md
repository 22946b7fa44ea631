# Running room admin console — a Dafny model of its client-side rules

The running room console is a React front end. Railway crew use it to book
beds in a rest house ("running room"), and kitchen staff use it to publish
daily and weekly menus. Almost all business rules live on a server that the
console only calls. What the console decides for itself is a set of small
rules inside its components and hooks:

- how an enum value becomes a label (`formatEnum`);
- how rooms are joined to their buildings and searched;
- how menu items are grouped by meal and laid out on daily cards, weekly
  grids and a weekly table;
- which date range the menu page fetches, and what its save and delete
  handlers do to the page state;
- how bed statuses are coloured and how a room's border is classified;
- how the occupancy reply is normalised;
- the required-field guards of the menu, menu item and room forms;
- the crew lookup of the booking dialog;
- the building list store.

This project restates those rules in Dafny and proves what they promise.
Pure expressions become functions with lemmas. Loops that fill a dictionary
become methods proved equal to a reference function. Components and hooks
that update their state step by step become classes whose methods state the
new state.

Every call to the server is a parameter of the operation that makes it:

- `ApiOutcome<T>` is `Ok(value)` or `Failed(message)`. The message is what
  `err.response.data.message` would hold, if anything.
- A write call that can only succeed or throw is a `callSucceeds` flag.
- `window.confirm` is a `confirmed` flag.

Menu dates are normalised `YYYY-MM-DD` strings, whose text order is date
order. The menu page's current date is a day number: day 0 is 1970-01-01, a
Thursday. The page uses dayjs's default locale week, which runs from Sunday
to Saturday.

Modules, one per source file (plus three shared ones):

- `Common`: outcomes, optional values, JavaScript truthiness of strings,
  and the `message || fallback` error text.
- `Text`: ASCII case mapping, substring search, and the text order of
  strings.
- `Seqs`: filtering, subsequences, de-duplication, insertion sort, and the
  last index of a value.
- `EnumLabels`, `RoomCatalog`, `RoomList`, `RoomListLegacy`: the two room
  lists.
- `Menus`, `DailyMenuCard`, `WeeklyMenuCard`, `WeeklyMenu`,
  `WeeklyMenuTable`, `MenusPage`, `MenuFormDialog`, `MenuItemFormDialog`:
  the kitchen.
- `BedOccupancyHook`, `BedOccupancyDashboard`, `BookingFormDialog`: bookings.
- `CreateRoom`, `BuildingsService`: room creation and the building store.

## Model

| member | source | states |
|---|---|---|
| Common.ErrorText | src/features/RunningRoom/Room/RoomList.tsx:202 | `message \|\| fallback`. The text is the server's message when that is non-empty, else the fallback; it is never empty when the fallback is not. |
| Common.TruthyOrAbsent | src/features/RunningRoom/Bookings/hooks/useBedOccupancyDashboard.ts:43-49 | `s \|\| undefined`: absent exactly when the value is missing or empty; otherwise the value itself. |
| Common.OrEmpty | src/features/RunningRoom/Bookings/components/BookingFormDialog.tsx:101-103 | `s \|\| ""`: empty exactly when the value is missing or empty. |
| Text.ContainsIffOccurs | src/features/RunningRoom/Room/RoomList.tsx:215 | `includes` holds exactly when the needle occurs at some position of the text. |
| Text.Trim | src/components/RunningRoom/Room/CreateRoom.js:13 | `trim()`: the result neither starts nor ends with whitespace. |
| Text.TrimStrips | src/components/RunningRoom/Room/CreateRoom.js:13 | `trim()` returns the input with whitespace removed from both ends: a slice of it with only whitespace before and after. |
| Text.TrimIsTheOnlyStrip | src/components/RunningRoom/Room/CreateRoom.js:13 | Any such slice that neither starts nor ends with whitespace is the trimmed text, so `trim()`'s result is fully determined. |
| Text.BlankIffTrimEmpty | src/components/RunningRoom/Room/CreateRoom.js:13 | `!roomName.trim()` holds exactly when the name is all whitespace. That is the `IsBlank` test the form uses. |
| EnumLabels.UnderscoresToSpaces | src/features/RunningRoom/Room/RoomList.tsx:40 | Same length; no underscore is left; every underscore becomes a space and every other character is kept. |
| EnumLabels.CapitalizeWords | src/features/RunningRoom/Room/RoomList.tsx:41 | Same length and the same characters up to case. A letter that starts a word becomes upper-case, and every character not at a word start is kept. |
| EnumLabels.FormatTextKeepsLetters | src/features/RunningRoom/Room/RoomList.tsx:40-41 | The three passes keep every character, an underscore read as a space, up to case. |
| EnumLabels.FormatTextIsLabel | src/features/RunningRoom/Room/RoomList.tsx:40-41 | Formatted text has no underscore, an upper-case letter at each word start and lower-case letters everywhere else. |
| EnumLabels.LabelIsFixpoint | src/features/RunningRoom/Room/RoomList.tsx:40-41 | Formatting text that is already a label returns it unchanged. |
| EnumLabels.FormatEnum | src/features/RunningRoom/Room/RoomList.tsx:38-42 | "-" for a missing or empty value. Otherwise a label with the value's characters, an underscore read as a space, in the same places and changed only in case. |
| EnumLabels.LabelUnique | src/features/RunningRoom/Room/RoomList.tsx:40-41 | Two labels with the same characters up to case are equal, so the output above is the only one possible. |
| EnumLabels.FormatEnumExample | src/features/RunningRoom/Room/RoomList.tsx:38-42 | "AC_DELUXE" becomes "Ac Deluxe"; a missing or empty value becomes "-". |
| EnumLabels.FormatEnumIdempotent | src/features/RunningRoom/Room/RoomList.tsx:38-42 | Formatting a label a second time changes nothing. |
| EnumLabels.FormatEnumValue | src/components/RunningRoom/Room/RoomList.js:14-18 | "-" for a falsy value (undefined, null, false, 0, ""). Any other value becomes the label with the characters of its `String` text, an underscore read as a space, changed only in case. |
| EnumLabels.JsString | src/components/RunningRoom/Room/RoomList.js:16 | `String(v)`: a string is kept; a natural number gives only digits; a negative number gives a minus sign followed by digits. |
| EnumLabels.FormatEnumValueOnStrings | src/components/RunningRoom/Room/RoomList.js:14-18 | On a string the older formatter agrees with the typed one. |
| EnumLabels.FormatEnumValueOnNumbers | src/components/RunningRoom/Room/RoomList.js:15-17 | A non-zero integer is shown as its `String` text unchanged, and `true` as "True". |
| RoomCatalog.SearchRoomsSelects | src/features/RunningRoom/Room/RoomList.tsx:213-216 | A room is kept exactly when its lower-cased room number contains the lower-cased text. Order is preserved, and each room keeps its multiplicity. |
| RoomCatalog.SearchRooms | src/features/RunningRoom/Room/RoomList.tsx:215 | The filter never yields more rooms than the full list. |
| RoomCatalog.SearchEmptyKeepsAll | src/features/RunningRoom/Room/RoomList.tsx:237 | Searching for "" keeps every room. |
| RoomList.FindBuilding | src/features/RunningRoom/Room/RoomList.tsx:196 | `find`: the index of the first building with the id; none exactly when no building has it. |
| RoomList.WithBuildingNames | src/features/RunningRoom/Room/RoomList.tsx:195-198 | One joined room per fetched room. |
| RoomList.WithBuildingNamesJoin | src/features/RunningRoom/Room/RoomList.tsx:195-198 | Room i gets the name of the first building whose id equals its building id, or "-" when there is none or that name is empty. |
| RoomList.RoomListPage.constructor | src/features/RunningRoom/Room/RoomList.tsx:169-174 | Empty lists, empty search, not loading, no error. |
| RoomList.RoomListPage.LoadBuildings | src/features/RunningRoom/Room/RoomList.tsx:176-186 | A loaded list replaces the buildings; a failure changes nothing. |
| RoomList.RoomListPage.FetchRooms | src/features/RunningRoom/Room/RoomList.tsx:188-207 | No request while the buildings are empty. Success: both lists become the joined rooms. Failure: the lists are kept and the error is the message or "Failed to fetch rooms". Loading is false afterwards. |
| RoomList.RoomListPage.HandleSearch | src/features/RunningRoom/Room/RoomList.tsx:213-216 | The search text is set, the shown rooms become the search over the full list, and the full list is unchanged. |
| RoomList.RoomListPage.Refresh | src/features/RunningRoom/Room/RoomList.tsx:237 | The search is cleared and the shown rooms become the full list. |
| RoomListLegacy.RoomsOf | src/components/RunningRoom/Room/RoomList.js:141 | An array reply is taken as it is; any other reply is the empty list. |
| RoomListLegacy.Rows | src/components/RunningRoom/Room/RoomList.js:155-162 | One row per room. |
| RoomListLegacy.RowsCarryExactlyDisplayedFields | src/components/RunningRoom/Room/RoomList.js:155-162 | Two room lists give the same rows exactly when they agree, room by room, on those six fields. |
| RoomListLegacy.RoomListLegacyPage.constructor | src/components/RunningRoom/Room/RoomList.js:130-134 | Empty lists, empty search, not loading, no error. |
| RoomListLegacy.RoomListLegacyPage.FetchRooms | src/components/RunningRoom/Room/RoomList.js:136-152 | Success: both lists become the reply's rooms. Failure: the lists are kept and the error is the message or "Failed to fetch rooms". Loading is false afterwards. |
| RoomListLegacy.RoomListLegacyPage.SearchInput | src/components/RunningRoom/Room/RoomList.js:181-189 | The text is set, the shown rooms become the case-insensitive search over the full list, and the full list is unchanged. |
| RoomListLegacy.RoomListLegacyPage.Reset | src/components/RunningRoom/Room/RoomList.js:194-197 | The search is cleared and the shown rooms are the full list again. |
| RoomListLegacy.RoomListLegacyPage.DisplayedRows | src/components/RunningRoom/Room/RoomList.js:155-162 | The grid's rows are the rows of the shown rooms, one per room. |
| Menus.ItemsOfMeal | src/features/RunningRoom/Kitchen/WeeklyMenuCard.tsx:60 | Every kept item has the meal type, and no more items than the menu has. |
| DailyMenuCard.Grouping | src/features/RunningRoom/Kitchen/DailyMenuCard.tsx:57-61 | The keys are exactly the meal types that occur. Each key's group is that type's items, in order. |
| DailyMenuCard.GroupByMealType | src/features/RunningRoom/Kitchen/DailyMenuCard.tsx:57-61 | The reduce, as a loop pushing each item into its type's group, builds exactly the grouping. |
| DailyMenuCard.GroupingPartitionsItems | src/features/RunningRoom/Kitchen/DailyMenuCard.tsx:57-61 | Each item is in the group of its own type, and only there. Every group is an order-preserving subsequence of the items. |
| DailyMenuCard.GroupSizesSumToItemCount | src/features/RunningRoom/Kitchen/DailyMenuCard.tsx:57-61 | The sizes of the groups add up to the number of items. |
| DailyMenuCard.CardSections | src/features/RunningRoom/Kitchen/DailyMenuCard.tsx:74-75 | At most one section per `MEAL_ORDER` entry. |
| DailyMenuCard.SectionsFollowMealOrder | src/features/RunningRoom/Kitchen/DailyMenuCard.tsx:74-75 | Sections are a subsequence of `MEAL_ORDER`. A meal has a section exactly when it is in `MEAL_ORDER` and has an item. A section's items are that meal's items, and there is at least one. |
| DailyMenuCard.ShownExactlyTheOrderedMeals | src/features/RunningRoom/Kitchen/DailyMenuCard.tsx:74-75 | An item appears in some section exactly when its meal type is in `MEAL_ORDER`: other types are never shown. |
| DailyMenuCard.CategoryColor | src/features/RunningRoom/Kitchen/DailyMenuCard.tsx:79-82 | "text-red-600" for NON_VEG, "text-green-400" for VEGAN, "text-green-700" for anything else. |
| DailyMenuCard.CardOf | src/features/RunningRoom/Kitchen/DailyMenuCard.tsx:63-93 | The card shows the menu's own date. |
| WeeklyMenuCard.MenusByDate | src/features/RunningRoom/Kitchen/WeeklyMenuCard.tsx:34-37 | The keys are exactly the menus' dates. Each date maps to the last menu with that date. |
| WeeklyMenuCard.BuildMenusByDate | src/features/RunningRoom/Kitchen/WeeklyMenuCard.tsx:34-37 | The `forEach` as a loop builds exactly that index, so a later menu with a repeated date overwrites an earlier one. |
| WeeklyMenuCard.WeekDates | src/features/RunningRoom/Kitchen/WeeklyMenuCard.tsx:40 | No duplicates. A date is in the list exactly when some menu has it. |
| WeeklyMenuCard.WeekDatesAreTheDistinctDatesAscending | src/features/RunningRoom/Kitchen/WeeklyMenuCard.tsx:35-40 | Each menu date occurs exactly once, the dates strictly ascend, and every date has an entry in the index. |
| WeeklyMenuCard.CellItems | src/features/RunningRoom/Kitchen/WeeklyMenuCard.tsx:59-60 | A cell's items are that date's menu's items of the row's meal type, in order; a date with no menu has none. |
| WeeklyMenuCard.CellOf | src/features/RunningRoom/Kitchen/WeeklyMenuCard.tsx:63-73 | A cell shows "-" exactly when it has no items; otherwise it lists them. |
| WeeklyMenuCard.Table | src/features/RunningRoom/Kitchen/WeeklyMenuCard.tsx:55-58 | One row per `MEAL_ORDER` entry, and one cell per week date in every row. |
| WeeklyMenuCard.TableCells | src/features/RunningRoom/Kitchen/WeeklyMenuCard.tsx:55-73 | The table has `MEAL_ORDER` by week-date dimensions. The cell of (meal, date) lists exactly the items of that meal in the date's last menu, in order; it is "-" exactly when there are none. |
| WeeklyMenu.SortedMenus | src/features/RunningRoom/Kitchen/WeeklyMenu.tsx:43-45 | A permutation of the menus, non-decreasing by date. |
| WeeklyMenu.ColourCards | src/features/RunningRoom/Kitchen/WeeklyMenu.tsx:60-69 | One card per menu. |
| WeeklyMenu.Cards | src/features/RunningRoom/Kitchen/WeeklyMenu.tsx:60-69 | One card per menu. |
| WeeklyMenu.CardsFollowSortedMenus | src/features/RunningRoom/Kitchen/WeeklyMenu.tsx:60-69 | Card i shows sorted menu i and has colour `CARD_COLORS[i % 7]`, always in range. |
| WeeklyMenu.CardColoursCycle | src/features/RunningRoom/Kitchen/WeeklyMenu.tsx:28-66 | Colours repeat every seven cards. No two of seven consecutive cards share a colour. |
| WeeklyMenuTable.TableCards | src/features/RunningRoom/Kitchen/WeeklyMenuTable.tsx:58-66 | One card per menu. |
| WeeklyMenuTable.TableCardsFollowSortedMenus | src/features/RunningRoom/Kitchen/WeeklyMenuTable.tsx:47-66 | Card i shows sorted menu i with this grid's colour `CARD_COLORS[i % 7]`. Both grids show the same cards and differ only in colour. |
| MenusPage.DayOfWeek | src/features/RunningRoom/Kitchen/MenusPage.tsx:33 | The weekday is between 0 (Sunday) and 6 (Saturday). |
| MenusPage.WeekStart | src/features/RunningRoom/Kitchen/MenusPage.tsx:33 | `startOf("week")` is a Sunday, at most six days before the day. |
| MenusPage.WeekEnd | src/features/RunningRoom/Kitchen/MenusPage.tsx:34 | `endOf("week")` is the Saturday six days after the week's start. |
| MenusPage.WeekStartUnique | src/features/RunningRoom/Kitchen/MenusPage.tsx:32-35 | The requested week is the only Sunday-to-Saturday span holding the day. |
| MenusPage.SameWeekSameRange | src/features/RunningRoom/Kitchen/MenusPage.tsx:32-35 | Every day of a week requests the same range. |
| MenusPage.QueryFor | src/features/RunningRoom/Kitchen/MenusPage.tsx:32-39 | Weekly view asks for [start, end] with start <= day <= end = start + 6; daily view asks for the day itself. |
| MenusPage.Fetched | src/features/RunningRoom/Kitchen/MenusPage.tsx:30-45 | An answered fetch clears the error, and a daily one leaves at most one menu. A failed fetch keeps the menus and sets a non-empty error. |
| MenusPage.FetchOutcome | src/features/RunningRoom/Kitchen/MenusPage.tsx:30-45 | Success clears the error. A weekly reply replaces the menus. A daily reply gives `[menu]` or `[]`, so at most one menu. Failure keeps the menus and sets the message or "Failed to load menus". |
| MenusPage.DailyViewAsWritten | src/features/RunningRoom/Kitchen/MenusPage.tsx:112-114 | As written, the daily view hands `menus[0]` to the card and crashes exactly when there is no menu. |
| MenusPage.DailyViewAsWrittenCrashesOnEmptyDay | src/features/RunningRoom/Kitchen/MenusPage.tsx:36-39 | When the day has no menu, the daily fetch leaves no menus and the as-written daily view throws. |
| MenusPage.DailyView | src/features/RunningRoom/Kitchen/MenusPage.tsx:112-130 | Corrected: with no menu it shows an empty panel; otherwise it shows the card of the first menu. |
| MenusPage.DailyViewShowsTheDaysMenu | src/features/RunningRoom/Kitchen/MenusPage.tsx:36-39 | After a daily fetch the corrected view shows the card of the day's menu, or the empty panel when there is none. |
| MenusPage.MenusScreen.constructor | src/features/RunningRoom/Kitchen/MenusPage.tsx:14-51 | Starts in weekly view on today with dialogs closed and nothing selected, then runs the first fetch. |
| MenusPage.MenusScreen.FetchMenus | src/features/RunningRoom/Kitchen/MenusPage.tsx:30-45 | Asks for the range or day of the current view; the menus and error become the fetch outcome, and nothing else changes. |
| MenusPage.MenusScreen.ChangeView | src/features/RunningRoom/Kitchen/MenusPage.tsx:100 | The view changes and the menus are fetched again for it. The date is kept. |
| MenusPage.MenusScreen.SaveMenu | src/features/RunningRoom/Kitchen/MenusPage.tsx:53-62 | Calls update when a menu is selected and create otherwise. On success the menu dialog closes, the selection clears and the page refetches. If the call throws, nothing changes. |
| MenusPage.MenusScreen.RemoveMenu | src/features/RunningRoom/Kitchen/MenusPage.tsx:65-70 | Without confirmation: no call, nothing changes. With confirmation: a delete call, then a refetch when it succeeds. |
| MenusPage.MenusScreen.SaveItem | src/features/RunningRoom/Kitchen/MenusPage.tsx:73-82 | Calls update when the selected item has an id and add otherwise. On success the item dialog closes, the item selection clears and the page refetches. If the call throws, nothing changes. |
| MenusPage.MenusScreen.SubmitItem | src/features/RunningRoom/Kitchen/MenusPage.tsx:162 | Ignored, with no call, when no menu is selected. Otherwise it saves into the selected menu: update when the selected item has an id, else add. On success the item dialog closes, the item selection clears and the page refetches. If the call throws, nothing changes. |
| MenusPage.MenusScreen.RemoveItem | src/features/RunningRoom/Kitchen/MenusPage.tsx:85-90 | Without confirmation: nothing happens. With confirmation: a delete call, then a refetch when it succeeds. |
| MenusPage.MenusScreen.EditMenu | src/features/RunningRoom/Kitchen/MenusPage.tsx:115-118 | Selects the menu and opens the menu dialog. |
| MenusPage.MenusScreen.AddItem | src/features/RunningRoom/Kitchen/MenusPage.tsx:120-123 | Selects the menu and opens the item dialog. |
| MenusPage.MenusScreen.EditItem | src/features/RunningRoom/Kitchen/MenusPage.tsx:124-128 | Selects the menu and the item and opens the item dialog. |
| MenusPage.MenusScreen.CloseMenuDialog | src/features/RunningRoom/Kitchen/MenusPage.tsx:147-150 | Closes the menu dialog and clears the selected menu. |
| MenusPage.MenusScreen.CloseItemDialog | src/features/RunningRoom/Kitchen/MenusPage.tsx:158-161 | Closes the item dialog and clears the selected item but not the selected menu. |
| MenusPage.MenusScreen.Render | src/features/RunningRoom/Kitchen/MenusPage.tsx:112-141 | Daily view shows the corrected daily panel and weekly view the week's cards. The error line shows exactly when the error is non-empty. |
| MenuFormDialog.MenuForm.constructor | src/features/RunningRoom/Kitchen/MenuFormDialog.tsx:25 | The date field starts empty. |
| MenuFormDialog.FormattedDate | src/features/RunningRoom/Kitchen/MenuFormDialog.tsx:30 | `dayjs(date).format("YYYY-MM-DD")` is never empty: a normalised date is kept, and the empty date becomes "Invalid Date". |
| MenuFormDialog.MenuForm.LoadInitial | src/features/RunningRoom/Kitchen/MenuFormDialog.tsx:28-34 | With initial data the field holds its date as dayjs formats it; without it the field is reset to "". |
| MenuFormDialog.MenuForm.HandleSubmit | src/features/RunningRoom/Kitchen/MenuFormDialog.tsx:37-40 | Nothing is submitted when the date is empty. Otherwise the payload is exactly `{ menuDate }`. The field is unchanged either way. |
| MenuFormDialog.EditAndSubmit | src/features/RunningRoom/Kitchen/MenuFormDialog.tsx:28-40 | Opening the dialog on a menu and submitting always submits: that menu's date, or "Invalid Date" when the menu's date is empty. |
| MenuFormDialog.NewAndSubmit | src/features/RunningRoom/Kitchen/MenuFormDialog.tsx:28-40 | A fresh dialog submitted at once sends nothing. |
| MenuItemFormDialog.OfferedChoices | src/features/RunningRoom/Kitchen/MenuItemFormDialog.tsx:14-15 | Offered meal types are BREAKFAST, LUNCH and DINNER, and categories are VEG, NON_VEG, DESSERT and SNACK. All are non-empty. SNACKS, although in `MEAL_ORDER`, is not offered. |
| MenuItemFormDialog.MenuItemForm.constructor | src/features/RunningRoom/Kitchen/MenuItemFormDialog.tsx:18-22 | The fields start as "", "", 0, "", "". |
| MenuItemFormDialog.MenuItemForm.LoadInitial | src/features/RunningRoom/Kitchen/MenuItemFormDialog.tsx:24-38 | With initial data the five fields copy its values; without it they reset to "", "", 0, "", "". |
| MenuItemFormDialog.MenuItemForm.HandleSubmit | src/features/RunningRoom/Kitchen/MenuItemFormDialog.tsx:40-43 | Submits exactly when name, meal type and category are all non-empty. Description and price never block. The payload is the five current values. |
| MenuItemFormDialog.EditAndSubmit | src/features/RunningRoom/Kitchen/MenuItemFormDialog.tsx:24-43 | Opening the dialog on an item and submitting returns that item's five fields when its required fields are filled. |
| BedOccupancyHook.NumberOrAbsent | src/features/RunningRoom/Bookings/hooks/useBedOccupancyDashboard.ts:50 | `n \|\| undefined`: absent exactly when the number is missing or 0. |
| BedOccupancyHook.NormalizeBed | src/features/RunningRoom/Bookings/hooks/useBedOccupancyDashboard.ts:40-52 | Bed number and status are copied. |
| BedOccupancyHook.NormalizeBedCleans | src/features/RunningRoom/Bookings/hooks/useBedOccupancyDashboard.ts:43-51 | A normalised bed has no falsy optional field. Normalising is the identity exactly on such beds, so it is idempotent. A rest-hours value of 0 is dropped. |
| BedOccupancyHook.NormalizeBedKeepsTruthy | src/features/RunningRoom/Bookings/hooks/useBedOccupancyDashboard.ts:43-51 | Each of the eight optional text fields is kept when truthy, and a non-zero rest-hours value is kept. |
| BedOccupancyHook.NormalizeBeds | src/features/RunningRoom/Bookings/hooks/useBedOccupancyDashboard.ts:40-52 | Same length; bed i is bed i normalised. |
| BedOccupancyHook.NormalizedRooms | src/features/RunningRoom/Bookings/hooks/useBedOccupancyDashboard.ts:39-40 | The same room numbers as the reply. |
| BedOccupancyHook.NormalizedRoomsShape | src/features/RunningRoom/Bookings/hooks/useBedOccupancyDashboard.ts:39-52 | Same rooms. Each room's beds are in the same number and order, bed number and status are copied, and every bed is clean. |
| BedOccupancyHook.NormalizeRooms | src/features/RunningRoom/Bookings/hooks/useBedOccupancyDashboard.ts:38-53 | The `for...in` loop builds exactly the normalised rooms. |
| BedOccupancyHook.OccupancyDashboard.constructor | src/features/RunningRoom/Bookings/hooks/useBedOccupancyDashboard.ts:26-65 | The first render followed by the mount fetch: the normalised reply and no error, or no data and the message or "Failed to load occupancy". Loading is false. |
| BedOccupancyHook.OccupancyDashboard.FetchOccupancy | src/features/RunningRoom/Bookings/hooks/useBedOccupancyDashboard.ts:30-61 | Success replaces the data with the normalised reply and leaves the error empty. Failure keeps the data and sets the message or "Failed to load occupancy". Loading is false afterwards. |
| BedOccupancyDashboard.ColorAt | src/features/RunningRoom/Bookings/BedOccupancyDashboard.tsx:22 | Position i gets `colors[i % 5]`; the default is never needed. |
| BedOccupancyDashboard.OccupancyColors | src/features/RunningRoom/Bookings/BedOccupancyDashboard.tsx:19-23 | The keys are exactly the statuses' keys. Each key gets the colour of its last position. |
| BedOccupancyDashboard.BuildOccupancyColors | src/features/RunningRoom/Bookings/BedOccupancyDashboard.tsx:19-23 | No colours while the enums are absent. Otherwise the `forEach` as a loop builds exactly that record. |
| BedOccupancyDashboard.StatusColourByPosition | src/features/RunningRoom/Bookings/BedOccupancyDashboard.tsx:20-23 | The key at position i gets `colors[i % 5]` unless a later position repeats it, in which case the later colour wins. Positions 1 and 4 are both grey. |
| BedOccupancyDashboard.BedColor | src/features/RunningRoom/Bookings/BedOccupancyDashboard.tsx:26-29 | The default green for a missing, empty or unmapped status; otherwise the status's colour. |
| BedOccupancyDashboard.BedColorOfKnownStatus | src/features/RunningRoom/Bookings/BedOccupancyDashboard.tsx:16-29 | A known status gets the palette colour of its position. With no enums every bed is default green. |
| BedOccupancyDashboard.RoomColor | src/features/RunningRoom/Bookings/BedOccupancyDashboard.tsx:31-39 | Grey-300 without enums; green-500 for no beds. Otherwise: green-500 iff every bed has the first status, gray-500 iff none does, green-300 iff some do and some do not. It throws exactly when there are beds but the status list is empty. |
| BedOccupancyDashboard.RestHoursLine | src/features/RunningRoom/Bookings/BedOccupancyDashboard.tsx:107 | The line shows exactly when rest hours are present. |
| BedOccupancyDashboard.ZeroRestHoursNeverShown | src/features/RunningRoom/Bookings/BedOccupancyDashboard.tsx:107 | A bed that reports 0 rest hours never shows the line, because the hook has already dropped the 0. |
| BookingFormDialog.CrewLookup.constructor | src/features/RunningRoom/Bookings/components/BookingFormDialog.tsx:68-83 | The crew id and the three crew fields are those of the booking being edited; a new booking has none. Not fetching, no crew error. |
| BookingFormDialog.CrewLookup.ClickFetch | src/features/RunningRoom/Bookings/components/BookingFormDialog.tsx:87-94 | Does nothing while a fetch is running, because the button is disabled. With an empty crew id it sets "Please enter a Crew ID first." and makes no request. Otherwise it clears the error and starts fetching. |
| BookingFormDialog.CrewLookup.CompleteFetch | src/features/RunningRoom/Bookings/components/BookingFormDialog.tsx:96-111 | On success the three crew fields come from the reply, or "" when missing, and the error is kept. On failure, or an empty body whose fields cannot be read, the error is the message or "Crew not found." and all three are cleared. Fetching ends either way. |
| BookingFormDialog.LookUpCrew | src/features/RunningRoom/Bookings/components/BookingFormDialog.tsx:87-112 | A whole lookup from a freshly opened dialog requests exactly when the booking has a crew id. Without one, the booking's crew name stays. A found crew fills the name and leaves no error; any failure empties the name and leaves an error. Fetching is never left on. |
| CreateRoom.CreateRoomForm.constructor | src/components/RunningRoom/Room/CreateRoom.js:4-7 | Empty fields, not loading, no error. |
| CreateRoom.CreateRoomForm.HandleSubmit | src/components/RunningRoom/Room/CreateRoom.js:9-49 | The error is cleared first. A blank name or empty capacity gives "Please fill in all fields." and sends nothing. Otherwise it sends the untrimmed name and the capacity. A non-ok reply gives "Failed to create room", a rejected request its error's message; both keep the fields. Success clears both fields and notifies with the created room when a callback exists. Loading ends either way. |
| BuildingsService.WithoutIdRemovesOnlyThatId | src/features/RunningRoom/hooks/useBuildingsService.ts:43-46 | Exactly the buildings with another id are kept, in order. |
| BuildingsService.WithoutId | src/features/RunningRoom/hooks/useBuildingsService.ts:45 | The filter never yields more buildings than the list. |
| BuildingsService.BuildingsStore.constructor | src/features/RunningRoom/hooks/useBuildingsService.ts:13-51 | The first render followed by the mount fetch: the reply's list and no error, or an empty list and the message or "Failed to load buildings". Not loading, no success message. |
| BuildingsService.BuildingsStore.FetchBuildings | src/features/RunningRoom/hooks/useBuildingsService.ts:18-29 | Success replaces the list and clears the error. Failure keeps the list and sets the message or "Failed to load buildings". Loading is false afterwards. |
| BuildingsService.BuildingsStore.CreateBuilding | src/features/RunningRoom/hooks/useBuildingsService.ts:31-35 | When the call succeeds it refetches and then sets "Building created successfully". When the call throws, nothing changes. |
| BuildingsService.BuildingsStore.UpdateBuilding | src/features/RunningRoom/hooks/useBuildingsService.ts:37-41 | When the call succeeds it refetches and then sets "Building updated successfully". When the call throws, nothing changes. |
| BuildingsService.BuildingsStore.DeleteBuildingById | src/features/RunningRoom/hooks/useBuildingsService.ts:43-47 | On success it drops exactly the buildings with that id and sets "Building deleted successfully". When the call throws, nothing changes. |

## Left out

- HTTP: every `api` and service call is a parameter (an outcome or a
  success flag). The services, interceptors and URLs are not part of this
  model.
- dayjs: parsing, formatting and time zones are not modelled. The current
  date is a day number, and menu dates are already-normalised `YYYY-MM-DD`
  strings, or empty. A date string's calendar validity is not checked, and neither
  is the formatted `YYYY-MM-DD` text of the requested range.
- MenuFormDialog.FormattedDate: of the texts dayjs cannot parse, only the
  empty date is modelled ("Invalid Date"). Any other non-empty date is kept
  as it is, so the reformatting of a date in another format, and dayjs's
  rollover of a date such as `2024-02-30`, are not captured.
- `MenusPage.tsx` asks for dayjs's default Sunday-to-Saturday week around
  the current date, which is what `MenusPage.WeekStart` models. It has no
  ISO week, no date navigation and no copy between weeks, so the model has
  none either.
- `Text.ToLower` and `EnumLabels.CapitalizeWords` map case on ASCII letters
  only, and `\b\w` is read on ASCII word characters. Unicode case mapping
  is not modelled.
- `EnumLabels.FormatEnumValue` converts only strings, booleans and integers
  with `String`, and writes every integer in plain decimal. JavaScript's
  exponent form for magnitudes of 1e21 and more, the rounding of integers
  above 2^53, fractions, objects and `NaN` are not modelled.
- Prices and capacities are integers. `Number(...)` parsing, `NaN` and
  floating point are not modelled.
- `CreateRoom.CreateRoomForm.HandleSubmit` models the capacity as the
  text that `Number(capacity)` converts. The conversion itself is not
  modelled.
- JavaScript objects as dictionaries are Dafny maps. Two differences
  follow:
  - Key order is not modelled: integer-like keys first, then insertion
    order. It decides the order in which the dashboard lists rooms.
  - Inherited keys such as "constructor" are not modelled. They would make
    `grouped[type]`, `menusByDate[date]` and `occupancyColors[status]`
    lookups find a prototype member.
- Rooms and bed lists are always arrays. A reply whose room value is not
  an array (where `.map` would throw) is not modelled.
- `RoomListLegacy.RoomsOf` is the only place that tests the reply's
  shape, because only the older list does.
- Rooms without a `roomNumber` are not modelled; there `toLowerCase`
  would throw.
- `WeeklyMenu.SortedMenus` does not model the order among menus with equal
  dates. The comparator never returns 0, so that order depends on the
  engine's sort.
- `WeeklyMenu.SortedMenus` leaves the page's array unchanged trivially,
  because sequences are values. The copy before the sort needs no proof
  here.
- React scheduling is not modelled:
  - effects run as soon as their inputs change;
  - overlapping fetches, and the order in which their replies arrive, are
    not modelled;
  - stale closures are not modelled; `deleteBuilding` filters the list it
    captured, and the model filters the current one.
- `fetchMenus` is not awaited after a save or delete. The model runs the
  refetch at once.
- The forms' field setters (typing into an input) are not modelled. The
  dialogs are modelled from the values their effects load.
- The `react-hook-form` fields of the booking dialog other than the crew id
  and the three crew fields are not modelled.
- Toasts and `console` logging are not modelled.
- The layout, JSX and class strings of the pages are not modelled. The
  computed colour classes are kept.
- `window.confirm` is a boolean input.

## Findings

| source | as written | input that shows it | evidently intended | confidence | as-written member | corrected member |
|---|---|---|---|---|---|---|
| src/features/RunningRoom/Kitchen/MenusPage.tsx:112-114 | The daily view always renders `DailyMenuCard` with `menus[0]`. The card reads `menu.items` at DailyMenuCard.tsx:57. | Daily view on a day with no menu: `fetchDaily` returns nothing, so `menus` is `[]` and `menus[0]` is `undefined`. The same happens after switching to daily view while the weekly list is empty. | With no menu for the day, show an empty panel instead of the card. | not executed | MenusPage.DailyViewAsWrittenCrashesOnEmptyDay | MenusPage.DailyViewShowsTheDaysMenu |
