# Agora Restobar: state logic of the site and its admin pages

This project models the logic under the rendering of the Agora Restobar website (a
restaurant/bar site with a small admin back-office), written in Dafny and proved. It covers:

- the admin **menu** table. It has a language-selected, case-insensitive name search and add, edit and delete dialogs that update the list through one shared form;
- the admin **bookings** and **banners** tables. Each flips a per-row flag (`isConfirmed` / `isActive`) by id. The bookings table also has a search in two modes: by name or by phone;
- the public **booking form**. It validates the name and phone, builds the request body with the `+998` phone number, tests the server's reply for success, and keeps the loading and submitted flags;
- the public **menu** section. It has a category filter, "first six categories unless expanded", and the scroll offset of the category row;
- the public **news** section. It classifies media types, resolves media URLs, treats empty dates, and accepts or ignores the fetched banner list;
- the admin **login** check. It rejects empty fields, matches the demo credentials exactly, and redirects a session that is already authenticated.

Each component's state is a class whose methods are its event handlers (each `modifies` only
the fields the handler sets). The filters, predicates and record builders they use are functions.
Lemmas prove the properties that relate them.

Files:

- `wrappers.dfy`: `Option`.
- `language.dfy`: the three interface languages.
- `seqs.dfy`: `Filter` (`Array.prototype.filter`), `MapWhere` (`xs.map(x => hit(x) ? f(x) : x)`) and order-preserving subsequences.
- `text.dfy`: the JavaScript string operations used: `\s`/`trim`, `toLowerCase`, `includes`, `startsWith`, and the decimal text of an integer with its parse.
- `admin_menu.dfy`, `admin_booking.dfy`, `admin_banners.dfy`, `admin_login.dfy`, `booking.dfy`, `menu.dfy`, `news.dfy`: one module per component.

Two behaviours a reader might not expect, modelled as the code does them:

- The phone check counts every non-whitespace character, not digits. The input mask is what limits the field to digits.
- `toggleStatus` on the bookings and banners pages only flips the flag locally and shows a notice. There is no request and no rollback in this code.

## Model

| member | source | states |
|---|---|---|
| Seqs.Filter | src/pages/AdminMenu.tsx:97-100 | `filter` keeps exactly the elements satisfying the predicate, as an order-preserving subsequence with the same multiplicities; it returns the list itself when every element passes |
| Seqs.MapWhere | src/pages/AdminBooking.tsx:39-41 | the replace-where `map` keeps the length; each selected element becomes its image and every other element stays in place |
| Seqs.MapWhereTwice | src/pages/AdminBanners.tsx:30-32 | replacing by an involution that keeps the selection, done twice, restores the list |
| Seqs.MapWhereMissesAll | src/pages/AdminBooking.tsx:39-41 | when no element is selected the `map` returns the same list |
| Text.StripWhitespace | src/components/Booking.tsx:74 | `replace(/\s/g, '')` keeps exactly the non-whitespace characters: the result is an order-preserving subsequence of the input, each non-whitespace character keeps its number of occurrences and no whitespace remains; the result is empty iff the input is all whitespace |
| Text.TrimStart | src/components/Booking.tsx:70 | drops only leading whitespace; the result is a suffix that starts with a non-whitespace character or is empty |
| Text.TrimEnd | src/components/Booking.tsx:74 | drops only trailing whitespace; the result is a prefix that ends with a non-whitespace character or is empty |
| Text.Trim | src/components/Booking.tsx:70 | `trim()` is a contiguous piece of the input with only whitespace before and after it; it is empty exactly when the input is all whitespace, and a non-empty result neither starts nor ends with whitespace |
| Text.TrimPieces | src/components/Booking.tsx:70 | trimming at both ends leaves the piece of the input after its leading whitespace, with only whitespace after it; the piece starts with a non-whitespace character when not empty, and is empty iff every character is whitespace |
| Text.LowerChar | src/pages/AdminMenu.tsx:99 | `toLowerCase` on one character maps Latin and Cyrillic capitals to their small letters and keeps every other character |
| Text.LowerIdempotent | src/pages/AdminBooking.tsx:47 | lower-casing an already lower-cased string changes nothing |
| Text.IncludesIffOccurs | src/pages/AdminMenu.tsx:99 | `includes` holds exactly when the term occurs at some position of the string |
| Text.Lower | src/pages/AdminMenu.tsx:99 | `toLowerCase` keeps the length and lower-cases each character on its own |
| Text.StartsWith | src/components/News.tsx:94 | `startsWith` holds exactly when the string is the prefix followed by the rest of the string |
| Text.Includes | src/pages/AdminBooking.tsx:47-48 | a string includes only terms no longer than itself; it includes every prefix of itself and the empty string |
| Text.DecimalText | src/pages/AdminMenu.tsx:240 | `toString()` of an integer price is a digit string without a leading zero, preceded by `-` exactly when the price is negative |
| Text.DecimalValue | src/pages/AdminMenu.tsx:138 | a number is read exactly from a non-empty digit string, optionally preceded by `-`; an unsigned one reads as a non-negative number |
| Text.ReadsAsSafeInteger | src/pages/AdminMenu.tsx:138 | a price text on which `parseFloat` is exact: a signed or unsigned digit string whose value lies within `Number.MAX_SAFE_INTEGER` |
| Text.UnsafeDigitTextIsNotSafe | src/pages/AdminMenu.tsx:138 | the digit text of 2^53 + 1 is read exactly by `DecimalValue` but is not a safe-integer text, so it does not fix the price |
| Text.DigitsRoundTrip | src/pages/AdminMenu.tsx:240 | parsing the decimal digits of a natural number gives back the number |
| Text.DecimalRoundTrip | src/pages/AdminMenu.tsx:240 | `parseFloat` of `price.toString()` gives back the integer price |
| AdminMenu.Matches | src/pages/AdminMenu.tsx:97-100 | a dish passes the search exactly when the lower-cased term occurs somewhere in its lower-cased name in the selected language |
| AdminMenu.EmptyTermMatchesAll | src/pages/AdminMenu.tsx:97-100 | with an empty search term every dish passes the search, in every language |
| AdminMenu.FilteredItems | src/pages/AdminMenu.tsx:97-100 | the shown dishes are exactly those whose name in the selected language, lower-cased, contains the lower-cased term. They form an order-preserving subsequence with the same multiplicities. An empty term shows the whole list |
| AdminMenu.WithField | src/pages/AdminMenu.tsx:102-107 | typing into one form field sets that field and leaves the others and the picture unchanged |
| AdminMenu.NewItem | src/pages/AdminMenu.tsx:135-142 | a new dish takes the given id, the form's texts and the parsed price. Its picture is the object URL of the chosen file, or the fixed default picture when there is none |
| AdminMenu.UpdatedItem | src/pages/AdminMenu.tsx:173-178 | the edited dish keeps the selected id, takes the form's texts and price, and keeps its old picture unless a new file was chosen |
| AdminMenu.EditForm | src/pages/AdminMenu.tsx:233-243 | opening the edit dialog copies the six texts and the type. The price becomes its decimal text, which parses back to the price, and no picture is chosen |
| AdminMenu.EditUnchangedKeepsItem | src/pages/AdminMenu.tsx:173-178 | opening a dish for editing and saving the untouched form writes back the same dish |
| AdminMenu.AddThenEditRestoresForm | src/pages/AdminMenu.tsx:233-243 | opening a just-added dish for editing gives back the texts and type of the form it was created from, and price text that reads back as its saved price |
| AdminMenu.ReplaceById | src/pages/AdminMenu.tsx:180-182 | every dish with the selected id is replaced by the edited dish. The length is preserved and every other dish stays in place |
| AdminMenu.RemoveById | src/pages/AdminMenu.tsx:212 | every dish with the selected id is removed; all others remain in order with their multiplicities |
| AdminMenu.AdminMenuPage.constructor | src/pages/AdminMenu.tsx:85-94 | the page starts with the given list, an empty search, Uzbek names, every dialog closed, nothing selected, `initialFormData`, not loading |
| AdminMenu.AdminMenuPage.Shown | src/pages/AdminMenu.tsx:97-100 | the table shows an order-preserving subsequence of the dishes holding exactly those that pass the current search |
| AdminMenu.AdminMenuPage.SetSearchTerm | src/pages/AdminMenu.tsx:298 | typing in the search box sets the term |
| AdminMenu.AdminMenuPage.SetLang | src/pages/AdminMenu.tsx:281 | the language select sets the search language |
| AdminMenu.AdminMenuPage.HandleInputChange | src/pages/AdminMenu.tsx:102-107 | the form becomes the old form with the one field replaced |
| AdminMenu.AdminMenuPage.HandleImageChange | src/pages/AdminMenu.tsx:109-115 | the form's picture becomes the chosen file or none; the texts are unchanged |
| AdminMenu.AdminMenuPage.OpenAddModal | src/pages/AdminMenu.tsx:266-269 | the new-dish button resets the form, clears the selection and opens the add dialog |
| AdminMenu.AdminMenuPage.HandleAddItem | src/pages/AdminMenu.tsx:117-161 | the price is what the price text reads as, when it is an integer text within the safe-integer range. The handler appends exactly one new dish, built from the form, after the unchanged old list. It then closes the dialog, resets the form to `initialFormData` and ends not loading |
| AdminMenu.AdminMenuPage.HandleEditItem | src/pages/AdminMenu.tsx:163-201 | the price is what the price text reads as, when it is an integer text within the safe-integer range. With nothing selected, nothing changes. Otherwise each dish with the selected id is replaced by the edited dish. The dialog closes, the selection and form are cleared, and loading ends |
| AdminMenu.AdminMenuPage.HandleDeleteItem | src/pages/AdminMenu.tsx:203-229 | with nothing selected, nothing changes. Otherwise each dish with the selected id is removed, the dialog closes, the selection is cleared, and loading ends |
| AdminMenu.AdminMenuPage.OpenEditModal | src/pages/AdminMenu.tsx:231-245 | selects the dish, fills the form from it and opens the edit dialog |
| AdminMenu.AdminMenuPage.OpenDeleteModal | src/pages/AdminMenu.tsx:247-250 | selects the dish and opens the delete confirmation |
| AdminMenu.AdminMenuPage.OpenViewModal | src/pages/AdminMenu.tsx:252-255 | selects the dish and opens the detail view |
| AdminBooking.Toggled | src/pages/AdminBooking.tsx:39-41 | toggling keeps the length, order and every field except `isConfirmed`. That flag is inverted exactly on rows whose id matches |
| AdminBooking.ToggleTwice | src/pages/AdminBooking.tsx:39-41 | toggling the same id twice restores the original list |
| AdminBooking.ToggleAbsent | src/pages/AdminBooking.tsx:39-41 | toggling an id no booking carries leaves the list unchanged |
| AdminBooking.Matches | src/pages/AdminBooking.tsx:45-49 | in name mode a booking passes exactly when the lower-cased term occurs in its lower-cased name; in any other mode exactly when the term as typed occurs in its phone |
| AdminBooking.EmptyTermMatchesAll | src/pages/AdminBooking.tsx:45-49 | with an empty term every booking passes, in either search mode |
| AdminBooking.FilteredBookings | src/pages/AdminBooking.tsx:45-49 | in name mode a booking is shown iff its lower-cased name contains the lower-cased term. In any other mode it is shown iff its phone contains the term as typed. The result is an order-preserving subsequence with the same multiplicities, and an empty term keeps all |
| AdminBooking.AdminBookingsPage.constructor | src/pages/AdminBooking.tsx:33-35 | the page starts with the given bookings, an empty term and name mode |
| AdminBooking.AdminBookingsPage.Shown | src/pages/AdminBooking.tsx:45-49 | the table shows an order-preserving subsequence of the bookings holding exactly those that pass the current search |
| AdminBooking.AdminBookingsPage.SetSearchTerm | src/pages/AdminBooking.tsx:72 | typing sets the term and nothing else |
| AdminBooking.AdminBookingsPage.SetSearchType | src/pages/AdminBooking.tsx:58 | the mode select sets the mode and nothing else |
| AdminBooking.AdminBookingsPage.ToggleStatus | src/pages/AdminBooking.tsx:38-43 | the list becomes the toggled list; the search state is unchanged |
| AdminBanners.Toggled | src/pages/AdminBanners.tsx:30-32 | toggling keeps the length, order and every field except `isActive`. That flag is inverted exactly on rows whose id matches |
| AdminBanners.ToggleTwice | src/pages/AdminBanners.tsx:30-32 | toggling the same id twice restores the original list |
| AdminBanners.ToggleAbsent | src/pages/AdminBanners.tsx:30-32 | toggling an unknown id leaves the list unchanged |
| AdminBanners.AdminBannersPage.constructor | src/pages/AdminBanners.tsx:24-26 | the add form starts with an empty name and description, no media and `isActive` true; the dialog is closed |
| AdminBanners.AdminBannersPage.OpenAddModal | src/pages/AdminBanners.tsx:43 | opens the add dialog and changes nothing else |
| AdminBanners.AdminBannersPage.ToggleStatus | src/pages/AdminBanners.tsx:29-34 | the list becomes the toggled list; the form and dialog are unchanged |
| Booking.PhoneCheckIsLengthCheck | src/components/Booking.tsx:74 | the trimmed-emptiness test on the phone is subsumed by the length test on the whitespace-free phone |
| Booking.ValidateForm | src/components/Booking.tsx:69-79 | the name error is reported exactly when the name is blank. The phone error is reported exactly when the name is not blank and the phone has fewer than 9 non-whitespace characters. Validation passes exactly when neither holds |
| Booking.CountryCodeHasNoWhitespace | src/components/Booking.tsx:95 | the country prefix holds no whitespace |
| Booking.FullPhone | src/components/Booking.tsx:95 | the sent phone is `+998` followed by the entry with all whitespace removed, and holds no whitespace |
| Booking.ValidFormPhoneLength | src/components/Booking.tsx:74-95 | a form that passes validation sends a phone of at least 13 characters |
| Booking.Accepted | src/components/Booking.tsx:101 | a reply is a success exactly when it is an OK response with a message in whose lower-cased form `qabul qilindi` occurs |
| Booking.AcceptedIgnoresCase | src/components/Booking.tsx:101 | acceptance depends on the server message only through its lower-cased form |
| Booking.RejectedReplies | src/components/Booking.tsx:101-110 | a failed request, a non-OK response or a reply without a message is never a success |
| Booking.BookingSection.constructor | src/components/Booking.tsx:59-61 | the form starts empty, not loading and not submitted |
| Booking.BookingSection.SetName | src/components/Booking.tsx:65-67 | typing sets the name only |
| Booking.BookingSection.SetPhone | src/components/Booking.tsx:65-67 | typing sets the phone only |
| Booking.BookingSection.BeginSubmit | src/components/Booking.tsx:81-97 | an invalid form reports its first error, issues no request and leaves the loading flag alone. A valid form sets loading and yields the request: the raw name and the full phone number |
| Booking.BookingSection.FinishSubmit | src/components/Booking.tsx:99-120 | an accepted reply marks the booking submitted and shows the server's message. Any other reply shows the error notice. Loading is cleared in both cases |
| Booking.BookingSection.ResetAfterSuccess | src/components/Booking.tsx:104-107 | when the confirmation timer fires, the confirmation is hidden and the form emptied |
| Menu.DishesOf | src/components/Menu.tsx:87 | the shown dishes are exactly those whose type equals the selected category's type, in original order and multiplicity |
| Menu.VisibleCategories | src/components/Menu.tsx:102 | the visible categories are a prefix of the list: all of them when expanded, otherwise the first `min(6, n)` |
| Menu.ViewAllShown | src/components/Menu.tsx:148 | "view all" is drawn exactly when some category is hidden, i.e. when not expanded and there are more than 6 |
| Menu.DemoCategoriesStartCollapsed | src/components/Menu.tsx:37-46 | with the eight shipped categories the row starts with the first six, and "view all" is drawn |
| Menu.NextScrollPosition | src/components/Menu.tsx:93-95 | scrolling right adds exactly 200. Scrolling left subtracts 200 but never goes below 0 |
| Menu.ScrollStaysNonNegative | src/components/Menu.tsx:93-95 | from a non-negative offset, scrolling never yields a negative one |
| Menu.LeftUndoesRight | src/components/Menu.tsx:93-95 | a left click undoes a right click |
| Menu.RightUndoesLeft | src/components/Menu.tsx:93-95 | a right click undoes a left click exactly when the offset was at least 200 |
| Menu.MenuSection.constructor | src/components/Menu.tsx:80-83 | the first category is selected. The row is collapsed and unscrolled, and no dish is open |
| Menu.MenuSection.Shown | src/components/Menu.tsx:87 | the grid shows an order-preserving subsequence of the dishes holding exactly those of the selected category's type |
| Menu.MenuSection.SelectCategory | src/components/Menu.tsx:136 | clicking a drawn category selects it; the invariant is kept |
| Menu.MenuSection.ShowAllCategories | src/components/Menu.tsx:152 | after "view all" every category is visible and the button disappears |
| Menu.MenuSection.ScrollCategories | src/components/Menu.tsx:89-100 | with the container present the offset moves by one step. Without it nothing changes. The offset stays non-negative |
| Menu.MenuSection.SelectItem | src/components/Menu.tsx:177 | clicking a dish opens its details; the invariant is kept |
| Menu.MenuSection.CloseItem | src/components/Menu.tsx:228 | closing the dialog clears the open dish; the invariant is kept |
| News.GetMediaType | src/components/News.tsx:89-91 | a media type is a video exactly when it spells `video` with each letter in either case; anything else is an image |
| News.SpellsVideo | src/components/News.tsx:90 | a type string lower-cases to `video` exactly when it has five characters, each the small or capital letter of `video` at that place |
| News.GetMediaTypeIgnoresCase | src/components/News.tsx:90 | type strings that lower-case alike are classified alike |
| News.ResolveUrl | src/components/News.tsx:93-95 | a URL starting with `http` is returned unchanged; any other is appended to the API base. The result always ends with the input |
| News.ResolveUrlIdempotent | src/components/News.tsx:93-95 | when the base starts with `http`, resolving a resolved URL again changes nothing |
| News.FormatDate | src/components/News.tsx:77-87 | an empty date shows as a dash. Any other date is rendered in the locale of the interface language |
| News.Delivered | src/components/News.tsx:64-66 | a reply delivers a list exactly when `isSuccess` holds and `value.$values` is present, and then delivers that list |
| News.NewsSection.constructor | src/components/News.tsx:51-53 | the section starts with no news, nothing open, loading |
| News.NewsSection.BeginFetch | src/components/News.tsx:60 | starting the fetch sets loading |
| News.NewsSection.FinishFetch | src/components/News.tsx:58-72 | the list is replaced only by an accepted reply and kept otherwise. Loading ends whatever the outcome |
| News.NewsSection.SelectNews | src/components/News.tsx:125 | clicking a card opens it |
| News.NewsSection.CloseNews | src/components/News.tsx:182 | closing the dialog clears the open card |
| AdminLogin.Attempt | src/pages/AdminLogin.tsx:38-68 | the login succeeds exactly for the demo e-mail and password; the empty-field rejection happens exactly when the e-mail or the password is empty; every other filled-in pair is refused |
| AdminLogin.ScreenFor | src/pages/AdminLogin.tsx:27-29 | an authenticated session is redirected to the menu page and gets no form. Otherwise the form is shown |
| AdminLogin.AdminLoginPage.constructor | src/pages/AdminLogin.tsx:16-20 | the form starts empty and not loading |
| AdminLogin.AdminLoginPage.SetEmail | src/pages/AdminLogin.tsx:31-36 | typing sets the e-mail only |
| AdminLogin.AdminLoginPage.SetPassword | src/pages/AdminLogin.tsx:31-36 | typing sets the password only |
| AdminLogin.AdminLoginPage.HandleSubmit | src/pages/AdminLogin.tsx:38-78 | an empty field is reported without touching the loading flag. Every other attempt ends not loading. `onLogin` is called exactly for the demo pair |

## Left out

- Rendering is not modelled: JSX, CSS classes, dialogs, badges, the translation tables and the presentational components (About, Contact, Footer, Hero). Navbar, Index, App and AdminDashboard hold only UI and routing state, which is not modelled either: the scrolled and mobile-menu flags of the navigation bar, the active section, language and theme of the home page, the admin-authenticated flag that `onLogin` sets, and the sidebar flag of the dashboard.
- Network I/O is not modelled. The booking POST and the news GET are replaced by their reply, which the finishing methods take as an input (`Booking.Reply`, `News.Reply`). A failure of `fetch` or of reading JSON is one `Failed` case.
- The asynchronous booking and news handlers are split at their `await` into a begin method and a finish method. The admin menu and login handlers await only a timer stub, so each is one method, and the moment at which `isLoading` is true is not observable in them.
- The `catch` branches of the admin menu handlers and of the login handler are not modelled. Nothing in their `try` blocks can fail in this code: they await a timer.
- Toast notifications are not modelled as UI. The booking and login handlers return the notice they would show, or report it through their outcome. The notices of the admin menu handlers and of the two `ToggleStatus` methods are not modelled.
- `URL.createObjectURL` and the `Date.now()` id are inputs of `HandleAddItem`/`HandleEditItem`. Ids are not assumed to be unique, so edit and delete act on every row with the id.
- `parseFloat` on the price field is modelled only on optionally signed digit strings (`Text.DecimalValue`). Fractional and NaN prices are not modelled.
- Text.DecimalValue: reads every optionally signed digit string exactly, as an unbounded integer. `parseFloat` agrees only within `Number.MAX_SAFE_INTEGER`; past 2^53 it rounds to the nearest double (`9007199254740993` reads as `9007199254740992`), which the model does not follow.
- AdminMenu.AdminMenuPage.HandleAddItem: the price is an integer input tied to the price text only when that text is an optionally signed digit string within the safe-integer range (`Text.ReadsAsSafeInteger`); for a larger digit string, which `parseFloat` would round, and for any other text (a fraction, a leading `+`, trailing letters, or an empty field that `parseFloat` reads as NaN) the price is unconstrained.
- AdminMenu.AdminMenuPage.HandleEditItem: the same as for `HandleAddItem`: the price is tied to the price text only when that text is an optionally signed digit string within the safe-integer range.
- Booking.ValidateForm: the nine-character rule counts Unicode code points, while JavaScript's `length` counts UTF-16 code units. A character outside the Basic Multilingual Plane (an emoji, say) counts once here and twice in the browser, so five such characters pass the browser's check but fail the model's.
- Text.DecimalText: models `toString()` of an integer as its plain decimal digits. The browser switches to exponent notation from 10^21 on, which the model does not follow.
- Number and date formatting with `toLocaleString` is not modelled. `News.FormatDate` names the locale and the date it would render.
- Text.LowerChar: lower-cases only `A`-`Z` and the Cyrillic capitals U+0400-U+042F, not the full Unicode case mapping of `toLowerCase`. That mapping includes characters that lower-case to two characters.
- `API_BASE_URL` lives in `src/lib/constants`, which is not part of this model. It is a parameter of `News.ResolveUrl`.
- DOM scrolling is not modelled: `scrollTo`, `scrollIntoView`, the scroll-spy in `Index.tsx`, and the browser clamping the row's real scroll position. The model keeps only the component's own offset. Whether the container element exists is an input of `ScrollCategories`.
- The masking done by `react-input-mask` on the phone field is not modelled: the validator receives whatever text the field holds.
- The browser's own form validation is not modelled: the `required` fields of the login, booking and menu forms, `type="email"` on the login e-mail, `type="number"` on the price fields, and the submit buttons disabled while loading. The handlers here receive inputs the browser would have stopped, such as an empty e-mail or password reaching `AdminLogin.Attempt`.
- The add and edit forms for banners, and the view, edit and delete buttons on banner rows, have no handlers in this code.
- Closing the admin menu page's dialogs through their Cancel buttons or `onOpenChange` is not modelled. Closing the public menu's and news section's detail dialogs is (`Menu.MenuSection.CloseItem`, `News.NewsSection.CloseNews`).
