# WH-StockOut core, modelled in Dafny

WH-StockOut is a warehouse app for handheld scanners. A logged-in operator scans
one-way kanban QR codes. Each code is decoded into a part number and a quantity,
and goes onto a pending stock-out list that is cached on the device. The operator
then submits the whole list as one batch under a slip number, or resets it with a
password. New users register through a form that checks their NPK (employee
number) with the server first.

This project models that core:

- the kanban decoder (`kanban.dfy`, on `js_string.dfy`, a model of the JavaScript
  string built-ins the decoder and the screens rely on: `trim`, `substring`,
  `slice`, `padStart`, `String(n)` and `parseInt`);
- the stock-out screen with its pending list and its id and slip formatters
  (`stock_out.dfy`);
- the registration form (`register.dfy`);
- the login screen (`login.dfy`);
- the application shell that switches between screens (`app.dfy`).

The records of `src/types/index.ts` are in `records.dfy`. The device cache is the
class `Storage.Store`, with its two entries `userDataLogin` and `stockOutData` as
fields (`storage.dfy`).

Screens whose handlers update state in place are classes. Each handler is a method
whose `modifies` clause names the fields it may write, and whose postcondition states
the new value of each of them. The decisions those handlers
make are also pure functions (`StockOut.Scan`, `Register.Validate`,
`Login.SessionFor`, `App.Render`), and the lemmas are about those functions. Each
method's postcondition ties it to its function.

Server replies, the clock and the random number are parameters, because the REST
wrappers in `src/utils/api.ts` turn every transport failure into a reply with
`success == false`. A reply is `Reply(success, data)`; `data` is `None` where the
server sent nothing usable.

The shell passes an `onRegister` callback to the login screen (`App.tsx:72`).
`src/screens/LoginScreen.tsx:17-21` neither declares nor uses that callback. So
`App.App.HandleRegister` is modelled as written, but the login screen has no way to
call it.

## Model

| member | source | states |
|---|---|---|
| JsString.Trim | src/utils/GenerateOneWayKanban.ts:24 | `trim` never lengthens a string, and leaves no whitespace at either end. |
| JsString.TrimCutsOnlyWhitespace | src/utils/GenerateOneWayKanban.ts:24 | The trimmed string is a contiguous piece of the original. Everything cut before and after it is whitespace. |
| JsString.BlankIffAllWhitespace | src/screens/RegisterScreen.tsx:146-173 | `!s.trim()` holds exactly when every character of `s` is whitespace. |
| JsString.Substring | src/utils/GenerateOneWayKanban.ts:9 | `substring(start, end)` never lengthens the string. In range it is the slice from `start` to `end`, and with `start > end` the two are swapped. Its other uses are stated by `Date`, `WhCode`, `QtyField` and `SubstringFrom`. |
| JsString.SubstringFrom | src/utils/GenerateOneWayKanban.ts:19 | `substring(start)` is what `substring(0, start)` leaves, so the two concatenate back to the string. |
| JsString.SliceLast | src/screens/WOInstructionScreen.tsx:57 | `slice(-n)` for `n >= 1` has `min(n, length)` characters. `SliceLastIsSuffix` states that they are the last ones. |
| JsString.SliceLastIsSuffix | src/screens/WOInstructionScreen.tsx:57 | `slice(-n)` gives the last `min(n, length)` characters, and what precedes them completes the string. |
| JsString.PadStart | src/screens/WOInstructionScreen.tsx:58-62 | `padStart` reaches the target length, or leaves a longer string alone. `PadStartLayout` states the kept suffix and the fill in front. |
| JsString.PadStartLayout | src/screens/WOInstructionScreen.tsx:58-62 | `padStart` reaches the target length (or leaves a longer string alone), keeps the string as the suffix, and puts only the fill character in front. |
| JsString.NatToString | src/screens/WOInstructionScreen.tsx:69-73 | `String(n)`, for `n` below 10^21, is a non-empty run of decimal digits that reads back as `n`, has no leading zero, and ends in the digit `n % 10`. |
| JsString.NatToStringLength | src/screens/WOInstructionScreen.tsx:60-62 | A number below `10^k` is written with at most `k` digits. |
| JsString.PaddedValue | src/screens/WOInstructionScreen.tsx:69-73 | Zero padding keeps a string of digits, and it reads back as the same number. |
| JsString.DigitPrefix | src/utils/GenerateOneWayKanban.ts:45 | The digits `parseInt` reads are the longest prefix of digits in the radix: they are a prefix, all digits, and the next character is not one. |
| JsString.ParseInt | src/utils/GenerateOneWayKanban.ts:45 | `parseInt` with no radix: blank input gives `NaN` (`None`), and a negative result needs a leading `-` after the whitespace. The digit rule is stated by `DigitPrefix`, `ParseIntOfDigits` and `ParseIntEmpty`. |
| JsString.ParseIntOfDigits | src/utils/GenerateOneWayKanban.ts:45 | `parseInt` of a non-empty string of decimal digits is its decimal value. |
| JsString.ParseIntEmpty | src/utils/GenerateOneWayKanban.ts:45 | `parseInt("")` is `NaN`, modelled as `None`. |
| JsString.DigitsBound | src/utils/GenerateOneWayKanban.ts:45 | A string of `k` decimal digits has a value below `10^k`. |
| Kanban.OneWayKanban.Date | src/utils/GenerateOneWayKanban.ts:8-11 | `getDate` is the prefix of `min(7, length)` characters, so exactly 7 for a 30-character code. |
| Kanban.OneWayKanban.WhCode | src/utils/GenerateOneWayKanban.ts:13-16 | `getWhCode` is the single character at index 22 when the code has at least 23 characters, and empty otherwise. |
| Kanban.OneWayKanban.UniqueCode | src/utils/GenerateOneWayKanban.ts:18-21 | `getUniqueCode` completes `substring(0, 23)` back to the whole code, and has `max(length - 23, 0)` characters (7 for a 30-character code). |
| Kanban.OneWayKanban.TotalPartNumber | src/utils/GenerateOneWayKanban.ts:23-26 | `getTotalPartNumber` has at most 15 characters and no whitespace at either end. |
| Kanban.TotalPartNumberWithinField | src/utils/GenerateOneWayKanban.ts:23-26 | The total part number is a contiguous piece of the first 15 characters. It starts where the leading whitespace stops, and everything cut off on either side is whitespace. |
| Kanban.OneWayKanban.PartNumber | src/utils/GenerateOneWayKanban.ts:28-34 | `getPartNumber` plus an `A` gives back the total part number exactly when the total ends in `A`; otherwise the two are equal. |
| Kanban.OneWayKanban.QtyField | src/utils/GenerateOneWayKanban.ts:37 | The quantity field is characters 16..21 of a code of at least 22 characters, and never more than 6 characters. |
| Kanban.DropZeros | src/utils/GenerateOneWayKanban.ts:39-44 | Removing the zeros never lengthens the field and leaves no `'0'`. |
| Kanban.DropZerosKeepsOthers | src/utils/GenerateOneWayKanban.ts:39-44 | Removing the zeros keeps every other character with its multiplicity. |
| Kanban.DropZerosAppend | src/utils/GenerateOneWayKanban.ts:39-44 | Removing the zeros commutes with concatenation, so the kept characters stay in order. |
| Kanban.WithoutZeros | src/utils/GenerateOneWayKanban.ts:39-44 | The loop that builds `newQty` appends every character except `'0'`, so it computes `DropZeros` of the field. |
| Kanban.OneWayKanban.Qty | src/utils/GenerateOneWayKanban.ts:36-46 | The value `getQtyPerKanban` returns is `NaN` (`None`) when nothing is left after the zeros are dropped. `QtyIgnoresOtherPositions`, `QtyOfAllZeros`, `QtyOfDigits` and `EmbeddedZeroIsLost` state the rest. |
| Kanban.OneWayKanban.QtyPerKanban | src/utils/GenerateOneWayKanban.ts:36-46 | `getQtyPerKanban` is `parseInt` of the field with its zeros removed. |
| Kanban.QtyIgnoresOtherPositions | src/utils/GenerateOneWayKanban.ts:37 | Overwriting any character outside 16..21 changes neither the quantity field nor the quantity. |
| Kanban.QtyOfAllZeros | src/utils/GenerateOneWayKanban.ts:39-45 | An all-zero quantity field leaves nothing for `parseInt`, so the quantity is `NaN`. |
| Kanban.QtyOfDigits | src/utils/GenerateOneWayKanban.ts:36-46 | For a field of digits that are not all zero, the quantity is the decimal value of the field without its zeros, between 1 and 999999. |
| Kanban.EmbeddedZeroIsLost | src/utils/GenerateOneWayKanban.ts:39-45 | The field `000120` decodes to 12: zeros inside the number are lost along with the padding. |
| StockOut.Pad2Reads | src/screens/WOInstructionScreen.tsx:69-73 | `padStart(2, '0')` of a number below 100 is two digits that read back as that number. |
| StockOut.Pad4Reads | src/screens/WOInstructionScreen.tsx:60-62 | The random part, below 10000 and padded to four places, is four digits that read back as the number. |
| StockOut.LastTwoDigits | src/screens/WOInstructionScreen.tsx:68 | For a year of at least two digits, `slice(-2)` gives two digits that read back as the year modulo 100. |
| StockOut.LastDigit | src/screens/WOInstructionScreen.tsx:57 | `slice(-1)` of the year is one digit that reads back as the year modulo 10. |
| StockOut.ProcessId | src/screens/WOInstructionScreen.tsx:66-76 | `generateProcessId`, with the clock as a parameter, starts with `ST`. `ProcessIdLayout` states the full layout. |
| StockOut.ProcessIdLayout | src/screens/WOInstructionScreen.tsx:66-76 | A process id has 14 characters: `ST`, then two-digit groups reading back as year modulo 100, month, day, hour, minute and second. |
| StockOut.SlipNumber | src/screens/WOInstructionScreen.tsx:53-64 | `generateSlipNumber`, with the clock and the random number as parameters, starts with `F`. `SlipNumberLayout` states the full layout. |
| StockOut.SlipNumberLayout | src/screens/WOInstructionScreen.tsx:53-64 | A slip number has 10 characters: `F`, then groups reading back as the last digit of the year, the day, the month and the random number. |
| StockOut.NewItem | src/screens/WOInstructionScreen.tsx:88-95 | The record a fresh scan adds carries the scanned code, the scan time, the user's id as its NPK, and a part number of at most 15 characters. `Scan` states that it goes in front of the list. |
| StockOut.Scan | src/screens/WOInstructionScreen.tsx:78-103 | A code whose length is not 30 is refused, and a stored code is reported as a duplicate. Otherwise the decoded item goes in front, the old items follow in order, and the codes stay pairwise distinct. |
| StockOut.ScanTwiceIsDuplicate | src/screens/WOInstructionScreen.tsx:83-86 | A code that was just added is a duplicate on the next scan, whatever the time. |
| StockOut.ScanGrows | src/screens/WOInstructionScreen.tsx:78-103 | One scan keeps the codes distinct and only ever puts a 30-character code in front of the list. |
| StockOut.ScanAllKeepsDistinct | src/screens/WOInstructionScreen.tsx:78-103 | After any run of scans, the codes are still distinct and the old list is still the tail. Every item added in front carries a 30-character code. |
| StockOut.StockOutScreen.constructor | src/screens/WOInstructionScreen.tsx:28-33 | The screen starts with an empty list, no dialogs, an empty password, and not loading. |
| StockOut.StockOutScreen.LoadStoredData | src/screens/WOInstructionScreen.tsx:40-51 | At mount, the screen shows the cached pending list. |
| StockOut.StockOutScreen.HandleScanIntent | src/screens/WOInstructionScreen.tsx:78-103 | The cache and the screen list become the `Scan` result when an item is added, and are untouched otherwise. The wrong-QR or duplicate flag is raised on those paths. |
| StockOut.StockOutScreen.HandleSubmitData | src/screens/WOInstructionScreen.tsx:105-128 | An empty list sends nothing and changes nothing. Otherwise the list is sent with `SlipNumber`, only a successful reply clears the list and the cache, and `loading` ends false. |
| StockOut.StockOutScreen.OpenResetModal | src/screens/WOInstructionScreen.tsx:296 | The Reset Data button opens the password dialog. |
| StockOut.StockOutScreen.SetPassword | src/screens/WOInstructionScreen.tsx:324 | Typing sets the reset password. |
| StockOut.StockOutScreen.CancelReset | src/screens/WOInstructionScreen.tsx:337-340 | Cancelling closes the dialog and clears the password. |
| StockOut.StockOutScreen.DismissDuplicate | src/screens/WOInstructionScreen.tsx:381 | Closing the duplicate dialog hides it. |
| StockOut.StockOutScreen.ResetData | src/screens/WOInstructionScreen.tsx:143-155 | The list and the cache are emptied exactly when the password is `0000`. Either way the dialog closes and the password becomes empty. |
| Register.With | src/screens/RegisterScreen.tsx:204-205 | Setting a form field changes that field and keeps every other field. |
| Register.Validate | src/screens/RegisterScreen.tsx:146-183 | The result is the first failing check in the order user id, password, confirmation, name, company, plant, BU code, NPK unchecked, NPK taken. `None` means no check fails. |
| Register.AcceptedFormIsChecked | src/screens/RegisterScreen.tsx:146-187 | A form is sent only with a non-blank user id, password, name and BU code, a matching confirmation, a company and a plant, and an NPK checked and found free. |
| Register.EmailIsOptional | src/screens/RegisterScreen.tsx:146-183 | The e-mail field never changes the validation result. |
| Register.TrimmedAgainstUntrimmed | src/screens/RegisterScreen.tsx:158-165 | A name of one space is refused, yet a company of one space passes the company check: only the typed fields are trimmed. |
| Register.RegisterScreen.constructor | src/screens/RegisterScreen.tsx:33-49 | The form starts empty, with no companies or plants, nothing loading, and the NPK unchecked. |
| Register.RegisterScreen.LoadCompanies | src/screens/RegisterScreen.tsx:65-77 | A successful reply with data replaces the company list, anything else keeps it, and loading ends. |
| Register.RegisterScreen.LoadPlants | src/screens/RegisterScreen.tsx:79-91 | A successful reply with data replaces the plant list, anything else keeps it, and loading ends. |
| Register.RegisterScreen.CompanyChanged | src/screens/RegisterScreen.tsx:56-63 | A selected company loads its plants. No company empties the plant list and resets the chosen plant to `''`. |
| Register.RegisterScreen.UpdateFormData | src/screens/RegisterScreen.tsx:204-209 | The named field takes the value. Editing the user id forgets the NPK check; other edits keep it. |
| Register.RegisterScreen.SetConfirmPassword | src/screens/RegisterScreen.tsx:311 | Typing sets the confirmation. |
| Register.RegisterScreen.HandleCheckNpk | src/screens/RegisterScreen.tsx:93-123 | A blank user id makes no request and keeps `npkExists`; otherwise the user id is sent untrimmed. A successful reply sets it to whether the data is `userExisted`, and a failed reply keeps it. |
| Register.RegisterScreen.HandleUpdateRole | src/screens/RegisterScreen.tsx:125-142 | The current user id is sent, success means exactly a successful reply `updated`, and loading ends. |
| Register.RegisterScreen.HandleRegister | src/screens/RegisterScreen.tsx:144-202 | A form that fails validation is refused with the first failing check and nothing is sent. Otherwise the form is sent as typed, e-mail included, and only a successful reply `addedNewUser` registers, and loading ends. |
| Login.SessionFor | src/screens/LoginScreen.tsx:37-41 | A reply that succeeded with data yields a user named as typed. Its id is the server's non-empty `userId`, or else the typed name. |
| Login.SessionHasUserId | src/screens/LoginScreen.tsx:28-41 | A session built from a non-blank name has a non-empty user id. |
| Login.LoginScreen.constructor | src/screens/LoginScreen.tsx:22-24 | The fields start empty and nothing is loading. |
| Login.LoginScreen.SetUsername | src/screens/LoginScreen.tsx:95 | Typing sets the user name. |
| Login.LoginScreen.SetPassword | src/screens/LoginScreen.tsx:115 | Typing sets the password. |
| Login.LoginScreen.HandleLogin | src/screens/LoginScreen.tsx:27-53 | A blank field makes no request and logs nobody in. Otherwise the result is `SessionFor`, the saved session is exactly what is handed on, a failed login saves nothing, and loading ends false. |
| App.Render | App.tsx:63-86 | Nothing is shown while loading, or on the main page without a user. Otherwise exactly the current page's screen is shown, and the stock-out screen gets the current user. |
| App.ConsistentNeverBlank | App.tsx:63-86 | Once loaded, a shell whose main page always has a user shows exactly one screen. |
| App.App.constructor | App.tsx:13-15 | The shell starts on the login page with no user, loading. |
| App.App.Shown | App.tsx:63-86 | A consistent, loaded shell shows a screen, and the stock-out screen only for the current user. |
| App.App.CheckLoginStatus | App.tsx:21-34 | A saved session opens the main page with that user; no session keeps the login page. Loading ends either way. |
| App.App.HandleLogin | App.tsx:36-39 | Logging in sets the user and opens the main page. |
| App.App.HandleLogout | App.tsx:41-49 | The saved session is removed, the user cleared and the login page opened, while the pending scans stay cached. |
| App.App.HandleRegister | App.tsx:51-53 | Opens the registration page without touching the user. |
| App.App.HandleBackToLogin | App.tsx:55-57 | Returns to the login page. |
| App.App.HandleRegistrationSuccess | App.tsx:59-61 | Returns to the login page without logging anybody in. |

## Left out

- Network calls: each REST wrapper in `src/utils/api.ts` is reduced to the reply it returns, a parameter of the handler that awaits it. Request encoding, URLs and the `message` field are not modelled.
- Clock, randomness and time formatting: `new Date()` is a `StockOut.DateTime` parameter, `Math.random()` is the natural number it yields, and the `moment` formatting of `timeScan` is a string parameter.
- The device cache: AsyncStorage and JSON are reduced to the two fields of `Storage.Store`. Failed reads, failed writes and malformed JSON are not modelled, so the `catch` blocks of the screens are not modelled either.
- Concurrency: overlapping async handlers are not modelled. For example, two scans could both read the cache before either writes. Each handler runs to completion in one step.
- Transient UI: alerts, vibration, the two-second auto-hide of the wrong-QR banner, and the `true` value `loading` takes while a request is pending.
- Rendering: JSX, styling and the theme toggle (`src/components/ThemeToggle.tsx`) are not modelled.
- The QR camera screen: `src/screens/QRScanScreen.tsx` is not part of this model, because the shell never renders it.
- Strings are sequences of characters, not of UTF-16 code units. JavaScript's `length`, `substring`, `charAt` and `slice` count code units, so a code that contains a character outside the Basic Multilingual Plane has a different length and different positions in the model. For example, 28 ASCII characters followed by U+1F600 have length 30 in JavaScript and are decoded, while the model measures 29 and refuses the code.
- JsString.NatToString: modelled for all naturals as a plain decimal rendering. JavaScript switches to exponent notation from 10^21, which no clock component or random number here reaches.
- `parseInt` results are integers. The model has no floating point, because the digit strings it is applied to never produce fractions. `NaN` is `None`.
- Records.User: the optional `plant_code` and `token` fields are never set by the screens, so they are not modelled. The same goes for the optional `color` of a stock-out item.
- Register.RegisterScreen.UpdateFormData: in the app, changing the company triggers the company effect. The model keeps the effect as its own method, `CompanyChanged`, which the caller runs after the edit.
- StockOut.ProcessIdLayout: the layout is proved for years of at least two digits. Shorter years give a shorter id, which is not stated.
