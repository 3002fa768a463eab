# Receipt-tracking client: a Dafny model of its stateful core

The client is a React single-page app for a receipt and expense service.
Users log in, photograph receipts and end-of-day cash-register summaries
("Z reports"), and look at totals. Almost everything it does is HTTP and
rendering. What remains, and what this project models, is:

- the contrast stretch that `enhanceImage` runs over an RGBA pixel buffer
  (`ImageProcessor`);
- the sums, the export mapping and the colour lookup over the receipt list
  (`ReceiptLists`, `ReceiptsPage`, `DashboardPage`);
- the three-way reading of an uploaded receipt, with its VAT total and its
  result-card warning (`UploadPage`);
- the screens' state machines as classes: the receipt edit draft, the two
  upload screens, the login form, the profile page, and localStorage as a
  `map<string, string>` (`Session`).

JavaScript values read from backend JSON are `JsValues.JsValue`: undefined,
null, booleans, numbers (exact reals) and strings. Truthiness, `a || b` and
`parseFloat` are written out explicitly. `parseFloat` follows ECMA-262,
section 19.2.4 (`NumberParsing`), and NaN is `None`. Backend replies, the
user's answer to `confirm`, the compression library's output and `JSON.parse`
are parameters. Alerts are returned as `Notice` values, and `navigate` as the
path it would go to.

The Uint8ClampedArray store follows ToUint8Clamp (ECMA-262, section 7.1.12):
clamp to 0..255, then round half to even. The factor 1.3 is the exact rational
13/10. The double nearest 1.3 differs from 13/10 by under 5e-17. For a byte
the product's error is therefore under 6e-15. Distinct exact values lie 0.1
apart, and the ties (x.5) stay exactly representable. So for every byte the
exact value and the double computation round to the same result.

The endpoints are the ones in the code: `/api/login`, `/api/register`,
`/api/receipts/upload`, `/api/z-reports/upload` and `/api/ocr/...`.

## Model

| member | source | states |
|---|---|---|
| `ImageProcessor.ToUint8Clamp` | src/utils/imageProcessor.js:21-28 | a stored value is always in 0..255: 0 at or below 0, 255 at or above 255, otherwise within 0.5 of the number, and an exact tie x.5 goes to the even neighbour |
| `ImageProcessor.Contrast` | src/utils/imageProcessor.js:24-28 | the value stored for one R, G or B byte moves away from mid-grey, never towards it: at least the input from 128 up, at most the input from 128 down |
| `ImageProcessor.Enhanced` | src/utils/imageProcessor.js:25-29 | same length; every alpha byte (offset 3 of each pixel) unchanged; every other byte is the one shared channel formula applied to the old value of that same byte |
| `ImageProcessor.EnhanceContrast` | src/utils/imageProcessor.js:20-29 | the in-place loop with stride 4 leaves the buffer equal to `Enhanced` of the old buffer, for any length |
| `ImageProcessor.ClampOfByte` | src/utils/imageProcessor.js:26-28 | clamping an integer already in 0..255 keeps it |
| `ImageProcessor.ClampMonotone` | src/utils/imageProcessor.js:26-28 | the clamp-and-round store is monotone |
| `ImageProcessor.MidGreyFixed` | src/utils/imageProcessor.js:26-28 | a channel of 128 stays 128 |
| `ImageProcessor.ContrastMonotone` | src/utils/imageProcessor.js:24-28 | a larger input channel never yields a smaller output |
| `ImageProcessor.ContrastExpands` | src/utils/imageProcessor.js:23-28 | contrast never decreases: the output is on the same side of 128 and at least as far from it as the input |
| `ImageProcessor.ContrastSaturation` | src/utils/imageProcessor.js:24-28 | inputs up to 29 clamp to 0, inputs from 226 clamp to 255, and 30..225 stay strictly inside the range |
| `ImageProcessor.ContrastMatchesDigits` | src/utils/imageProcessor.js:24-28 | the real-number formula with ToUint8Clamp agrees with an integer reference, (13v - 384)/10 clamped and rounded half to even |
| `ImageProcessor.ContrastTwiceDiffers` | src/utils/imageProcessor.js:24-29 | the stretch is not idempotent: 200 becomes 222, and a second pass would give 250, so each byte must be processed once |
| `ImageProcessor.EnhancedPixel` | src/utils/imageProcessor.js:25-29 | with a length that is a multiple of 4, each pixel's R, G and B are stretched exactly once and its alpha kept |
| `JsValues.Truthy` | src/pages/Upload.jsx:85-87 | the falsy values are exactly undefined, null, false, 0 and '' |
| `JsValues.Or` | src/pages/Upload.jsx:84 | `a \|\| b` is a when a is truthy and b otherwise; it is truthy exactly when one of a and b is |
| `JsValues.ParseFloat` | src/pages/Receipts.jsx:130 | `parseFloat` of a number is that number; of undefined, null or a boolean it is NaN |
| `JsValues.FloatOrZero` | src/pages/Receipts.jsx:130-131 | `parseFloat(x) \|\| 0` is the parsed number, or 0 when parsing gives NaN |
| `JsValues.FloatOfOrZero` | src/pages/Upload.jsx:84 | `parseFloat(x \|\| 0)` is 0 for a falsy x and `parseFloat(x)` otherwise |
| `NumberParsing.ParseFloatString` | src/pages/Receipts.jsx:130 | `parseFloat` of a string: a blank string, or one whose first non-blank character is not a digit, sign or '.', gives NaN; '+' keeps and '-' negates the unsigned literal after it |
| `NumberParsing.LeadingWhiteSpace` | src/pages/Receipts.jsx:130 | `parseFloat` skips exactly the leading white-space and line-terminator characters |
| `NumberParsing.DigitRun` | src/pages/Receipts.jsx:130 | the digit prefix read is maximal: all digits, followed by a non-digit or the end |
| `NumberParsing.ParseFloatOfDigits` | src/pages/Receipts.jsx:130 | a string of digits parses to the number it denotes |
| `NumberParsing.ParseFloatOfNat` | src/pages/Receipts.jsx:130 | round trip: every natural number written in decimal parses back to itself |
| `NumberParsing.ParseFloatSkipsWhiteSpace` | src/pages/Receipts.jsx:130 | leading white space never changes the parsed value |
| `NumberParsing.NoNumericPrefix` | src/pages/Receipts.jsx:130 | a string that starts with no white space, sign, digit or "." followed by a digit parses to NaN |
| `NumberParsing.ParseFloatNoPrefix` | src/pages/Receipts.jsx:130 | "abc", "." and "" have no numeric prefix and parse to NaN |
| `ReceiptLists.AmountTotal` | src/pages/Receipts.jsx:130 | the `toplam_tutar` sum is 0 for no receipts or when no amount parses, and non-negative when no amount is negative |
| `ReceiptLists.Kdv20Total` | src/pages/Receipts.jsx:131 | the `kdv20` sum is 0 for no receipts or when no `kdv20` parses, and non-negative when none is negative |
| `ReceiptLists.SumLeftSigns` | src/pages/Receipts.jsx:130-131 | a `reduce` sum of zero contributions is 0, and of non-negative ones non-negative |
| `ReceiptLists.SumLeftAppend` | src/pages/Receipts.jsx:130-131 | the `reduce` sum distributes over concatenation |
| `ReceiptLists.SumLeftCongruent` | src/pages/Receipts.jsx:130-131 | lists whose receipts contribute the same values position by position have the same sum |
| `ReceiptLists.SumLeftSingle` | src/pages/Receipts.jsx:130-131 | the sum over one receipt is its own contribution |
| `ReceiptLists.AmountTotalSkipsUnparsed` | src/pages/Receipts.jsx:130 | a receipt whose `toplam_tutar` is missing or non-numeric adds 0 to the amount total, wherever it sits |
| `ReceiptLists.AmountTotalReadsOnlyAmount` | src/pages/Receipts.jsx:130 | the amount total depends on `toplam_tutar` alone |
| `ReceiptLists.Kdv20TotalReadsOnlyKdv20` | src/pages/Receipts.jsx:131 | the VAT total depends on `kdv20` alone; `kdv1` and `kdv10` are ignored |
| `ReceiptLists.AmountTotalBounds` | src/pages/Receipts.jsx:130 | with no negative amounts the total is non-negative and at least every single amount |
| `ReceiptLists.ExportRows` | src/pages/Receipts.jsx:93-102 | one row per receipt, in the same order, with the eight fields renamed (`firma_unvani` to `firmaUnvani`, ..., `kdv20` to `kdv20`) |
| `ReceiptLists.RowRoundTrip` | src/pages/Receipts.jsx:93-102 | the renaming drops only the id: the receipt can be rebuilt from its row and id |
| `ReceiptLists.ExportRowsInjective` | src/pages/Receipts.jsx:93-102 | the export mapping is one-to-one on lists with the same ids |
| `ReceiptLists.ExportRowsAppend` | src/pages/Receipts.jsx:93-102 | the mapping commutes with concatenation, so it keeps the order |
| `ReceiptsPage.Footer` | src/pages/Receipts.jsx:128-132 | the count is the number of receipts; an empty list totals 0, 0, 0; the two sums are the 0-fallback folds over `toplam_tutar` and `kdv20` |
| `ReceiptsPage.FooterGrows` | src/pages/Receipts.jsx:128-132 | appending a receipt adds 1 to the count and that receipt's parsed-or-0 amount and `kdv20` to the sums |
| `ReceiptsPage.ExportRequest` | src/pages/Receipts.jsx:86-102 | with no receipts nothing is sent; otherwise the posted rows are the export mapping of the list |
| `ReceiptsPage.GiderColorAsWritten` | src/pages/Receipts.jsx:434-443 | as written, the lookup returns an inherited member exactly when the key is a property of `Object.prototype` |
| `ReceiptsPage.GiderColorPrototypeLeak` | src/pages/Receipts.jsx:434-443 | a category of "constructor" or "toString" yields a function, not a colour |
| `ReceiptsPage.GiderColor` | src/pages/Receipts.jsx:434-443 | the five listed categories get their colours; every other value gets '#f3f4f6' |
| `ReceiptsPage.GiderColorTable` | src/pages/Receipts.jsx:434-443 | the five colours, and the default for 'DİĞER' and for a missing category |
| `ReceiptsPage.GiderColorAgrees` | src/pages/Receipts.jsx:434-443 | the corrected lookup and the code as written agree on every value that is not an inherited key |
| `ReceiptsPage.DraftOf` | src/pages/Receipts.jsx:31-41 | the draft has exactly the six keys, each the receipt's value or '' when that value is falsy |
| `ReceiptsPage.ReceiptsScreen.constructor` | src/pages/Receipts.jsx:5-8 | empty list, loading, nothing edited, empty draft |
| `ReceiptsPage.ReceiptsScreen.Load` | src/pages/Receipts.jsx:14-29 | a successful reply replaces the list; an error or `success: false` keeps it; loading ends either way; the draft is untouched |
| `ReceiptsPage.ReceiptsScreen.Edit` | src/pages/Receipts.jsx:31-41 | `editingId` becomes the receipt's id and the draft is `DraftOf` the receipt |
| `ReceiptsPage.ReceiptsScreen.ChangeField` | src/pages/Receipts.jsx:210-258 | each of the six edit inputs updates only its own key of the draft |
| `ReceiptsPage.ReceiptsScreen.Cancel` | src/pages/Receipts.jsx:43-46 | `editingId` becomes null and the draft empty |
| `ReceiptsPage.ReceiptsScreen.Save` | src/pages/Receipts.jsx:48-65 | the PUT goes to the saved receipt's id with the whole draft as body; success clears `editingId` and reloads; failure keeps `editingId`, the draft and the list |
| `ReceiptsPage.ReceiptsScreen.Delete` | src/pages/Receipts.jsx:67-84 | nothing happens and no DELETE is sent without confirmation; with it the DELETE targets the receipt's id; a successful delete reloads the list, and a failed reload keeps it; a failed delete keeps it |
| `DashboardPage.StatsOf` | src/pages/Dashboard.jsx:25-34 | `totalReceipts` is the list length, `totalAmount` the 0-fallback sum of `toplam_tutar`, `totalKdv` the sum of `kdv20` only |
| `DashboardPage.StatsMatchFooter` | src/pages/Dashboard.jsx:27-28 | for the same list the dashboard figures equal the Receipts page's footer |
| `DashboardPage.ExportDecisionOf` | src/pages/Dashboard.jsx:43-65 | a failed fetch, `success: false` or an empty list posts nothing; otherwise the posted rows are the one-to-one, order-preserving mapping, never empty |
| `DashboardPage.PanelOf` | src/pages/Dashboard.jsx:137-152 | exactly one of the export button (count above 0, showing the count) and the empty-state card (count 0) is shown |
| `DashboardPage.DashboardScreen.constructor` | src/pages/Dashboard.jsx:7-12 | stats start at zero receipts, zero amount and zero VAT, loading |
| `DashboardPage.DashboardScreen.LoadStats` | src/pages/Dashboard.jsx:18-41 | success replaces the stats with `StatsOf` the list; an error or `success: false` keeps them; loading ends in every case |
| `ImageFiles.CompressedFile` | src/pages/Upload.jsx:31-35 | the compressed file keeps the picked file's name and has type image/jpeg |
| `UploadPage.TotalMissing` | src/pages/Upload.jsx:84-87 | the missing-total test holds exactly when the total is falsy or parses to 0 |
| `UploadPage.Classify` | src/pages/Upload.jsx:84-93 | missing total first; missing-fields exactly when the total passes but company name or date is falsy; plain success exactly when total is truthy and not 0 and both fields are truthy |
| `UploadPage.NonNumericTotalIsNotMissing` | src/pages/Upload.jsx:84-88 | a present but non-numeric total does not raise the missing-total warning |
| `UploadPage.ResultOf` | src/pages/Upload.jsx:72-82 | the result card's eight fields are the reply's fields under their client names |
| `UploadPage.CardWarning` | src/pages/Upload.jsx:354 | the card's warning shows exactly when the page's missing-total test holds for the card's total |
| `UploadPage.CardWarningMatchesAlert` | src/pages/Upload.jsx:354 | the result-card warning shows exactly when the missing-total alert fired for the same reply |
| `UploadPage.VatOrZero` | src/pages/Upload.jsx:345-347 | a falsy VAT field counts as 0; a truthy one is parsed |
| `UploadPage.TotalVat` | src/pages/Upload.jsx:349 | the total VAT is `kdv1 + kdv10 + kdv20`, each missing one as 0; it is NaN when any present field is not numeric |
| `UploadPage.TotalVatOfNumbers` | src/pages/Upload.jsx:345-349 | with numeric fields the total VAT is their sum; missing fields contribute 0 |
| `UploadPage.ErrorDetail` | src/pages/Upload.jsx:100 | the error alert shows the server's error when it is truthy, otherwise the error's message |
| `UploadPage.UploadScreen.constructor` | src/pages/Upload.jsx:7-10 | no file, no preview, not loading, no result |
| `UploadPage.UploadScreen.SelectFile` | src/pages/Upload.jsx:16-50 | no file picked changes nothing; a compression failure alerts and changes nothing; otherwise the compressed file and its preview are set |
| `UploadPage.UploadScreen.StartUpload` | src/pages/Upload.jsx:52-59 | with no selected file it alerts, sends nothing and changes no state; otherwise it sends the file, starts loading and clears the result |
| `UploadPage.UploadScreen.FinishUpload` | src/pages/Upload.jsx:61-104 | success sets the result, gives the classifier's alert and clears file and preview; `success: false` or an error keeps file and preview with no result; loading ends after each |
| `UploadPage.UploadScreen.Reset` | src/pages/Upload.jsx:106-110 | file, preview and result are cleared |
| `ZReportUploadPage.ResultOf` | src/pages/ZRaporUpload.jsx:68-77 | report_date to tarih, fiscal_number to raporNo, total_sales to toplamSatis, total_vat to toplamKdv, cash_amount to nakitSatis, credit_card_amount to posSatis, receipt_count to fisNo |
| `ZReportUploadPage.ResultRoundTrip` | src/pages/ZRaporUpload.jsx:68-77 | the mapping is a pure renaming: the report can be read back from the card |
| `ZReportUploadPage.ZReportUploadScreen.constructor` | src/pages/ZRaporUpload.jsx:7-10 | no file, no preview, not loading, no result |
| `ZReportUploadPage.ZReportUploadScreen.SelectFile` | src/pages/ZRaporUpload.jsx:12-46 | the selected file keeps the original name and has type image/jpeg; a compression failure alerts and changes nothing |
| `ZReportUploadPage.ZReportUploadScreen.StartUpload` | src/pages/ZRaporUpload.jsx:48-55 | with no selected file it alerts and sends no request; otherwise loading starts and the result is cleared |
| `ZReportUploadPage.ZReportUploadScreen.FinishUpload` | src/pages/ZRaporUpload.jsx:57-90 | success keeps the mapped report, always gives the plain success alert and clears file and preview; failure keeps file and preview with no result; loading ends after each |
| `ZReportUploadPage.ZReportUploadScreen.Reset` | src/pages/ZRaporUpload.jsx:92-96 | file, preview and result are cleared |
| `Session.WriteSession` | src/pages/Login.jsx:36-37 | login adds exactly the 'token' and 'user' keys, with the given values, and keeps every other key |
| `Session.ClearSession` | src/pages/Profile.jsx:13-14 | logout removes exactly 'token' and 'user' and keeps every other key |
| `Session.Lookup` | src/pages/Profile.jsx:21 | `getItem` finds a value exactly when the key is stored, and it is the stored value |
| `Session.BrowserStorage.GetItem` | src/pages/Profile.jsx:21 | reading a key gives its stored value, or null when it is absent |
| `Session.BrowserStorage.SetItem` | src/pages/Login.jsx:36-37 | writing a key sets that key and keeps every other one |
| `Session.BrowserStorage.RemoveItem` | src/pages/Profile.jsx:13-14 | removing a key drops that key only; removing an absent key changes nothing |
| `Session.ClearUndoesWrite` | src/pages/Profile.jsx:13-14 | the keys removed at logout are exactly the keys login writes: logging in then out leaves the other keys as they were |
| `Session.StoredUserAfterWrite` | src/pages/Login.jsx:36-37 | after login the stored user is the one written |
| `Session.StoredUserAfterClear` | src/pages/Profile.jsx:13-14 | after logout no user is stored |
| `LoginPage.Endpoint` | src/pages/Login.jsx:28 | '/api/login' in login mode and '/api/register' otherwise |
| `LoginPage.Payload` | src/pages/Login.jsx:29-31 | login sends only email and password; registration sends the whole form, name included |
| `LoginPage.FailureDetail` | src/pages/Login.jsx:40-45 | a reply without a token reports its error or 'Bir hata oluştu'; a thrown error reports the server's error or the error message |
| `LoginPage.LoginForm.constructor` | src/pages/Login.jsx:8-14 | login mode with empty email, password and name, not loading |
| `LoginPage.LoginForm.SetMode` | src/pages/Login.jsx:87-104 | the mode buttons set the mode and keep the form |
| `LoginPage.LoginForm.HandleChange` | src/pages/Login.jsx:16-21 | only the named field changes |
| `LoginPage.LoginForm.BeginSubmit` | src/pages/Login.jsx:23-33 | loading is on while the request is out; the request has the mode's endpoint and payload |
| `LoginPage.LoginForm.FinishSubmit` | src/pages/Login.jsx:33-49 | only a reply carrying a token writes 'token' and 'user' and navigates to '/'; otherwise storage is untouched and the failure detail is reported; loading ends after every outcome |
| `ProfilePage.BranchOf` | src/pages/Profile.jsx:19-33 | the user is shown exactly when a non-empty stored 'user' parses, and it is the parsed value; otherwise the logout path is taken |
| `ProfilePage.LogoutLeadsToLogoutBranch` | src/pages/Profile.jsx:11-26 | after logout the next load takes the missing-user branch |
| `ProfilePage.LoginLeadsToUser` | src/pages/Login.jsx:35-39 | after a login whose user text parses, the profile shows that user |
| `ProfilePage.DisplayName` | src/pages/Profile.jsx:101 | a missing or falsy name shows as 'Kullanıcı' |
| `ProfilePage.DisplayEmail` | src/pages/Profile.jsx:104 | a missing or falsy email shows as '-' |
| `ProfilePage.DisplayId` | src/pages/Profile.jsx:117 | a missing or falsy id shows as '-' |
| `ProfilePage.ProfileScreen.constructor` | src/pages/Profile.jsx:6-7 | no user, loading |
| `ProfilePage.ProfileScreen.Logout` | src/pages/Profile.jsx:11-17 | on confirmation exactly 'token' and 'user' are removed and '/login' is navigated to; declining changes nothing |
| `ProfilePage.ProfileScreen.LoadUserInfo` | src/pages/Profile.jsx:19-33 | a parseable stored user becomes `userInfo`; otherwise the logout path, where a declined confirmation keeps storage and leaves `userInfo` as it was; loading ends on every path |

## Findings

| source | as written | input that shows it | evidently intended | confidence | as-written member | corrected member |
|---|---|---|---|---|---|---|
| src/pages/Receipts.jsx:434-443 | `colors[cinsi]` looks the category up in a plain object literal, so it also finds the members every object inherits from `Object.prototype` | a receipt whose `gider_cinsi` is "constructor" (or "toString", "valueOf", ...) gets the `Object` function as its background instead of a colour | every category outside the five listed gets '#f3f4f6' | not executed; high | `ReceiptsPage.GiderColorAsWritten`, `ReceiptsPage.GiderColorPrototypeLeak` | `ReceiptsPage.GiderColor` |

## Left out

- Browser I/O around the loop: FileReader, Image, canvas `drawImage`, `getImageData`, `putImageData` and `toBlob`, and the JPEG re-encode at quality 0.95. `EnhanceContrast` starts from an already decoded buffer.
- The `browser-image-compression` call and its 0.5 MB / 1024 px targets. This is a foreign library. Its output bytes, or its failure, are a parameter of `SelectFile`.
- The preview is set when FileReader finishes, after `SelectFile` returns. The model sets it in the same step.
- All HTTP requests, bearer headers, the base URL, the Excel blob download and `createObjectURL`. Replies are parameters, and the sent file, body or rows are returned.
- `alert`, `confirm`, `console` and `navigate`. Alerts are `Notice` values, `confirm` is a boolean input, `navigate` is a returned path, and console output is dropped.
- JSX rendering, hover handlers, `toFixed(2)` formatting, and every style except the receipt row's background colour. Of the rendering, only the values the pages compute are modelled: the dashboard panel, the result-card warning, the `Toplam KDV` figure (Upload.jsx:349, `UploadPage.TotalVat`), the row background chosen by `getGiderColor` (Receipts.jsx:294, `ReceiptsPage.GiderColor`) and the profile fallbacks.
- Double-precision arithmetic in the sums. Amounts are exact reals, so rounding of long sums is not modelled.
- NumberParsing.ParseFloatString: the parsed value is exact and is not rounded to a double. A literal below the smallest double, such as "1e-400", gives 0 in JavaScript but 10^-400 here. A literal above the largest double, such as "1e400", gives Infinity in JavaScript but 10^400 here.
- UploadPage.TotalMissing: because of that, a total such as "1e-400" raises the missing-total alert in the page (Upload.jsx:87) but not in the model.
- NumberParsing.ParseFloatString: a prefix "Infinity" (signed or not) gives ±Infinity in JavaScript. Here it gives None, because infinities are not values of this model.
- LoginPage.AuthReply: the token and error fields are strings, with "" for absent. A non-string token, which `setItem` would turn into its string form, is not modelled.
- ProfilePage.BranchOf: `JSON.parse` is a parameter. A stored user that parses to a non-object (for example the text "null") is represented by a record whose fields are undefined. The page would show the same fallbacks for it.
- ZReportUploadPage.ZReportReply: a reply with `success: true` but no `zReport` makes the page throw when it reads the report's fields (ZRaporUpload.jsx:70), which shows the error alert. The model always has a report in such a reply.
- ReceiptLists.ListReply: a reply with `success: true` but no `receipts` array is not representable. The Receipts page would store undefined (Receipts.jsx:22), and the Dashboard would throw inside `reduce` (Dashboard.jsx:27). The model always has a list in such a reply.
- UploadPage.UploadReply: a reply with `success: true` but no `receipt` makes the page throw when it reads the receipt's fields, which takes the error path. The model always has a receipt in such a reply.
- src/App.js routing and the route guard. Route matching belongs to react-router, and the guard component is not part of this model.
- src/pages/ZRapor.jsx. It holds only a list fetch, a confirm-gated delete call and table rendering.
- The install-prompt handling of the profile page (Profile.jsx:35-66). It depends on the browser's `beforeinstallprompt` event.
- Async interleaving, such as a request that completes after its page is gone. The request/response steps of each screen are modelled in order: `StartUpload` then `FinishUpload`, and `BeginSubmit` then `FinishSubmit`.
