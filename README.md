# mysociety cart and form logic in Dafny

This project models the client-side logic of the mysociety React Native app. The app lets
residents of a housing society browse society shops, fill a cart, and log in.

- **Cart slice.** The Redux slice `cartData` is the class `CartSlice.Cart`. It has two lists
  of cart records: `items` for the product page and `itemsCart` for the cart page. It also holds
  the current shop and user ids. Every reducer is a method. Its postcondition gives the new
  lists as a function of the old state, and those functions carry the lemmas.
- **Screens driving the slice.** These are:
  - the product page: totals, the category query parameter, and the Add, − and + controls;
  - its category chips;
  - the cart page: the reload, the displayed quantity, and the optimistic update with its
    rollback.

  Handlers that dispatch are methods over a `Cart`. Server replies are inputs.
- **Form screens.** These are login, forgot password and change password. Their field rules,
  submission gates, edit handlers and error lines are functions over the screen state. The
  login screen also classifies the device by its user agent.
- **Home screen.** This part covers the guard in front of the home request, the `cardData`
  update, and the accordion blocks derived from it. JSON values are a datatype.

Writing a number in decimal, as `String(n)` does for the category parameter and as
`Object.keys` does for the indices of an array or a string, is the shared module `Numerals`; the form rules shared
by the screens are `Forms`.

Integers are unbounded, and prices are integers in minor units.

## Model

| member | source | states |
|---|---|---|
| CartSlice.Find | store/Slice/index.jsx:13-15 | the index found is in range and holds a record with the id |
| CartSlice.FindNone | store/Slice/index.jsx:13-15 | the lookup finds nothing exactly when no record has the id |
| CartSlice.FindIsFirst | store/Slice/index.jsx:13-15 | no record before the one found has the id, as `find` returns the first match |
| CartSlice.Without | store/Slice/index.jsx:22-24 | the kept records are exactly those whose id differs; the id is gone; never longer |
| CartSlice.Added | store/Slice/index.jsx:12-21 | `addToCart` on one list: the payload's quantity goes to the first record with its id, or the payload is appended; no contract of its own, its meaning is AddedShape, AddedKeepsUnique, AddedKeepsPositive |
| CartSlice.QuantitySet | store/Slice/index.jsx:32-42 | `updateQuantity` on `items`: set the first match, then filter the id out when the quantity is not positive; no contract of its own, its meaning is QuantitySetShape, QuantitySetNoNonPositive, QuantitySetKeepsInvariants |
| CartSlice.QuantitySetOnCart | store/Slice/index.jsx:58-70 | `updateQuantityOnCart` as written, whose removal filters `items`; no contract of its own, its meaning is QuantitySetOnCartShape and QuantitySetOnCartCopiesItems |
| CartSlice.QuantitySetOnCartIntended | store/Slice/index.jsx:58-70 | the corrected `updateQuantityOnCart`, which filters `itemsCart`; no contract of its own, its meaning is QuantitySetOnCartIntendedRemoves |
| CartSlice.AddedShape | store/Slice/index.jsx:12-21 | absent id: the payload is appended after the unchanged list; present id: same length, only the first match gains the payload's quantity |
| CartSlice.AddedKeepsUnique | store/Slice/index.jsx:12-21 | adding keeps ids unique |
| CartSlice.AddedKeepsPositive | store/Slice/index.jsx:12-21 | adding a positive quantity to positive records keeps every quantity positive |
| CartSlice.WithoutConcat | store/Slice/index.jsx:22-24 | the filter distributes over concatenation, so the kept records keep their relative order |
| CartSlice.WithoutAbsent | store/Slice/index.jsx:22-24 | removing an id that is not there changes nothing |
| CartSlice.WithoutIdempotent | store/Slice/index.jsx:22-24 | removing twice is removing once |
| CartSlice.WithoutKeepsUnique | store/Slice/index.jsx:22-24 | removal keeps ids unique |
| CartSlice.WithoutKeepsPositive | store/Slice/index.jsx:22-24 | removal keeps quantities positive |
| CartSlice.QuantitySetShape | store/Slice/index.jsx:32-42 | absent id: no-op (never inserts); positive quantity: only the first match changes, to that quantity; non-positive: the id is gone |
| CartSlice.QuantitySetNoNonPositive | store/Slice/index.jsx:32-42 | with unique ids, a record left with the id has exactly the requested, positive quantity |
| CartSlice.QuantitySetKeepsInvariants | store/Slice/index.jsx:32-42 | the update keeps ids unique and quantities positive |
| CartSlice.WithoutSameExceptAt | store/Slice/index.jsx:35-39 | setting the quantity before filtering the same id does not change what the filter keeps |
| CartSlice.QuantitySetOnCartShape | store/Slice/index.jsx:58-70 | as written: a non-positive quantity for an id found in `itemsCart` makes `itemsCart` equal `items` minus the id; a positive one behaves as intended |
| CartSlice.QuantitySetOnCartCopiesItems | store/Slice/index.jsx:64-67 | removing the only cart-page record, as written, leaves the product-page record in `itemsCart`, where the intended removal leaves it empty |
| CartSlice.QuantitySetOnCartIntendedRemoves | store/Slice/index.jsx:58-70 | the corrected update removes exactly the id from `itemsCart` |
| CartSlice.Cart.constructor | store/Slice/index.jsx:5-10 | the initial state is two empty lists and two nulls |
| CartSlice.Cart.AddToCart | store/Slice/index.jsx:12-21 | `items` becomes the added list; the other three fields are unchanged |
| CartSlice.Cart.RemoveFromCart | store/Slice/index.jsx:22-24 | `items` loses every record with the id; the rest is unchanged |
| CartSlice.Cart.SetShopId | store/Slice/index.jsx:26-28 | `shopId` becomes the payload's id; nothing else changes |
| CartSlice.Cart.SetUserId | store/Slice/index.jsx:29-31 | `userId` becomes the payload's id; nothing else changes |
| CartSlice.Cart.UpdateQuantity | store/Slice/index.jsx:32-42 | the in-place set followed by the filter gives the quantity-set list; the rest is unchanged |
| CartSlice.Cart.AddToCartOnCart | store/Slice/index.jsx:43-52 | `itemsCart` becomes the added list; the rest is unchanged |
| CartSlice.Cart.RemoveFromCartOnCart | store/Slice/index.jsx:53-57 | `itemsCart` loses every record with the id; the rest is unchanged |
| CartSlice.Cart.UpdateQuantityOnCart | store/Slice/index.jsx:58-70 | `itemsCart` becomes the as-written update, whose removal reads `items`; the rest is unchanged |
| CartSlice.Cart.ClearItemsCart | store/Slice/index.jsx:71-73 | `items` becomes empty; the rest is unchanged |
| CartSlice.Cart.ClearItemsOnCart | store/Slice/index.jsx:74-76 | `itemsCart` becomes empty; the rest is unchanged |
| CartScreen.Counted | Components/CartScreen/index.jsx:47-49 | the dispatched records are no more than the rows |
| CartScreen.AddedAll | Components/CartScreen/index.jsx:51 | the records dispatched one by one through `addToCartOnCart`; no contract of its own, its meaning is DisplayedAfterAddedAll and AddedAllKeepsUnique |
| CartScreen.Optimistic | Components/CartScreen/index.jsx:110-113 | the optimistic dispatches: remove first for a non-positive quantity, then `updateQuantityOnCart`; no contract of its own, its meaning is RemovalFirstMakesUpdateNoOp and ControlsStepByOne |
| CartScreen.AfterClickAsWritten | Components/CartScreen/index.jsx:123-126 | as written a failed post never reaches the rollback; no contract of its own, its meaning is FailedPostKeepsOptimisticValue |
| CartScreen.AfterClickIntended | Components/CartScreen/index.jsx:123-126 | a failed post rolls back to the shown quantity; no contract of its own, its meaning is FailedPostRollsBack and RollbackCannotReinstate |
| CartScreen.CountedConcat | Components/CartScreen/index.jsx:47-51 | the null filter distributes over concatenation, so the rows keep their order |
| CartScreen.CountedSingle | Components/CartScreen/index.jsx:47-49 | a null-quantity row is skipped; any other is dispatched with its own id, quantity and price |
| CartScreen.DisplayedQuantity | Components/CartScreen/index.jsx:105-107 | 0 without a record; otherwise a matching record's quantity, and with unique ids every matching record's |
| CartScreen.Requested | Components/CartScreen/index.jsx:149-158 | − requests the shown quantity minus 1, + plus 1 |
| CartScreen.DisplayedAfterAdded | Components/CartScreen/index.jsx:51 | one dispatched record raises the displayed quantity of its id by its quantity and leaves other ids alone |
| CartScreen.DisplayedAfterAddedAll | Components/CartScreen/index.jsx:51 | a reload adds, per id, the sum of the server quantities to what is displayed |
| CartScreen.RefetchDoubles | Components/CartScreen/index.jsx:51 | loading the same rows twice from an empty cart shows twice the server quantity |
| CartScreen.AddedAllKeepsUnique | Components/CartScreen/index.jsx:51 | a reload keeps `itemsCart` ids unique |
| CartScreen.RemovalFirstMakesUpdateNoOp | Components/CartScreen/index.jsx:110-113 | for a non-positive quantity the optimistic result is `itemsCart` minus the id |
| CartScreen.RollbackCannotReinstate | Components/CartScreen/index.jsx:110-126 | once removed, the record is absent after the click whatever the reply, with or without the rollback |
| CartScreen.ControlsStepByOne | Components/CartScreen/index.jsx:109-113 | on a shown record, − shows one less and + one more |
| CartScreen.ControlsOnAbsentRow | Components/CartScreen/index.jsx:105-113 | a row with no record shows 0 and neither button changes `itemsCart` |
| CartScreen.FailedPostKeepsOptimisticValue | Components/CartScreen/index.jsx:123-126 | as written, a + click on a record shown at 2 still shows 3 after the post fails |
| CartScreen.FailedPostRollsBack | Components/CartScreen/index.jsx:123-126 | with the rollback reachable, a failed post with a positive quantity restores `itemsCart` |
| CartScreen.FetchListData | Components/CartScreen/index.jsx:35-60 | on success the rows are shown and `itemsCart` is the old list with the counted rows added in order; on failure nothing changes |
| CartScreen.HandleUpdateQuantity | Components/CartScreen/index.jsx:109-127 | `itemsCart` is the optimistic update whatever the reply; the failure path throws |
| CartScreen.HandleUpdateQuantityIntended | Components/CartScreen/index.jsx:109-127 | `itemsCart` is the optimistic update, rolled back to the shown quantity on failure |
| CartScreen.PressControl | Components/CartScreen/index.jsx:147-162 | a press requests one less or one more than the displayed quantity |
| CardDetails.TotalItems | Components/CardDetailsScreen/index.jsx:87-90 | the item total of an empty cart is 0, and of a cart with positive quantities at least its length |
| CardDetails.TotalPrice | Components/CardDetailsScreen/index.jsx:91-94 | the sum of price times quantity; no contract of its own, its meaning is TotalsConcat, TotalsAfterSetAt, TotalsAfterAdded |
| CardDetails.TotalsConcat | Components/CardDetailsScreen/index.jsx:87-94 | both totals add up over concatenation |
| CardDetails.TotalsAfterSetAt | Components/CardDetailsScreen/index.jsx:87-94 | setting one record's quantity moves the totals by the difference |
| CardDetails.TotalsAfterAdded | Components/CardDetailsScreen/index.jsx:87-94 | adding a payload raises the item total by its quantity; the price total rises by that quantity at the payload's price when it is appended, at the existing record's price when it merges |
| CardDetails.TotalsAfterWithout | Components/CardDetailsScreen/index.jsx:87-94 | removing an id lowers the item total by that id's quantities |
| Numerals.DigitChar | Components/CardDetailsScreen/index.jsx:65 | one digit is written as a digit character, and as `0` exactly for zero |
| Numerals.Decimal | Components/CardDetailsScreen/index.jsx:65 | an id is written as a non-empty string of digits; with DecimalShape, without a leading zero unless it is zero |
| Numerals.DecimalValue | Components/CardDetailsScreen/index.jsx:65 | reading the written digits back gives the number |
| Numerals.DecimalShape | Components/CardDetailsScreen/index.jsx:65 | the text is one digit exactly below ten, and starts with `0` exactly for zero |
| CardDetails.IdText | Components/CardDetailsScreen/index.jsx:65 | the text of an id contains no comma |
| CardDetails.IdTextRoundTrip | Components/CardDetailsScreen/index.jsx:65 | the text of an id reads back as that id |
| CardDetails.ParseDecimal | Components/CardDetailsScreen/index.jsx:65 | the digits of a number read back as it, and with a minus sign as its negation |
| CardDetails.JoinIds | Components/CardDetailsScreen/index.jsx:65 | `join(",")` of the selected ids; no contract of its own, its meaning is JoinIdsRoundTrip |
| CardDetails.ProductCategoryParam | Components/CardDetailsScreen/index.jsx:64-65 | the joined ids, or 0 for an empty selection; no contract of its own, its meaning is CategoryParamMeaning |
| CardDetails.JoinIdsRoundTrip | Components/CardDetailsScreen/index.jsx:65 | the joined selection splits back into the selection |
| CardDetails.CategoryParamMeaning | Components/CardDetailsScreen/index.jsx:64-65 | the parameter is 0 exactly when nothing is selected, and otherwise carries the selection in order |
| CardDetails.ShownQuantity | Components/CardDetailsScreen/index.jsx:105-106 | a product shows its record's quantity, or 1 without one |
| CardDetails.AddClick | Components/CardDetailsScreen/index.jsx:110-117 | `handleAddToCart`; no contract of its own, its meaning is AddClickShape and ProductControlsKeepInvariants |
| CardDetails.AdjustClick | Components/CardDetailsScreen/index.jsx:119-125 | `handleUpdateQuantity`; no contract of its own, its meaning is AdjustIsQuantitySet |
| CardDetails.PlusClick | Components/CardDetailsScreen/index.jsx:165-169 | the + button's two dispatches; no contract of its own, its meaning is PlusOnPresent and PlusOnAbsent |
| CardDetails.MinusClick | Components/CardDetailsScreen/index.jsx:153-154 | the − button's dispatch; no contract of its own, its meaning is MinusAtOne |
| CardDetails.AdjustIsQuantitySet | Components/CardDetailsScreen/index.jsx:119-125 | the − handler is `updateQuantity` in every case |
| CardDetails.AddClickShape | Components/CardDetailsScreen/index.jsx:110-117 | Add on a listed product sets one more than its quantity, and otherwise appends it with quantity 1 |
| CardDetails.PlusOnPresent | Components/CardDetailsScreen/index.jsx:165-169 | + on a listed product raises it by exactly one, not two |
| CardDetails.PlusOnAbsent | Components/CardDetailsScreen/index.jsx:165-169 | + on an unlisted product adds it with quantity 2 |
| CardDetails.MinusAtOne | Components/CardDetailsScreen/index.jsx:153-154 | − at 1 removes the product, which then shows 1 again |
| CardDetails.ProductControlsKeepInvariants | Components/CardDetailsScreen/index.jsx:110-125 | Add, − and + keep ids unique and quantities positive; + raises the item total by one |
| CardDetails.HandleAddToCart | Components/CardDetailsScreen/index.jsx:110-117 | `items` becomes the Add result; the rest is unchanged |
| CardDetails.HandleUpdateQuantity | Components/CardDetailsScreen/index.jsx:119-125 | `items` becomes the adjusted list; the rest is unchanged |
| CardDetails.PressPlus | Components/CardDetailsScreen/index.jsx:165-169 | both dispatches use the quantity shown before the press |
| CardDetails.PressMinus | Components/CardDetailsScreen/index.jsx:153-154 | `items` becomes the − result |
| CategorySelector.Remove | Components/CardDetailsScreen/CategorySelector/index.jsx:13 | the kept ids are exactly those different from the pressed one |
| CategorySelector.RemoveConcat | Components/CardDetailsScreen/CategorySelector/index.jsx:13 | the filter distributes over concatenation, so the kept ids stay in order |
| CategorySelector.RemoveSingle | Components/CardDetailsScreen/CategorySelector/index.jsx:13 | a single id is dropped exactly when it is the pressed one; with RemoveConcat this fixes the filter on every list |
| CategorySelector.Highlighted | Components/CardDetailsScreen/CategorySelector/index.jsx:24-28 | `selectedCategories.includes(item.id)`; no contract of its own, its meaning is ToggleFlipsOnlyPressed and AsWrittenDeselectClearsAll |
| CategorySelector.ToggleAsWritten | Components/CardDetailsScreen/CategorySelector/index.jsx:10-18 | the updater as written; no contract of its own, its meaning is AsWrittenDeselectClearsAll and DeselectClearsAll |
| CategorySelector.Toggle | Components/CardDetailsScreen/CategorySelector/index.jsx:10-18 | the corrected updater; no contract of its own, its meaning is ToggleFlipsOnlyPressed, ToggleKeepsDistinct, SelectAppends |
| CategorySelector.SelectAppends | Components/CardDetailsScreen/CategorySelector/index.jsx:14-16 | an unselected id is appended after the earlier selection and then highlighted |
| CategorySelector.ToggleKeepsDistinct | Components/CardDetailsScreen/CategorySelector/index.jsx:10-18 | the selection stays free of duplicates |
| CategorySelector.ToggleFlipsOnlyPressed | Components/CardDetailsScreen/CategorySelector/index.jsx:10-28 | the intended updater flips the pressed chip's highlight and no other |
| CategorySelector.AsWrittenDeselectClearsAll | Components/CardDetailsScreen/CategorySelector/index.jsx:12-24 | as written, pressing a selected chip un-highlights every chip |
| CategorySelector.DeselectClearsAll | Components/CardDetailsScreen/CategorySelector/index.jsx:12-31 | deselecting 3 from [3, 5] gives [] as written and [5] as intended |
| Forms.TenDigits | Components/LoginScreen/index.jsx:31 | the test `/^[0-9]{10}$/`, exactly ten characters `0`-`9`; no contract of its own, its meaning is MobileError, SanitisedMobileRule, TypedMobileGate |
| Forms.Contains | Components/LoginScreen/index.jsx:60-72 | the unanchored tests `/iPhone/`, `/iPad/` and the rest, a substring search; no contract of its own, its meaning is ClassifyIsFirstRule, UnknownIffNoRuleMatches, IPhoneBeforeMac |
| Forms.MobileError | Components/LoginScreen/index.jsx:28-34 | no error exactly for ten digits; empty gives the required message, anything else the invalid message |
| Forms.PasswordError | Components/LoginScreen/index.jsx:36-42 | no error exactly from six characters; empty gives the required message, shorter the too-short message |
| Forms.DigitsOnly | Components/LoginScreen/index.jsx:170 | the filtered text is all digits and no longer than the input; with DigitsOnlySingle and DigitsOnlyConcat, it is exactly the digits of the input in order |
| Forms.DigitsOnlySingle | Components/LoginScreen/index.jsx:170 | a single digit is kept and any other character dropped |
| Forms.DigitsOnlyConcat | Components/LoginScreen/index.jsx:170 | the filter distributes over concatenation, so the digits keep their order |
| Forms.DigitsOnlyKeepsDigits | Components/LoginScreen/index.jsx:170 | digits pass unchanged |
| Forms.DigitsOnlyIdempotent | Components/LoginScreen/index.jsx:170 | filtering twice is filtering once |
| Forms.SanitisedMobileRule | Components/LoginScreen/index.jsx:168-172 | after the filter the mobile rule objects only to the length |
| LoginScreen.FieldError | Components/LoginScreen/index.jsx:25-43 | the mobile gets the mobile message and the password the password message, empty exactly when their rules pass; every other name is valid |
| LoginScreen.InitialFormGate | Components/LoginScreen/index.jsx:19-20 | the form opens empty and error-free; pressing Login at once sends nothing and records both "required" messages |
| LoginScreen.ValidateField | Components/LoginScreen/index.jsx:25-46 | valid exactly when the error is empty; only that key is written |
| LoginScreen.HandleLogin | Components/LoginScreen/index.jsx:48-52 | both errors are recorded; the request goes out exactly when both fields are valid |
| LoginScreen.HandleChange | Components/LoginScreen/index.jsx:131-137 | the value is stored under its name and only that field is validated |
| LoginScreen.OnMobileText | Components/LoginScreen/index.jsx:168-172 | the stored mobile is the digits of the input |
| LoginScreen.ClassifyUserAgent | Components/LoginScreen/index.jsx:55-75 | the `if … else if` chain over the user agent; no contract of its own, its meaning is ClassifyIsFirstRule, UnknownIffNoRuleMatches, IPhoneBeforeMac |
| LoginScreen.TypedMobileGate | Components/LoginScreen/index.jsx:48-52 | a typed mobile passes the gate exactly when ten digits remain |
| LoginScreen.ClassifyIsFirstRule | Components/LoginScreen/index.jsx:57-75 | the chain is the priority table read first to last |
| LoginScreen.UnknownIffNoRuleMatches | Components/LoginScreen/index.jsx:57-75 | Unknown exactly when none of the five words occurs |
| LoginScreen.IPhoneBeforeMac | Components/LoginScreen/index.jsx:60-75 | any user agent with "iPhone" somewhere before "Mac" contains "Mac" and is still classified as an iPhone |
| ForgotScreen.FieldError | Components/ForgotScreen/index.jsx:22-37 | the mobile gets the mobile message; an empty email gets "Email is required"; other names have no rule |
| ForgotScreen.InitialState | Components/ForgotScreen/index.jsx:15-17 | the screen opens unverified, with an empty mobile, no email and no error; the email field is hidden and Submit sends nothing |
| ForgotScreen.MobileRuleMatchesLogin | Components/ForgotScreen/index.jsx:25-31 | the mobile rule is the login screen's |
| ForgotScreen.Validated | Components/ForgotScreen/index.jsx:38 | the field's error is recorded and the other keys keep theirs |
| ForgotScreen.HandleChange | Components/ForgotScreen/index.jsx:81-91 | a ten-character value fires the verification whichever field it is; the value is stored and validated |
| ForgotScreen.OnMobileText | Components/ForgotScreen/index.jsx:114-118 | the mobile input fires the verification exactly when ten digits remain, which is when its error is empty |
| ForgotScreen.OnVerifyReply | Components/ForgotScreen/index.jsx:42-59 | only a 200 reply sets the verified flag; nothing clears it |
| ForgotScreen.EmailShown | Components/ForgotScreen/index.jsx:124-138 | the email field and Submit are rendered while `isMobileVerify` holds; no contract of its own, its meaning is EmailHiddenWithout200 |
| ForgotScreen.Step | Components/ForgotScreen/index.jsx:42-136 | one edit, verification reply or Submit press, Submit only while rendered; no contract of its own, its meaning is VerifiedStaysVerified and VerifiedOnlyBy200 |
| ForgotScreen.Run | Components/ForgotScreen/index.jsx:42-136 | the events applied in order; no contract of its own, its meaning is VerifiedStaysVerified, VerifiedOnlyBy200, EmailHiddenWithout200 |
| ForgotScreen.HandleSubmit | Components/ForgotScreen/index.jsx:60-79 | the mobile message is recorded; as written the request goes out exactly when the mobile is valid, whatever the email; a 200 reply closes the screen |
| ForgotScreen.HandleSubmitIntended | Components/ForgotScreen/index.jsx:60-79 | the corrected gate needs a valid mobile and a non-empty email |
| ForgotScreen.SubmitIgnoresEmail | Components/ForgotScreen/index.jsx:62-64 | a verified user with no email gets the request sent and the screen closed; the corrected gate refuses |
| ForgotScreen.VerifiedStaysVerified | Components/ForgotScreen/index.jsx:47-52 | once set, the verified flag stays set over any events |
| ForgotScreen.VerifiedOnlyBy200 | Components/ForgotScreen/index.jsx:47-52 | the flag turns true only through a 200 verification reply |
| ForgotScreen.EmailHiddenWithout200 | Components/ForgotScreen/index.jsx:124-136 | without a 200 verification the email field and Submit never appear |
| ChangePassword.FieldError | Components/ChangePassword/index.jsx:35-58 | the three keys share the password rule; other names have none |
| ChangePassword.ValidateField | Components/ChangePassword/index.jsx:35-62 | valid exactly when the error is empty; only that key is written |
| ChangePassword.HandleSubmit | Components/ChangePassword/index.jsx:71-86 | all three errors are recorded and no other key is added; the payload is sent exactly when all three have six characters, with id, old, new and confirmation mapped |
| ChangePassword.AcceptsMismatchedConfirmation | Components/ChangePassword/index.jsx:79-86 | a confirmation different from the new password is sent |
| ChangePassword.HandleChange | Components/ChangePassword/index.jsx:115-121 | the value is stored under its name and only that field is validated; the only error key added is that name |
| ChangePassword.RenderError | Components/ChangePassword/index.jsx:64-69 | a line is shown exactly when the recorded error is non-empty, and it is that error |
| ChangePassword.Step | Components/ChangePassword/index.jsx:115-148 | one edit of a field or one Change press; no contract of its own, its meaning is PasswordLineNeverShown |
| ChangePassword.Run | Components/ChangePassword/index.jsx:115-148 | the events applied in order; no contract of its own, its meaning is PasswordLineNeverShown |
| ChangePassword.InitialFormRefused | Components/ChangePassword/index.jsx:27-32 | the three fields open empty; pressing Change at once sends nothing and shows "required" under each |
| ChangePassword.PasswordLineNeverShown | Components/ChangePassword/index.jsx:132-148 | over any edits and presses, "password" is never recorded, so no error line is ever shown |
| ChangePassword.FieldMessage | Components/ChangePassword/index.jsx:64-69 | the corrected line shows exactly when the input's own error is non-empty |
| ChangePassword.EditShowsMessage | Components/ChangePassword/index.jsx:115-121 | with the corrected line, a too-short edit shows its message and a valid one clears it |
| HomeScreen.Field | Components/HomeScreen/index.jsx:38 | only an object has a named field, and on an object it is the last field with that key |
| HomeScreen.LastField | Components/HomeScreen/index.jsx:38 | a field is found exactly when some key matches, and its value is that of the last field with the key, as `JSON.parse` keeps the last duplicate |
| HomeScreen.ShouldFetch | Components/HomeScreen/index.jsx:38 | `if (!userName.id) return;`; no contract of its own, its meaning is ShouldFetchMeaning |
| HomeScreen.Truthy | Components/HomeScreen/index.jsx:38-50 | JavaScript truthiness, as `!userName.id` and the `{}` fallback for `response.data.data` test it; no contract of its own, its meaning is ShouldFetchMeaning, CardDataNeverNull, InitialState |
| HomeScreen.InitialState | Components/HomeScreen/index.jsx:11-12 | the starting user `""` fetches nothing; the starting card data `{}` is truthy and has no keys |
| HomeScreen.ShouldFetchMeaning | Components/HomeScreen/index.jsx:38 | the request is made exactly when the stored user is an object whose last `id` field is truthy |
| HomeScreen.ZeroIdSkipsFetch | Components/HomeScreen/index.jsx:38 | a stored user with id 0 and the empty initial user skip the request; id 12 does not |
| HomeScreen.NextCardData | Components/HomeScreen/index.jsx:48-57 | a failure or a falsy body keeps `cardData`; a truthy body gives its `data` field when that is truthy and `{}` otherwise |
| HomeScreen.CardDataAfter | Components/HomeScreen/index.jsx:37-58 | `cardData` after the replies in order, from `{}`; no contract of its own, its meaning is CardDataNeverNull |
| HomeScreen.CardDataNeverNull | Components/HomeScreen/index.jsx:50 | `cardData` is never null over any replies |
| HomeScreen.LengthOf | Components/HomeScreen/index.jsx:66 | reading the length throws exactly on null |
| HomeScreen.NonEmpty | Components/HomeScreen/index.jsx:66 | `cardData[key].length > 0`, false when the length is undefined; no contract of its own, its meaning is part of BlocksMeaning |
| HomeScreen.Entries | Components/HomeScreen/index.jsx:65 | only null throws; an object's keys are its own, in order |
| HomeScreen.BlocksMeaning | Components/HomeScreen/index.jsx:65-67 | the block list is missing exactly when a value is null; each block is a key with its value and a positive length; every such key has a block |
| HomeScreen.Blocks | Components/HomeScreen/index.jsx:65-67 | the filter and map over the entries; no contract of its own, its meaning is BlocksMeaning, BlocksConcat, TitlesDistinct |
| HomeScreen.AccordionData | Components/HomeScreen/index.jsx:64-67 | `accordionData` from `cardData`; no contract of its own, its meaning is EmptyCardGivesNoBlocks, TodayUpdateIsABlock, NullBlockThrows |
| HomeScreen.BlocksConcat | Components/HomeScreen/index.jsx:65-67 | the blocks keep the key order |
| HomeScreen.TitlesDistinct | Components/HomeScreen/index.jsx:65-67 | titles, the list keys, are distinct |
| HomeScreen.EmptyCardGivesNoBlocks | Components/HomeScreen/index.jsx:65-67 | the initial `{}` and a reply with no data give no blocks |
| HomeScreen.TodayUpdateIsABlock | Components/HomeScreen/index.jsx:65-67 | the greeting string becomes a block and an empty list does not |
| HomeScreen.NullBlockThrows | Components/HomeScreen/index.jsx:66 | a null value anywhere makes the derivation throw |

## Left out

- HTTP requests, `AsyncStorage`, JSON parsing, alerts and navigation are I/O. Each server reply is an input to the function or method that consumes it.
- CartScreen.FetchListData: on a failed request the source dispatches `addToCartOnCart([])`. On the first failure that pushes an array with no id into `itemsCart`. On a later failure the lookup at store/Slice/index.jsx:44-46 matches that earlier array, since both ids are `undefined`, and line 48 turns its quantity into `NaN`. The model leaves `itemsCart` unchanged on failure instead, because a record without an id has no place in `Item`.
- CartScreen.FetchListData: rows are shown only through `cartDetails`. The total-amount request and the product deletion are requests without logic and are not modelled; only the refetch after a delete appears, as `RefetchDoubles`.
- CartScreen.HandleUpdateQuantity: the unhandled promise rejection after the failed `Alert.alert` is reported only as `crashed`.
- React rendering, `StyleSheet`, the marquee and accordion animations, and `toFixed` price formatting are presentation.
- React re-render and hook semantics, such as stale closures, are not modelled. Each handler acts on the state it was rendered with.
  - One consequence is left out: the forgot screen's verification posts the `data.mobile` of the render, not the value just typed.
- `DeviceInfo` calls and the random web device id are foreign or nondeterministic. Only the user-agent branch chain is modelled.
- Regular expressions are stated as character tests: ten characters `0`-`9`, and substring search for the user-agent words. The `maxLength={10}` cap of the mobile inputs is not modelled.
- A missing key of the form or error object is read as "". The validators test `!value`, which treats `undefined` and "" alike.
- HomeScreen.Entries: JavaScript lists integer-like object keys first in ascending order. The model keeps the reply's key order.
- HomeScreen.ShouldFetch: a stored user that parses to `null` makes `userName.id` throw at Components/HomeScreen/index.jsx:38. The model reads `null` as having no id, so it gives the same outcome, no request, but not the uncaught error.
- HomeScreen.LengthOf: an object with its own `length` member is given no length.
- HomeScreen.LengthOf, Forms.PasswordError, LoginScreen.FieldError, ChangePassword.FieldError, ForgotScreen.HandleChange: string lengths count characters, not UTF-16 code units. A character outside the Basic Multilingual Plane counts once here and twice in JavaScript. So "😀😀😀" is too short for the password rule here but passes `value.length < 6` there, and the `value?.length === 10` trigger of the forgot screen can differ the same way. The digit rules (Forms.TenDigits, Forms.MobileError, the `OnMobileText` handlers) are unaffected, since every digit is one code unit.
- HomeScreen.Entries: a reply object is taken to list each key once, as `JSON.parse` produces it. Duplicate keys in the reply text are not modelled, except that the lookup `HomeScreen.LastField` reads the last one, as `JSON.parse` keeps it.
- Integers are unbounded. JavaScript number precision beyond 2^53 is not modelled.
- The profile, registration, order-history, card, accordion, shop-details and about screens are thin fetch-and-render files and are not part of this model.

## Findings

| source | as written | input that shows it | evidently intended | confidence | as-written member | corrected member |
|---|---|---|---|---|---|---|
| Components/CardDetailsScreen/CategorySelector/index.jsx:13 | the deselect filter compares `item?.id !== category?.id` on numbers, which is `undefined !== undefined`, so it keeps nothing | selection [3, 5], press 3: result [] | remove only the pressed id: [5] | high, not executed | CategorySelector.ToggleAsWritten, CategorySelector.DeselectClearsAll | CategorySelector.Toggle, CategorySelector.ToggleFlipsOnlyPressed |
| Components/CartScreen/index.jsx:125-126 | `Alert` is not imported, so the catch block throws before the rollback dispatch | record 7 shown at 2, press +, post fails: still shows 3 | roll back to the shown quantity | medium, not executed | CartScreen.AfterClickAsWritten, CartScreen.FailedPostKeepsOptimisticValue | CartScreen.AfterClickIntended, CartScreen.FailedPostRollsBack |
| store/Slice/index.jsx:65-67 | `updateQuantityOnCart` removes by filtering `state.items` into `itemsCart` | `itemsCart` [tea#1], `items` [milk#2], set id 1 to 0: `itemsCart` becomes [milk#2] | filter `state.itemsCart`, giving [] | high, not executed | CartSlice.QuantitySetOnCart, CartSlice.QuantitySetOnCartCopiesItems | CartSlice.QuantitySetOnCartIntended, CartSlice.QuantitySetOnCartIntendedRemoves |
| Components/ForgotScreen/index.jsx:62 | the email is validated under the name "password", which has no rule, so an empty email passes | verified, mobile 9876543210, no email: request sent and screen closed | validate "email" | high, not executed | ForgotScreen.HandleSubmit, ForgotScreen.SubmitIgnoresEmail | ForgotScreen.HandleSubmitIntended |
| Components/ChangePassword/index.jsx:132-148 | every input renders `renderError("password")`, a key never written | old password "abc": no message shown | render each input's own key | high, not executed | ChangePassword.RenderError, ChangePassword.PasswordLineNeverShown | ChangePassword.FieldMessage, ChangePassword.EditShowsMessage |
