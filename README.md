# SpicesLink screen logic in Dafny

SpicesLink is a React Native marketplace for spice buyers and suppliers. This
project models the logic behind its screens, leaving the rendering aside:

- the product and session store (`ProductContext`);
- the tag list used while a buyer registers;
- the supplier's reservation form;
- the supplier list and its ratings;
- the price history screen;
- the shop and product search lists;
- both registration forms;
- the add-product screen;
- the Alba price list and the Cloves price entry screen;
- the price entry details;
- the shop details screen.

Server replies, storage results, the current time and the user's typing are all
inputs. Each operation is modelled as running to completion once its reply is
known. Where a screen updates its state step by step, it is a class whose
methods change its fields. Pure helpers are functions, each with lemmas that
state what the source promises about it.

Modules: `Common` (Option, replies, JS truthiness, an order-keeping filter),
`Text` (JS whitespace and `trim`, ASCII lower-casing, `includes`,
`startsWith`, decimal rendering with its read-back, and `split`), and one
module per screen or context file.

Units:

- ratings are in tenths of a star (`nat`);
- coordinates are integers in units of 1e-4 degree;
- a date is given as its local parts (year, 0-based month, day, weekday,
  hours, minutes).

Behaviour worth noting:

- `fetchProducts` keeps the current list on any failed response, 4xx included.
  It does not clear the list.
- `addProduct`, `deleteProduct` and `updateProduct` catch their own HTTP and
  network errors. They do not throw them. Only the authentication guard
  reaches the caller. As a result, the add-product screen shows its success
  alert even when the server refuses the product.
- The buyer registration screen computes a `userId` but hands it to a
  placeholder `setUser` that does nothing (Pages/Buyer/Registration/RegistrationScreen.js:108).
- The store's `addProduct` sends name, description, price, image and
  `buyerId`. It does not send the category the add-product screen collected
  (Pages/ProductContext.js:93-99).

## Model

| member | source | states |
|---|---|---|
| Common.Filter | Pages/Supplier/ProductShop.js:70-73 | `Array.prototype.filter`: the result is no longer than the input and holds exactly the input's elements that pass the test |
| Common.FilterIsSubsequence | Pages/Supplier/Products.js:28-30 | a filtered list keeps its elements in their original order |
| Common.FilterKeepsAll | Pages/Supplier/Products.js:28-30 | when every element passes, filtering returns the list unchanged |
| Common.FilterIdempotent | Pages/Supplier/ProductShop.js:70-73 | filtering twice with one test is filtering once |
| Common.FilterAppend | Pages/ProductContext.js:126-127 | filtering distributes over concatenation |
| Common.FilterKeepsNone | Pages/ProductContext.js:126-127 | when no element passes, the result is empty |
| Common.FilterSameTest | Pages/Supplier/Products.js:29 | two tests that agree on every element filter alike |
| Text.Trim | Pages/Buyer/Registration/ProductTagInput.js:10 | `String.prototype.trim` over the ECMAScript whitespace and line terminators; its meaning is proved by TrimStartSpec, TrimEndSpec, TrimEmptyIff, TrimShape and TrimIdempotent |
| Text.FirstLine | Pages/Buyer/Registration/RegistrationScreen.js:41 | the part of a text a `^(?=.*x)` lookahead can see: everything before the first line terminator, as FirstLineSpec proves |
| Text.FirstLineSpec | Pages/Buyer/Registration/RegistrationScreen.js:41 | the first line is a prefix with no line terminator, and it is the whole text or is followed by a line terminator |
| Text.FirstLineWhole | Pages/Buyer/Registration/RegistrationScreen.js:41 | a text without line terminators is seen whole by the lookaheads |
| Text.Utf16Length | Pages/Buyer/Registration/RegistrationScreen.js:40 | JavaScript's `length`, counting two UTF-16 code units for a character outside the Basic Multilingual Plane; bounded by Utf16LengthSpec |
| Text.Utf16LengthSpec | Pages/Buyer/Registration/RegistrationScreen.js:40 | the JavaScript length lies between the number of characters and twice that, and equals it exactly when every character is in the Basic Multilingual Plane |
| Text.TrimStartSpec | Pages/Buyer/Registration/ProductTagInput.js:10 | the start of `trim`: what is removed is all whitespace, and what is kept is a suffix that starts with a non-space |
| Text.TrimEndSpec | Pages/Buyer/Registration/ProductTagInput.js:10 | the end of `trim`: what is removed is all whitespace, and what is kept is a prefix that ends with a non-space |
| Text.TrimEmptyIff | Pages/Buyer/Registration/ProductTagInput.js:10-11 | `trim()` is empty exactly when the text is all whitespace |
| Text.TrimShape | Pages/AddNewProductScreen.js:60-64 | a trimmed text neither starts nor ends with whitespace and is no longer than the original |
| Text.TrimIdempotent | Pages/AddNewProductScreen.js:60-64 | trimming a trimmed text changes nothing |
| Text.ToLower | Pages/Supplier/Products.js:29 | `toLowerCase` keeps the length and folds each character on its own |
| Text.ToLowerIdempotent | Pages/Supplier/ProductShop.js:71-72 | lower-casing twice is lower-casing once |
| Text.IncludesEmpty | Pages/Supplier/Products.js:29 | every text includes the empty text |
| Text.NatToString | Pages/Supplier/ShopDetails.js:203-206 | a number's decimal text is non-empty, all digits, and one digit long exactly below 10 |
| Text.NatToStringRoundTrip | Pages/Supplier/ShopDetails.js:203-206 | reading a number's decimal text back gives the number |
| Text.PadTwoRoundTrip | Pages/PriceDetailsScreen.js:31 | `padStart(2, '0')` of a number below 100 is two digits that read back as the number |
| Text.IndexOf | Pages/Supplier/ShopDetails.js:203-206 | the first position of a character that occurs: the character is there and not before it (the source calls neither `indexOf` nor `split`: this serves only to state that a rendered label reads back) |
| Text.Split | Pages/PriceDetailsScreen.js:34-35 | `split` always yields at least one part (the source calls neither `indexOf` nor `split`: this serves only to state that a rendered label reads back) |
| Text.IndexOfAt | Pages/Supplier/ShopDetails.js:203-206 | a position holding the character with none of it before is where `indexOf` finds it (the source calls neither `indexOf` nor `split`: this serves only to state that a rendered label reads back) |
| Text.SplitJoin | Pages/PriceDetailsScreen.js:34-35 | splitting `a + sep + b` when `a` has no separator gives `a` followed by the parts of `b` (the source calls neither `indexOf` nor `split`: this serves only to state that a rendered label reads back) |
| Text.SplitThree | Pages/Supplier/ShopDetails.js:203-206 | three separator-free pieces joined by a separator split back into those pieces (the source calls neither `indexOf` nor `split`: this serves only to state that a rendered label reads back) |
| Text.JoinedNumbersParse | Pages/Supplier/ShopDetails.js:203-206 | three numbers joined by a non-digit split back into three digit strings with the same values (the source calls neither `indexOf` nor `split`: this serves only to state that a rendered label reads back) |
| ProductContext.WithoutId | Pages/ProductContext.js:126-127 | the delete filter keeps exactly the products whose `_id` differs from the id |
| ProductContext.FromRegistration | Pages/ProductContext.js:165-175 | one product per registered name |
| ProductContext.DeleteKeepsOrder | Pages/ProductContext.js:126-127 | a delete keeps the remaining products in their order |
| ProductContext.DeleteIdempotent | Pages/ProductContext.js:126-127 | deleting the same id twice is deleting it once |
| ProductContext.DeleteAbsentId | Pages/ProductContext.js:126-127 | deleting an id no product carries leaves the list as it was |
| ProductContext.DeleteUndoesAdd | Pages/ProductContext.js:107-109 | deleting the id of a newly appended product with a fresh id gives back the list before the add |
| ProductContext.Replaced | Pages/ProductContext.js:154-159 | the `map` that swaps in the server object for every product with the id; UpdateShape, UpdateAbsentId and UpdateIdempotent state its meaning |
| ProductContext.UpdateShape | Pages/ProductContext.js:154-159 | an update keeps the length, puts the server object at every position with the id, and leaves every other position unchanged |
| ProductContext.UpdateAbsentId | Pages/ProductContext.js:154-159 | updating an id no product carries leaves the list as it was |
| ProductContext.UpdateIdempotent | Pages/ProductContext.js:154-159 | applying the same update twice is applying it once |
| ProductContext.DeleteAfterUpdate | Pages/ProductContext.js:126-127 | deleting an id after updating it is the same as deleting it directly |
| ProductContext.DeleteKeepsKeysDistinct | Pages/ProductContext.js:126-127 | a delete keeps server ids distinct |
| ProductContext.UpdateKeepsKeysDistinct | Pages/ProductContext.js:154-159 | an update with an object carrying the same id keeps server ids distinct |
| ProductContext.AddKeepsKeysDistinct | Pages/ProductContext.js:107-109 | appending a product with a new id keeps server ids distinct |
| ProductContext.RegistrationProduct | Pages/ProductContext.js:166-172 | one placeholder product built from a registered name; RegistrationProducts states its fields |
| ProductContext.RegistrationProducts | Pages/ProductContext.js:165-175 | each registration product has the trimmed name, price "0.00", the placeholder description and image, and no server id |
| ProductContext.RegistrationProductsHaveNoKey | Pages/ProductContext.js:165-175 | a successful delete of an undefined id removes every registration product, and a delete by a real id removes none |
| ProductContext.DeviceStorage.constructor | Pages/ProductContext.js:16-30 | device storage starts without a token or a user |
| ProductContext.Store.constructor | Pages/ProductContext.js:8-10 | the store starts with no products, no user and no token |
| ProductContext.Store.FetchProducts | Pages/ProductContext.js:62-79 | without a token and a buyer id nothing changes; an OK reply's body (a falsy one as `[]`) becomes the list; any failure keeps the list |
| ProductContext.Store.RefreshProducts | Pages/ProductContext.js:62-79 | a refetch with the store's own token and user id, with the same outcomes |
| ProductContext.Store.AddProduct | Pages/ProductContext.js:81-113 | without a token or user it rejects with "Authentication required" before any request; otherwise it sends the draft with the user id, appends the server product on success, and resolves with nothing, list unchanged, on failure |
| ProductContext.Store.DeleteProduct | Pages/ProductContext.js:115-134 | rejects without a token; otherwise resolves; an OK reply removes the products with that id; a failure keeps the list |
| ProductContext.Store.UpdateProduct | Pages/ProductContext.js:136-163 | rejects without a token; otherwise resolves; an OK reply replaces the products with that id by the server object; a failure keeps the list |
| ProductContext.Store.InitializeProductsFromRegistration | Pages/ProductContext.js:165-175 | the list becomes the registration products |
| ProductContext.Store.SetUser | Pages/ProductContext.js:32-39 | the user is set in memory and is persisted only when the storage write succeeds |
| ProductContext.Store.SetToken | Pages/ProductContext.js:41-48 | the token is set in memory and is persisted only when the storage write succeeds |
| ProductContext.Store.ClearUserData | Pages/ProductContext.js:50-60 | when both removals succeed, token, user and products are cleared; when either throws, memory is untouched and storage is cleared only as far as it got |
| ProductContext.Store.LoadUserData | Pages/ProductContext.js:16-30 | a stored token and user are restored and their products fetched; missing or unreadable storage changes nothing |
| ProductContext.RestartRestoresSession | Pages/ProductContext.js:16-48 | after a login with working storage, a restart restores the same user and token, unless the token is empty |
| ProductContext.RestartAfterLogout | Pages/ProductContext.js:16-60 | after a logout, a restart restores no session and no products |
| ProductTagInput.DropIndex | Pages/Buyer/Registration/ProductTagInput.js:19-20 | the `filter((_, i) => i !== index)` of a removal; DropIndexSpec states which elements remain |
| ProductTagInput.AfterAdd | Pages/Buyer/Registration/ProductTagInput.js:9-17 | the state after pressing Add; AddOutcome gives both branches and AddKeepsNoDuplicates the invariant |
| ProductTagInput.AfterRemove | Pages/Buyer/Registration/ProductTagInput.js:19-23 | the state after removing a tag; RemoveKeepsNoDuplicates keeps the invariant |
| ProductTagInput.DropIndexSpec | Pages/Buyer/Registration/ProductTagInput.js:19-20 | removing by index drops exactly that element and keeps the others in order; an index out of range changes nothing |
| ProductTagInput.AddOutcome | Pages/Buyer/Registration/ProductTagInput.js:9-17 | blank or already-listed input changes nothing, the text included; otherwise the trimmed text is appended to the tags and the text cleared |
| ProductTagInput.AddKeepsNoDuplicates | Pages/Buyer/Registration/ProductTagInput.js:11-12 | an add keeps the tags free of duplicates |
| ProductTagInput.RemoveKeepsNoDuplicates | Pages/Buyer/Registration/ProductTagInput.js:19-20 | a removal keeps the tags free of duplicates |
| ProductTagInput.RunKeepsNoDuplicates | Pages/Buyer/Registration/ProductTagInput.js:9-23 | any sequence of typing, adds and removals keeps a duplicate-free list duplicate-free |
| ProductTagInput.FromEmptyNoDuplicates | Pages/Buyer/Registration/ProductTagInput.js:6-23 | starting from the empty list, the tags are never duplicated |
| ProductTagInput.TagInput.constructor | Pages/Buyer/Registration/ProductTagInput.js:6-7 | empty text, no tags, nothing sent to the parent |
| ProductTagInput.TagInput.SetText | Pages/Buyer/Registration/ProductTagInput.js:7 | typing replaces the text |
| ProductTagInput.TagInput.AddProduct | Pages/Buyer/Registration/ProductTagInput.js:9-17 | the new state is the add step's; the parent receives the new list exactly when it changed |
| ProductTagInput.TagInput.RemoveProduct | Pages/Buyer/Registration/ProductTagInput.js:19-23 | the list loses the indexed tag, and the parent receives the new list |
| ReservationForm.InitialForm | Pages/Supplier/ReservationForm.js:20-34 | every text field starts empty except spiceName, which is the product name or ""; both payment flags start false |
| ReservationForm.SetField | Pages/Supplier/ReservationForm.js:38-42 | the form after typing into one field; SetFieldOnlyChanges states that nothing else changes |
| ReservationForm.SelectPayment | Pages/Supplier/ReservationForm.js:52-58 | the form after choosing a payment method; SelectPaymentShape states the flags and FlagsExclusive that they never both hold |
| ReservationForm.MobileOk | Pages/Supplier/ReservationForm.js:71-73 | the mobile number pattern `^\+?[\d\s\-\(\)]{10,15}$` on the trimmed text; MobileOkShape and MobileOkExamples state what it accepts |
| ReservationForm.ChecksOf | Pages/Supplier/ReservationForm.js:64-73 | the outcome of each check `validateForm` makes; ValidIff relates them to the fields |
| ReservationForm.FieldError | Pages/Supplier/ReservationForm.js:64-73 | the message a failed check puts on its field; BuildErrors and ErrorsForEmptyIff state its use |
| ReservationForm.ErrorsFor | Pages/Supplier/ReservationForm.js:61-77 | the `newErrors` object as a map from field to message; ErrorsForEmptyIff states when it is empty |
| ReservationForm.FormErrors | Pages/Supplier/ReservationForm.js:61-77 | the error map of a form; ValidIff and OptionalFieldsIgnored state when it is empty and what it ignores |
| ReservationForm.SetFieldOnlyChanges | Pages/Supplier/ReservationForm.js:38-43 | an input change sets that field and leaves every other field and both flags as they were |
| ReservationForm.FlagsExclusive | Pages/Supplier/ReservationForm.js:52-58 | flags set from one method are never both true |
| ReservationForm.SelectPaymentShape | Pages/Supplier/ReservationForm.js:52-59 | choosing a method sets it, sets the flags from it (never both), and leaves every other field as it was |
| ReservationForm.MobileOkShape | Pages/Supplier/ReservationForm.js:71-73 | an accepted mobile number has 10 to 16 characters, with no letters and no '+' after the first |
| ReservationForm.MobileOkExamples | Pages/Supplier/ReservationForm.js:71-73 | local and international numbers pass; a short number or one with a letter fails |
| ReservationForm.ErrorsForEmptyIff | Pages/Supplier/ReservationForm.js:61-77 | the error map is empty exactly when no check fails |
| ReservationForm.ValidIff | Pages/Supplier/ReservationForm.js:61-77 | the form is valid exactly when name, mobile number, location and quantity are non-blank, the trimmed number fits the pattern, and a method is chosen |
| ReservationForm.OptionalFieldsIgnored | Pages/Supplier/ReservationForm.js:61-77 | quality grade, delivery date and the bank fields never affect validation |
| ReservationForm.SelectPaymentSatisfiesRequirement | Pages/Supplier/ReservationForm.js:52-68 | after choosing a method there is no payment error |
| ReservationForm.BuildErrors | Pages/Supplier/ReservationForm.js:61-74 | the field-by-field construction of `newErrors` yields the error map of the checks |
| ReservationForm.ShopRefOf | Pages/Supplier/ReservationForm.js:90 | the shop reference is the shop's id, carried as is, when it has a truthy one, else the shop object itself |
| ReservationForm.ReservationScreen.constructor | Pages/Supplier/ReservationForm.js:20-36 | the initial form and no errors |
| ReservationForm.ReservationScreen.HandleInputChange | Pages/Supplier/ReservationForm.js:38-50 | only the field changes, and only that field's error, if set, is cleared |
| ReservationForm.ReservationScreen.HandlePaymentMethodSelect | Pages/Supplier/ReservationForm.js:52-59 | the form takes the method and its flags |
| ReservationForm.ReservationScreen.ValidateForm | Pages/Supplier/ReservationForm.js:61-77 | the committed errors are the form's, and the result is true exactly when there are none |
| ReservationForm.ReservationScreen.HandleSubmit | Pages/Supplier/ReservationForm.js:79-92 | a reservation is built exactly when the form is valid, from the form, the product name, the shop reference and the time |
| SuppliersList.InitialSuppliersShape | Pages/Buyer/Suppliers/SuppliersList.js:10-14 | two suppliers, with distinct ids "1" and "2" |
| SuppliersList.WithRating | Pages/Buyer/Suppliers/SuppliersList.js:21-25 | the `map` that gives the supplier with the id its new rating; WithRatingPointwise, WithRatingAbsent, WithRatingLastWins and WithRatingKeepsIds state its meaning |
| SuppliersList.WithRatingPointwise | Pages/Buyer/Suppliers/SuppliersList.js:21-25 | the length is kept, a supplier with the id gets the new rating and keeps its other fields, and the others are unchanged |
| SuppliersList.WithRatingAbsent | Pages/Buyer/Suppliers/SuppliersList.js:21-25 | an id no supplier has leaves the list equal to the old one |
| SuppliersList.WithRatingLastWins | Pages/Buyer/Suppliers/SuppliersList.js:21-25 | rating twice is the same as rating once with the second value |
| SuppliersList.WithRatingKeepsIds | Pages/Buyer/Suppliers/SuppliersList.js:21-25 | ids are kept position by position, so distinct ids stay distinct |
| SuppliersList.SuppliersScreen.constructor | Pages/Buyer/Suppliers/SuppliersList.js:6 | the list starts empty |
| SuppliersList.SuppliersScreen.LoadSuppliers | Pages/Buyer/Suppliers/SuppliersList.js:8-17 | the list becomes the two initial suppliers |
| SuppliersList.SuppliersScreen.UpdateRating | Pages/Buyer/Suppliers/SuppliersList.js:20-26 | the list becomes the rated list |
| ProductPriceScreen.SortNewestFirst | Pages/ProductPriceScreen.js:188 | the in-place sort leaves the array in descending date order, with the same entries |
| ProductPriceScreen.InsertNewestFirst | Pages/ProductPriceScreen.js:188 | one insertion step extends the sorted prefix by one and keeps the entries |
| ProductPriceScreen.ProductImageSource | Pages/ProductPriceScreen.js:226-236 | the image shown for a product; ProductImageSourceCases gives every branch |
| ProductPriceScreen.FormatDateDisplay | Pages/ProductPriceScreen.js:173-184 | the short date label of the price card; FormatDateDisplayParses reads it back |
| ProductPriceScreen.ProductImageSourceCases | Pages/ProductPriceScreen.js:226-236 | a "/uploads" string becomes a URI on the API base, another "http" string its own URI, an asset stays itself, any other string and any other value the default picture |
| ProductPriceScreen.FormatDateDisplayParses | Pages/ProductPriceScreen.js:173-184 | the date reads back as the weekday's abbreviation, then the day, 1-based month and year joined by '-' |
| ProductPriceScreen.PriceScreen.constructor | Pages/ProductPriceScreen.js:25-36 | empty history, loading, no modal, no selection |
| ProductPriceScreen.PriceScreen.FetchPriceHistory | Pages/ProductPriceScreen.js:39-56 | the history becomes an OK reply's body, or empty otherwise, and loading ends |
| ProductPriceScreen.PriceScreen.GetCurrentPrice | Pages/ProductPriceScreen.js:186-189 | no latest exactly when the history is empty; otherwise an entry of the history dated no earlier than any other, with the history sorted in place and the same entries kept |
| ProductPriceScreen.PriceScreen.HandleUpdateClick | Pages/ProductPriceScreen.js:161-171 | with no history only the alert is shown; otherwise the modal opens prefilled from the latest entry |
| ProductPriceScreen.PriceScreen.HandleUpdatePrice | Pages/ProductPriceScreen.js:112-149 | with no selected item nothing happens; otherwise the update is sent, the busy flag goes up then down, success resets the modal and refetches, and failure keeps it open |
| ProductShop.ShopMatches | Pages/Supplier/ProductShop.js:71-72 | the search test on a shop's name and location; FilteredShopsSpec and SearchIgnoresCase state its meaning |
| ProductShop.FilteredShops | Pages/Supplier/ProductShop.js:70-73 | the shops shown for a search; FilteredShopsSpec, EmptySearchKeepsAll and FilteredShopsIdempotent state its meaning |
| ProductShop.AvailabilityColor | Pages/Supplier/ProductShop.js:75-86 | the colour of an availability label; AvailabilityColorSpec states which strings get the default |
| ProductShop.StarCounts | Pages/Supplier/ProductShop.js:88-91 | the full, half and empty star counts of a rating, or none when `Array(emptyStars)` would throw; StarCountsSpec states them |
| ProductShop.FilteredShopsSpec | Pages/Supplier/ProductShop.js:70-73 | a shop is kept exactly when its lower-cased name or location includes the lower-cased search, and the kept shops stay in order |
| ProductShop.EmptySearchKeepsAll | Pages/Supplier/ProductShop.js:70-73 | an empty search keeps every shop |
| ProductShop.SearchIgnoresCase | Pages/Supplier/ProductShop.js:70-73 | searches that differ only in letter case select the same shops |
| ProductShop.FilteredShopsIdempotent | Pages/Supplier/ProductShop.js:70-73 | filtering the filtered shops again changes nothing |
| ProductShop.AvailabilityColorSpec | Pages/Supplier/ProductShop.js:75-86 | the grey default is given exactly to strings that are none of the three states, and the three state colours are distinct |
| ProductShop.StarCountsSpec | Pages/Supplier/ProductShop.js:88-91 | for ratings up to 5 the full, half and empty stars add up to five, with a half star exactly for a fraction; larger ratings would need a negative count |
| ProductShop.SampleShopsDraw | Pages/Supplier/ProductShop.js:22-68 | every sample shop's rating draws, and 4.3 draws four full stars, a half and no empty one |
| Products.NameMatches | Pages/Supplier/Products.js:29 | the search test on a product's name; FilteredProductsSpec and SearchIgnoresCase state its meaning |
| Products.FilteredProducts | Pages/Supplier/Products.js:28-30 | the catalogue entries shown for a search; FilteredProductsSpec and EmptySearchListsAll state its meaning |
| Products.FilteredProductsSpec | Pages/Supplier/Products.js:20-30 | a product is kept exactly when its lower-cased name includes the lower-cased search; the result keeps the catalogue's order and has at most five entries |
| Products.EmptySearchListsAll | Pages/Supplier/Products.js:20-30 | an empty search lists all five products |
| Products.SearchIgnoresCase | Pages/Supplier/Products.js:29 | searches that differ only in letter case give the same list |
| BuyerRegistration.ContactNumberOk | Pages/Buyer/Registration/RegistrationScreen.js:33-36 | the contact number rule: required, digits only, at least ten; ContactExamples shows what it refuses |
| BuyerRegistration.PasswordOk | Pages/Buyer/Registration/RegistrationScreen.js:39-42 | the password rule: required, six or more UTF-16 units, and a lower-case letter, a capital and a digit on the first line; PasswordExamples shows each part failing |
| BuyerRegistration.ConfirmOk | Pages/Buyer/Registration/RegistrationScreen.js:43-45 | the confirmation is required and equals the password |
| BuyerRegistration.FormValid | Pages/Buyer/Registration/RegistrationScreen.js:29-46 | every rule of the schema holds; FormValidShape states what a valid form has |
| BuyerRegistration.FormValidShape | Pages/Buyer/Registration/RegistrationScreen.js:29-46 | a valid form has non-empty shop fields, a contact number of at least ten digits, and a confirmed password of six or more UTF-16 units |
| BuyerRegistration.ContactExamples | Pages/Buyer/Registration/RegistrationScreen.js:33-36 | ten digits pass the number rule; nine digits, or a dash among ten, fail |
| BuyerRegistration.PasswordExamples | Pages/Buyer/Registration/RegistrationScreen.js:39-42 | "Spice1" passes the password rule; a missing capital, five characters, or the letters moved past a line break all fail |
| BuyerRegistration.SubmissionOf | Pages/Buyer/Registration/RegistrationScreen.js:121-129 | the registration payload; SubmissionTrimmed states each field |
| BuyerRegistration.OutcomeOf | Pages/Buyer/Registration/RegistrationScreen.js:139-167 | the outcome of the server's answer; OutcomeSpec states when it succeeds and what it carries |
| BuyerRegistration.SubmissionTrimmed | Pages/Buyer/Registration/RegistrationScreen.js:121-129 | the payload's shop name, owner, number, email and location are the trimmed inputs, the password is passed as typed, and trimming the inputs first gives the same payload |
| BuyerRegistration.OutcomeSpec | Pages/Buyer/Registration/RegistrationScreen.js:139-167 | registration succeeds exactly on an OK answer, with a non-empty user id that falls back to the timestamp; a refusal always carries a message |
| BuyerRegistration.BuyerRegistrationScreen.constructor | Pages/Buyer/Registration/RegistrationScreen.js:105 | not loading |
| BuyerRegistration.BuyerRegistrationScreen.HandleRegister | Pages/Buyer/Registration/RegistrationScreen.js:117-171 | the payload and the outcome are the modelled ones, and the loading flag goes up and then down whatever the outcome |
| Registration.InitialValuesFrom | Pages/RegistrationScreen.js:50 | the `reduce` that maps each field name to ""; InitialValuesFromSpec states its keys and values |
| Registration.ContactNumberOk | Pages/RegistrationScreen.js:22 | the contact number rule: required and digits only; BuyerRulesStronger compares it with the buyer form's |
| Registration.ProductsOk | Pages/RegistrationScreen.js:23-27 | the products rule; ProductsOkIff states it |
| Registration.PasswordOk | Pages/RegistrationScreen.js:29 | the password rule: required and six or more UTF-16 units; PasswordLengthExamples shows the unit count at work |
| Registration.PasswordLengthExamples | Pages/RegistrationScreen.js:29 | three characters outside the Basic Multilingual Plane pass the six-unit minimum, while "abc" fails |
| Registration.FormValid | Pages/RegistrationScreen.js:18-31 | every rule of the schema holds; InitialValuesInvalid shows the starting form fails it |
| Registration.InitialValuesFromSpec | Pages/RegistrationScreen.js:50 | the reduce adds exactly the listed field names, each mapped to "" |
| Registration.InitialValuesSpec | Pages/RegistrationScreen.js:7-16 | the initial values map the eight field names, and no others, to "" |
| Registration.ProductsOkIff | Pages/RegistrationScreen.js:23-27 | the products field passes exactly when it has a non-whitespace character |
| Registration.InitialValuesInvalid | Pages/RegistrationScreen.js:18-31 | the values built from the eight initial fields read as all empty, and that form never validates |
| Registration.BuyerRulesStronger | Pages/RegistrationScreen.js:22-29 | the buyer form's number and password rules imply these ones, and "123" and "spices" show that the converse fails |
| AddNewProduct.DraftOf | Pages/AddNewProductScreen.js:60-66 | the product handed to the store; DraftOfSpec states each field |
| AddNewProduct.DraftOfSpec | Pages/AddNewProductScreen.js:60-66 | the draft's name, description and price are the trimmed inputs, its name is non-empty once the guard passed, the category is passed through, and the image is an object exactly when one was picked |
| AddNewProduct.AddProductScreen.constructor | Pages/AddNewProductScreen.js:22-27 | empty fields, category "Spices", no image, not loading |
| AddNewProduct.AddProductScreen.SelectCategory | Pages/AddNewProductScreen.js:173 | a chip sets one of the seven categories |
| AddNewProduct.AddProductScreen.AddAnother | Pages/AddNewProductScreen.js:73-79 | every field goes back to its starting value |
| AddNewProduct.AddProductScreen.HandleAddProduct | Pages/AddNewProductScreen.js:52-88 | a blank name stops with no draft, no flag and no store change; otherwise the draft goes to the store, the flag goes up then down, and only the authentication rejection gives the error alert |
| AlbaPriceList.OpenParamsSpec | Pages/Buyer/Cinnamon/Alba/AlbaPriceList.js:39-61 | rows open their own entry view-only, and the Update button opens an empty editable entry |
| AlbaPriceList.AfterAdds | Pages/Buyer/Cinnamon/Alba/AlbaPriceList.js:14-16 | the list after a run of adds; AfterAddsSpec states its order |
| AlbaPriceList.AfterAddsSpec | Pages/Buyer/Cinnamon/Alba/AlbaPriceList.js:14-16 | repeated adds put the new entries newest first in front of the unchanged old list |
| AlbaPriceList.PriceList.constructor | Pages/Buyer/Cinnamon/Alba/AlbaPriceList.js:7 | the list starts empty |
| AlbaPriceList.PriceList.Load | Pages/Buyer/Cinnamon/Alba/AlbaPriceList.js:9-11 | the list becomes the stored entries |
| AlbaPriceList.PriceList.AddNewPrice | Pages/Buyer/Cinnamon/Alba/AlbaPriceList.js:14-16 | the new entry goes first and the old list follows |
| ClovesPriceUpdate.Initial | Pages/Buyer/Products/Cloves/ClovesPriceUpdate.js:8-10 | a field's starting text, from `latest` or ""; InitialSpec states it |
| ClovesPriceUpdate.Complete | Pages/Buyer/Products/Cloves/ClovesPriceUpdate.js:13-16 | the completeness check on OK; CompleteIff states it |
| ClovesPriceUpdate.InitialSpec | Pages/Buyer/Products/Cloves/ClovesPriceUpdate.js:8-10 | a row's entry comes back into the fields unchanged; without `latest` the fields start empty and do not pass the check |
| ClovesPriceUpdate.CompleteIff | Pages/Buyer/Products/Cloves/ClovesPriceUpdate.js:13-16 | the check passes exactly when every field has a non-whitespace character |
| ClovesPriceUpdate.PriceUpdateScreen.constructor | Pages/Buyer/Products/Cloves/ClovesPriceUpdate.js:6-10 | each field is `latest`'s value or "" |
| ClovesPriceUpdate.PriceUpdateScreen.SetDate | Pages/Buyer/Products/Cloves/ClovesPriceUpdate.js:52 | the editable date field takes the typed text |
| ClovesPriceUpdate.PriceUpdateScreen.SetQuantity | Pages/Buyer/Products/Cloves/ClovesPriceUpdate.js:62 | the editable quantity field takes the typed text |
| ClovesPriceUpdate.PriceUpdateScreen.SetPrice | Pages/Buyer/Products/Cloves/ClovesPriceUpdate.js:72 | the editable price field takes the typed text |
| ClovesPriceUpdate.PriceUpdateScreen.HandleOk | Pages/Buyer/Products/Cloves/ClovesPriceUpdate.js:12-23 | the screen goes back exactly when the entry is complete; the untrimmed entry is handed over exactly when the callback is a function; the list grows only then |
| ClovesPriceUpdate.UpdateFromButton | Pages/Buyer/Products/Cloves/ClovesPriceUpdate.js:12-23 | from the Update button, a complete entry ends up first in the price list, and an incomplete one leaves the list as it was |
| PriceDetails.FormatDateDisplay | Pages/PriceDetailsScreen.js:17-37 | the long date and 12-hour time of an entry; FullDateParses and TimeParses read them back |
| PriceDetails.DisplayHours | Pages/PriceDetailsScreen.js:30 | the 12-hour clock hour; ClockSpec bounds it |
| PriceDetails.Suffix | Pages/PriceDetailsScreen.js:29 | AM or PM; ClockSpec states when each is used |
| PriceDetails.ClockSpec | Pages/PriceDetailsScreen.js:29-30 | the shown hour is 1 to 12 (12 exactly at midnight and noon), AM exactly before noon, and hour with suffix gives the hour of day back |
| PriceDetails.FullDatePieces | Pages/PriceDetailsScreen.js:34 | four space-free pieces laid out as the long date split back into those pieces |
| PriceDetails.FullDateParses | Pages/PriceDetailsScreen.js:19-26 | the long date reads back as the weekday name with a comma, the day, the month name and the year |
| PriceDetails.TimePieces | Pages/PriceDetailsScreen.js:35 | an hour, minutes and suffix laid out as the time split back into clock and suffix, and the clock into hour and minutes |
| PriceDetails.TimeParses | Pages/PriceDetailsScreen.js:28-35 | the time reads back as two-digit minutes and a shown hour that, with its suffix, give the time of day back |
| PriceDetails.ReasonShown | Pages/PriceDetailsScreen.js:127 | the reason line of an entry; ReasonShownSpec states it |
| PriceDetails.ReasonShownSpec | Pages/PriceDetailsScreen.js:127 | the reason line is the recorded reason when there is one, else "Manual price update", and never blank |
| ShopDetails.FallbackShopInfo | Pages/Supplier/ShopDetails.js:100-113 | the record shown when no details arrive; FallbackShopInfoSpec states every field and FallbackShopInfoIdempotent its stability |
| ShopDetails.FallbackShopInfoSpec | Pages/Supplier/ShopDetails.js:100-113 | the fallback always sets description, owner and telephone, takes each other field (price, availability and weekly quantity included) from the shop exactly when truthy, else its default (a 0 coordinate is replaced), and leaves every display field truthy |
| ShopDetails.FallbackShopInfoIdempotent | Pages/Supplier/ShopDetails.js:100-113 | falling back twice is falling back once |
| ShopDetails.DetailsRequested | Pages/Supplier/ShopDetails.js:32 | the details are fetched exactly when the shop has a truthy id |
| ShopDetails.DetailedShopInfo | Pages/Supplier/ShopDetails.js:28-56 | the record shown once the details request has ended; DetailedShopInfoSpec states each outcome |
| ShopDetails.DetailedShopInfoSpec | Pages/Supplier/ShopDetails.js:28-56 | without a shop id the fallback is used whatever the reply; a successful answer's details are used; any other outcome gives the fallback |
| ShopDetails.CallNumber | Pages/Supplier/ShopDetails.js:116-120 | the number dialled by the Call button; CallNumberSpec states it |
| ShopDetails.CallNumberSpec | Pages/Supplier/ShopDetails.js:115-120 | the contact number, else the telephone; no call exactly when neither is truthy; the fallback record is always callable |
| ShopDetails.DirectionsUrl | Pages/Supplier/ShopDetails.js:152-176 | the maps URL opened by the Directions button; DirectionsUrlSpec states it |
| ShopDetails.AppleFallbackUrl | Pages/Supplier/ShopDetails.js:182-184 | the URL opened when Apple Maps cannot be; DirectionsUrlSpec relates it to the Google URL |
| ShopDetails.DirectionsUrlSpec | Pages/Supplier/ShopDetails.js:152-184 | directions to `lat,lng` exactly when both coordinates are truthy, else a search for the location; both map apps choose alike, and the Apple fallback is the Google URL |
| ShopDetails.FormatDate | Pages/Supplier/ShopDetails.js:203-206 | the day/month/year label of a history entry; FormatDateParses reads it back |
| ShopDetails.FormatDateParses | Pages/Supplier/ShopDetails.js:203-206 | the label reads back as day, 1-based month and year |
| ShopDetails.ShownEntries | Pages/Supplier/ShopDetails.js:281 | the entries the card lists; ShownEntriesSpec states them |
| ShopDetails.ShownEntriesSpec | Pages/Supplier/ShopDetails.js:281 | the card shows the first three entries, or all when fewer, in order |
| ShopDetails.PlaceholderLabelsDisagree | Pages/Supplier/ShopDetails.js:303-310 | the placeholder entry of 5 April 2025 is labelled "4/5/2025" but `formatDate` gives "5/4/2025" |
| ShopDetails.RowLabels | Pages/Supplier/ShopDetails.js:281-338 | the card shows three placeholder rows for an empty history, else one row per shown entry |
| ShopDetails.RowLabelsParse | Pages/Supplier/ShopDetails.js:281-338 | every row label, placeholders included, reads back day first as its entry's date |

## Left out

- Network, storage, alerts, navigation, `Linking.openURL` and the image picker are not modelled as effects. Their results are inputs: `Reply`, storage success flags, the picked image's URI.
- Concurrency: overlapping async operations and the focus- and mount-triggered refetches. Each operation runs to completion once its reply is given.
- `Date.now()` and `new Date()` are parameters (`now`, `DateParts`). Parsing ISO strings into local date parts is not modelled.
- Floating-point values: `parseFloat`, `toFixed`, currency formatting and coordinates as floats. Prices and quantities stay text, ratings are tenths of a star, and coordinates are integers in 1e-4 degree.
- Yup's `email()` check is an input flag, `emailOk`. Formik's wiring is not modelled.
- `encodeURIComponent` is not modelled: a search URL carries the location as given.
- Text.ToLower: folds ASCII letters only, not full Unicode case mapping.
- The stored Alba price data file is not part of this model, so `Load` takes the initial prices as a parameter.
- The Alba screen's own add-price helper and the Alba price update screen are not part of this model. Only the Cloves entry screen, which takes the same parameters, is modelled.
- ShopDetails' `fetchPriceHistory` and its loading flag are not modelled; the history is an input to the card.
- ShopDetails with no `shop` route parameter at all is not modelled. The record is always given.
- The product category is not sent to the server, because the store's request body does not include it (see above). The model drops it in the same way.
- ProductPriceScreen.SortNewestFirst: an insertion sort, which may order equal dates differently from the JavaScript engine's sort. Only the descending order and the entries are stated.
- Stored user data that does not parse, or parses to `null`, after the stored token has already been restored (Pages/ProductContext.js:22-25) is not modelled: storage holds a parsed user or nothing, so the state with a token and no user cannot arise.
- Malformed JSON bodies are not modelled. Each reply is a well-formed value or a failure.
- Presentation: JSX, styles, animation and layout helpers.

## Findings

| source | as written | input that shows it | evidently intended | confidence | as-written member | corrected member |
|---|---|---|---|---|---|---|
| Pages/Supplier/ShopDetails.js:310 | the placeholder rows' date labels are written month first ("4/5/2025", and likewise at lines 324 and 338) | the placeholder entry dated 5 April 2025 (lines 303-307): `new Date('2025-04-05')` is midnight UTC, so in UTC+5:30, or any zone at or east of UTC, `formatDate` (lines 203-206) renders "5/4/2025", and west of UTC "4/4/2025"; neither is the written label | every row labelled day first by `formatDate`, like the real entries | low, not executed | ShopDetails.PlaceholderLabelsDisagree | ShopDetails.RowLabels |
