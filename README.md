# SE-RMS account and listing approval, in Dafny

SE-RMS is a rental-management application. An Express/Mongoose backend
keeps two collections, user accounts and property listings. A React
frontend lets people sign up, list a property and browse the listings.
Access to the system works as a two-stage gate:

- an account can log in only once an administrator has approved it and
  has not banned it;
- a listing is shown to the public only once an administrator has
  approved it;
- an owner may edit a listing only while it is still pending.

This project models that core and proves what it promises.

- `wrappers.dfy` (`Wrappers`): `Option`.
- `text.dfy` (`Text`): the JavaScript string operations the core relies on. It covers:
  - `trim`, with the full white-space set;
  - `parseInt` in base 10, where `NaN` becomes `None`;
  - integer `toString`;
  - the code-unit order that MongoDB's `$gte`/`$lte` apply to strings.

  It also proves lemmas about them: `parseInt` reads back what `toString`
  writes, and string order equals numeric order for digit strings of equal
  length.
- `models.dfy` (`Models`): the `User` and `Property` records with their
  defaults and the `type` enumeration. It also holds the token a login
  signs and the reply (`Ok` with a message and a value, or `Fail` with a
  status and a message).
- `store.dfy` (`Store`): the database, modelled as a class `Db`.
  - `Db` has a user map, a property map and one identifier counter. The
    counter makes identifier order equal creation order.
  - `FindOne` models `findOne`: the first match in identifier order.
  - `Find` models `find(...).sort({createdAt: -1})`: every match, newest
    first.
  - `Db.Valid` is the invariant every handler keeps:
    - identifiers stay below the counter;
    - usernames and emails are unique;
    - every stored property type is in the enumeration.
- `auth_routes.dfy`, `admin_routes.dfy` and `property_routes.dfy`: one
  member per route handler.
  - A handler that changes the database is a method with `modifies db`.
  - A read-only handler is a function of the collections.
  - An authenticated caller is a `Token(userId, role)`.
  - The `isAdmin` middleware is the precondition `caller.role == AdminRole`.
- `amenities.dfy` (`Amenities`): the checkbox toggle both pages use. It
  removes every copy of the amenity if present and appends it otherwise.
- `register_form.dfy`, `property_form.dfy` and `listings_page.dfy`: the
  sign-up page, the property form and the public listings page. Each models:
  - the page's form state;
  - the client-side validation, with its ordered error messages;
  - the request body it sends;
  - what the page shows once the server replies (the reply is a parameter).

Each model connects to the backend by a lemma:
- a sign-up form that validates carries every required field;
- a property form that validates, with a type taken from the selector,
  passes every check of the submit route;
- a search typed into the listings page returns exactly the approved
  listings that meet each non-empty filter.

### Behaviour worth knowing

- Passwords are stored and compared as given (`User.js:23-25`). Nothing is hashed.
- There is no unban route. `admin.js` has only approve and ban.
- Reject deletes any listing with that identifier, approved or not.
- Editing an approved listing is refused with status 403 ("Cannot update approved property").
- `GET /property/:id` is public and also returns pending listings.
- Submitting a listing does not add it to the owner's `ownedProperties`. The submit route does not look at the caller's account (approval or ban); it trusts the token.
- Search treats `minBhk` as an equality test on `bhk`.
- The pincode band compares strings. `PropertyRoutes.PincodeNearIsNumeric` shows it equals the numeric band when the three strings have the same length. `PropertyRoutes.PincodeBandEmptyAtCarry` shows it is empty whenever `p + 2` has more digits than `p - 2`, that is, when the band crosses a power of ten. For example, search pincode 8 gives "6".."10", and search pincode 99998 gives "99996".."100000"; no string lies in either range.
- The band is inclusive at both ends. With listings at 10001, 10002, 10005 and 10006, a search for 10003 returns 10005, 10002 and 10001, in that order (`PropertyRoutes.SearchByPincodeExample`).

## Model

| member | source | states |
|---|---|---|
| Models.NewUser | backend/routes/auth.js:22-31 | a new account has role user, is neither approved nor banned, has empty arrays, and keeps every given field |
| Models.ParseType | backend/models/Property.js:7 | a type is accepted exactly when it is "flat", "bungalow" or "pin code", and the accepted value is named by that string |
| Models.ComparePasswordExact | backend/models/User.js:23-25 | the stored password is accepted and no other candidate is; nothing is hashed |
| Store.Db.constructor | backend/models/User.js:8-10 | the empty database satisfies `Db.Valid`: identifiers below the counter, usernames and emails unique (the unique indexes), every stored type in the enumeration of `backend/models/Property.js:7`; every handler keeps `Db.Valid` |
| Store.FindOne | backend/routes/auth.js:13-15 | a result exists, is below the counter and matches the query, and no smaller identifier matches; no result means no record matches |
| Store.Find | backend/routes/property.js:47-49 | the result holds exactly the records that match the query, newest first |
| AuthRoutes.Register | backend/routes/auth.js:8-44 | an existing username or email gives 400 and no change; a missing required field gives 500 and no change; otherwise a fresh pending account is stored under a new identifier; the database invariant is kept |
| AuthRoutes.Login | backend/routes/auth.js:49-89 | "User not found" exactly when no account has the username; a success means the account is approved, not banned and has that password, and the reply carries its id, username and role |
| AuthRoutes.LoginUnapproved | backend/routes/auth.js:57-58 | a pending account is refused with 403 whatever the password |
| AuthRoutes.LoginBanned | backend/routes/auth.js:61-62 | an approved but banned account is refused with 403 whatever the password |
| AuthRoutes.LoginWrongPassword | backend/routes/auth.js:65-66 | status 400 exactly when an approved, unbanned account has that username and another password |
| AuthRoutes.LoginSucceedsIff | backend/routes/auth.js:53-83 | login succeeds exactly when the account is approved, unbanned and the password matches, and the token names that account and its role |
| AdminRoutes.ApproveUser | backend/routes/admin.js:8-24 | an unknown id gives 404 and no change; otherwise only that account becomes approved; approving twice changes nothing |
| AdminRoutes.BanUser | backend/routes/admin.js:27-45 | an unknown username gives 404 and no change; otherwise only that account becomes banned, and the message names the username |
| PropertyRoutes.NewProperty | backend/routes/property.js:16-29 | a new listing belongs to the caller, is pending, has no renter, and has no amenities unless some were given |
| PropertyRoutes.SubmitProperty | backend/routes/property.js:8-42 | a missing name, address, type, rent or deposit gives 400; a type outside the enumeration gives 500; otherwise a pending listing owned by the caller is stored under a new identifier |
| PropertyRoutes.Pending | backend/routes/property.js:45-56 | for an administrator, exactly the pending listings, newest first |
| PropertyRoutes.Approved | backend/routes/property.js:59-70 | exactly the approved listings, newest first |
| PropertyRoutes.MyProperties | backend/routes/property.js:117-127 | exactly the caller's listings, approved or not, newest first |
| PropertyRoutes.GetById | backend/routes/property.js:130-145 | the stored listing, whether approved or not, or 404 when there is none |
| PropertyRoutes.SearchPincode | backend/routes/property.js:80-88 | the pincode filter applies only when the pincode is present, not blank, and parses as an integer |
| PropertyRoutes.SearchQuery | backend/routes/property.js:75-103 | the query always requires approval, and each other filter applies exactly when its input is present and meaningful |
| PropertyRoutes.Search | backend/routes/property.js:73-114 | only approved listings are returned, newest first |
| PropertyRoutes.SearchIff | backend/routes/property.js:77-107 | a listing is returned exactly when it meets every active filter |
| PropertyRoutes.PincodeNearIsNumeric | backend/routes/property.js:83-86 | for same-length digit strings, the string band equals the numeric band p-2..p+2 |
| PropertyRoutes.SearchByPincodeExample | backend/routes/property.js:79-86 | listings at 10001, 10002, 10005 and 10006 searched with 10003 return the first three, newest first |
| PropertyRoutes.PincodeBandEmptyAtCarry | backend/routes/property.js:83-86 | whenever `p + 2` is written with more digits than `p - 2`, no pincode lies in the band |
| PropertyRoutes.ApproveProperty | backend/routes/property.js:148-165 | an unknown id gives 404 and no change; otherwise only that listing becomes approved; approving twice changes nothing |
| PropertyRoutes.RejectProperty | backend/routes/property.js:168-182 | an unknown id gives 404 and no change; otherwise that listing is removed, approved or not, and nothing else changes |
| PropertyRoutes.Patched | backend/routes/property.js:205-214 | an edit never changes the owner, the renter or the approval flag |
| PropertyRoutes.PatchedNeutralAndIdempotent | backend/routes/property.js:205-214 | an empty body changes nothing, and applying the same body twice equals applying it once |
| PropertyRoutes.Assign | backend/routes/property.js:205-214 | the assignment chain, run in three stages, produces exactly the patched listing |
| PropertyRoutes.UpdateProperty | backend/routes/property.js:185-224 | the errors come in order: 404 unknown, 403 not the owner, 403 already approved, 500 invalid type, each with no change; on success only that listing is replaced by its patched form |
| Text.Trim | backend/routes/property.js:80 | the trimmed text is no longer than the input and is empty or neither starts nor ends with white space |
| Text.TrimIsMiddle | backend/routes/property.js:80 | the trimmed text is the middle of the input, and everything cut off on either side is white space |
| Text.TrimEmptyIff | backend/routes/property.js:80 | a string trims to empty exactly when it is all white space |
| Text.DigitsOf | backend/routes/property.js:84-85 | the decimal digits of a number have no leading zero and read back as that number |
| Text.IntToString | backend/routes/property.js:84-85 | a minus sign exactly for a negative number, then digits that read back as its magnitude |
| Text.ParseInt | backend/routes/property.js:81-82 | the result is NaN exactly when no digit follows the white space and optional sign; a negative result comes from a leading minus |
| Text.ParseIntSkipsSpace | backend/routes/property.js:81 | leading white space does not change what `parseInt` returns |
| Text.ParseIntOfDigits | backend/routes/property.js:81 | an optional sign (`-` or `+`) and a run of digits, followed by text that does not start with a digit, parse as the signed value of the digits |
| Text.ParseIntOfToString | backend/routes/property.js:81-85 | parsing an integer's decimal text, with any non-digit text after it, gives that integer back |
| Text.LexLeIsNumeric | backend/routes/property.js:83-86 | for digit strings of equal length, string order and numeric order agree |
| Amenities.Without | frontend/src/components/PropertyRegister.js:54 | every copy of the amenity is removed and every other amenity is kept as often as it occurred |
| Amenities.Toggle | frontend/src/components/PropertyRegister.js:50-57 | after a toggle the amenity is selected exactly when it was not before, and every other amenity keeps its state |
| Amenities.ToggleTwice | frontend/src/components/PropertyListings.js:76-82 | toggling twice restores every amenity's state, and restores the exact list when the amenity was absent |
| Amenities.ToggleDistinct | frontend/src/components/PropertyRegister.js:50-57 | toggling keeps a list free of duplicates |
| RegisterForm.Validate | frontend/src/components/Register.js:28-50 | the form passes exactly when every check holds, and a failing form reports the first failing check's message, for each of the five checks |
| RegisterForm.Payload | frontend/src/components/Register.js:61-67 | the body carries every field but the confirmation |
| RegisterForm.ValidFormHasRequiredFields | frontend/src/components/Register.js:54-67 | a form that passes validation never hits the server's missing-field error |
| RegisterForm.HandleSubmit | frontend/src/components/Register.js:52-95 | an invalid form shows its error; a refused reply shows the server's message, or "Registration failed" when it is empty, and keeps the form and the success banner; an accepted reply shows the message, leaves the error banner as it was and clears the form |
| PropertyForm.Validate | frontend/src/components/PropertyRegister.js:59-81 | the form passes exactly when name, address, positive rent, positive deposit and photo are present, and reports the first failing check's message, for each of the five checks |
| PropertyForm.ToggleAmenity | frontend/src/components/PropertyRegister.js:50-57 | only the toggled amenity changes state, and no other field changes |
| PropertyForm.Body | frontend/src/components/PropertyRegister.js:95 | the body carries every field of the form (name, address, type, pincode, bhk, description, photo, amenities), with the rent and deposit that were entered |
| PropertyForm.ValidFormIsAccepted | frontend/src/components/PropertyRegister.js:83-96 | a form that passes validation, with a type from the selector, passes the submit route's field and type checks |
| PropertyForm.HandleSubmit | frontend/src/components/PropertyRegister.js:83-130 | an invalid form shows its error; a refused reply shows the server's message, or "Failed to register property" when it is empty, and keeps the form and the success banner; an accepted reply shows the message, leaves the error banner as it was and resets to flat, 1BHK, no amenities and no photo |
| ListingsPage.ToggleAmenity | frontend/src/components/PropertyListings.js:76-82 | only the toggled amenity changes state, and no other filter changes |
| ListingsPage.SearchPayload | frontend/src/components/PropertyListings.js:44-49 | empty inputs are left out, and the maximum rent is sent parsed |
| ListingsPage.SearchFromPage | frontend/src/components/PropertyListings.js:39-58 | a listing comes back exactly when it is approved and meets each filter typed on the page |
| ListingsPage.ClearedSearchIsApproved | frontend/src/components/PropertyListings.js:67-74 | a search with cleared filters returns the approved listings in the same order |
| ListingsPage.Click | frontend/src/components/PropertyListings.js:84-86 | clicking the open listing closes it, and clicking any other listing opens that one |
| ListingsPage.ClickTwice | frontend/src/components/PropertyListings.js:84-86 | two clicks on a listing return to the starting selection when that listing was open or nothing was |

## Left out

- JSON Web Tokens (signing, expiry, the secret) and the `authMiddleware`/`isAdmin` middleware, which is not part of this model. The login reply carries the token payload. A caller is given as that payload, and the administrator check is a precondition.
- Asynchronous database I/O, `populate` of owner and renter names, `timestamps`, and every `catch` that answers 500 because the database failed. Schema failures the model can name become `Fail(500, "Server error")`: a missing required account field on register, and an invalid type on submit or update.
- `server.js`, `resetAdminPassword.js`, `debugAdminCheck.js`, `App.js` and the two dashboards. They are not part of this model apart from the routes they call.
- Rendering, `handleChange`, the loading flags, the `setTimeout` navigation and the delayed clearing of the success banner, the `FileReader` photo preview, and the network calls of the pages. The server's reply is a parameter of each `HandleSubmit`.
- `ListingsPage`: `fetchProperties` is not modelled as a member. It is `PropertyRoutes.Approved`, and `ListingsPage.ClearedSearchIsApproved` ties the cleared search to it.
- Text.ParseInt: does not model the `0x` prefix or a radix other than 10.
- PropertyRoutes.MissingRequired, PropertyRoutes.PickNumber: a number is falsy only when it is 0. The page sends rent and deposit as the strings typed into number inputs. In JavaScript a string "0" is truthy, so it passes the required-field check and the edit's `if (rentPerMonth)`, and the database then stores 0. A `null` or `NaN` value, which is falsy, is also not represented. The model's integers stand for the values after the database's cast.
- AdminRoutes.ApproveUser, PropertyRoutes.GetById, PropertyRoutes.ApproveProperty, PropertyRoutes.RejectProperty, PropertyRoutes.UpdateProperty: identifiers are natural numbers, so every identifier the model can be given is well formed, and an unknown one answers 404. In the source, a path identifier that is not a well-formed ObjectId makes `findById` or `findByIdAndDelete` throw, and the route answers 500 "Server error".
- Store.Find: records are ordered strictly by identifier. The source sorts on `createdAt`, which has millisecond resolution, so records created in the same millisecond come back in an order the database does not fix.
- Strings are sequences of code points, not UTF-16 code units. `length` and string order agree with JavaScript only for text inside the Basic Multilingual Plane.
- Numbers are integers. Fractional rents, fractional deposits and floating-point rounding are left out.
- PropertyForm.Validate: an empty number input is `None`, and any other input is the integer typed. A non-numeric string cannot come out of a number input.
- Register: a duplicate key raced in by a concurrent request is not modelled. Requests run one at a time.
- The unban action the dashboard calls has no backend route, so there is nothing to model.
