# A verified model of the Cockpit REST controllers

This is a Dafny model of the request-deciding logic of two PHP controllers of
a Cockpit-based photo-discussion site.

- `modules/Collections/Controller/RestApi.php` (`CollectionsApi`):
  - `get`, with its option building, sort coercion, field ACL and `total` rule;
  - `save`, which stamps `_by` and picks the capability;
  - `remove`, which narrows the filter and checks errors in order;
  - `upload`, with its guards, the discussion update, the file name and the mail;
  - `_fixStringBooleanNumericValues`.
- `modules/Cockpit/Controller/RestApi.php` (`CockpitApi`):
  - `authUser`, `isLogged`, `saveUser`, `resetPassword` and `verifyEmail`;
  - `verifyLostPassLink` and `savePassword`;
  - `listUsers`, the option set of `image`, and `assets`.

Shared modules:

- `PhpValues` models PHP values: truthiness, `intval`, string conversion, and
  `isset`/read/write/`unset` on arrays, with PHP's canonical integer keys.
- `Http` holds the request, the response, the store writes, the mails,
  `findOne`, and the store's save as an upsert.
- `Templates` models the `{{placeholder}}` substitution of the mail templates,
  a sequence of literal replace-alls, and the loop that renders each template.

A controller operation is modelled as follows:

- It takes the request and its collaborators as values. Store queries,
  `hasaccess`, `authenticate`, the token codec, the hash, the clock, template
  reads and the mailer's result are all inputs.
- It returns an `Outcome`: the response, the writes issued to the store, and
  the mails sent. "Nothing is written" therefore reads `writes == []`.
- Code that works step by step is a `method` with loops and is proved against
  a specification function. This covers the by-reference coercion loop, the
  options built key by key, the sort loop, the field loop, the image filters,
  the password unset loop, the template loop and `saveUser`'s changes to
  `$data`. The remaining code is functions.

Three behaviours of the code are easy to misread, and the model follows the
code in each:

- A new account defaults to `active = true`
  (modules/Cockpit/Controller/RestApi.php:88), so it is active before its
  email is verified.
- An empty submitted password is removed from the record
  (modules/Cockpit/Controller/RestApi.php:102-108).
- `isLogged` never reissues a token.

## Model

| member | source | states |
|---|---|---|
| CollectionsApi.FixStringBooleanNumericValues | modules/Collections/Controller/RestApi.php:314-339 | the by-reference loop returns exactly `Fixed(a)`; each nested recursion is overwritten by the copy taken before it |
| CollectionsApi.FixedNonArray | modules/Collections/Controller/RestApi.php:316-318 | a value that is not an array comes back unchanged |
| CollectionsApi.FixedPerKey | modules/Collections/Controller/RestApi.php:320-336 | the key set (object) or length (list) is kept, and every key reads as the coercion of the original element |
| CollectionsApi.FixedElement | modules/Collections/Controller/RestApi.php:326-335 | "true"/"false" become booleans, other integer strings become their number, and nested arrays and non-strings come back identical |
| CollectionsApi.FixedIdempotent | modules/Collections/Controller/RestApi.php:314-339 | converting twice equals converting once |
| CollectionsApi.FixedTruthy | modules/Collections/Controller/RestApi.php:92 | the conversion keeps truthiness, so the `$filter ? $filter : []` of `total` sees the same emptiness |
| CollectionsApi.FixedDeepPerKey | modules/Collections/Controller/RestApi.php:322-324 | corrected conversion: non-array elements are converted as in the original, and each nested array is itself converted in full |
| CollectionsApi.FixedDeepSettles | modules/Collections/Controller/RestApi.php:322-324 | corrected conversion: no string "true", "false" or integer string is left at any depth of the result |
| CollectionsApi.NestedStringNotConverted | modules/Collections/Controller/RestApi.php:322-335 | for `{published: {$eq: "true"}}` the original keeps the nested string while the corrected conversion yields `true` |
| CollectionsApi.CoerceSort | modules/Collections/Controller/RestApi.php:55-60 | the loop makes every element of an array sort `intval` of itself, and leaves a non-array sort as it is |
| CollectionsApi.SortCoercedIsNumeric | modules/Collections/Controller/RestApi.php:55-60 | after coercion every key or index of an array sort, null elements included, holds `intval` of its element, with the same keys or length |
| PhpValues.StringIntValOfIntegerString | modules/Collections/Controller/RestApi.php:33-35 | on an optionally signed run of digits, `intval` gives the number the string spells, as the `is_numeric` conversion does |
| PhpValues.StringIntValSkipsSpace | modules/Collections/Controller/RestApi.php:33-35 | `intval` ignores any run of spaces, tabs, newlines, carriage returns, vertical tabs and form feeds before the number |
| CollectionsApi.CopyParams | modules/Collections/Controller/RestApi.php:32-37 | filter, fields, sort and populate are copied when truthy; limit and skip are copied as `intval` when truthy; there are no other keys |
| CollectionsApi.CopyFilterLimitSort | modules/Collections/Controller/RestApi.php:32-34 | the first three assignments: each key is present iff its parameter is truthy, and holds its value; there are no other keys |
| CollectionsApi.CopyFieldsSkipPopulate | modules/Collections/Controller/RestApi.php:35-37 | the last three assignments add fields, skip and populate and change no other key |
| CollectionsApi.ParamOptions | modules/Collections/Controller/RestApi.php:32-41 | a query-string filter or field list is replaced by its string conversion; the returned `$filter` is the converted one |
| CollectionsApi.AddFieldsFilter | modules/Collections/Controller/RestApi.php:43-53 | `fieldsFilter` is the extended filter when that is a non-empty array, else the truthy parameter, else absent; no other key changes |
| CollectionsApi.FieldsFilterCarriesUser | modules/Collections/Controller/RestApi.php:46-53 | with a logged-in user and a writable parameter, the fields filter is present and its `user` is the user |
| CollectionsApi.CoerceSortOption | modules/Collections/Controller/RestApi.php:55-60 | a present sort is replaced by its coercion; no other key changes |
| CollectionsApi.BuildGetOptions | modules/Collections/Controller/RestApi.php:30-61 | the options are exactly the seven documented keys, each present and valued per its rule, and `$filter` is returned |
| CollectionsApi.DescribeKeys | modules/Collections/Controller/RestApi.php:81-86 | a listed entry has exactly the keys name, type, localize and options |
| CollectionsApi.FieldListedIff | modules/Collections/Controller/RestApi.php:71-87 | a name is listed iff some field of that name is visible (no user, no non-empty array `acl`, or the user's `_id` or `group` in it) |
| CollectionsApi.LastVisibleExtends | modules/Collections/Controller/RestApi.php:71-87 | the last visible field of a name stays last when a field that is not a visible field of that name follows |
| CollectionsApi.FieldListedLast | modules/Collections/Controller/RestApi.php:71-87 | a listed name is described by the last visible field of that name |
| CollectionsApi.VisibleFields | modules/Collections/Controller/RestApi.php:67-87 | the `foreach` with `continue` builds exactly `FieldListing` |
| CollectionsApi.GetEntries | modules/Collections/Controller/RestApi.php:10-93 | 412 without a name or for an unknown collection, then, for a logged-in user, 401 without `entries_view`; otherwise the options meet `GetOptionsSpec` and the result is the entries (simple) or `{fields, entries, total}`, where `total` is the page length unless skip or limit is truthy |
| CollectionsApi.SaveEntry | modules/Collections/Controller/RestApi.php:98-120 | false without a name or data, then 412 for an unknown collection, then, for a logged-in user, 401 without the edit/create capability; the single write happens iff all checks pass, and is the data stamped with `_by` |
| CollectionsApi.SaveStampsBy | modules/Collections/Controller/RestApi.php:115-117 | the saved entry has `_by` equal to the acting user's id, and every other key as sent |
| CollectionsApi.NarrowFilterSpec | modules/Collections/Controller/RestApi.php:132-137 | a string becomes `{_id: s}`, a filter with `_id` becomes exactly `{_id: filter._id}`, and anything else is unchanged |
| CollectionsApi.NarrowFilterIdempotent | modules/Collections/Controller/RestApi.php:132-137 | narrowing twice equals narrowing once |
| CollectionsApi.NarrowFilterIgnoresOtherKeys | modules/Collections/Controller/RestApi.php:135-137 | two filters with the same `_id` narrow to the same filter |
| CollectionsApi.RemoveEntries | modules/Collections/Controller/RestApi.php:122-154 | 417 before 412 before 401; nothing is removed iff the response is an error; when every check passes, exactly one removal with the narrowed filter, and `{success, count}` |
| CollectionsApi.RemoveIgnoresExtraKeys | modules/Collections/Controller/RestApi.php:135-137 | a filter that sets `_id` behaves like the filter holding only that `_id` |
| CollectionsApi.SpacesToDashesDistributes | modules/Collections/Controller/RestApi.php:265 | the space rewrite distributes over concatenation |
| CollectionsApi.DropDisallowedDistributes | modules/Collections/Controller/RestApi.php:265 | the character filter distributes over concatenation |
| CollectionsApi.SanitizeDistributes | modules/Collections/Controller/RestApi.php:265 | sanitising works character by character |
| CollectionsApi.SanitizeFileNameSpec | modules/Collections/Controller/RestApi.php:265 | only `[A-Za-z0-9_.-]` remain; the name never grows, and keeps its length iff it holds only those characters and spaces |
| CollectionsApi.SanitizeSpace | modules/Collections/Controller/RestApi.php:265 | a space becomes a dash between the sanitised parts |
| CollectionsApi.SanitizeKeepsAllowed | modules/Collections/Controller/RestApi.php:265 | a name made only of allowed characters is unchanged |
| CollectionsApi.SanitizeIdempotent | modules/Collections/Controller/RestApi.php:265 | sanitising twice equals sanitising once |
| CollectionsApi.UploadCompletedRejected | modules/Collections/Controller/RestApi.php:244-254 | a completed discussion is refused; a caller without the turn is told so first |
| CollectionsApi.GuardedDiscussionIsObject | modules/Collections/Controller/RestApi.php:230-244 | once the guards pass, the discussion exists and is an object |
| CollectionsApi.LastOtherIndex | modules/Collections/Controller/RestApi.php:248-252 | the index of the last photographer whose `_id` differs from the caller's, or none when all match |
| CollectionsApi.FindNextAuthor | modules/Collections/Controller/RestApi.php:247-252 | the loop ends with the lookup of the last photographer who is not the caller, or null |
| CollectionsApi.NextAuthorIsNotCaller | modules/Collections/Controller/RestApi.php:248-252 | with a lookup that returns records with the requested id, the new turn never names the caller |
| CollectionsApi.UpdateDiscussion | modules/Collections/Controller/RestApi.php:273-289 | one upload is appended after the earlier ones; the flags come from the request; `turn` is the next author; the other fields are unchanged |
| CollectionsApi.AcceptUpload | modules/Collections/Controller/RestApi.php:273-311 | an `uploads` that is neither a list, null nor false throws (a missing, null or false one starts as an empty list); otherwise one save of the updated discussion, one mail to the next author, and a warning 412 when the mail fails |
| CollectionsApi.Upload | modules/Collections/Controller/RestApi.php:225-312 | the guards in order give 412 with nothing written; a failed move gives 412 naming the file; otherwise as `AcceptUpload` |
| CollectionsApi.UploadPassesTheTurn | modules/Collections/Controller/RestApi.php:244 | after a successful upload, the same caller's next upload on the saved discussion is refused as not their turn |
| CockpitApi.LoginClaims | modules/Cockpit/Controller/RestApi.php:26-28 | a login token names the account and expires 900 seconds after issue |
| CockpitApi.ResetClaims | modules/Cockpit/Controller/RestApi.php:166-168 | a reset token names the account and expires 3600 seconds after issue |
| CockpitApi.ExpiryBoundary | modules/Cockpit/Controller/RestApi.php:42 | a token is refused iff `expire < now`; at `expire == now` it is accepted |
| CockpitApi.TokenLifetimes | modules/Cockpit/Controller/RestApi.php:26-28 | a login token is accepted until issue+900 and a reset token until issue+3600, inclusive |
| CockpitApi.StripPassword | modules/Cockpit/Controller/RestApi.php:215-217 | the result has no `password`, is an array iff the input is, and every other key is unchanged |
| CockpitApi.StripSecrets | modules/Cockpit/Controller/RestApi.php:245-246 | the result has neither `password` nor `api_key`, is an array iff the input is, and every other key is unchanged |
| CockpitApi.AuthUser | modules/Cockpit/Controller/RestApi.php:11-30 | 412 without user or password; success iff authentication gives an account, and then the account with a login token for its id; present credentials that do not authenticate get 401 with the credentials message |
| CockpitApi.IsLogged | modules/Cockpit/Controller/RestApi.php:32-50 | 412 without a token; an undecodable token throws; an expired token gets 401; otherwise `{user}` holds the owner without its password (an object when the owner is an array), and null when no account has the token's id |
| CockpitApi.LoginTokenOpensSession | modules/Cockpit/Controller/RestApi.php:26-44 | a token issued by `authUser` opens a session iff at most 900 seconds have passed since issue |
| CockpitApi.Merge | modules/Cockpit/Controller/RestApi.php:84-91 | the keys are the union; a submitted value beats the default |
| CockpitApi.SaveUserOwnRecordOnly | modules/Cockpit/Controller/RestApi.php:59-69 | for a logged-in user who is not a super-admin, a record without `_id` or with another `_id` gets 401, and their own record passes |
| CockpitApi.NewAccountDefaults | modules/Cockpit/Controller/RestApi.php:84-94 | on create, submitted fields beat the defaults, the defaults fill the gaps, and `api_key` is the generated key |
| CockpitApi.AccountRecord | modules/Cockpit/Controller/RestApi.php:72-113 | the stored record is the merge (new only), with the password hashed if non-empty, dropped if empty, or kept if unset; `_modified = now`; `_created = now` on create, and on update only a submitted `_created`, unchanged; nothing else changes |
| CockpitApi.AfterSave | modules/Cockpit/Controller/RestApi.php:117-121 | `$data` after the save has no password and has the stored or assigned `_id`; the rest matches the stored record |
| CockpitApi.StoredAccountId | modules/Cockpit/Controller/RestApi.php:117-135 | the id in the activation token is the submitted `_id` on update and the store-assigned one on create |
| CockpitApi.ConfirmAccount | modules/Cockpit/Controller/RestApi.php:117-148 | it writes the account, then a photographer entry with name, edition and email, and mails the two verify templates with the server, the name and a non-expiring token |
| CockpitApi.SaveUser | modules/Cockpit/Controller/RestApi.php:52-149 | when a guard fails, its reply with nothing written; otherwise two writes (the record meeting `StoredAccount`, the photographer entry) and the activation mail, answering the mailer's result |
| CockpitApi.ResetPassword | modules/Cockpit/Controller/RestApi.php:151-186 | nothing is written; 412 without an email or for an unknown email; otherwise the two reset templates are mailed to that email with a one-hour token for the account |
| CockpitApi.VerifyEmail | modules/Cockpit/Controller/RestApi.php:188-220 | 412 without a token; an undecodable token throws; 412 for an unknown account; a 412 warning with no write for an active account; otherwise the account is saved with `active = true` and returned without its password |
| CockpitApi.VerifyEmailActivates | modules/Cockpit/Controller/RestApi.php:207-219 | the saved document differs from the account only in `active = true`, and the response has no password |
| CockpitApi.VerifyEmailTwice | modules/Cockpit/Controller/RestApi.php:188-220 | after the activation is saved, the same link only gets the already-active warning |
| CockpitApi.VerifyLostPassLink | modules/Cockpit/Controller/RestApi.php:222-249 | nothing is written; 412 without a code; an undecodable code throws; an expired code gets 401; an unknown account gets 412; otherwise the account (still an array) without password and `api_key` |
| CockpitApi.SavePassword | modules/Cockpit/Controller/RestApi.php:251-279 | 412 without password or token; an undecodable token throws; a token naming no account gets 412 with nothing written; otherwise the owner is stored with the new hash and answered without secrets |
| CockpitApi.SavePasswordIgnoresExpiry | modules/Cockpit/Controller/RestApi.php:260-273 | any decodable token naming an existing account changes that account's password, however old the token is |
| CockpitApi.SavePasswordAcceptsExpiredReset | modules/Cockpit/Controller/RestApi.php:260-273 | a reset token issued two hours ago is expired, yet `savePassword` writes with it, while the corrected version answers 401 |
| CockpitApi.SavePasswordChecked | modules/Cockpit/Controller/RestApi.php:251-279 | corrected: 412 without password or token; an undecodable token throws; an expired token gets 401 as in `verifyLostPassLink`; an unexpired one behaves exactly as `savePassword`, and every write is the one `savePassword` makes |
| CockpitApi.SavePasswordCheckedHonoursExpiry | modules/Cockpit/Controller/RestApi.php:251-279 | corrected: every write comes from a decodable token that has not expired |
| CockpitApi.ListUsersOptions | modules/Cockpit/Controller/RestApi.php:289-305 | the sort is by `user` ascending; a filter is present iff truthy; a string filter becomes an `$or` of three `$regex` clauses on name, user and email; another filter passes unchanged |
| CockpitApi.ListUsers | modules/Cockpit/Controller/RestApi.php:281-314 | the accounts found, in order, each with `password` unset (an array becoming an object, a scalar kept as it is) and every other key kept |
| CockpitApi.ImageDefaults | modules/Cockpit/Controller/RestApi.php:318-328 | with no parameters: mode `thumbnail`, quality 100, size 0 by 0, no source, every flag 0 |
| CockpitApi.BaseImageKeys | modules/Cockpit/Controller/RestApi.php:318-328 | the base options are exactly the nine short-parameter options |
| CockpitApi.FilterNamesAreNotBase | modules/Cockpit/Controller/RestApi.php:330-336 | no image filter has the name of a base option |
| CockpitApi.AddFiltersSpec | modules/Cockpit/Controller/RestApi.php:330-338 | a key is an option iff it is a base option or a listed filter with a truthy parameter; such a filter carries its parameter; other base options keep their value |
| CockpitApi.ImageOptions | modules/Cockpit/Controller/RestApi.php:316-341 | the loop over the fifteen filters builds exactly `AddFilters` of the base options |
| CockpitApi.ImageOptionsContents | modules/Cockpit/Controller/RestApi.php:318-338 | the thumbnailer gets every base option with its value plus each filter whose parameter is truthy, with that parameter |
| CockpitApi.AssetsOptions | modules/Cockpit/Controller/RestApi.php:345-353 | the sort is newest first unless given; filter, fields, limit and skip are present iff truthy; there are no other keys |
| CockpitApi.CopyIfTruthy | modules/Cockpit/Controller/RestApi.php:349-353 | a truthy parameter is copied under its name; otherwise the options are unchanged; other keys are never touched |
| CockpitApi.Assets | modules/Cockpit/Controller/RestApi.php:343-364 | nothing is written; the page found and a `total` that is the page length unless skip or limit is truthy, else the count of the raw filter |
| Http.FindOne | modules/Cockpit/Controller/RestApi.php:201 | the first stored document whose field equals the value, or null when none does |
| Http.FindOneAfterUpsert | modules/Cockpit/Controller/RestApi.php:213 | a document saved to the store is what a lookup by its `_id` then finds |
| Templates.ReplaceAllAbsent | modules/Cockpit/Controller/RestApi.php:140-142 | a template without the placeholder is left unchanged |
| Templates.ReplaceAllFirst | modules/Cockpit/Controller/RestApi.php:140-142 | the first occurrence is replaced, and the scan resumes after it |
| Templates.SubstituteNoPlaceholders | modules/Cockpit/Controller/RestApi.php:140-142 | a template that mentions no placeholder is sent as it is |
| Templates.SubstituteIsSequential | modules/Collections/Controller/RestApi.php:299-301 | for any two placeholders, filling the first with the second and then the second with a text yields that text: each step searches the output of the steps before it |
| Templates.RenderBodies | modules/Cockpit/Controller/RestApi.php:138-145 | the loop renders one body per template, in order, each the full substitution of that template |

## Left out

- JWT encoding and decoding are an abstract pair of functions: `decode` gives
  `None` for a token the library would reject with an exception. Signatures
  and the HS256 algorithm are not modelled.
- Password hashing and the `uniqid` API key are inputs (`hash`, `apiKey`). The
  `_id` the store assigns to a new account is also an input (`assignedId`).
- I/O has only its outcome modelled:
  - the mailer is its boolean result;
  - template reads are a function from file name to text;
  - `move_uploaded_file` is a success flag;
  - `getimagesize` is the width value;
  - `mkdir` is not modelled (it changes no response).
- The stripping of `COCKPIT_SITE_DIR` from the target path is an input
  function, because the code builds it as a regex from a path.
- Thumbnail generation, `find`/`count`/`exists`/`hasaccess`, and the
  `cockpit.assets.list` event are oracles or omitted. Mongo-style filters and
  `$regex` are built but never evaluated.
- The collections module's `save` is the oracle `save`. The accounts store is
  the ordered sequence `findOne` scans, not a map. Its `save` is assumed to
  replace the first document with the same `_id` or append (`Http.Upsert`);
  only the multi-step lemma `VerifyEmailTwice` relies on that.
- Numbers are unbounded integers:
  - floats, and the `is_numeric` forms with exponents, decimals or
    surrounding white space, are not modelled: the conversion of
    `_fixStringBooleanNumericValues` leaves such strings as strings (`intval`
    does skip leading white space, as PHP's does);
  - a numeric string is an optionally signed run of digits.
- PhpValues.StringIntVal reads leading white space, a sign and the digits
  after it, and stops there. From PHP 7.1, `intval` of a numeric string also
  reads a fraction and an exponent: `intval("1e3")` is 1000 in PHP and 1 in
  the model. This reaches `limit`, `skip` and the `sort` directions of `get`
  (`CopyParams`, `CoerceSort`).
- Loose comparisons (`==`, `!=`, `in_array`) are modelled as value equality.
  `!==` is also value equality.
- An `Obj` has no key order, and `array_merge` on integer keys (renumbering)
  is not modelled. Writing a string key into a list turns it into an object
  keyed by the decimal indices.
- A discussion whose `photographers` is an object, not a list, is treated as
  having no photographers. PHP's `foreach` would walk the object's values as
  it walks a list's.
- An `uploads` that is neither a list, null nor false makes `upload` throw
  (`Thrown`). In PHP, `$uploads[] =` appends to an associative array too,
  fails on a non-empty string, and leaves `true` or a number unchanged with a
  warning.
- `end()` of a non-list gives null; PHP gives the last value of an
  associative array.
- Templates.Substitute: the replacement text is inserted literally. PHP's
  `preg_replace` also expands `$1`, `\1` and `${1}` in it, so a submitted
  `name` holding such a reference is put into the mail differently.
- PhpValues.SetKey: writing a key into a non-empty string, `true` or a number
  returns the value unchanged. PHP 7 instead rewrites the string's first
  character and PHP 8 throws. `save` reaches this when `data` is such a
  scalar (its `_by` stamp).
- `strlen` of a non-string password is the length of its string conversion.
- `saveUser` checks for a duplicate login after the merge with the defaults.
  The model makes the same check on the submitted `user`, which the merge
  keeps, in the guard before the merge. A bare `stop(401)` is a response with
  no body.
- `createCollection`, `updateCollection`, `collection` and `listCollections`
  are not part of the modelled core. HTTP routing and concurrent requests are
  not modelled.
- CollectionsApi.GetEntries: the `$filter` it counts with is the converted
  filter. This is exact, because the conversion happens in place on that
  variable. Its `options` result is what `find` receives.
- Replay of reset and activation tokens is not modelled. Nothing in the code
  records a token as used.

## Findings

| source | as written | input that shows it | evidently intended | confidence | as-written member | corrected member |
|---|---|---|---|---|---|---|
| modules/Collections/Controller/RestApi.php:322-335 | the recursive result for a nested array is overwritten by `$array[$k] = $v`, which still holds the copy taken before the call | a query-string filter `{published: {$eq: "true"}}` keeps the string "true" | nested arrays are converted too, at every depth | high, not executed | CollectionsApi.NestedStringNotConverted | CollectionsApi.FixedDeepSettles |
| modules/Cockpit/Controller/RestApi.php:251-279 | `savePassword` decodes the token but never compares `expire` with the clock | a reset token issued two hours earlier, which `verifyLostPassLink` refuses with 401, still sets a new password | the one-hour limit of reset tokens holds when the password is saved | medium, not executed | CockpitApi.SavePasswordAcceptsExpiredReset | CockpitApi.SavePasswordChecked |

`GetEntries` and `SavePassword` keep the behaviour as written, because they
model the controller. `FixedDeep` and `SavePasswordChecked` are the corrected
definitions, with their properties proved beside them.
