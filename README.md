# Social-dev profile and post handlers, in Dafny

This project models what the write handlers of the Social-dev REST backend do to a
document once it has been loaded. Those handlers are:

- `routes/api/profile.js`: create or update a profile, delete a profile and its user,
  and add or delete experience and education entries.
- `routes/api/posts.js`: create and delete a post, toggle a like, and add and delete
  a comment.

The document database is abstracted into plain state:

- `ProfileRoutes.ProfileStore` holds the Profile collection as a map from the owning
  user id to the profile, and the User collection as a set of ids.
- `PostRoutes.PostStore` holds the Post collection as a map from post id to post. It
  also holds the upload-name prefix, which is generated once per process.

Each handler is a method on its store. The method returns the HTTP reply (`Http.Reply`)
and updates the map. The caller id is an input, already authenticated. Fresh ids for
new subdocuments are parameters.

The model follows the code as written:

- **Splice with an ObjectId start.** The delete handlers remove an entry with
  `splice(item._id, 1)`. JavaScript turns the ObjectId into a number through its hex
  string (`JsArray.NumericIndex`).
  - An id that is not a numeric literal coerces to NaN, which becomes 0. So the entry
    at position 0 is removed, whichever entry matched. This includes every id with a
    letter other than `e` that is not a `0b` binary literal; every string that is not
    one of the numeric forms below is NaN.
  - An id written only in decimal digits, as digits `e` digits, or as `0b` followed by
    binary digits coerces to that number. The splice then lands at that position, or
    past the end and removes nothing.
- **Post lookups ignore case.** `Post.findById` casts the route parameter to an
  ObjectId, and the cast accepts upper-case hex digits. A parameter therefore finds the
  post stored under its lower-cased form (`PostRoutes.CastId`). Comment and entry ids
  are compared as strings, so there case matters.
- **The like toggle.** It is a `map` over `post.likes` that `unshift`s into or
  `splice`s from that same array while iterating. It is modelled step by step
  (`PostRoutes.ToggleScanFrom`), as `Array.prototype.map` runs it:
  - the number of visits is fixed at the start;
  - visit k reads the current element at k;
  - visit k is skipped once the array is shorter than k + 1.
- **Skills.** `skills` is parsed as `split(',')` followed by `trim()` on each piece.
  The trim strips the full ECMAScript WhiteSpace and LineTerminator set.

Where the code does something other than what its routes suggest, the model follows
the code:

- Removing an experience, education or comment entry does not remove the entry whose
  id matched. It removes the entry at the coerced position (`Subdocs.DeleteScanUnique`,
  `PostRoutes.DeleteCommentRemovesFront`).
- The like toggle does not keep at most one like per user. It is not undone by toggling
  again either (`PostRoutes.DoubleToggleTwoOthers`). It is undone only in special cases
  (`PostRoutes.DoubleToggleOneOther`).
- Deleting a profile removes the profile and the user record only. The user's posts stay.
- A comment delete by someone other than its author is answered 404
  'User Not Authorized'. A malformed post id gives 404 'Post not found' (lower-case n)
  on delete, like and comment delete, and 500 on comment add.

## Model

| member | source | states |
|---|---|---|
| `JsString.Split` | routes/api/profile.js:108 | `split(',')` gives one piece per comma plus one, and no piece contains a comma |
| `JsString.Join` | routes/api/profile.js:108 | joining comma-free pieces puts exactly one comma between neighbours: the result has one comma fewer than there are pieces |
| `JsString.JoinSplit` | routes/api/profile.js:108 | the pieces joined with the separator give back the input, so the pieces keep input order and nothing is lost |
| `JsString.SplitJoin` | routes/api/profile.js:108 | splitting a join of comma-free pieces gives back the pieces |
| `JsString.TrimStart` | routes/api/profile.js:108 | the leading-whitespace half of `trim()`: the result is a suffix of the input, everything cut off is whitespace, and it does not start with whitespace |
| `JsString.TrimEnd` | routes/api/profile.js:108 | the trailing-whitespace half of `trim()`: the result is a prefix of the input, everything cut off is whitespace, and it does not end with whitespace |
| `JsString.Trim` | routes/api/profile.js:108 | `trim()` gives a string no longer than the input with no whitespace at either end |
| `JsString.TrimSlice` | routes/api/profile.js:108 | `trim()` removes a whitespace prefix and a whitespace suffix and nothing else |
| `JsString.TrimKeepsOut` | routes/api/profile.js:108 | trimming cannot introduce a character the input lacks |
| `JsString.TrimIdempotent` | routes/api/profile.js:108 | trimming twice is the same as trimming once |
| `JsString.TrimAll` | routes/api/profile.js:108 | `.map(skill => skill.trim())` keeps the length and trims element by element |
| `JsString.ParseList` | routes/api/profile.js:107-109 | the parsed skills list has one element per comma-separated piece (comma count + 1), and no element contains a comma or has whitespace at either end |
| `JsString.ParseListPieces` | routes/api/profile.js:108 | element i of the parsed skills list is piece i of the split, trimmed, so input order is kept and empty pieces stay |
| `JsString.ParseListStable` | routes/api/profile.js:108 | joining the parsed list with "," and parsing it again gives the same list |
| `Http.Failures` | routes/api/profile.js:86-93 | the 422 error list is empty exactly when every required field is non-empty, is no longer than the list of checks, and each error names a check whose field is empty |
| `Http.FailuresComplete` | routes/api/profile.js:86-93 | every check whose field is empty contributes its error to the 422 list |
| `Http.FailuresOrder` | routes/api/profile.js:86-93 | of two failing checks, the one declared first has its error at a smaller position of the 422 list |
| `Http.FailuresAppend` | routes/api/profile.js:86-93 | the errors of two consecutive groups of checks are the first group's errors followed by the second's, so the list follows declaration order |
| `ProfileRoutes.BuildFields` | routes/api/profile.js:97-118 | `profileFields` has the caller as user. Each scalar and each social link is present exactly when its input is truthy, and then holds the input. `skills` is present exactly when truthy, and is then the parsed list (`ParseList`): split at commas, each piece trimmed |
| `ProfileRoutes.Created` | routes/api/profile.js:129-130 | a new profile takes every field from `profileFields`, has an empty skills list when skills is absent, and has no experience or education entries |
| `ProfileRoutes.SetFields` | routes/api/profile.js:126 | `$set` overwrites each key the update carries and keeps the stored value of each key it lacks. `social` is replaced as a whole, and the entry lists are not touched |
| `ProfileRoutes.Upserted` | routes/api/profile.js:97-131 | the stored profile belongs to the caller. A truthy scalar input overwrites its field; an empty one keeps the old value, or leaves the field absent on a new profile. `social` holds exactly the truthy links and nothing from before. `skills` is the parsed list. Entries are kept, or empty on a new profile |
| `ProfileRoutes.UpsertedRequiredFields` | routes/api/profile.js:86-109 | after validation passes, the stored status is the input status and skills has comma count + 1 trimmed elements |
| `ProfileRoutes.UpsertIdempotent` | routes/api/profile.js:122-131 | posting the same body twice stores the same profile as posting it once |
| `ProfileRoutes.ProfileStore.PostProfile` | routes/api/profile.js:86-137 | failed validation answers 422 with the errors and changes nothing. Otherwise the caller's profile becomes `Upserted` of the old one, if any, and no other profile and no user record changes. Afterwards the caller has exactly one profile: no other stored profile belongs to the caller |
| `ProfileRoutes.ProfileStore.DeleteProfile` | routes/api/profile.js:67-79 | the caller's profile and user record are removed, whether or not they existed, and nothing else changes |
| `ProfileRoutes.ProfileStore.PutExperience` | routes/api/profile.js:145-173 | a missing title, company or from answers 422 and changes nothing. A missing profile answers 500 and changes nothing. Otherwise the new entry, whose id is a fresh ObjectId string, is put at position 0 and the old entries follow in order; all other fields and profiles are unchanged, and every entry id stays an ObjectId string |
| `ProfileRoutes.ProfileStore.DeleteExperience` | routes/api/profile.js:179-197 | a missing profile answers 500. If no entry has the id, the list is unchanged. Otherwise `splice` runs once at the position the id coerces to: the entry there is removed when that position is inside the list, and nothing is removed when the id is a numeral at or past the list's length |
| `ProfileRoutes.ProfileStore.PutEducation` | routes/api/profile.js:204-233 | a missing school, degree, field of study or from answers 422 and changes nothing. A missing profile answers 500. Otherwise the new entry is put at position 0 in front of the unchanged old list |
| `ProfileRoutes.ProfileStore.DeleteEducation` | routes/api/profile.js:239-257 | as the experience delete, on the education list: the entry at the coerced position is removed when that position is inside the list, and nothing when the id is a numeral at or past the length |
| `Subdocs.DeleteScanFrom` | routes/api/profile.js:184-189 | the delete loop only removes entries: the result is no longer than the list and holds no entry, or copy of an entry, that the list did not have |
| `Subdocs.DeleteMatching` | routes/api/profile.js:184-189 | the in-place map/splice loop computes the visit-by-visit result, which for unique ids is the list unchanged when no id matches and otherwise the list spliced once at the coerced id |
| `Subdocs.DeleteScanUnique` | routes/api/profile.js:184-189 | for unique ids the delete loop splices at most once: not at all when no entry has the id, once at the id's coerced position otherwise |
| `Subdocs.DeleteRemovesFirst` | routes/api/profile.js:186-187 | for an id that is NaN as a number, a present id removes exactly the first entry and an absent id changes nothing |
| `Subdocs.DeleteKeepsStored` | routes/api/profile.js:184-189 | the delete loop keeps every entry id an ObjectId string, as it only removes entries |
| `Subdocs.UnshiftKeepsUnique` | routes/api/profile.js:164 | putting an entry with a fresh id in front keeps entry ids unique |
| `Subdocs.SpliceKeepsUnique` | routes/api/profile.js:187 | removing an entry keeps entry ids unique |
| `ProfileRoutes.AddThenDeleteRoundTrip` | routes/api/profile.js:162-189 | adding an entry and deleting its id gives the list back when the id is NaN as a number, because the new entry sits where the splice lands |
| `ProfileRoutes.DeleteSecondKeepsIt` | routes/api/profile.js:184-189 | deleting the second of two entries by an id that is NaN as a number removes the first entry and keeps the one that matched |
| `JsArray.NumericIndex` | routes/api/profile.js:186-187 | the splice start an ObjectId string coerces to is non-zero only when every character is a digit, the exponent "e", or the "b" of a leading "0b" |
| `JsArray.NonNumericIndex` | routes/api/profile.js:186-187 | an ObjectId string with a letter other than "e", that letter not being the "b" of a leading "0b", is NaN as a number, so as a splice start it means 0 |
| `JsArray.NumericIndexExamples` | routes/api/posts.js:191-192 | id strings that are numeric literals coerce to their value ("01" to 1, "1e1" to 10, "0b101" to 5), while "c0ffee" coerces to 0 |
| `JsArray.SpliceOne` | routes/api/profile.js:187 | `splice(start, 1)` with the start inside the array removes one element, exactly the one at the start (as multisets); with the start at or past the end it changes nothing |
| `JsArray.SpliceOneEffect` | routes/api/posts.js:127 | `splice(start, 1)` keeps the elements before the start in place and moves the later ones down by one |
| `PostRoutes.StoredName` | routes/api/posts.js:17-19 | the stored upload name is the per-process prefix followed by the original name |
| `PostRoutes.StoredNamesCollide` | routes/api/posts.js:11-19 | with one prefix per process, two uploads get the same stored name exactly when their original names are equal |
| `PostRoutes.CastId` | routes/api/posts.js:92 | `findById` accepts 24 hex digits in either case (`IsObjectId`) and looks up the lower-cased id: the result is a stored-form id that differs from the parameter only where an upper-case digit became lower-case, and a lower-case parameter is looked up as is |
| `PostRoutes.CastIgnoresCase` | routes/api/posts.js:118 | an upper-case post id finds the post stored under its lower-case form |
| `PostRoutes.PostStore.CreatePost` | routes/api/posts.js:28-50 | empty text answers 422 and saves nothing. No upload answers 500 and saves nothing. Otherwise one post is saved: the caller as user, the text, the prefix plus the original name as image, no likes and no comments |
| `PostRoutes.PostStore.DeletePost` | routes/api/posts.js:90-109 | a malformed id answers 404 'Post not found' and an id whose cast names no post 404 'Post Not Found'. Another user's post answers 401 'You are not Authorized' and is kept. Otherwise exactly the post the id casts to is removed and the others are untouched |
| `PostRoutes.PostStore.LikePost` | routes/api/posts.js:116-144 | a malformed id, or one whose cast names no post, answers 404 'Post not found' and changes nothing. Otherwise only that post's likes change, to the result of the like loop. With freshly minted ObjectId strings as new like ids, every like id stays an ObjectId string |
| `PostRoutes.ToggleScanFrom` | routes/api/posts.js:123-130 | the like loop adds at most one like per remaining visit, and every like it adds is the caller's |
| `PostRoutes.ToggledLikes` | routes/api/posts.js:123-133 | after a toggle a post has at most twice as many likes as before (one when it had none), and every new like is the caller's |
| `PostRoutes.ToggleLikes` | routes/api/posts.js:123-133 | the in-place loop computes the visit-by-visit result. When the first like is someone else's, the result is n new likes by the caller in front of the unchanged old likes |
| `PostRoutes.ToggledLikesStored` | routes/api/posts.js:123-133 | the like loop keeps every like id an ObjectId string: it only splices likes away and prepends likes with freshly minted ids |
| `PostRoutes.ToggleOthersFirst` | routes/api/posts.js:124-130 | when the first like is someone else's, every visit prepends a like by the caller: the result is n caller likes followed by the old list, twice the length |
| `PostRoutes.UnshiftRun` | routes/api/posts.js:124-130 | once a visit sees another user's like, every later visit sees that same like again and prepends one more like by the caller |
| `PostRoutes.ToggleNoLikes` | routes/api/posts.js:131-133 | liking a post with no likes yields exactly one like, by the caller |
| `PostRoutes.ToggleOwnSoleLike` | routes/api/posts.js:124-128 | a post whose only like is the caller's ends with no likes when that like's id is NaN as a number, and keeps the like when the id coerces to a positive number |
| `PostRoutes.DoubleToggleOneOther` | routes/api/posts.js:123-133 | toggling twice, each request with its own fresh ids, restores a post liked by exactly one other user, when the id of the like the first toggle adds is NaN as a number |
| `PostRoutes.DoubleToggleTwoOthers` | routes/api/posts.js:123-133 | toggling twice on a post liked by two other users, each request with its own fresh ids, when the first request's second new like has an id that is NaN as a number, leaves six likes whose first four are the caller's: the three the second request adds, then the one of the first request's two likes that it did not splice away, so the second toggle does not undo the first |
| `PostRoutes.SecondToggle` | routes/api/posts.js:123-130 | a toggle over the caller's like followed by another user's removes the caller's like at position 0 and then prepends one like per later visit |
| `PostRoutes.PostStore.AddComment` | routes/api/posts.js:150-169 | empty text answers 422 and changes nothing. A malformed post id, or one whose cast names no post, answers 500. Otherwise `{caller, text}`, with a fresh ObjectId string as its id, is put at position 0 in front of the unchanged old comments |
| `PostRoutes.FindComment` | routes/api/posts.js:182 | `comments.find` gives the first comment with the id, or none |
| `PostRoutes.PostStore.DeleteComment` | routes/api/posts.js:175-203 | rejections that leave the comments unchanged: a malformed id (404 'Post not found'), an id whose cast names no post (404 'Post Not Found'), no comment with the id (404 'Comment Not Found'), and a matched comment by someone else (404 'User Not Authorized'). Otherwise `splice` runs at the position the comment id coerces to |
| `PostRoutes.DeleteCommentRemovesFront` | routes/api/posts.js:182-192 | when the caller deletes their own second comment by a NaN id, the first comment, another user's, is removed and the caller's own comment stays |

## Left out

- Registration, login, the token middleware, server wiring and the admin panel
  (routes/api/users.js, routes/api/auth.js, middleware/auth.js, server.js,
  routes/api/admin.js). They are chains of foreign calls: database, bcrypt, gravatar,
  jwt. The caller id is an already-authenticated input.
- The read-only GET handlers and the GitHub passthrough. They are database queries
  with `populate` and date sort, and an outbound HTTP request.
- Dates (the `date` fields), `populate`, and comment name and avatar. They come from
  the schema and the database, not from handler logic.
- Writing the upload to disk. Multer stores the file even when validation then fails;
  only the stored name is modelled.
- The upload prefix is an input of `PostStore`'s constructor, because the uuid
  generator is random.
- Ids are parameters because ObjectId generation is left out. Every fresh id is
  required to be an ObjectId string (24 lower-case hex digits, `JsArray.IsStoredId`),
  and both stores keep every stored entry, like and comment id in that form:
  - `PutExperience` and `PutEducation` also require the new entry id to be unused in
    that list.
  - `CreatePost` requires the post id to be unused.
  - `LikePost` requires every id its `mint` function hands out to be an ObjectId
    string; `AddComment` requires the same of the comment id. Their freshness is not
    modelled.
- Asynchrony, interleaving between requests, and the un-awaited `post.save()` of the
  comment delete. Each save is treated as completed before the next request.
- The 422 reply body: an express-validator error object also carries the checked
  `value` and its `location`; `Http.FieldError` keeps only `param` and `msg`. Reply
  bodies that send a document back are reduced to `Ok("")`.
- Request bodies are strings, and a missing field is "". Non-string JSON values,
  fields read from other request locations by express-validator, and the casting of
  `from`/`to`/`current` to Date and Boolean are not modelled.
- `PostRoutes.IsObjectId` accepts exactly 24 hexadecimal digits in either case. Other
  forms the ObjectId cast may accept, such as 12-character strings, are not modelled.
- `JsArray.NumericIndex` is JavaScript's ToNumber only on strings of the digits 0-9 and
  the letters a-f, the only strings an ObjectId prints as. Over that alphabet the
  numeric literals are decimal digits, digits `e` digits, and `0b` with binary digits;
  every other string is NaN.
- Database failures other than the ones the handlers themselves cause (a thrown save,
  a lost connection) are not modelled. They would all answer 500 'Server Error'.
