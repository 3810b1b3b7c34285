# Doctor, request helper and support-chat services, modelled in Dafny

This project models three pieces of the back end of a medical-consultation
service.

- **Doctor service.** `validate` checks a doctor record. It rejects a falsy
  record outright and delegates the user-level fields to the user service.
  After that it fills an errors dictionary field by field, with
  `RequiredError` or `TypeError`. The service also creates, updates, deletes
  and fetches doctors, and stores "become a doctor" requests, at most three
  per email.
- **Route helpers.** `JoiValidator` checks a request body against a schema and
  answers a failure with a status and a JSON body. `getStatus` maps a service
  error code to the first HTTP status whose list holds the code, and to 500
  when no list does.
- **Support chats.** `createChat` stores a chat with one opening message from
  the owner and pushes its id onto the owner's `chatsWithHelpers`.
  `getQuestions` pages through the owner's chats. `getQuestion` fetches one of
  them. Both cut each chat's messages with `slice(0, limit)`; the limit is 50
  when absent.

Modules:

- `Wrappers`: `Option` and `Result`.
- `JsValues`: a dynamic JavaScript value and JavaScript falsiness.
- `DoctorServices`: the validator and the `DoctorDatabase` class.
- `RoutesHelper`: `JoiValidator`, `Object.keys` over integer keys, and `getStatus`.
- `SupportServices`: the slicing and paging functions and the `SupportDatabase` class.

Calls into code outside the core are parameters:

- `UserServices.validateUser`, `Types.ObjectId.isValid` and `Object.keys(TSpeciality)` are fields of `DoctorServices.Environment`.
- Joi's `schema.validate` is a function argument.
- The ids MongoDB generates and the instants `new Date()` returns are arguments of the methods that need them.

Validation is an imperative method: one step per field, and a loop with a
`break` for the two array-of-names fields. It is proved equal to a ghost
specification, `ValidationSpec`. Lemmas say, field by field, which values
give which error. An independent description of a valid record,
`WellFormedDoctor`, is proved equivalent to "no doctor-level errors".

## Model

| member | source | states |
|---|---|---|
| DoctorServices.Validate | services/doctor_services.ts:28-182 | A falsy record fails with an empty errors dictionary. A record the user-level check rejects fails with that check's errors. Otherwise the errors are exactly the doctor-level field errors, and the result succeeds iff there are none. |
| DoctorServices.DoctorChecks | services/doctor_services.ts:50-170 | Running the thirteen field checks in source order yields exactly the specified field-error dictionary. |
| DoctorServices.CheckStringField | services/doctor_services.ts:53-88 | One string field's check adds exactly the error its rule gives to the dictionary. |
| DoctorServices.CheckSpeciality | services/doctor_services.ts:90-104 | The speciality loop stops at the first name that is not a TSpeciality key. It records TypeError iff such a name exists. |
| DoctorServices.CheckBeginDoctorDate | services/doctor_services.ts:106-111 | Adds the beginDoctorDate rule's error and nothing else. |
| DoctorServices.CheckExperience | services/doctor_services.ts:113-120 | Adds the experience rule's error and nothing else. |
| DoctorServices.CheckRating | services/doctor_services.ts:122-129 | Adds the rating rule's error and nothing else. |
| DoctorServices.CheckWhosFavourite | services/doctor_services.ts:131-143 | The favourites loop stops at the first invalid ObjectId. It records TypeError iff such an id exists. |
| DoctorServices.CheckPresentArray | services/doctor_services.ts:145-163 | clientsReviews and clientsConsultations: adds that field's rule error and nothing else. |
| DoctorServices.CheckSheldure | services/doctor_services.ts:165-170 | Adds the sheldure rule's error and nothing else. |
| DoctorServices.ErrorsUpToAt | services/doctor_services.ts:50-170 | After the first k checks, field i is in the dictionary iff i < k and its rule fails, and then it holds that rule's error. |
| DoctorServices.ErrorsUpToKeys | services/doctor_services.ts:50-170 | The dictionary only ever holds names of the checks already run. |
| DoctorServices.StringFieldErrors | services/doctor_services.ts:53-88 | For the five string fields: RequiredError iff the value is falsy, including "". TypeError iff it is truthy and not a string. No error iff it is a non-empty string. |
| DoctorServices.SpecialityErrors | services/doctor_services.ts:90-104 | RequiredError iff the value is undefined or null. TypeError iff it is a non-array or holds a non-key. No error iff it is an array of keys, so `[]` passes. |
| DoctorServices.BeginDoctorDateErrors | services/doctor_services.ts:106-111 | RequiredError iff falsy; passes iff it is a Date. |
| DoctorServices.ExperienceErrors | services/doctor_services.ts:113-120 | RequiredError iff falsy, so 0 counts as missing. TypeError iff it is a non-number or negative. Passes iff it is a positive number. |
| DoctorServices.RatingErrors | services/doctor_services.ts:122-129 | RequiredError iff falsy. TypeError iff it is a non-number or outside [0, 5]. Passes iff it is in (0, 5]. |
| DoctorServices.WhosFavouriteErrors | services/doctor_services.ts:131-143 | RequiredError iff falsy. TypeError iff it is a non-array or holds an invalid ObjectId. Passes iff it is an array of valid ids. |
| DoctorServices.ArrayFieldErrors | services/doctor_services.ts:145-170 | clientsReviews and clientsConsultations are missing iff undefined or null; sheldure is missing iff falsy. Each passes iff it is an array. |
| DoctorServices.NoFieldErrorsWellFormed | services/doctor_services.ts:50-181 | No doctor-level error implies that the record meets the independent well-formedness description. |
| DoctorServices.WellFormedNoFieldErrors | services/doctor_services.ts:50-181 | A well-formed record gets no doctor-level error. |
| DoctorServices.NoFieldErrorsIff | services/doctor_services.ts:172-181 | No doctor-level errors iff the record is well formed. |
| DoctorServices.ValidationSucceedsIff | services/doctor_services.ts:28-182 | validate succeeds iff the record is truthy, the user-level check accepts it, and it is well formed. |
| DoctorServices.ValidatedDoctorIsObject | services/doctor_services.ts:28-182 | Only an object can pass validation. |
| DoctorServices.RequestCount | services/doctor_services.ts:352-354 | `BecomeDoctorRequest.find({ email }).length`: the number of stored requests with this email. It is at most the number of stored requests, and 0 iff none carries the email. |
| DoctorServices.RequestCountAppend | services/doctor_services.ts:352-372 | Storing a request adds one to its own email's count and leaves every other email's count unchanged. |
| DoctorServices.Merged | services/doctor_services.ts:236-240 | The updated record holds every field of the update, and every stored field the update does not name. |
| DoctorServices.DoctorDatabase.Create | services/doctor_services.ts:185-219 | Validates with the uniqueness check. On success it stores the record under the fresh id and returns it. Otherwise it returns not_validated_error with the validation errors and leaves the table unchanged. |
| DoctorServices.DoctorDatabase.Update | services/doctor_services.ts:222-265 | Validates without the uniqueness check. A missing or unknown id gives updated_doctor_is_null. Otherwise the stored record becomes the merge of old and new, and it is returned. |
| DoctorServices.DoctorDatabase.Delete | services/doctor_services.ts:268-313 | An unknown id gives no_doctor_found and leaves the table unchanged. Otherwise the doctor is removed and returned. |
| DoctorServices.DoctorDatabase.GetOne | services/doctor_services.ts:316-342 | Succeeds iff the id is a valid ObjectId and is stored, returning that doctor. Every failure is no_doctor_found. |
| DoctorServices.DoctorDatabase.SaveBecomeDoctorRequest | services/doctor_services.ts:345-386 | A null or undefined request gives invalid_error. A falsy email succeeds and stores nothing. An email with three stored requests gives requests_limit_error. Otherwise the request is appended. No email ever has more than three requests stored. |
| RoutesHelper.JoiValidator | helpers/routes_helper.ts:9-23 | Returns true iff the schema reports no error; then the response is untouched. Otherwise the response gets the given status (default 404) and JSON (default `{success: false, error: "not_validated"}`). |
| RoutesHelper.ObjectKeys | helpers/routes_helper.ts:27 | The integer keys of the schema, each exactly once, in strictly ascending order. |
| RoutesHelper.GetStatus | helpers/routes_helper.ts:25-33 | When some list holds the error, the status is a key whose list holds it, and no smaller key's list does. When no list holds it, the result is the default (500). |
| SupportServices.SliceTo | services/support_services.ts:99 | `slice(0, end)` gives a prefix. A non-negative end keeps min(end, length) elements. A negative end drops that many elements from the back, and keeps none when it exceeds the length. |
| SupportServices.SkipLimit | services/support_services.ts:48-51 | A query's skip then limit: element i of the result is element skip + i of the input. It holds min(limit, what is left after skipping) elements, or all of them when the limit is 0. |
| SupportServices.Populate | services/support_services.ts:45-52 | Populating `chatsWithHelpers` yields only stored chats of listed ids, never more than there are ids. Every listed id that is stored has its chat in the result. When every listed id is stored, the result is exactly those chats, in list order. |
| SupportServices.PopulateAppend | services/support_services.ts:45-52 | Listing one more id appends its stored chat, if it has one, after the chats already populated. So the result keeps list order and drops exactly the ids with no stored chat. |
| SupportServices.Matching | services/support_services.ts:78 | The ids the `_id: questionId` match keeps: all equal questionId, and there are some iff questionId is listed. |
| SupportServices.PopulateMatching | services/support_services.ts:76-82 | The chats populated for one question are all its stored chat. There are some iff the question is both listed and stored. |
| SupportServices.SliceManyMessage | services/support_services.ts:96-103 | In place, each chat's messages become `slice(0, limit)` of its old messages (limit 50 when absent). Every other field, the number of chats and their order are unchanged. |
| SupportServices.SupportDatabase.NewChat | services/support_services.ts:15-24 | The created chat belongs to uid and has the given title and date. Its messages are exactly one, from the owner (`isUser` true), holding `message`. |
| SupportServices.SupportDatabase.CreateChat | services/support_services.ts:14-34 | The new chat is stored whether or not the owner exists. When the owner exists, the chat id is appended to its chat list, the result is uid, and getQuestion then returns the new chat whole. Otherwise the result is no_user_found and no account changes. Accounts of the other kind never change. |
| SupportServices.SupportDatabase.GetQuestions | services/support_services.ts:44-63 | no_user_found when the owner is absent. Otherwise the owner's populated chats after skipping `from` (0) and taking at most `amount` (50). Each is cut to `slice(0, limitMessages)` (50) messages, with every other field unchanged. |
| SupportServices.SupportDatabase.GetQuestion | services/support_services.ts:74-94 | Corrected behaviour. no_user_found when the owner is absent. When the question is the owner's and stored, its chat with messages cut to `limitMessages ?? 50`. Otherwise no_question_found. When every chat is stored under its own id, the chat returned is the one asked for. |
| SupportServices.SupportDatabase.GetQuestionAsWritten | services/support_services.ts:74-94 | As written. The same results, except that a question that is not the owner's, or is not stored, fails with a TypeError from `undefined.messages` instead of no_question_found. |
| SupportServices.GetQuestionMissingThrows | services/support_services.ts:87-90 | For any existing owner and any question not in their list, the code as written throws the TypeError where the corrected version answers no_question_found. |

## Left out

- The token checks and rotation that the admin routes delegate to (admin and token services) are not part of this model.
- Express routing is not modelled; only the status and JSON that `JoiValidator` sets are.
- Logging is left out, and with it `JoiValidator`'s `position` argument, which only feeds the log line.
- MongoDB and Mongoose themselves become maps and sequences held in two classes. Cast errors on malformed ids, and the `catch` paths that turn such errors into `invalid_error`, are not modelled.
  - The one exception is a null or undefined request in saveBecomeDoctorRequest, which is modelled as invalid_error.
- Concurrency between requests is not modelled: every call runs to completion on its own.
- The branches the source cannot reach are left out:
  - `response.errors === {}` in create, a fresh object never equal by reference;
  - `!doctor` after `new Doctor(data)`, which gives created_doctor_is_null;
  - `error` in delete, which is never assigned;
  - `removed_doctor_is_null`, since `deleteOne` on a found document is always truthy.
- DoctorServices.DoctorDatabase.Update: only a string `data.id` can match a stored doctor; any other id is treated as matching none.
- DoctorServices.DoctorDatabase.Create: `new Doctor(data)` applies the schema's casting and strict-mode field dropping; the model stores the record as given.
- DoctorServices.DoctorDatabase.Update: `findOneAndUpdate(filter, data)` casts `data` against the schema and drops paths outside it (such as the `id` the update carries); `DoctorServices.Merged` merges every field of `data` as given.
- Numbers are mathematical reals plus NaN, without ±Infinity or overflow.
- A `Date` is an opaque value `DateV`.
- RoutesHelper.GetStatus: the source returns `keys[i]`, which `Object.keys` makes the key's string form; the model returns the integer. The ascending order of `Object.keys` is modelled for the integer keys the schema type promises.
- SupportServices options: an option set to `null` is not modelled, only present or absent. `from` and `amount` are non-negative; MongoDB rejects a negative skip and reads a negative limit as its absolute value, and neither is modelled. `limitMessages` is an integer: `slice` truncates a fractional end (2.5 keeps 2 messages) and reads NaN as 0, which the model does not express.
- SupportServices.Populate: the populated chats keep the order of `chatsWithHelpers`, and skip and limit apply to that order.
- SupportServices.SupportDatabase.GetQuestions: `sliceManyMessage` mutates the objects the query returned, which nothing else shares; the model cuts them in a fresh array.
- SupportServices.SupportDatabase.GetQuestion: the populated chat is a fresh copy, so its in-place truncation is modelled as a new value.
- `new Date()` and the generated chat and doctor ids are method arguments.

## Findings

| source | as written | input that shows it | evidently intended | confidence | as-written member | corrected member |
|---|---|---|---|---|---|---|
| services/support_services.ts:87-90 | `if (!u.chatsWithHelpers) throw "no_question_found"` guards the lookup, but a populate that matches nothing leaves `[]`, which is truthy, so `u.chatsWithHelpers[0].messages` reads a field of `undefined` and throws a TypeError | an existing owner whose `chatsWithHelpers` does not list `questionId` | reject with "no_question_found" when no chat matched (`u.chatsWithHelpers.length === 0`) | not executed | SupportServices.SupportDatabase.GetQuestionAsWritten, SupportServices.GetQuestionMissingThrows | SupportServices.SupportDatabase.GetQuestion |
