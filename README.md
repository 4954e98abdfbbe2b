# Guest book: a Dafny model

A model of the logic of a small guest-book application. A visitor submits a
name and a message, a NestJS backend validates the request and stores it in a
managed Supabase table, and a React frontend lists the entries newest-first.
The model covers five parts:

- **Create-comment validation** (`validation.dfy`, module `Validation`). The
  constraints declared on `CreateCommentDto` together with the global
  `ValidationPipe` options `whitelist` and `forbidNonWhitelisted`. They are one
  function from the raw request body (the parsed object's own properties, a
  list of property/JSON-value pairs in which no property name repeats) to
  either the validated DTO or the list of failed constraints, each with the
  text reported to the client.
- **The comments table** (`store.dfy`, module `Store`). An abstract stand-in
  for the remote `comments` table. It holds rows in insertion order and
  assigns `id` and `created_at` itself. It answers inserts and newest-first
  selects, and each request carries a fault chosen by the environment.
- **SupabaseService** (`supabase_service.dfy`, module `Supabase`). The lazy
  process-wide client, with its configuration check.
- **CommentsService** (`comments_service.dfy`, module `Comments`). `create`
  and `findAll` over that table, including the try/catch rewrapping of every
  failure into an `InternalServerErrorException`.
- **Frontend**: `CommentForm`'s submit handler (`comment_form.dfy`, module
  `CommentFormView`) and `CommentCard`'s relative date (`comment_card.dfy`,
  module `CommentCardView`).

Choices in the model:

- class-validator's semantics are written out. `IsNotEmpty` rejects `''`,
  `null` and an absent property. `IsString` rejects non-strings. `MaxLength`
  also rejects non-strings, so an absent `name` fails all three constraints.
- Unknown properties are reported first, as `property <key> should not
  exist`. The `name` errors come next and the `message` errors last.
- Store identifiers are natural numbers and timestamps are the store's clock
  readings. The clock advances by an amount the environment chooses between
  requests. On the wire both are strings (a UUID and an ISO-8601 timestamp).
- The newest-first order is the store's job. The model's store returns the
  rows in reverse insertion order. With non-decreasing timestamps, that is one
  of the orders `order('created_at', { ascending: false })` allows.
- The static `SupabaseService.instance` is a field of a `SupabaseService`
  object, which stands for the process-wide static state. `createClient` is
  given the table that the configured URL designates.
- The API call in `handleSubmit` is an outcome parameter. React's batched
  state updates reach the same final state as the sequential assignments in
  the model.

Two behaviours of the code that are easy to miss, and that the model keeps:

- The server does not trim, so whitespace-only values pass validation. Only
  the form trims before sending.
- A store error reaches the client as `Failed to create comment: <store message>`
  (or `Failed to fetch comments: <store message>`), with
  the store's own text. Only exceptions thrown by the client become the
  generic message.

## Model

| member | source | states |
|---|---|---|
| Validation.ValidateAcceptsExactly | backend/src/comments/dto/create-comment.dto.ts:8-16 | A body is accepted iff every property is `name` or `message` and both are non-empty strings of at most 100 and 500 characters; the DTO then carries exactly those strings (no trimming) |
| Validation.Validate | backend/src/main.ts:27-31 | A rejected body always carries at least one error; an accepted body's DTO holds exactly the string values the body gives `name` and `message` |
| Validation.CheckField | backend/src/comments/dto/create-comment.dto.ts:8-16 | One property's checks report at most its three constraints, every error names that property, and none is a whitelist error |
| Validation.Errors | backend/src/comments/dto/create-comment.dto.ts:8-16 | Among all errors reported for a body, an error is a whitelist error exactly when its property is not `name` or `message` |
| Validation.CheckFieldEmptyIff | backend/src/comments/dto/create-comment.dto.ts:8-16 | One property's three constraints report nothing iff its value is a non-empty string within the bound |
| Validation.UnknownPropertyErrors | backend/src/main.ts:27-31 | Every reported whitelist error is a `Whitelist` error about a property the DTO does not declare |
| Validation.UnknownPropertyErrorsEmptyIff | backend/src/main.ts:28-29 | The whitelist check reports nothing iff every property of the body is `name` or `message` |
| Validation.UnknownPropertyRejected | backend/src/main.ts:28-29 | Any undeclared property makes validation fail with `property <key> should not exist` instead of being dropped |
| Validation.FieldsCheckedIndependently | backend/src/comments/dto/create-comment.dto.ts:8-16 | The errors reported for `name` are exactly its own constraints' errors whatever the rest of the body holds, and likewise for `message` |
| Validation.BothFieldsReported | backend/src/comments/dto/create-comment.dto.ts:8-16 | An input bad in both fields gets errors for both fields |
| Validation.EmptyNameRequired | backend/src/comments/dto/create-comment.dto.ts:8 | An empty `name` fails with "Name is required" and with nothing else for `name` |
| Validation.EmptyMessageRequired | backend/src/comments/dto/create-comment.dto.ts:13 | An empty `message` fails with "Message is required" and with nothing else for `message` |
| Validation.MissingNameReported | backend/src/comments/dto/create-comment.dto.ts:8-10 | An absent `name` fails all three of its constraints, with their three messages |
| Validation.NonStringRejected | backend/src/comments/dto/create-comment.dto.ts:9-14 | A non-string `name` or `message` fails with "Name must be a string" or "Message must be a string" |
| Validation.LongNameRejected | backend/src/comments/dto/create-comment.dto.ts:10 | A `name` longer than 100 characters fails with "Name must not exceed 100 characters" only |
| Validation.LongMessageRejected | backend/src/comments/dto/create-comment.dto.ts:15 | A `message` longer than 500 characters fails with "Message must not exceed 500 characters" only |
| Validation.BoundaryAndWhitespaceAccepted | backend/src/comments/dto/create-comment.dto.ts:8-16 | A body with exactly a non-empty `name` of at most 100 and a non-empty `message` of at most 500 characters is accepted unchanged, even when the values are whitespace only and at their bound |
| Store.NewestFirst | backend/src/comments/comments.service.ts:57-60 | The listing holds as many rows as the table, the latest insert first: position k holds the k-th most recent row |
| Store.NewestFirstPermutes | backend/src/comments/comments.service.ts:57-60 | The listing is a permutation of the table's rows |
| Store.NewestFirstSorted | backend/src/comments/comments.service.ts:57-60 | If timestamps ascend in insertion order, the listing is ordered by `created_at` descending |
| Store.CommentsTable.Insert | backend/src/comments/comments.service.ts:22-31 | A healthy insert appends exactly one row with the given name and message and a store-assigned id and timestamp, and returns that row; a rejected or failed insert writes nothing |
| Store.CommentsTable.SelectNewestFirst | backend/src/comments/comments.service.ts:57-60 | A select reads only and returns the rows newest-first, no data, the store's error or an exception, as the fault says |
| Supabase.SupabaseService.GetClient | backend/src/supabase/supabase.service.ts:14-29 | An existing instance is returned whatever the configuration; otherwise a missing or empty URL or key gives the configuration error and leaves the instance unset, and both present create, store and return a fresh client; at most one client is ever created |
| Supabase.GetClientTwice | backend/src/supabase/supabase.service.ts:15-28 | Once a call succeeds, the next call returns the same object, and a failed first call is followed by the same error or the newly created instance |
| Comments.Rethrow | backend/src/comments/comments.service.ts:40-47 | The catch block always yields an InternalServerError: an already-mapped one unchanged, anything else as the generic fallback |
| Comments.TryCreate | backend/src/comments/comments.service.ts:22-39 | The try block of create returns a value iff the store returned a row, and then that row; it throws an InternalServerError, starting with "Failed to create comment: ", exactly when the store reported an error |
| Comments.TryFindAll | backend/src/comments/comments.service.ts:57-68 | The try block of findAll returns a value iff the store answered, and then its data or `[]` when there is none; it throws an InternalServerError, starting with "Failed to fetch comments: ", exactly when the store reported an error |
| Comments.CreateOutcome | backend/src/comments/comments.service.ts:21-47 | create succeeds iff the store returned a row, and then returns that row; a store error becomes "Failed to create comment: " + its message; anything thrown becomes the generic create message |
| Comments.FindAllOutcome | backend/src/comments/comments.service.ts:56-76 | findAll succeeds iff the store answered, returning its data or `[]` when there is none; a store error becomes "Failed to fetch comments: " + its message; anything thrown becomes the generic fetch message |
| Comments.CreateFailuresAreMapped | backend/src/comments/comments.service.ts:33-47 | Every failure of create is an InternalServerError that starts with "Failed to create comment: " or is the generic create message |
| Comments.FindAllFailuresAreMapped | backend/src/comments/comments.service.ts:62-76 | Every failure of findAll is an InternalServerError that starts with "Failed to fetch comments: " or is the generic fetch message |
| Comments.CommentsService.Create | backend/src/comments/comments.service.ts:20-48 | On success exactly one row is appended, carrying only the DTO's name and message, with a new id and a timestamp no earlier than any other, and that stored row is returned; on failure nothing is written and the error is one of the two create shapes, with the store's message when there is one |
| Comments.CommentsService.FindAll | backend/src/comments/comments.service.ts:55-77 | Reads without writing; on success returns every row, as a permutation ordered newest-first with the latest insert first; `[]` when the store yields no data; each failure is one of the two fetch shapes |
| Comments.NewCommentsService | backend/src/comments/comments.service.ts:13 | Constructing the service obtains the client, so a missing configuration fails construction (when no client exists yet) rather than a later request |
| CommentFormView.TrimStartSuffix | frontend/src/components/CommentForm/CommentForm.tsx:28-43 | Removing leading whitespace keeps a suffix of the input that does not start with whitespace, and everything removed is whitespace |
| CommentFormView.TrimEndPrefix | frontend/src/components/CommentForm/CommentForm.tsx:28-43 | Removing trailing whitespace keeps a prefix of the input that does not end with whitespace, and everything removed is whitespace |
| CommentFormView.TrimBlankIff | frontend/src/components/CommentForm/CommentForm.tsx:28-36 | A value fails the emptiness check iff every character of it is JavaScript whitespace |
| CommentFormView.TrimmedSlice | frontend/src/components/CommentForm/CommentForm.tsx:42-43 | The value sent is no longer than the input and is the slice of it that starts after its leading whitespace |
| CommentFormView.TrimmedEnds | frontend/src/components/CommentForm/CommentForm.tsx:42-43 | The value sent, when not empty, neither starts nor ends with whitespace |
| CommentFormView.Submit | frontend/src/components/CommentForm/CommentForm.tsx:22-60 | Both banners are cleared first; a blank name yields "Please enter your name" and no request, then a blank message yields "Please enter a message" and no request, and neither touches the inputs or the busy flag; a request is sent iff both trim to non-empty values, and it carries the trimmed values; afterwards the form is not busy, and a success clears the inputs and shows the success text while a failure keeps the inputs and shows the error's message or the fallback text |
| CommentFormView.CommentForm.HandleSubmit | frontend/src/components/CommentForm/CommentForm.tsx:22-60 | Updating the five state fields step by step leaves exactly the state, and sends exactly the request, that Submit describes; the busy flag is set at the moment of the call |
| CommentFormView.SentRequestValidates | frontend/src/components/CommentForm/CommentForm.tsx:41-44 | A request the form sends from inputs within their 100 and 500 character limits passes the server's validation unchanged |
| CommentCardView.DecimalString | frontend/src/components/CommentCard/CommentCard.tsx:23 | The count is printed as a non-empty string of decimal digits without a leading zero |
| CommentCardView.DecimalRoundTrip | frontend/src/components/CommentCard/CommentCard.tsx:23 | The printed digits denote the count itself |
| CommentCardView.FormatDate | frontend/src/components/CommentCard/CommentCard.tsx:14-31 | Under a minute (also negative times) gives "Just now"; whole minutes 1 to 59, hours 1 to 23 and days 1 to 6 give "N unit(s) ago" in their bucket; a week or more gives the absolute date |
| CommentCardView.BranchCounts | frontend/src/components/CommentCard/CommentCard.tsx:18-25 | Whenever the hour branch is reached the hour count is 1 to 23, and whenever the day branch is reached the day count is 1 to 6 |
| CommentCardView.AgoShape | frontend/src/components/CommentCard/CommentCard.tsx:23-25 | The relative text starts with the count's numeral and a space and ends in " ago" |
| CommentCardView.AgoPluralIff | frontend/src/components/CommentCard/CommentCard.tsx:23-25 | The unit carries an "s" exactly when the count exceeds one |
| CommentCardView.JustNowEdges | frontend/src/components/CommentCard/CommentCard.tsx:18-22 | -5000 and 59999 ms give "Just now" |
| CommentCardView.MinuteEdges | frontend/src/components/CommentCard/CommentCard.tsx:18-23 | 60000 and 120000 ms give "1 minute ago" and "2 minutes ago" |
| CommentCardView.LastMinuteEdge | frontend/src/components/CommentCard/CommentCard.tsx:18-23 | 3599999 ms gives "59 minutes ago" |
| CommentCardView.FirstHourEdge | frontend/src/components/CommentCard/CommentCard.tsx:19-24 | 3600000 ms gives "1 hour ago" |
| CommentCardView.LastHourEdge | frontend/src/components/CommentCard/CommentCard.tsx:19-24 | 86399999 ms gives "23 hours ago" |
| CommentCardView.DayEdges | frontend/src/components/CommentCard/CommentCard.tsx:20-31 | 86400000 ms gives "1 day ago", 604799999 ms gives "6 days ago" and 604800000 ms gives the absolute date |

## Left out

- The store itself and its client library (`createClient`, `from`, `insert`, `select`, `single`, `order`). They are replaced by the abstract `CommentsTable`, whose faults are inputs.
- Row order among equal `created_at` values. The database may return tied rows in any order; the model's store returns one fixed order, latest insert first.
- A store request that fails after the row was written, whether the client reports the failure as an error object (as it does for a dropped connection) or throws. The model's failed insert writes nothing.
- NestJS wiring: the controller (delegation and the 201 status), the module, `app.service.ts`, and the bootstrap in `main.ts` (environment loading, CORS, port). Only the whitelist options of the validation pipe are modelled.
- The order in which class-validator lists the messages of one property. The model lists them in declaration order.
- Repeated property names in the raw JSON text. `JSON.parse` keeps the last occurrence, so the object class-validator sees never repeats a name; the model's body starts from that parsed object.
- Validation of a body that is not a JSON object, non-integer numbers, and the `transform` option. They do not change the outcome for the two string fields.
- String length as class-validator measures it (UTF-16 units or code points). The model uses the number of characters of `seq<char>`; JavaScript's UTF-16 strings are modelled as sequences of Unicode scalar values.
- The frontend API client (`api.service.ts`), `page.tsx`, `CommentList.tsx` and `layout.tsx`: HTTP requests, logging and rendering.
- The JSX of `CommentForm`, including the `maxLength` attributes (only assumed in `SentRequestValidates`), and the `setTimeout` callback that later refreshes the list and clears the success text.
- `formatDate`'s date handling: parsing `created_at`, reading the current time, invalid dates (NaN) and `toLocaleDateString`. The elapsed milliseconds are an integer input and the absolute date is an opaque string input.
- Asynchrony: `async`/`await` and the interleaving of concurrent requests.
