# Upload validation and custom-domain panel of a portfolio host

This project models two pieces of logic of a portfolio-hosting web
application, and proves properties of them.

- **The image upload route** (`app/api/upload/route.ts`, module `UploadRoute`).
  Its `POST` handler checks the request through a fixed chain of guards:
  1. a signed-in user;
  2. a present, non-empty file;
  3. at most 15 MiB, inclusive;
  4. a MIME type on the allowlist;
  5. usable image dimensions.

  It then derives the storage key `uploads/<uuid>-<name>` and the public URL
  `https://images.wrk.so/<key>`, stores the object, records a metadata row and
  answers with JSON. `Post` is a pure function over an abstract request. The
  session's user id and the parsed form data are inputs. So are the outcomes
  of the generated UUID, the image probe, the object store and the metadata
  insert (`Services`). The result is the reply together with the storage
  write and the metadata insert the handler attempted. A second, table-driven
  description (`CheckOrder`, `Passes`, `Rejection`, `FirstFailed`) is proved
  to agree with `Post`: the first check that fails decides the reply.
- **The custom-domain panel** (`components/admin/domain-management.tsx`,
  module `CustomDomain`). The component's state is the class
  `DomainManagement`, with fields `domainStatus`, `newDomain`, `isLoading`,
  `isLoadingStatus` and `retryCount`. Each handler is a method that takes the
  answer of its remote call as a parameter: `AddDomain`, `RemoveDomain`,
  `VerifyDomain`, `RunDiagnostics`, and `FetchDomainStatus`, which the
  successful handlers call. The method's `ensures` gives the whole new state.
  Pure functions give what is rendered: the status badge, the retry message,
  the verify button's state and label, the instruction text and the view.
- **JavaScript string built-ins** (module `JsString`). `String.prototype.trim`,
  used by `addDomain`, is modelled with the white-space set of ECMA-262
  (sections 12.2 and 12.3), together with the truthiness of an optional
  string (`s || undefined`). The predicate `EndsWith` is not an operation
  of the core: contracts use it to say what a string ends with.

Modelling choices:
- JavaScript truthiness is written out. A user id or a domain that is the
  empty string counts as absent. A width or height of 0 counts as missing.
- Every exception inside the upload handler becomes the catch-all
  500 reply "Failed to upload image". This covers the session lookup, the
  form parse, the probe, the object store and the metadata insert.
- A verification counts as successful when the response body says `verified`,
  whatever its HTTP status. The code tests `data.verified`, not `response.ok`.
- A failed verification normally adds 1 to the retry count. It adds 2 when the
  reply's `error` field is present but neither a string nor an array. Then
  `data.error?.includes(...)` throws after the first increment, and the
  catch adds 1 more.

## Model

| member | source | states |
|---|---|---|
| UploadRoute.Post | app/api/upload/route.ts:33-148 | A session lookup that throws gives 500. A lookup without a user id gives 401. In both cases nothing is stored or inserted, whatever the form and services. A 400 or 401 reply never writes storage or inserts a row. An accepted upload had a signed-in user, a file of 1 to 15 MiB and an allowed type. It gets key `uploads/<uuid>-<name>` and URL base + key. Its width and height are exactly the positive dimensions the probe found. Its media id is present exactly when the insert returned a row. The object written and the row inserted carry that key, URL, size, type, name and normalised project id. |
| UploadRoute.PostFollowsCheckOrder | app/api/upload/route.ts:33-148 | For every request, the handler's reply is the rejection of the first failing check in the order session lookup, signed-in user, form parse, file present, size, type, probe, dimensions, store, insert; when none fails it is a success. |
| UploadRoute.FirstFailed | app/api/upload/route.ts:39-97 | The index returned is a failing check with every earlier check passing; no index means every check passes. |
| UploadRoute.Rejection | app/api/upload/route.ts:40-147 | Every failing check yields an error reply. 401 belongs to the signed-in check alone. 500 belongs exactly to the checks that stand for exceptions. |
| UploadRoute.UploadedFile | app/api/upload/route.ts:43-47 | A file is present exactly when the form was parsed and has a `file` field. |
| UploadRoute.UnauthorizedIgnoresForm | app/api/upload/route.ts:35-41 | Without a signed-in user, requests that differ in form and services get the identical outcome: 401 Unauthorized, or 500 when the session lookup threw. No file check is evaluated. |
| UploadRoute.IsAuthenticated | app/api/upload/route.ts:39 | A user is signed in exactly when the session lookup did not throw and gave a user id that is present and not empty. |
| UploadRoute.HasUsableDimensions | app/api/upload/route.ts:92 | The dimensions are usable exactly when width and height are both present and positive; a missing or zero value fails. |
| UploadRoute.ErrorText | app/api/upload/route.ts:40-147 | Every error has a non-empty message: "Unauthorized", "Missing file", the size-limit text, the allowed-types text, "Could not get image dimensions", "Failed to upload image". |
| UploadRoute.ErrorTextInjective | app/api/upload/route.ts:40-147 | Different errors have different messages, so a client can tell every rejection apart by its text. |
| UploadRoute.SizeLimitIsInclusive | app/api/upload/route.ts:52-53 | A file of exactly 15 × 1024 × 1024 bytes is not rejected for its size, and one of that size plus one byte is. |
| UploadRoute.SizeCheckedBeforeType | app/api/upload/route.ts:53-74 | An oversized file of a forbidden type gets the size error, not the type error. |
| UploadRoute.SaveFailureStillSucceeds | app/api/upload/route.ts:118-141 | Once the object is stored, the upload succeeds exactly when the insert does not throw. Its media id is present exactly when the insert succeeded with a row. |
| UploadRoute.AcceptedUrlShape | app/api/upload/route.ts:85-115 | An accepted URL starts with `https://images.wrk.so/uploads/` and ends with the file's name. |
| UploadRoute.StorageKeyInjective | app/api/upload/route.ts:85 | For UUIDs of equal length, the key determines the UUID and the name: different UUIDs never give the same key. |
| UploadRoute.StorageKey | app/api/upload/route.ts:85 | The key starts with `uploads/`, ends with the file name, and is as long as prefix, UUID, dash and name together. |
| UploadRoute.PublicUrl | app/api/upload/route.ts:115 | The URL starts with `https://images.wrk.so/` and what follows is exactly the key. |
| UploadRoute.MediaIdOf | app/api/upload/route.ts:132-133 | A media id is present exactly when the insert succeeded with data, and then it is that row's id. |
| JsString.Truthy | app/api/upload/route.ts:125 | A value read for its truthiness is present exactly when it is present and not empty, and then it is unchanged. This gives the project id passed to the insert, and it also decides the session check, the current domain and the error-message line of the panel. |
| JsString.TrimStart | components/admin/domain-management.tsx:70 | The result is a suffix of the input that does not start with white space, and everything dropped is white space. |
| JsString.TrimEnd | components/admin/domain-management.tsx:70 | The result is a prefix of the input that does not end with white space, and everything dropped is white space. |
| JsString.Trim | components/admin/domain-management.tsx:70-82 | The result is a contiguous slice of the input between an all-white-space prefix and an all-white-space suffix. It neither starts nor ends with white space. It is empty exactly when the input is all white space. |
| JsString.TrimIdempotent | components/admin/domain-management.tsx:82 | Trimming the trimmed domain changes nothing. |
| JsString.TrimKeepsContent | components/admin/domain-management.tsx:82 | Every character of the input that is not white space survives trimming, in place. |
| CustomDomain.StatusOf | components/admin/domain-management.tsx:394 | The status is absent without a record, and otherwise it is the record's status. |
| CustomDomain.VerifyEnabled | components/admin/domain-management.tsx:517-522 | The verify button is enabled exactly when nothing is loading and the status is pending, error or ssl_pending. Such a status always has a badge and an instruction text, and is never active. |
| CustomDomain.DomainOf | components/admin/domain-management.tsx:140 | There is a current domain exactly when the record exists and its domain is present and not empty. |
| CustomDomain.StatusBadge | components/admin/domain-management.tsx:247-294 | A badge is shown exactly when the status is one of the six known statuses; any other status, null included, has none. |
| CustomDomain.StatusBadgeInjective | components/admin/domain-management.tsx:247-294 | Two different known statuses never share a badge caption. |
| CustomDomain.RetryMessage | components/admin/domain-management.tsx:296-321 | No message at 0. "Attempt n/3" exactly for 1 ≤ n < 3. The multiple-failures warning exactly for n ≥ 3. |
| CustomDomain.RetryMessageAfterFailure | components/admin/domain-management.tsx:165-186 | After one more failed attempt a message is always shown. The attempt number rises by one. Once reached, the warning stays. |
| CustomDomain.VerifyLabel | components/admin/domain-management.tsx:525-538 | The label follows the priority loading, SSL pending, DNS configured, platform pending, default. |
| CustomDomain.VerifyLabelOfEnabledButton | components/admin/domain-management.tsx:517-538 | An enabled verify button says "Verify Domain" or "Check SSL Status". "Checking...", "Configuring..." and "Setting up..." appear only on a disabled one. |
| CustomDomain.InstructionText | components/admin/domain-management.tsx:449-458 | There is instruction text exactly for the five known statuses other than active. |
| CustomDomain.SelectView | components/admin/domain-management.tsx:323-592 | The view priority is skeleton while loading the status, then the upgrade notice without Pro, then the current domain when there is one, and otherwise the add form. In the domain view, the verification date shows iff `verifiedAt` is truthy and the error line iff `errorMessage` is. The open link shows iff the status is active and the instructions iff it is not. DNS records show iff the status is pending or error. The verify button is enabled iff not loading and the status is pending, error or ssl_pending. |
| CustomDomain.CurrentDomainPanelConsistent | components/admin/domain-management.tsx:409-463 | The open-site link and the verification block are never both shown, nor both hidden. Shown DNS records come with an enabled verify button unless a request is in flight. The extra diagnostics button appears exactly with the retry message. |
| CustomDomain.ClassifyDiagnostics | components/admin/domain-management.tsx:207-236 | The notice is an error report exactly when errors > 0, a warning exactly when no errors and warnings > 0, success exactly when neither, and a failure notice for a non-ok or thrown request. |
| CustomDomain.DomainManagement.constructor | components/admin/domain-management.tsx:33-37 | It starts with no record, an empty input, nothing loading except the status, and a retry count of 0. |
| CustomDomain.DomainManagement.View | components/admin/domain-management.tsx:323-387 | The skeleton shows exactly while the status loads. A domain view shows the current domain. |
| CustomDomain.DomainManagement.EditDomainInput | components/admin/domain-management.tsx:570 | The input holds the typed text. Nothing else changes. |
| CustomDomain.DomainManagement.FetchDomainStatus | components/admin/domain-management.tsx:44-62 | Loading ends. A successful fetch replaces the record; a failed or thrown one keeps it. Nothing else changes. |
| CustomDomain.DomainManagement.AddDomain | components/admin/domain-management.tsx:69-110 | A blank input sends nothing and changes nothing. Otherwise the trimmed input is sent and loading ends. Success clears the input, resets the retry count and refreshes the record; failure changes nothing else. |
| CustomDomain.DomainManagement.RemoveDomain | components/admin/domain-management.tsx:112-137 | Loading ends and the input is kept. Success resets the retry count and refreshes the record; failure changes nothing else. |
| CustomDomain.DomainManagement.VerifyDomain | components/admin/domain-management.tsx:139-190 | Without a current domain nothing is sent and nothing changes. Otherwise that domain is sent. Success resets the retry count to 0 and refreshes the record. A failure or an exception adds 1. A failure whose `error` field makes the `includes` check throw adds 2. Either way a retry message is then shown. |
| CustomDomain.DomainManagement.RunDiagnostics | components/admin/domain-management.tsx:192-240 | Without a current domain nothing is sent and nothing changes. Otherwise the domain is sent, the summary classified and loading ends. Only the loading flag can change. |

## Left out

- Network and foreign calls are inputs, not modelled. These are the session
  lookup, `request.formData()`, `randomUUID`, reading the file, the image
  probe, the object-store write, the metadata insert and the `fetch` calls
  to the domain endpoints.
- The tail of the oversize message, from `. Your file is` on, with the file's
  size in megabytes to two decimals (floating-point formatting).
  `ErrorText(FileTooLarge)` is the message up to "File size exceeds 15MB limit".
- The `animated` option passed to the image probe for GIFs. The probe's
  answer is an input.
- A `file` form field that holds a string instead of a file. The model's
  form field is either absent or a file.
- The module-level environment-variable check and the storage client set-up,
  which are configuration.
- Which toast is shown and its text. This includes the status-fetch error
  (domain-management.tsx:54), the extra configuration toast after a failed
  add (94-102), and the guidance toast after a failed verification, chosen
  from the contents of `data.error` (162-181). `VerifyReply.NotVerified`
  records only whether that choice throws. The one choice modelled is the
  diagnostics notice, by `ClassifyDiagnostics`.
- Analytics events, the clipboard, `window.open`, console output, the date
  formatting of `verifiedAt` and the JSX markup. Only the decisions these
  display are modelled.
- The React effect that loads the status on mount, and the interleaving of
  asynchronous handlers. Each handler is one atomic transition given its
  answer. The `isLoading = true` phase while a request is in flight is
  therefore only visible inside the method, and the view functions take
  `isLoading` as an arbitrary field value.
- The DNS record strings offered for copying (`cname.vercel-dns.com`,
  `76.76.19.61`). Only whether the records are shown is modelled.
- The rest of the repository (AI prompt templates, profile form, delete
  button, portfolio grid) holds no logic beyond rendering and calls to
  services.
