# Healthy-Stellar audit and privacy core, in Dafny

This project models the audit-and-privacy layer of the Healthy-Stellar NestJS
backend and proves properties of that model:

- the **request-context middleware**, which captures the actor context once per
  request, writes the correlation id back into the headers and attaches the
  context to a fresh query runner that is released when the response finishes;
- the **audit-context parameter decorators** (`AuditCtx`, `CurrentUser`,
  `IpAddress`, `UserAgent`);
- the **audit interceptor**, which decides which requests to audit, labels them,
  extracts the entity type and id, redacts the payload and writes one success
  or error row;
- the **entity audit subscriber**, which stamps the actor on inserted, updated
  and deleted entities and records redacted snapshots and a field diff;
- the **audit-log service**: its append-only store, the newest-first queries,
  the statistics and the retention purge;
- the **encryption utility**, the **data-encryption service** and the
  **column encryption transformer**, all built on one salted AES-256-GCM
  envelope (`salt ‖ iv ‖ tag ‖ ciphertext`, base64);
- the **admin and patient-privacy guards**;
- the patient **DTO validation rules** and the **medical record number** generator.

JavaScript objects are ordered lists of fields (`JsonValues.Json`), so key order,
`undefined` and truthiness are stated explicitly. Objects the source changes in
place are classes:

- the audit-log store;
- the request and its query runner;
- the response's finish listeners;
- the entity instance a subscriber hook stamps;
- the interceptor and the subscriber.

The pure helpers are functions with lemmas.

Things outside the model become parameters: the clock (`now`), the random bytes,
a generated request id, whether a repository save succeeds (`saveOk`) and the
crypto primitives (`Envelope.Primitives`). Properties of the crypto hold under
the hypothesis `Envelope.Sound`:

- scrypt yields the requested length;
- AES-GCM opening inverts sealing;
- the UTF-8 and base64 decoders invert their encoders.

## Model

| member | source | states |
|---|---|---|
| AuditLogs.AuditLogService.constructor | src/common/services/audit-log.service.ts:25-28 | The store starts empty and satisfies the unique-key invariant. |
| AuditLogs.AuditLogService.Create | src/common/services/audit-log.service.ts:30-36 | Exactly one row is appended, carrying every field of the entry, stamped with the clock and the next key of a counter; the store keeps its keys unique and increasing. |
| AuditLogs.AuditLogService.FindByEntity | src/common/services/audit-log.service.ts:38-46 | The result holds every row of that entity type and id, each exactly once, and nothing else, newest first. |
| AuditLogs.AuditLogService.FindByUser | src/common/services/audit-log.service.ts:48-54 | At most `limit` rows (0 meaning no limit), all of that user, newest first, each as often as it is stored at most; no omitted row of the user is newer than a returned one; the length is min(limit, matches). |
| AuditLogs.AuditLogService.FindByOperation | src/common/services/audit-log.service.ts:56-65 | The same guarantees as FindByUser, for rows with that operation. |
| AuditLogs.AuditLogService.FindByDateRange | src/common/services/audit-log.service.ts:67-77 | Exactly the rows whose timestamp lies in the inclusive range, each once, newest first. |
| AuditLogs.AuditLogService.GetStatistics | src/common/services/audit-log.service.ts:79-99 | The total is the row count. The per-operation and per-status groups have distinct keys, their counts add up to the total, and each count is the number of rows with that key. |
| AuditLogs.AuditLogService.Cleanup | src/common/services/audit-log.service.ts:102-112 | Exactly the rows older than now minus `retentionDays` (default 2555) days are deleted. The result is their number. Surviving rows keep their order, and the key counter is unchanged. |
| AuditLogs.SelectExact | src/common/services/audit-log.service.ts:42-45 | A `where` filter keeps exactly the matching rows, with their multiplicities. |
| AuditLogs.InsertNewestFirstPermutes | src/common/services/audit-log.service.ts:44 | One insertion step of the timestamp-descending order adds exactly the inserted row. |
| AuditLogs.InsertNewestFirstSorted | src/common/services/audit-log.service.ts:44 | One insertion step preserves timestamp-descending order. |
| AuditLogs.SortNewestFirstCorrect | src/common/services/audit-log.service.ts:44 | `order: { timestamp: 'DESC' }` yields a newest-first permutation of its input. |
| AuditLogs.TakeKeepsNewest | src/common/services/audit-log.service.ts:52 | `take` on a newest-first list keeps a newest-first prefix that no dropped row is newer than. |
| AuditLogs.FindCorrect | src/common/services/audit-log.service.ts:49-53 | A limited find returns only matching stored rows, newest first, bounded by the limit, with nothing newer left out. |
| AuditLogs.FindAllCorrect | src/common/services/audit-log.service.ts:42-45 | An unlimited find is a newest-first permutation of exactly the matching rows. |
| AuditLogs.TallyCorrect | src/common/services/audit-log.service.ts:81-93 | Counting one more key raises that key's group count by one, leaves the others alone and keeps keys distinct. |
| AuditLogs.TallyKeys | src/common/services/audit-log.service.ts:81-93 | Counting a row introduces no key other than its own and keeps one group per key. |
| AuditLogs.GroupCountsCorrect | src/common/services/audit-log.service.ts:81-93 | `GROUP BY … COUNT(*)` produces distinct keys whose counts sum to the row count and equal each key's occurrences. |
| AuditLogs.PurgePartition | src/common/services/audit-log.service.ts:102-110 | The cutoff splits the store into retained rows (at or after it) and deleted rows (before it), together a permutation of the store. |
| AuditLogs.RetainedKeepsIdOrder | src/common/services/audit-log.service.ts:106-110 | Deleting expired rows keeps the surviving counter keys increasing. |
| Http.QueryRunner.Release | src/common/middleware/request-context.middleware.ts:39 | Releasing marks the runner released and counts the release; its data is untouched. |
| Http.HttpResponse.OnFinishRelease | src/common/middleware/request-context.middleware.ts:37-41 | Registers the runner as a finish listener, after the existing ones. |
| Http.HttpResponse.Finish | src/common/middleware/request-context.middleware.ts:37-41 | Every registered runner ends up released. A runner already released is not released again. |
| Http.NextFunction.Call | src/common/middleware/request-context.middleware.ts:43 | Counts one call of `next`. |
| RequestContextMiddleware.CaptureContext | src/common/middleware/request-context.middleware.ts:10-14 | The user id is the request user's non-empty id, else `'anonymous'`. The address is `ip`, else the connection address, else `'unknown'`. The agent is the non-empty `user-agent` header, else `'unknown'`. The request id is the non-empty `x-request-id` header, else the generated one. The session id is passed through, and no field is empty. |
| RequestContextMiddleware.CapturePrecedence | src/common/middleware/request-context.middleware.ts:10-13 | A real user id beats `'anonymous'`. A non-empty `ip` beats the connection address, which beats `'unknown'`; the address reads `'unknown'` iff neither gives a better one. The agent reads `'unknown'` iff the header gives no better one. An inbound `x-request-id` beats a generated one. |
| RequestContextMiddleware.RequestContextMiddleware.Use | src/common/middleware/request-context.middleware.ts:9-44 | The captured context is written to a fresh unreleased query runner and to the request. The request id is written back into the headers, the runner is registered for release on finish, and `next` runs once. |
| RequestContextMiddleware.ReleaseOnceScenario | src/common/middleware/request-context.middleware.ts:37-43 | A request through the middleware whose response finishes twice has its runner released exactly once and calls `next` once. |
| AuditContextDecorator.ResolveAuditCtx | src/common/decorators/audit-context.decorator.ts:11-24 | An attached context is returned whole, or as the requested field. Without one, the fallback context is returned whole, or as the requested field. |
| AuditContextDecorator.FallbackContext | src/common/decorators/audit-context.decorator.ts:14-20 | The context built without the middleware: the non-empty user id or `'anonymous'`, `ip` or else the connection address (with no `'unknown'` default), the agent header or `'unknown'`, the request-id header or a generated id, and the session id. |
| AuditContextDecorator.ResolveCurrentUser | src/common/decorators/audit-context.decorator.ts:26-33 | Without a user the result is `undefined`; without a key it is the user; with a key it is that property. |
| AuditContextDecorator.ResolveIpAddress | src/common/decorators/audit-context.decorator.ts:35-40 | Never empty. A non-empty `request.ip` wins, then a non-empty connection address, else `'unknown'`. |
| AuditContextDecorator.ResolveUserAgent | src/common/decorators/audit-context.decorator.ts:42-47 | Never empty. A non-empty `user-agent` header is returned as is, and `'unknown'` otherwise. |
| AuditContextDecorator.FallbackAgreesWithMiddleware | src/common/decorators/audit-context.decorator.ts:14-20 | The fallback context equals the middleware's on user, agent, request id and session. It differs only by lacking the `'unknown'` address. The address and agent resolvers give the middleware's values. |
| AuditContextDecorator.AuditCtxAfterMiddleware | src/common/decorators/audit-context.decorator.ts:11-24 | After the middleware, `AuditCtx` yields exactly the context captured from the request's user, address, connection address, session and headers. The request id is the inbound header, else the generated one, never a second fresh id. |
| EntityAuditing.Sanitized | src/common/subscribers/audit.subscriber.ts:132-157 | The snapshot never holds `_`-prefixed or `constructor` keys. Every sensitive key holds `***REDACTED***`. |
| EntityAuditing.SanitizedLookup | src/common/subscribers/audit.subscriber.ts:146-155 | A key is in the snapshot iff it is in the entity and not skipped. Its value is `***REDACTED***` when sensitive and the original otherwise. |
| EntityAuditing.RedactsByCaseInsensitiveSubstring | src/common/subscribers/audit.subscriber.ts:135-151 | Any key containing a listed term, ignoring ASCII case, is redacted. |
| EntityAuditing.SanitizeEntity | src/common/subscribers/audit.subscriber.ts:132-157 | The loop over the entity's entries computes exactly the sanitized snapshot, and `null` for a missing entity. |
| EntityAuditing.SanitizedEntity | src/common/subscribers/audit.subscriber.ts:132-157 | A snapshot is `null` iff the entity is missing. Otherwise it is an object no larger than the entity, without skipped keys, whose sensitive keys hold `***REDACTED***`. |
| EntityAuditing.ChangesOverLookup | src/common/subscribers/audit.subscriber.ts:162-172 | A key appears in the diff iff it is a visited, non-skipped key whose old and new values differ. Its entry is `{from, to}` with the raw values. |
| EntityAuditing.ChangesExact | src/common/subscribers/audit.subscriber.ts:159-174 | A non-null diff lists exactly the non-skipped keys of the new entity whose values changed. A null diff means no such key exists. |
| EntityAuditing.ChangesOverSame | src/common/subscribers/audit.subscriber.ts:163-172 | Comparing an entity with itself finds no changes. |
| EntityAuditing.ChangesOfSameIsNull | src/common/subscribers/audit.subscriber.ts:159-174 | An unchanged entity, or a missing side, yields `null`. |
| EntityAuditing.ChangesKeepRawSecrets | src/common/subscribers/audit.subscriber.ts:166-170 | A changed `password` appears in the diff in clear text, old and new. |
| EntityAuditing.GetChanges | src/common/subscribers/audit.subscriber.ts:159-174 | The loop over the new entity's keys computes exactly the diff. |
| EntityAuditing.Changes | src/common/subscribers/audit.subscriber.ts:159-174 | The diff is `null` or a non-empty object, and `null` whenever a snapshot is missing. |
| EntityAuditing.ExtractUserId | src/common/subscribers/audit.subscriber.ts:107-109 | The actor is the runner's user id or `'system'`, never empty. |
| EntityAuditing.ExtractIpAddress | src/common/subscribers/audit.subscriber.ts:111-113 | The address is the runner's non-empty address or `null`. |
| EntityAuditing.ExtractUserAgent | src/common/subscribers/audit.subscriber.ts:115-117 | The agent is the runner's non-empty agent or `null`. |
| EntityAuditing.ExtractsMiddlewareContext | src/common/subscribers/audit.subscriber.ts:107-117 | A context captured by the middleware is read back unchanged. Without one the fallbacks are `'system'`, `null`, `null`. |
| EntityAuditing.StampedLookup | src/common/subscribers/audit.subscriber.ts:23-77 | Each hook writes its own actor field and the address and agent, or only `deletedBy`. No other property changes. |
| EntityAuditing.HookEntryShape | src/common/subscribers/audit.subscriber.ts:34-103 | Each hook's row has its own operation, `'success'`, the entity's id and actor, and the right snapshots. Only an update carries a diff. |
| EntityAuditing.UpdateDiffShowsNewUpdater | src/common/subscribers/audit.subscriber.ts:53-66 | The diff is taken after stamping, so a new updater shows up as a change of `updatedBy`. |
| EntityAuditing.EntityInstance.Assign | src/common/subscribers/audit.subscriber.ts:30-32 | A property assignment overwrites the key in place or appends it. |
| EntityAuditing.AuditSubscriber.CreateAuditLog | src/common/subscribers/audit.subscriber.ts:119-130 | A successful save appends one row; a failed save is swallowed and changes nothing. |
| EntityAuditing.AuditSubscriber.AfterInsert | src/common/subscribers/audit.subscriber.ts:23-44 | Without an entity nothing happens. Otherwise the entity is stamped with `createdBy`, address and agent, and the INSERT row is appended when the save succeeds; the key counter advances once per saved row. |
| EntityAuditing.AuditSubscriber.AfterUpdate | src/common/subscribers/audit.subscriber.ts:46-69 | Without an entity nothing happens. Otherwise it stamps `updatedBy`, address and agent, and appends the UPDATE row with both snapshots and the diff; the key counter advances once per saved row. |
| EntityAuditing.AuditSubscriber.AfterSoftRemove | src/common/subscribers/audit.subscriber.ts:71-88 | Without an entity nothing happens. Otherwise it stamps only `deletedBy` and appends the SOFT_DELETE row with the old snapshot; the key counter advances once per saved row. |
| EntityAuditing.AuditSubscriber.AfterRemove | src/common/subscribers/audit.subscriber.ts:90-105 | Without an entity nothing happens. Otherwise the entity is untouched and the DELETE row with the old snapshot is appended; the key counter advances once per saved row. |
| RequestAuditing.ShouldAudit | src/common/interceptors/audit.interceptor.ts:78-91 | A request is audited iff its url starts with no excluded path, and it is not a GET unless `AUDIT_GET_REQUESTS` is exactly `'true'`. |
| RequestAuditing.ShouldAuditPrefixes | src/common/interceptors/audit.interceptor.ts:79-88 | `/health…`, `/metrics…` and `/favicon.ico…` are never audited. GETs are skipped by default, and any other method on `/patients…` is audited. |
| RequestAuditing.PathWithoutQuery | src/common/interceptors/audit.interceptor.ts:36 | The path is the longest prefix of the url without `?`. |
| RequestAuditing.OperationLabel | src/common/interceptors/audit.interceptor.ts:36 | The label is method, `_`, then the path, and never contains the query string. |
| RequestAuditing.NonEmpty | src/common/interceptors/audit.interceptor.ts:94 | `filter(Boolean)` keeps exactly the non-empty segments, and keeps a non-empty first segment first. |
| RequestAuditing.NonEmptyAppend | src/common/interceptors/audit.interceptor.ts:94 | The filter keeps order: filtering a concatenation concatenates the filtered parts. |
| RequestAuditing.NonEmptyCounts | src/common/interceptors/audit.interceptor.ts:94 | The filter drops every empty string and keeps each non-empty one as often as it occurs. |
| RequestAuditing.NonEmptyOfEmpties | src/common/interceptors/audit.interceptor.ts:94-95 | Only empty segments filter to nothing, so `parts[0]` falls back to `'unknown'`. |
| RequestAuditing.NonEmptyFirst | src/common/interceptors/audit.interceptor.ts:94-95 | `parts[0]` is the first non-empty segment. |
| RequestAuditing.ExtractEntityType | src/common/interceptors/audit.interceptor.ts:93-96 | The type is never empty and is either `'unknown'` or a slash-free segment. |
| RequestAuditing.NonEmptySplitHead | src/common/interceptors/audit.interceptor.ts:94-95 | The first non-empty `/`-segment is the text up to the next slash after the leading slashes. |
| RequestAuditing.EntityTypeIsFirstSegment | src/common/interceptors/audit.interceptor.ts:93-96 | The type is the first non-empty path segment, or `'unknown'`. |
| RequestAuditing.FirstUuidFrom | src/common/interceptors/audit.interceptor.ts:99-100 | The match is the leftmost position where a case-insensitive 8-4-4-4-12 UUID starts, if any. |
| RequestAuditing.ExtractEntityId | src/common/interceptors/audit.interceptor.ts:98-111 | The id is the leftmost UUID in the url. Otherwise it is a truthy `response.id`, otherwise `undefined`. |
| RequestAuditing.Redacted | src/common/interceptors/audit.interceptor.ts:126-146 | Redaction keeps primitives and the shape: arrays keep their length and objects their key list. |
| RequestAuditing.RedactedEntry | src/common/interceptors/audit.interceptor.ts:136-143 | Redacting an entry never renames its key. |
| RequestAuditing.RedactedIsClean | src/common/interceptors/audit.interceptor.ts:126-146 | After redaction no sensitive key anywhere in the tree holds anything but `***REDACTED***`. |
| RequestAuditing.RedactedKeepsClean | src/common/interceptors/audit.interceptor.ts:126-146 | A tree with nothing left to redact is returned unchanged. |
| RequestAuditing.RedactedIdempotent | src/common/interceptors/audit.interceptor.ts:126-146 | Redaction is idempotent, and it leaves a tree unchanged iff the tree is already clean. |
| RequestAuditing.PinIsNotRedacted | src/common/interceptors/audit.interceptor.ts:116-124 | Unlike the subscriber, the interceptor's list has no `pin`, so a `pin` field is logged as is. |
| RequestAuditing.SanitizeTree | src/common/interceptors/audit.interceptor.ts:126-146 | The recursive loops compute exactly the redacted tree. |
| RequestAuditing.SanitizedData | src/common/interceptors/audit.interceptor.ts:113-149 | A falsy payload gives `null` and only it does; any other payload gives its redacted tree, which is clean. |
| RequestAuditing.SanitizeData | src/common/interceptors/audit.interceptor.ts:113-149 | A falsy payload becomes `null`; anything else becomes its redacted tree. |
| RequestAuditing.InterceptorContext | src/common/interceptors/audit.interceptor.ts:17-27 | The user id is the non-empty request user id or `'anonymous'`. The address is a non-empty `ip`, else the connection address, with no `'unknown'` default. The agent is the header or `'unknown'`, the request id the header or the generated id. There is no session id. |
| RequestAuditing.InterceptorAgreesWithMiddleware | src/common/interceptors/audit.interceptor.ts:22-27 | Behind the middleware, the overwritten context keeps the middleware's user, agent and request id. It loses the session id, and the `'unknown'` address fallback. |
| RequestAuditing.EntryShapes | src/common/interceptors/audit.interceptor.ts:35-68 | A success row's payload is the sanitized POST body, or the sanitized response for any other method: the redacted tree when truthy, `null` when falsy, and clean either way. An error row carries a non-empty message (`'Unknown error'` by default) and no payload or entity id, under the same operation label. |
| RequestAuditing.ErrorEmissionAsWritten | src/common/interceptors/audit.interceptor.ts:53-74 | As written, the failed request is not re-thrown: the stream emits an Observable as a value. |
| RequestAuditing.ErrorEmission | src/common/interceptors/audit.interceptor.ts:73 | The handler's error is re-thrown unchanged. |
| RequestAuditing.AsWrittenErrorIsNotRethrown | src/common/interceptors/audit.interceptor.ts:53-74 | The as-written emission differs from re-throwing, for every error. |
| RequestAuditing.AuditInterceptor.Intercept | src/common/interceptors/audit.interceptor.ts:15-76 | The request's context is overwritten. A response is passed on, and its row is appended when it is audited and saved. A thrown error is re-thrown (the corrected emission; see Findings), and its error row is appended whenever saved. |
| Envelope.Subarray | src/common/utils/encryption.util.ts:50-58 | `Buffer.subarray` clamps its bounds; in range it is the exact slice. |
| Envelope.UnpackPack | src/common/utils/encryption.util.ts:36-58 | Splitting a packed envelope returns the salt, IV, tag and ciphertext that were packed. |
| Envelope.PackUnpack | src/common/utils/encryption.util.ts:48-58 | Any buffer of at least 48 bytes is the packing of its parts. A shorter one yields a short tag and no ciphertext. |
| Envelope.Seal | src/common/utils/encryption.util.ts:13-37 | A sealed envelope is the salt, IV, 16-byte tag and ciphertext in that order. A failure is the cipher's error. |
| Envelope.DeriveKey | src/common/utils/encryption.util.ts:21-25 | With sound primitives the derived key is 32 bytes long. |
| Envelope.Open | src/common/utils/encryption.util.ts:48-74 | Opening succeeds iff the cipher accepts the unpacked salt, IV and tag, and then yields the UTF-8 text. A failure is the cipher's own error. |
| Envelope.OpenSeal | src/common/utils/encryption.util.ts:13-78 | With sound primitives, sealing succeeds and opening the result with the same password gives back the text. |
| Envelope.OpenSealText | src/common/utils/encryption.util.ts:13-78 | The same round trip through the base64 text form. |
| EncryptionUtility.Encrypt | src/common/utils/encryption.util.ts:13-41 | Succeeds iff sealing does, with the base64 envelope. A failure message starts with `Encryption failed: `. |
| EncryptionUtility.Decrypt | src/common/utils/encryption.util.ts:43-78 | Succeeds iff opening the base64-decoded envelope does. A failure message starts with `Decryption failed: `. |
| EncryptionUtility.DecryptEncrypt | src/common/utils/encryption.util.ts:13-78 | Decrypting what was encrypted under the same key returns the text. |
| EncryptionUtility.HashSalt | src/common/utils/encryption.util.ts:81 | Without a salt, or with an empty one, the random bytes are used. A given hex salt decodes to at most half its length in bytes. |
| EncryptionUtility.Hash | src/common/utils/encryption.util.ts:80-84 | A stored hash splits on `:` into exactly two parts: one decoding to the salt used, and the hex digest of the data under that salt. |
| EncryptionUtility.VerifyHash | src/common/utils/encryption.util.ts:86-90 | A value without `:` never verifies. A value that verifies has a second part equal to the hex digest of the data under its decoded salt. |
| EncryptionUtility.SplitHash | src/common/utils/encryption.util.ts:83-87 | A stored hash splits on `:` back into exactly its salt and digest. |
| EncryptionUtility.VerifyHashIff | src/common/utils/encryption.util.ts:80-90 | A text verifies against a stored hash iff it derives the same digest under the stored salt. Every text verifies against its own hash. |
| EncryptionUtility.HashReusesSalt | src/common/utils/encryption.util.ts:80-84 | Hashing again with the hex salt of a hash reproduces that hash. |
| EncryptionUtility.GenerateKey | src/common/utils/encryption.util.ts:92-94 | A key is 64 lower-case hex digits. |
| EncryptionUtility.GenerateKeyDecodes | src/common/utils/encryption.util.ts:92-94 | Hex-decoding a key gives back the 32 random bytes. |
| EncryptionUtility.MaskSensitiveData | src/common/utils/encryption.util.ts:96-101 | Empty or short data becomes `****`. Otherwise the length is kept, the first `visibleChars` characters are shown and the rest are stars. A shown character is always the original at that position. |
| Hex.FromHexToHex | src/common/utils/encryption.util.ts:81-88 | Hex decoding inverts hex encoding, so the salt survives the `hex:hex` form. |
| Hex.ToHexInjective | src/common/utils/encryption.util.ts:89 | Comparing hex strings compares the digests. |
| DataEncryption.NewDataEncryptionService | src/common/services/data-encryption.service.ts:14-19 | Construction fails with the missing-key message iff `ENCRYPTION_KEY` is absent or empty. |
| DataEncryption.DataEncryptionService.Encrypt | src/common/services/data-encryption.service.ts:21-44 | Empty input gives `null`. Otherwise it gives the utility's envelope, or its `Encryption failed: ` error. |
| DataEncryption.DataEncryptionService.Decrypt | src/common/services/data-encryption.service.ts:46-76 | Empty input gives `null`. Otherwise it gives the utility's plaintext, or its `Decryption failed: ` error. |
| DataEncryption.DecryptEncrypt | src/common/services/data-encryption.service.ts:21-76 | Under a configured key, encryption always succeeds and decryption returns the text. Empty input stays `null` both ways. |
| FieldEncryption.NewEncryptionTransformer | src/common/transformers/encryption.transformer.ts:12-17 | Construction fails with the missing-key message iff the environment key is absent or empty. |
| FieldEncryption.EncryptionTransformer.To | src/common/transformers/encryption.transformer.ts:19-41 | The stored value is `null` iff the input is empty or sealing fails. Otherwise it is the base64 envelope. |
| FieldEncryption.EncryptionTransformer.From | src/common/transformers/encryption.transformer.ts:43-73 | The loaded value is `null` iff the column is empty or opening fails. Otherwise it is the plaintext. |
| FieldEncryption.FromTo | src/common/transformers/encryption.transformer.ts:19-73 | A column round trip returns the value, except that `''` comes back as `null`. |
| AdminAccess.EffectiveUser | src/patients/guards/admin-guard.ts:10 | A present user is used as is. |
| AdminAccess.CanActivate | src/patients/guards/admin-guard.ts:8-23 | The guard never answers `false`. It admits iff there is no user or the role is `'admin'`, and otherwise throws the permission error. |
| AdminAccess.MissingUserIsAdmin | src/patients/guards/admin-guard.ts:10-13 | The `{role: 'admin'}` default makes a missing user an admin, so the not-authenticated error is never thrown. |
| PatientPrivacy.PatientId | src/patients/guards/patient-privacy.guard.ts:16 | A truthy `params.id` wins over `body.id`. |
| PatientPrivacy.CanActivate | src/patients/guards/patient-privacy.guard.ts:13-36 | Admins pass without a lookup. Other users pass iff there is a patient id and the looked-up patient's id strictly equals their `patientId`. A lookup happens only when there is a patient id. Any other outcome is the permission error or the lookup's failure. |
| PatientPrivacy.PrivacyCases | src/patients/guards/patient-privacy.guard.ts:15-35 | A missing user passes. A non-admin without a patient id is refused without a lookup. A patient reading their own record passes. |
| PatientValidation.AcceptedIffRulesHold | src/patients/dto/create-patient.dto.ts:7-88 | The validator reports no violation iff every rule holds for its property. |
| PatientValidation.RowMeaningsNames | src/patients/dto/create-patient.dto.ts:7-18 | The rules for first, last and middle name mean: a string of at most 50 characters, the middle name optional. |
| PatientValidation.RowMeaningsBirth | src/patients/dto/create-patient.dto.ts:20-28 | Birth date is an ISO date string, sex is one of four values, and gender identity is an optional string. |
| PatientValidation.RowMeaningsMedical | src/patients/dto/create-patient.dto.ts:33-44 | The optional blood group comes from its enum, the allergies are an array of strings and the language is a string. |
| PatientValidation.RowMeaningsOrigin | src/patients/dto/create-patient.dto.ts:46-56 | The optional nationality and ethnicity are strings, and the marital status comes from its enum. |
| PatientValidation.RowMeaningsContact | src/patients/dto/create-patient.dto.ts:61-71 | The optional phone is a string of at most 20 characters, the e-mail passes the e-mail test, and the address may be anything. |
| PatientValidation.RowMeaningsIdentity | src/patients/dto/create-patient.dto.ts:76-87 | The optional photo url and id type are strings, and the national id is a string of at most 50 characters. |
| PatientValidation.AcceptedIffValid | src/patients/dto/create-patient.dto.ts:7-88 | A payload is accepted iff it satisfies the field-by-field description of the DTO. |
| PatientValidation.AbsentOptionalNeverRejects | src/patients/dto/create-patient.dto.ts:15-87 | A missing or `null` optional property never yields a violation. |
| PatientValidation.DistinctProperties | src/patients/dto/create-patient.dto.ts:7-88 | Each property is validated by exactly one rule. |
| PatientValidation.MissingNameRejected | src/patients/dto/create-patient.dto.ts:7-9 | A payload without `firstName` is rejected with a string violation on it. |
| PatientValidation.StringAllergiesReportOnlyIsArray | src/patients/dto/create-patient.dto.ts:37-40 | A string in `knownAllergies` is reported as not an array, while `{ each: true }` checks the string itself and accepts it. |
| PhotoValidation.PhotoErrors | src/patients/dto/update-patient-photo.dto.ts:4-10 | The photo is accepted iff it is a non-empty string URL ending in `.jpg`, `.jpeg` or `.png` in any case. A wrong suffix yields the custom message, and an empty value yields the not-empty error. |
| PhotoValidation.ImageSuffixAnyCase | src/patients/dto/update-patient-photo.dto.ts:7 | The suffix test ignores case and rejects other extensions. |
| MedicalRecordNumber.GenerateMrn | src/patients/dto/update-patient.dto.ts:3-7 | Every record number starts with `HS-`. |
| MedicalRecordNumber.Suffix | src/patients/dto/update-patient.dto.ts:6 | The random part is eight upper-case hex digits. |
| MedicalRecordNumber.MrnComponents | src/patients/dto/update-patient.dto.ts:3-7 | Splitting a record number on `-` gives `HS`, the year and the hex suffix. |
| MedicalRecordNumber.MrnInjective | src/patients/dto/update-patient.dto.ts:3-7 | Within a year, different random bytes give different record numbers. |
| Redaction.SensitiveByTerm | src/common/subscribers/audit.subscriber.ts:150 | A key is sensitive as soon as some listed term occurs in it, ignoring ASCII case. |

## Left out

- Crypto internals: scrypt, AES-256-GCM, UTF-8 and base64 are opaque parameters (`Envelope.Primitives`), so what AES-GCM guarantees is the hypothesis `Envelope.Sound` rather than proved. Random bytes are inputs.
- EncryptionUtility.Hash: the service's `hash`, `verifyHash` and `maskSensitiveData` (data-encryption.service.ts:78-95) are line for line the utility's. They are modelled once, by the utility's functions; the async wrappers of the utility are not modelled.
- The service's and the transformer's own `encrypt`/`decrypt` bodies repeat the utility's envelope code and reuse `EncryptionUtility.Encrypt`/`Decrypt`.
- Clocks, `Math.random` and generated request ids are parameters (`now`, `GeneratedId`).
- Promises, rxjs scheduling and concurrency are not modelled. Each hook or interceptor call runs to completion. The `tap(async …)` save is not awaited by the stream, and the model ignores that ordering.
- Console logging of swallowed failures is left out. A save failure is the boolean `saveOk`.
- `JSON.stringify` comparison in the diff is modelled as value equality. Stringify's dropping of `undefined`-valued properties and its treatment of cycles are not modelled.
- EntityAuditing.ChangesOverLookup: the snapshots are redacted but the diff is not, so a changed `password` is stored in clear text in `changes` (`ChangesKeepRawSecrets`). The model keeps the raw diff, as the code builds it.
- RequestAuditing.AuditInterceptor.Intercept: on a thrown error it emits the corrected `ErrorEmission` (re-throw), not the as-written `ErrorEmissionAsWritten`; the row it appends is the same in both. The discrepancy is the one row under Findings.
- RequestAuditing.Redacted and EntityAuditing.ChangesOverLookup: `JsonValues.Json` has no floats, NaN, `Date` or class instances. In the code `sanitize` turns a `Date` into `{}` (audit.interceptor.ts:131-140) and `getChanges` compares a `Date` by its ISO string (audit.subscriber.ts:166); neither is captured.
- AuditLogs.AuditLogService.Create and AuditLogs.RetainedKeepsIdOrder: a row's `id` is a natural-number counter, whereas the entity uses a generated uuid (audit-log.entity.ts:15). "Unique" carries over; "increasing" is a property of the counter, not of the database's keys.
- Strings are sequences of code points, not UTF-16 units. `MaxLength`, mask lengths and `substring` differ from JavaScript on astral characters. Lower-casing is ASCII only.
- AuditLogs.AuditLogService.Cleanup: the cutoff is `now - days * 86400000` milliseconds; `Date.setDate` across daylight-saving changes is not modelled.
- AuditLogs.AuditLogService.GetStatistics: counts are natural numbers; the PostgreSQL driver returns them as strings.
- Ties in timestamp order are left in an unspecified order by the database; the model fixes one stable order.
- User ids are modelled only when `user.id` is a string; numeric ids are treated as absent.
- `IsDateString`, `IsEmail` and `IsUrl` are format-test parameters (`PatientValidation.Formats`), not reimplemented.
- The audit-context guard, the `@Encrypted` decorator, the entity classes, the modules and the database configuration are wiring and are not part of this model.
- AdminAccess.CanActivate and PatientPrivacy.CanActivate: the "User not authenticated" branch is unreachable because of the `{role: 'admin'}` default, and is proved so rather than modelled as reachable.

## Findings

| source | as written | input that shows it | evidently intended | confidence | as-written member | corrected member |
|---|---|---|---|---|---|---|
| src/common/interceptors/audit.interceptor.ts:53-74 | `catchError(async (error) => … return throwError(() => error))` resolves a Promise of an Observable, which rxjs emits as an ordinary value | any handler that throws, e.g. a `NotFoundException` | the handler's error is re-thrown to the client after the error row is written | medium, not executed | RequestAuditing.ErrorEmissionAsWritten | RequestAuditing.ErrorEmission |
