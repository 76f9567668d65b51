# CRM foundation types, in Dafny

A model of the shared foundation of a multi-tenant CRM backend
(`src/types/index.ts`): the pagination envelope every list endpoint returns,
the taxonomy of request-scoped errors with their HTTP status codes and machine
codes, and the closed vocabularies of domain events, activity kinds, entity
references, contact channels and workspace roles.

- `wrappers.dfy`, module `Wrappers`: `Option`, for parameters and properties the
  source declares with `?` or gives a default.
- `pagination.dfy`, module `Pagination`: `PaginationQuery`, `PaginatedResult` and
  `Paginate`. `totalPages` is `Math.ceil(total / limit)` over exact reals
  (`Ceil`). The lemmas show that for `total >= 0` and `limit >= 1` this is integer
  ceiling division. They also show it is the least page count that covers
  `total`, and that it equals a page-by-page count (`PagesNeeded`).
- `errors.dfy`, module `Errors`: `AppError` as a sum type. `Base` is an `AppError`
  built directly; the other five constructors are its subclasses. The member
  functions `StatusCode`, `Code` and `Message` give the fields the class
  constructors set. `KindOfStatus` and `KindOfCode` are what an HTTP boundary can
  recover from those fields.
- `events.dfy` (`Events`), `activities.dfy` (`Activities`), `workspace.dfy`
  (`Workspace`): the string unions and the enum as datatypes. Each has the
  string the source uses for it and a parser back from strings. `tags.dfy`
  (`Tags`) names the shapes those strings take.

Messages are the source's exact Spanish strings (src/types/index.ts:49, 56, 62).
The source declares no order among roles (line 148), so none is modelled.

## Model

| member | source | states |
|---|---|---|
| Pagination.Ceil | src/types/index.ts:30 | `Math.ceil`: the result is the least integer not below its argument |
| Pagination.Paginate | src/types/index.ts:19-32 | items, total, page and limit come back exactly as given; `totalPages` is the ceiling of `total / limit`; only `limit == 0` is excluded |
| Pagination.CeilDivBounds | src/types/index.ts:30 | `(total + limit - 1) / limit` pages hold `total` items and one page fewer does not |
| Pagination.CeilOfQuotient | src/types/index.ts:30 | the ceiling of the real quotient equals integer ceiling division for `total >= 0`, `limit >= 1` |
| Pagination.TotalPagesIsCeilDiv | src/types/index.ts:30 | `paginate(...).totalPages == (total + limit - 1) / limit` for `total >= 0`, `limit >= 1` |
| Pagination.TotalPagesCovers | src/types/index.ts:30 | `totalPages >= 0`, `totalPages * limit >= total` and `(totalPages - 1) * limit < total` |
| Pagination.TotalPagesIsOnlyCover | src/types/index.ts:30 | a page count covers `total` while one page fewer does not if and only if it is `totalPages` |
| Pagination.PagesNeededCovers | src/types/index.ts:30 | the page-by-page count covers `total` and is least |
| Pagination.TotalPagesCountsPages | src/types/index.ts:30 | `totalPages` equals counting off one full page of `limit` items at a time |
| Pagination.TotalPagesAtBoundaries | src/types/index.ts:30 | total 0 gives 0 pages, total = limit gives 1, total = limit + 1 gives 2, for every limit |
| Pagination.TotalPagesMonotone | src/types/index.ts:30 | a larger total never gives fewer pages |
| Pagination.SecondPageOfTen | src/types/index.ts:19-32 | `paginate([a,b,c], 10, 2, 3)` is `{items: [a,b,c], total: 10, page: 2, limit: 3, totalPages: 4}` |
| Errors.AppError.StatusCode | src/types/index.ts:34-77 | every subclass has a status in 400..499; a directly built `AppError` keeps the status it was given |
| Errors.AppError.Code | src/types/index.ts:34-77 | every subclass has a code made of upper-case letters and underscores; a directly built `AppError` keeps the code it was given, or none |
| Errors.AppError.Message | src/types/index.ts:45-77 | a NotFound message starts with the resource; a given message is kept unchanged |
| Errors.NotFoundMessage | src/types/index.ts:49 | decided by the `id ?` test `Truthy` (absent or empty id is falsy): the message starts with the resource; it is resource + ` no encontrado` exactly when the id is not truthy; a truthy id follows ` con id "` |
| Errors.KindOfStatus | src/types/index.ts:45-77 | only statuses in 400..499 identify a subclass |
| Errors.KindOfCode | src/types/index.ts:45-77 | only upper-case-and-underscore codes identify a subclass |
| Errors.StatusAndCodeOfEachClass | src/types/index.ts:45-77 | NotFound is 404 `NOT_FOUND`, Unauthorized 401 `UNAUTHORIZED`, Forbidden 403 `FORBIDDEN`, Conflict 409 `CONFLICT`, Validation 422 `VALIDATION_ERROR` |
| Errors.StatusAndCodeDependOnlyOnKind | src/types/index.ts:45-77 | two errors of one class have equal status and code, whatever their arguments |
| Errors.KindRecoveredAtBoundary | src/types/index.ts:45-77 | the status alone, and the code alone, tell which of the five classes an error is |
| Errors.DistinctKindsDistinctFields | src/types/index.ts:45-77 | equal status if and only if same class; equal code if and only if same class |
| Errors.NotFoundMessageShape | src/types/index.ts:49 | with a truthy id the message is resource, ` con id "`, id, `" no encontrado`; otherwise resource + ` no encontrado` |
| Errors.EmptyIdIsNoId | src/types/index.ts:49 | an empty-string id gives the same message as no id (JavaScript truthiness) |
| Errors.NotFoundMessageDeterminesId | src/types/index.ts:49 | for one resource, two messages are equal if and only if the ids are equal once an empty id is read as none |
| Errors.DefaultMessages | src/types/index.ts:55-77 | Unauthorized defaults to `No autorizado`, Forbidden to `Acceso denegado`; a given message, even empty, is kept; Conflict and Validation keep theirs |
| Errors.MissingContact | src/types/index.ts:45-53 | `NotFoundError("Contact", "abc123")` has message `Contact con id "abc123" no encontrado`, status 404, code `NOT_FOUND`; without the id the clause is omitted |
| Events.CRMEvent.Tag | src/types/index.ts:79-102 | every event's tag parses back to that event, so no two events share a tag |
| Events.ParsedCRMEventHasTag | src/types/index.ts:79-102 | a string that parses is the tag of the event it parses to |
| Events.CRMEventTagHasFamilyPrefix | src/types/index.ts:79-102 | every event's tag starts with its family's name and a dot |
| Activities.ActivityType.Value | src/types/index.ts:104-126 | every value is upper-case letters and underscores and parses back to its activity kind, so no two kinds share a value |
| Activities.ParsedActivityTypeHasValue | src/types/index.ts:104-126 | a string that parses is the value of the kind it parses to |
| Activities.EntityType.Tag | src/types/index.ts:131 | every tag is a lower-case word and parses back to its entity type |
| Activities.ParsedEntityTypeHasTag | src/types/index.ts:131 | a string that parses is the tag of the entity type it parses to |
| Workspace.ChannelType.Tag | src/types/index.ts:137 | every tag is a lower-case word and parses back to its channel type |
| Workspace.ParsedChannelTypeHasTag | src/types/index.ts:137 | a string that parses is the tag of the channel type it parses to |
| Workspace.Role.Tag | src/types/index.ts:148 | every tag is a lower-case word and parses back to its role |
| Workspace.ParsedRoleHasTag | src/types/index.ts:148 | a string that parses is the tag of the role it parses to |

## Left out

- Configuration loading (`src/core/config/index.ts`) is not part of this model. It delegates validation to the `zod` library, reads the process environment, writes to the error stream and exits the process.
- Paginate: numbers are modelled as unbounded integers with the quotient taken exactly; IEEE-754 rounding of `total / limit`, non-integer arguments and the `Infinity`/`NaN` that `limit == 0` produces are not modelled.
- Paginate: the ceiling-division lemmas assume `total >= 0` and `limit >= 1`; for other non-zero limits the model still computes the exact ceiling, but nothing more is proved about it.
- The `Error` machinery behind `AppError` (`super(message)`, `name = 'AppError'`, stack traces, `throw` and propagation) is not modelled; errors are values.
- `ContactChannel.metadata`, an open map of unknown values, is not modelled.
- `PaginationQuery` is a shape only; the source applies no defaults and no sorting, so neither does the model.
- No order or permission policy for `WorkspaceContext.role`: the source declares the union and nothing else.
- Serialising an error into an HTTP response body happens outside this file and is not modelled.
