/**
 * The error taxonomy of src/types/index.ts: `AppError` and its five subclasses,
 * as one closed sum type. Each value answers the three fields an HTTP boundary
 * reads: `statusCode`, `message` and the optional machine `code`.
 */
module Errors {
  import opened Wrappers
  import opened Tags

  /** The five subclasses, without their arguments. */
  datatype ErrorKind = NotFoundKind | UnauthorizedKind | ForbiddenKind | ConflictKind | ValidationKind

  /**
   * One constructor per class. `Base` is `new AppError(statusCode, message, code?)`
   * built directly; the others carry their constructor's arguments, where
   * `None` is an argument left out (`undefined`).
   */
  datatype AppError =
    | Base(status: int, text: string, tag: Option<string>)
    | NotFound(resource: string, id: Option<string>)
    | Unauthorized(given: Option<string>)
    | Forbidden(given: Option<string>)
    | Conflict(text: string)
    | Validation(text: string)
  {
    predicate IsSubclass() { !Base? }

    function Kind(): ErrorKind
      requires IsSubclass()
    {
      match this
      case NotFound(_, _) => NotFoundKind
      case Unauthorized(_) => UnauthorizedKind
      case Forbidden(_) => ForbiddenKind
      case Conflict(_) => ConflictKind
      case Validation(_) => ValidationKind
    }

    /** The HTTP status: fixed by the class, never by an argument. */
    function StatusCode(): (s: int)
      ensures IsSubclass() ==> 400 <= s <= 499
      ensures Base? ==> s == status
    {
      match this
      case Base(st, _, _) => st
      case NotFound(_, _) => 404
      case Unauthorized(_) => 401
      case Forbidden(_) => 403
      case Conflict(_) => 409
      case Validation(_) => 422
    }

    /** The machine-readable code: always present and non-empty for a subclass. */
    function Code(): (c: Option<string>)
      ensures IsSubclass() ==> c.Some? && IsUpperSnake(c.value)
      ensures Base? ==> c == tag
    {
      match this
      case Base(_, _, t) => t
      case NotFound(_, _) => Some("NOT_FOUND")
      case Unauthorized(_) => Some("UNAUTHORIZED")
      case Forbidden(_) => Some("FORBIDDEN")
      case Conflict(_) => Some("CONFLICT")
      case Validation(_) => Some("VALIDATION_ERROR")
    }

    /** The message handed to `Error`. */
    function Message(): (m: string)
      ensures NotFound? ==> resource <= m
      ensures Base? || Conflict? || Validation? ==> m == text
      ensures (Unauthorized? || Forbidden?) && given.Some? ==> m == given.value
    {
      match this
      case Base(_, t, _) => t
      case NotFound(r, i) => NotFoundMessage(r, i)
      case Unauthorized(g) => if g.Some? then g.value else UnauthorizedDefault
      case Forbidden(g) => if g.Some? then g.value else ForbiddenDefault
      case Conflict(t) => t
      case Validation(t) => t
    }
  }

  const UnauthorizedDefault: string := "No autorizado"
  const ForbiddenDefault: string := "Acceso denegado"
  const IdOpen: string := " con id \""
  const IdClose: string := "\" no encontrado"
  const NotFoundSuffix: string := " no encontrado"

  /** JavaScript truthiness of an optional string: present and non-empty. */
  predicate Truthy(id: Option<string>) {
    id.Some? && id.value != ""
  }

  /** NotFoundError's message: the id clause is present exactly when the id is truthy. */
  function NotFoundMessage(resource: string, id: Option<string>): (m: string)
    ensures resource <= m
    ensures !Truthy(id) <==> m == resource + NotFoundSuffix
    ensures Truthy(id) ==> |m| > |resource| + |IdOpen| && id.value <= m[|resource| + |IdOpen|..]
    ensures Truthy(id) ==> m[|resource|..|resource| + |IdOpen|] == IdOpen
  {
    if Truthy(id) then resource + IdOpen + id.value + IdClose
    else resource + NotFoundSuffix
  }

  /** The id as the message sees it: an empty id counts as no id. */
  function EffectiveId(id: Option<string>): Option<string> {
    if Truthy(id) then id else None
  }

  /** The kind an HTTP boundary recovers from a status code alone. */
  function KindOfStatus(status: int): (k: Option<ErrorKind>)
    ensures k.Some? ==> 400 <= status <= 499
  {
    if status == 404 then Some(NotFoundKind)
    else if status == 401 then Some(UnauthorizedKind)
    else if status == 403 then Some(ForbiddenKind)
    else if status == 409 then Some(ConflictKind)
    else if status == 422 then Some(ValidationKind)
    else None
  }

  /** The kind an HTTP boundary recovers from a machine code alone. */
  function KindOfCode(code: string): (k: Option<ErrorKind>)
    ensures k.Some? ==> IsUpperSnake(code)
  {
    if code == "NOT_FOUND" then Some(NotFoundKind)
    else if code == "UNAUTHORIZED" then Some(UnauthorizedKind)
    else if code == "FORBIDDEN" then Some(ForbiddenKind)
    else if code == "CONFLICT" then Some(ConflictKind)
    else if code == "VALIDATION_ERROR" then Some(ValidationKind)
    else None
  }

  // ---------------------------------------------------------------------------
  // Status and code

  /** Two errors of the same class share status and code, whatever their arguments. */
  lemma StatusAndCodeDependOnlyOnKind(a: AppError, b: AppError)
    requires a.IsSubclass() && b.IsSubclass() && a.Kind() == b.Kind()
    ensures a.StatusCode() == b.StatusCode()
    ensures a.Code() == b.Code()
  {
  }

  /** The status and code each class fixes. */
  lemma StatusAndCodeOfEachClass(e: AppError)
    ensures e.NotFound? ==> e.StatusCode() == 404 && e.Code() == Some("NOT_FOUND")
    ensures e.Unauthorized? ==> e.StatusCode() == 401 && e.Code() == Some("UNAUTHORIZED")
    ensures e.Forbidden? ==> e.StatusCode() == 403 && e.Code() == Some("FORBIDDEN")
    ensures e.Conflict? ==> e.StatusCode() == 409 && e.Code() == Some("CONFLICT")
    ensures e.Validation? ==> e.StatusCode() == 422 && e.Code() == Some("VALIDATION_ERROR")
  {
  }

  /** Both the status and the code identify the class of a subclass error. */
  lemma KindRecoveredAtBoundary(e: AppError)
    requires e.IsSubclass()
    ensures KindOfStatus(e.StatusCode()) == Some(e.Kind())
    ensures KindOfCode(e.Code().value) == Some(e.Kind())
  {
  }

  /** Status codes and codes are pairwise distinct across the five classes. */
  lemma DistinctKindsDistinctFields(a: AppError, b: AppError)
    requires a.IsSubclass() && b.IsSubclass()
    ensures a.StatusCode() == b.StatusCode() <==> a.Kind() == b.Kind()
    ensures a.Code() == b.Code() <==> a.Kind() == b.Kind()
  {
    KindRecoveredAtBoundary(a);
    KindRecoveredAtBoundary(b);
  }

  // ---------------------------------------------------------------------------
  // Messages

  /** The id clause appears exactly when the id is truthy. */
  lemma NotFoundMessageShape(resource: string, id: Option<string>)
    ensures var m := NotFound(resource, id).Message();
      if Truthy(id) then
        |m| == |resource| + |IdOpen| + |id.value| + |IdClose|
        && m[..|resource|] == resource
        && m[|resource|..|resource| + |IdOpen|] == IdOpen
        && m[|resource| + |IdOpen|..|resource| + |IdOpen| + |id.value|] == id.value
        && m[|resource| + |IdOpen| + |id.value|..] == IdClose
      else
        m == resource + " no encontrado"
  {
  }

  /** An empty id is the same as no id. */
  lemma EmptyIdIsNoId(resource: string)
    ensures NotFound(resource, Some("")).Message() == NotFound(resource, None).Message()
    ensures NotFound(resource, None).Message() == resource + " no encontrado"
  {
  }

  /**
   * For one resource, the message determines the id (up to emptiness), so the
   * id can be read back from it.
   */
  lemma {:induction false} NotFoundMessageDeterminesId(resource: string, i1: Option<string>, i2: Option<string>)
    ensures NotFound(resource, i1).Message() == NotFound(resource, i2).Message()
      <==> EffectiveId(i1) == EffectiveId(i2)
  {
    var m1 := NotFound(resource, i1).Message();
    var m2 := NotFound(resource, i2).Message();
    NotFoundMessageShape(resource, i1);
    NotFoundMessageShape(resource, i2);
    if m1 == m2 {
      if Truthy(i1) && Truthy(i2) {
        assert |i1.value| == |i2.value|;
      }
    }
  }

  /** Left out, `message` takes the class default; given, it is kept as is, even when empty. */
  lemma DefaultMessages(m: string)
    ensures Unauthorized(None).Message() == "No autorizado"
    ensures Forbidden(None).Message() == "Acceso denegado"
    ensures Unauthorized(Some(m)).Message() == m
    ensures Forbidden(Some(m)).Message() == m
    ensures Conflict(m).Message() == m && Validation(m).Message() == m
  {
  }

  /** The example of a missing contact, with and without its id. */
  lemma MissingContact()
    ensures NotFound("Contact", Some("abc123")).Message() == "Contact con id \"abc123\" no encontrado"
    ensures NotFound("Contact", None).Message() == "Contact no encontrado"
    ensures NotFound("Contact", Some("abc123")).StatusCode() == 404
    ensures NotFound("Contact", Some("abc123")).Code() == Some("NOT_FOUND")
  {
  }
}
