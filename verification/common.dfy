/** Shared vocabulary of the model: identifiers, optional values, endpoint
    results with HTTP-style errors, role comparison and the "first matching
    row" lookup every `query(...).first()` of the backend performs. */
module Common {

  /** Row identifiers. The backend uses random UUIDs; the model hands out
      consecutive naturals from a counter kept in the store. */
  type Id = nat

  datatype Option<+T> = None | Some(value: T)

  /** An error the backend raises as an `HTTPException` (or an uncaught
      exception, which the framework turns into a 500). */
  datatype HttpError = HttpError(code: int, detail: string)

  datatype Result<+T> = Ok(value: T) | Err(error: HttpError)

  const BadRequest := 400
  const Unauthorized := 401
  const Forbidden := 403
  const NotFound := 404
  const ServerError := 500

  /** A partial-update field: left out of the request, or given a value.
      Mirrors `payload.dict(exclude_unset=True)`. */
  datatype Patch<+T> = Unset | Given(value: T)

  function Apply<T>(p: Patch<T>, current: T): (r: T)
    ensures p.Unset? ==> r == current
    ensures p.Given? ==> r == p.value
  {
    match p
    case Unset => current
    case Given(v) => v
  }

  /** A `None`-means-keep field, as in `if payload.x is not None: ...`. */
  function Overwrite<T>(o: Option<T>, current: T): (r: T)
    ensures o.None? ==> r == current
    ensures o.Some? ==> r == o.value
  {
    match o
    case None => current
    case Some(v) => v
  }

  // ---------------------------------------------------------------------
  // Roles
  // ---------------------------------------------------------------------

  const AdminRole := "admin"
  const UserRole := "user"

  function LowerChar(c: char): (r: char)
    ensures 'A' <= c <= 'Z' ==> r as int == c as int + 32
    ensures !('A' <= c <= 'Z') ==> r == c
  {
    if 'A' <= c <= 'Z' then (c as int + 32) as char else c
  }

  /** `str.lower()` restricted to ASCII letters. */
  function Lower(s: string): (r: string)
    ensures |r| == |s|
    ensures forall i :: 0 <= i < |s| ==> r[i] == LowerChar(s[i])
  {
    seq(|s|, i requires 0 <= i < |s| => LowerChar(s[i]))
  }

  /** `role.lower() != "admin"` fails: the check of the order, menu and
      restaurant routers. */
  predicate IsAdminIgnoringCase(role: string) {
    Lower(role) == AdminRole
  }

  /** `role != "admin"` fails: the check of the user router. */
  predicate IsAdminExact(role: string) {
    role == AdminRole
  }

  /** The exact check is strictly stronger than the case-insensitive one:
      every exact admin passes both, and "Admin" passes only the latter. */
  lemma AdminChecksCompared()
    ensures forall role :: IsAdminExact(role) ==> IsAdminIgnoringCase(role)
    ensures IsAdminIgnoringCase("Admin") && !IsAdminExact("Admin")
  {
    assert Lower("admin") == "admin";
    assert Lower("Admin") == "admin";
  }

  // ---------------------------------------------------------------------
  // First matching row
  // ---------------------------------------------------------------------

  /** The lowest key in `[lo, hi)` of `m` whose row satisfies `p`: the model
      of `query(...).filter(p).first()` over rows whose ids lie below `hi`. */
  function FirstKey<V>(m: map<Id, V>, p: V -> bool, lo: Id, hi: Id): (r: Option<Id>)
    decreases hi - lo
    ensures r.Some? ==> lo <= r.value < hi && r.value in m && p(m[r.value])
    ensures r.Some? ==> forall k :: lo <= k < r.value && k in m ==> !p(m[k])
    ensures r.None? ==> forall k :: lo <= k < hi && k in m ==> !p(m[k])
  {
    if lo >= hi then None
    else if lo in m && p(m[lo]) then Some(lo)
    else FirstKey(m, p, lo + 1, hi)
  }

  /** Two tables whose keys in `[lo, hi)` satisfy `p` at the same places
      have the same first match there; `FirstKey`'s contract pins its
      result down, so this needs no induction. */
  lemma FirstKeySameMatches<V>(m: map<Id, V>, m': map<Id, V>, p: V -> bool, lo: Id, hi: Id)
    requires forall k :: lo <= k < hi ==> (k in m && p(m[k])) == (k in m' && p(m'[k]))
    ensures FirstKey(m, p, lo, hi) == FirstKey(m', p, lo, hi)
  {
  }

  /** Widening the range by a key that does not match leaves the first
      match where it was. */
  lemma FirstKeyWiden<V>(m: map<Id, V>, p: V -> bool, lo: Id, hi: Id)
    requires lo <= hi
    requires hi !in m || !p(m[hi])
    ensures FirstKey(m, p, lo, hi + 1) == FirstKey(m, p, lo, hi)
  {
  }
}
