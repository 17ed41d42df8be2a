/** Values that arrive with a request: uploaded files and the bytes they carry. */
module Web {
  import opened Wrappers
  import opened Text
  import opened Db
  newtype byte = x: int | 0 <= x < 256

  /** A `File` taken from form data. */
  datatype UploadedFile = UploadedFile(name: string, mimeType: string, bytes: seq<byte>) {
    function Size(): nat {
      |bytes|
    }
  }

  /** `locals.user`, the signed-in user a request carries; the fields after `credits` may
      be absent. */
  datatype LocalUser = LocalUser(
    id: Id,
    email: string,
    credits: int,
    name: Option<string>,
    avatarUrl: Option<string>,
    role: Option<string>,
    planTier: Option<string>)

  /** `locals.user.planTier || 'free'`. */
  function TierOf(user: LocalUser): (t: string)
    ensures t != ""
    ensures Truthy(user.planTier) ==> t == user.planTier.value
    ensures !Truthy(user.planTier) ==> t == "free"
  {
    if Truthy(user.planTier) then user.planTier.value else "free"
  }

  /** `locals.session`. */
  datatype LocalSession = LocalSession(id: string, userId: Id, expiresAt: int)

  /** The role check of the admin pages: `locals.user.role === 'ADMIN'`. */
  predicate IsAdmin(user: Option<LocalUser>) {
    user.Some? && user.value.role == Some("ADMIN")
  }

  /** A `fail(status, { message })` answer. */
  datatype Fail = Fail(status: int, message: string)

  /** A `throw redirect(status, location)` answer. */
  datatype PageRedirect = PageRedirect(status: int, location: string)
}
