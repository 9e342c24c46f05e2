/**
 * The records the Sponsor Pass Manager exchanges with the partnerships
 * service (src/types/index.ts), plus the shape of an awaited service call:
 * it either resolves with a value or throws.
 */
module Types {

  datatype Option<T> = None | Some(value: T)

  datatype Sponsor = Sponsor(
    id: int,
    name: string,
    dailyRate: string,
    notes: string,
    createdAt: string,
    updatedAt: string)

  datatype PassStatus = Active | Revoked

  datatype SponsorPass = SponsorPass(
    id: int,
    sponsor: int,          // the id of the owning Sponsor
    sponsorName: string,
    firstName: string,
    lastName: string,
    email: string,
    status: PassStatus,
    expiresAt: Option<string>,
    createdAt: string,
    updatedAt: string,
    revokedAt: Option<string>)

  datatype CreateSponsorPassRequest = CreateSponsorPassRequest(
    sponsor: int,
    firstName: string,
    lastName: string,
    email: string,
    expiresAt: Option<string>)

  datatype RevokeSponsorPassRequest = RevokeSponsorPassRequest(id: int)

  /** A page of a service listing; `count` may be missing, hence the Option. */
  datatype PaginatedResponse<T> = PaginatedResponse(count: Option<int>, results: seq<T>)

  /** The two pass-listing endpoints and the parameters a caller sends them. */
  datatype ListPassesRequest =
    | ListAllSponsorPasses(limit: int, offset: int, includeRevoked: bool)
    | ListActiveSponsorPasses(limit: int, offset: int)

  datatype User = User(firstName: string, username: string)

  /** What a failed call throws: an `Error` carrying a message, or any other value. */
  datatype Thrown = ErrorObject(message: string) | NonError

  /** The settled result of one awaited service call. */
  datatype Outcome<T> = Resolved(value: T) | Threw(error: Thrown)

  /** `err instanceof Error ? err.message : fallback` */
  function ErrorText(e: Thrown, fallback: string): string
  {
    match e
    case ErrorObject(message) => message
    case NonError => fallback
  }
}
