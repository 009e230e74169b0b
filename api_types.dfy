/** The records of types/api.types.ts that the services pass around. */
module ApiTypes {

  /** The part of a `User42` profile this model looks at: a profile is only carried, never changed. */
  datatype User = User(id: int, login: string, displayName: string)

  /** A response body of the resource server: one profile, or a list of them. */
  datatype Body = UserBody(user: User) | UserList(users: seq<User>)

  /** `ApiError`, as `createError` fills it: message, HTTP status (0 for none) and code. */
  datatype ApiError = ApiError(message: string, status: nat, code: string)
}
