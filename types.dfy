/** Values shared by every part of the messenger model. */
module Types {

  /** A value that may be absent (`undefined`/`null` in the client). */
  datatype Option<+T> = None | Some(value: T)

  /** The signed-in account as the authentication provider reports it.
      The provider may leave the profile fields unset (`null`). */
  datatype User = User(
    uid: string,
    displayName: Option<string>,
    photoURL: Option<string>,
    email: Option<string>)
}
