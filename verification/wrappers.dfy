/** The optional value the identity provider's session lookup returns:
    `Some(session)` for a signed-in user, `None` for the `null` it yields otherwise. */
module Wrappers {

  datatype Option<+T> = None | Some(value: T)
}
