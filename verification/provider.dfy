/** The surface of the identity provider that the route guards call.
    Both calls are external; the model records only that, and in which
    order, they were made. What they return is passed in as a value. */
module Provider {

  datatype Call =
    | ProviderMiddleware  // the provider's own request hook (`auth0.middleware`)
    | GetSession          // the session lookup (`getSession`)
}
