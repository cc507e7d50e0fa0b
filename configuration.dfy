/**
 * The run's configuration, read once from the environment at start-up and
 * never changed afterwards, together with the e-mail to user-id mapping
 * loaded from `users.json`.
 */
module Configuration {

  /** One entry of `users.json`: an e-mail address and the destination user id it maps to. */
  datatype UserMapping = UserMapping(email: string, users_id: int)

  datatype Config = Config(
    oldBaseUrl: string,          // OLD_BASE_URL: root of the source API
    newBaseUrl: string,          // NEW_BASE_URL: root of the destination API
    batchSize: int,              // BATCH_SIZE: page size, and also the page-count bound
    defaultUserId: int,          // NEW_GLPI_DEFAULT_USER_ID
    defaultUserEmail: string,    // NEW_GLPI_DEFAULT_USER_EMAIL
    usersMapping: seq<UserMapping>)
}
