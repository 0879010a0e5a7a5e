/**
 * Every failure the adapter raises itself is a Python `ValueError`; the
 * constructor says which check raised it and carries the facts its message
 * reports.
 */
module Errors {

  datatype ValueError =
    | MissingEnvironmentVariables(names: seq<string>)        // credentials absent or empty, by name
    | UserNotFound(userId: string)                           // the directory has no such user
    | TeamIdRequired                                         // channel messages need a team id
    | NoWebhook(channelName: string, available: seq<string>) // no usable webhook url; names the configured ones
    | NoSharePointSites                                      // the site listing is empty
    | SiteHasNoId                                            // the first listed site lacks an id
    | NoUsersToSendFrom                                      // no user to send mail from
}
