/**
 * The backing stores every operation reads and writes: the `users` and
 * `donations` collections of the document store, and the accounts of the
 * identity provider, all held in memory. A transaction of the original is
 * one method on this object.
 */
module Db {
  import opened Types

  class Backend {
    /** Documents of the `users` collection, by document id (the user's uid). */
    var users: map<string, UserDoc>
    /** Documents of the `donations` collection, in insertion order. */
    var donations: seq<DonationDoc>
    /** Accounts of the identity provider, by uid. */
    var accounts: map<string, Account>

    constructor (users0: map<string, UserDoc>, donations0: seq<DonationDoc>, accounts0: map<string, Account>)
      ensures users == users0 && donations == donations0 && accounts == accounts0
    {
      users := users0;
      donations := donations0;
      accounts := accounts0;
    }
  }
}
