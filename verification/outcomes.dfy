/** What the foreign collaborators shared by several actions can answer.
    The core receives these answers as parameters instead of calling out. */
module Outcomes {
  import opened Wrappers
  import opened Db

  /** What the session lookup `validateRequest()` produced: it threw, found
      no signed-in user, or found the user with the given id. */
  datatype Auth = AuthThrows | Anonymous | SignedIn(userId: UserId)

  /** What the object store's `uploadFiles` produced: it threw, or it
      answered with an optional file URL (absent when `data` is null) and a
      flag telling whether the answer carries an `error`. */
  datatype Upload = UploadThrows | Uploaded(url: Option<string>, error: bool)
}
