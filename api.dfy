/** Values shared by every view: the abstract outcome of a server call and the signed-in user. */
module Api {

  datatype Option<+T> = None | Some(value: T)

  /** The outcome of one HTTP round trip. `Ok` carries the `response.data` part the view reads;
      `Err` stands for a thrown request (network failure or a non-2xx status) and carries
      `err.response.data.message` when the server sent one. */
  datatype Reply<+T> = Ok(payload: T) | Err(message: Option<string>)

  /** The `data` object that login and registration return and that the app keeps as `user`. */
  datatype UserData = UserData(token: string, username: string)
}
