/** The outcome of the first handshake step (src/client/types.rs). */
module Types {

  datatype LoginResult =
    | GotToken(loginToken: string)
    | NeedCode(message: string)
}
