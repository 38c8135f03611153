/** Option and Result values shared by every module of the model. A thrown
    JavaScript `Error`, a Rust `anyhow::Error` and a rejected promise all become
    `Err` carrying the error's message. */
module Wrappers {

  datatype Option<+T> = None | Some(value: T)

  datatype Result<+T> = Ok(value: T) | Err(msg: string)
}
